/** The biosample scheme of `byBiosampleType.py`: one super track per
    biosample type, one composite per biosample under it. The groups come
    ready-made from the metadata service's listing; the global data only
    supplies a lookup from experiment ids to their cell type, which decides
    which experiments are shown expanded and which ccRE files they get. */
module ByBiosampleType {
  import opened Common
  import opened Encode
  import opened Tracks
  import opened Hub
  import FileStore

  /** A row of the listing: the biosample type, the biosample and the
      experiment ids of its first record. */
  datatype InputRow = InputRow(biosampleType: string, biosampleTermName: string, expIDs: seq<string>)

  /** A lookup record: the cell type's name and description, the global-data
      entry and the cell type's ccRE files. */
  type Lookup = LookupRecord<CellTypeExp>

  // ---------------------------------------------------------------------
  // `_lookup`
  // ---------------------------------------------------------------------

  /** The record an entry gets. The ccRE files are looked up by the entry's
      own cell-type name. */
  function Record(gd: GlobalData, x: CellTypeExp): Lookup {
    LookupRecord(x.cellTypeName, x.cellTypeDesc, x, CreBigBeds(gd, x.cellTypeName))
  }

  /** The inner loop of `_lookup`: every entry of a cell type recorded under
      its experiment id, a later entry replacing an earlier one. */
  function LookupRow(m: map<string, Lookup>, gd: GlobalData, infos: seq<CellTypeExp>): map<string, Lookup>
    decreases |infos|
  {
    if infos == [] then m
    else
      var x := infos[|infos| - 1];
      LookupRow(m, gd, infos[..|infos| - 1])[x.expID := Record(gd, x)]
  }

  /** `_lookup` over the cell types `ctns`. */
  function LookupFrom(gd: GlobalData, ctns: seq<string>): map<string, Lookup>
    decreases |ctns|
  {
    if ctns == [] then map[] else LookupRow(LookupFrom(gd, ctns[..|ctns| - 1]), gd, InfosOf(gd, ctns[|ctns| - 1]))
  }

  /** `_lookup`, the cell types in the interpreter's order. */
  function LookupOf(order: KeyOrder, gd: GlobalData): map<string, Lookup> {
    LookupFrom(gd, order(gd.byCellType.Keys))
  }

  /** No later entry of the list has the same id. */
  ghost predicate LastIn(infos: seq<CellTypeExp>, i: int)
    requires 0 <= i < |infos|
  {
    forall k :: i < k < |infos| ==> infos[k].expID != infos[i].expID
  }

  /** One cell type's entries add their ids and nothing else. */
  lemma {:induction false} LookupRowKeys(m: map<string, Lookup>, gd: GlobalData, infos: seq<CellTypeExp>)
    ensures LookupRow(m, gd, infos).Keys == m.Keys + Ids(infos)
    decreases |infos|
  {
    if infos != [] {
      var init := infos[..|infos| - 1];
      var x := infos[|infos| - 1];
      LookupRowKeys(m, gd, init);
      assert infos == init + [x];
      assert Ids(infos) == Ids(init) + {x.expID};
    }
  }

  /** An id the entries do not have keeps its record. */
  lemma {:induction false} LookupRowKeeps(m: map<string, Lookup>, gd: GlobalData, infos: seq<CellTypeExp>, id: string)
    requires id in m && forall k :: 0 <= k < |infos| ==> infos[k].expID != id
    ensures id in LookupRow(m, gd, infos) && LookupRow(m, gd, infos)[id] == m[id]
    decreases |infos|
  {
    if infos != [] {
      LookupRowKeeps(m, gd, infos[..|infos| - 1], id);
    }
  }

  /** An entry no later entry replaces is the one recorded. */
  lemma {:induction false} LookupRowLast(m: map<string, Lookup>, gd: GlobalData, infos: seq<CellTypeExp>, i: nat)
    requires i < |infos| && LastIn(infos, i)
    ensures infos[i].expID in LookupRow(m, gd, infos) && LookupRow(m, gd, infos)[infos[i].expID] == Record(gd, infos[i])
    decreases |infos|
  {
    var init := infos[..|infos| - 1];
    if i < |init| {
      assert init[i] == infos[i];
      assert LastIn(init, i);
      LookupRowLast(m, gd, init, i);
    }
  }

  /** `_lookup` has a record for exactly the experiment ids of the global
      data's cell types. */
  lemma {:induction false} LookupKeys(gd: GlobalData, ctns: seq<string>)
    ensures LookupFrom(gd, ctns).Keys == SeenIds(gd, ctns)
    decreases |ctns|
  {
    if ctns != [] {
      LookupKeys(gd, ctns[..|ctns| - 1]);
      LookupRowKeys(LookupFrom(gd, ctns[..|ctns| - 1]), gd, InfosOf(gd, ctns[|ctns| - 1]));
    }
  }

  /** The record of an id is made from its last entry in iteration order:
      an entry of the `i`-th cell type that no later entry of that type and
      no entry of a later type replaces. */
  lemma {:induction false} LookupLast(gd: GlobalData, ctns: seq<string>, i: nat, p: nat)
    requires i < |ctns| && p < |InfosOf(gd, ctns[i])| && LastIn(InfosOf(gd, ctns[i]), p)
    requires forall c :: i < c < |ctns| ==> InfosOf(gd, ctns[i])[p].expID !in Ids(InfosOf(gd, ctns[c]))
    ensures var x := InfosOf(gd, ctns[i])[p];
      x.expID in LookupFrom(gd, ctns) && LookupFrom(gd, ctns)[x.expID] == Record(gd, x)
    decreases |ctns|
  {
    var x := InfosOf(gd, ctns[i])[p];
    var init := ctns[..|ctns| - 1];
    var last := InfosOf(gd, ctns[|ctns| - 1]);
    if i == |ctns| - 1 {
      LookupRowLast(LookupFrom(gd, init), gd, last, p);
    } else {
      assert init[i] == ctns[i];
      forall c | i < c < |init| ensures x.expID !in Ids(InfosOf(gd, init[c])) {
        assert init[c] == ctns[c];
      }
      LookupLast(gd, init, i, p);
      assert x.expID !in Ids(last);
      forall k | 0 <= k < |last| ensures last[k].expID != x.expID {
        assert last[k] in last;
      }
      LookupRowKeeps(LookupFrom(gd, init), gd, last, x.expID);
    }
  }

  // ---------------------------------------------------------------------
  // `run`: the groups
  // ---------------------------------------------------------------------

  /** A group: one biosample of one biosample type, with its experiment ids. */
  datatype Group = Group(biosampleType: string, bt: string, biosampleTermName: string, btn: string,
                         fnp: string, expIDs: seq<string>)

  /** The group of a row: the file is
      `<tmp>/<assembly>/subtracks/<bt>/<btn>.txt`. */
  function GroupOf(h: Helpers, tmpDir: string, assembly: string, r: InputRow): Group {
    var bt := h.sanitize(r.biosampleType);
    var btn := h.sanitize(r.biosampleTermName);
    Group(r.biosampleType, bt, r.biosampleTermName, btn, PathJoin(tmpDir, [assembly, "subtracks", bt, btn + ".txt"]), r.expIDs)
  }

  /** The loop of `run`: each row's group put under its type and biosample,
      and the raw type recorded under the sanitized one. */
  function RegisterRows(reg: Registry<Group>, h: Helpers, tmpDir: string, assembly: string, rows: seq<InputRow>): Registry<Group>
    decreases |rows|
  {
    if rows == [] then reg
    else
      var prev := RegisterRows(reg, h, tmpDir, assembly, rows[..|rows| - 1]);
      var g := GroupOf(h, tmpDir, assembly, rows[|rows| - 1]);
      Registry(Put(prev.table, g.bt, g.btn, g), prev.names[g.bt := g.biosampleType])
  }

  /** The sanitized types of some rows. */
  function TypeKeys(h: Helpers, rows: seq<InputRow>): set<string>
    decreases |rows|
  {
    if rows == [] then {} else TypeKeys(h, rows[..|rows| - 1]) + {h.sanitize(rows[|rows| - 1].biosampleType)}
  }

  /** After the loop the types of the table are those of the rows plus
      those already there. */
  lemma {:induction false} RegisterRowsTypes(reg: Registry<Group>, h: Helpers, tmpDir: string, assembly: string, rows: seq<InputRow>)
    ensures RegisterRows(reg, h, tmpDir, assembly, rows).table.Keys == reg.table.Keys + TypeKeys(h, rows)
    decreases |rows|
  {
    if rows != [] {
      var init := rows[..|rows| - 1];
      RegisterRowsTypes(reg, h, tmpDir, assembly, init);
    }
  }

  /** The same for the raw names: every type of the rows gets one. */
  lemma {:induction false} RegisterRowsNames(reg: Registry<Group>, h: Helpers, tmpDir: string, assembly: string, rows: seq<InputRow>)
    ensures RegisterRows(reg, h, tmpDir, assembly, rows).names.Keys == reg.names.Keys + TypeKeys(h, rows)
    decreases |rows|
  {
    if rows != [] {
      var init := rows[..|rows| - 1];
      RegisterRowsNames(reg, h, tmpDir, assembly, init);
    }
  }

  /** Each row's biosample has a group under its type, and nothing already
      registered disappears. */
  lemma {:induction false} RegisterRowsHas(reg: Registry<Group>, h: Helpers, tmpDir: string, assembly: string, rows: seq<InputRow>, i: nat)
    requires i < |rows|
    ensures var r := RegisterRows(reg, h, tmpDir, assembly, rows);
      h.sanitize(rows[i].biosampleType) in r.table && h.sanitize(rows[i].biosampleTermName) in r.table[h.sanitize(rows[i].biosampleType)]
    decreases |rows|
  {
    if i < |rows| - 1 {
      var init := rows[..|rows| - 1];
      assert init[i] == rows[i];
      RegisterRowsHas(reg, h, tmpDir, assembly, init, i);
    }
  }

  /** Two rows meet under the same type and biosample. */
  predicate SameSlot(h: Helpers, a: InputRow, b: InputRow) {
    h.sanitize(a.biosampleType) == h.sanitize(b.biosampleType) && h.sanitize(a.biosampleTermName) == h.sanitize(b.biosampleTermName)
  }

  /** A row no later row shares its type and biosample with has its group
      recorded. */
  lemma {:induction false} RegisterRowsLast(reg: Registry<Group>, h: Helpers, tmpDir: string, assembly: string, rows: seq<InputRow>, i: nat)
    requires i < |rows| && forall k :: i < k < |rows| ==> !SameSlot(h, rows[k], rows[i])
    ensures var r := RegisterRows(reg, h, tmpDir, assembly, rows);
      var g := GroupOf(h, tmpDir, assembly, rows[i]);
      g.bt in r.table && g.btn in r.table[g.bt] && r.table[g.bt][g.btn] == g
    decreases |rows|
  {
    if i < |rows| - 1 {
      var init := rows[..|rows| - 1];
      assert init[i] == rows[i];
      assert forall k :: i < k < |init| ==> init[k] == rows[k];
      RegisterRowsLast(reg, h, tmpDir, assembly, init, i);
    }
  }

  /** A row no later row shares its type with has its raw type recorded. */
  lemma {:induction false} RegisterRowsLastName(reg: Registry<Group>, h: Helpers, tmpDir: string, assembly: string, rows: seq<InputRow>, i: nat)
    requires i < |rows| && forall k :: i < k < |rows| ==> h.sanitize(rows[k].biosampleType) != h.sanitize(rows[i].biosampleType)
    ensures var r := RegisterRows(reg, h, tmpDir, assembly, rows);
      h.sanitize(rows[i].biosampleType) in r.names && r.names[h.sanitize(rows[i].biosampleType)] == rows[i].biosampleType
    decreases |rows|
  {
    if i < |rows| - 1 {
      var init := rows[..|rows| - 1];
      assert init[i] == rows[i];
      assert forall k :: i < k < |init| ==> init[k] == rows[k];
      RegisterRowsLastName(reg, h, tmpDir, assembly, init, i);
    }
  }

  // ---------------------------------------------------------------------
  // The jobs
  // ---------------------------------------------------------------------

  /** Some experiment of the group has a lookup record that is active. */
  function AnyActive(lookup: map<string, Lookup>, active: Lookup -> bool, expIDs: seq<string>): (r: bool)
    ensures r <==> exists i :: 0 <= i < |expIDs| && expIDs[i] in lookup && active(lookup[expIDs[i]])
    decreases |expIDs|
  {
    if expIDs == [] then false
    else
      var id := expIDs[|expIDs| - 1];
      assert forall i :: 0 <= i < |expIDs| - 1 ==> expIDs[..|expIDs| - 1][i] == expIDs[i];
      AnyActive(lookup, active, expIDs[..|expIDs| - 1]) || (id in lookup && active(lookup[id]))
  }

  /** The `actives` loop: the answer of each experiment that has a record,
      then whether any is true. */
  method Actives(lookup: map<string, Lookup>, active: Lookup -> bool, expIDs: seq<string>) returns (isActive: bool)
    ensures isActive == AnyActive(lookup, active, expIDs)
  {
    var actives: seq<bool> := [];
    for i := 0 to |expIDs|
      invariant (true in actives) == AnyActive(lookup, active, expIDs[..i])
    {
      assert expIDs[..i + 1][..i] == expIDs[..i];
      var expID := expIDs[i];
      if expID in lookup {
        actives := actives + [active(lookup[expID])];
      }
    }
    assert expIDs[..|expIDs|] == expIDs;
    isActive := true in actives;
  }

  /** How `outputSubTrack` adds an experiment: with its record's answer and
      ccRE files when it has a record, hidden and without files otherwise. */
  function ExpAdd(lookup: map<string, Lookup>, active: Lookup -> bool): Exp -> Add {
    (e: Exp) => if e.encodeID in lookup then (e, active(lookup[e.encodeID]), lookup[e.encodeID].cREs) else (e, false, map[])
  }

  /** The axes: label and assay for cell lines, donor and age otherwise;
      view third. */
  function AxesFor(bt: string): Axes {
    if "cell_line" == bt then Axes(Label, AssayFacet, ViewFacet) else Axes(Donor, Age, ViewFacet)
  }

  /** `outputCompositeTrackByBiosampleType`'s header. */
  function Header(h: Helpers, g: Group, isActive: bool, subs: Subs): Result<CompositeHeader> {
    match AxisValues(h, subs, AxesFor(g.bt))
    case Err(m) => Err(m)
    case Ok(v) =>
      Ok(CompositeHeader(g.bt + "_" + g.btn, g.bt, false, isActive,
                         h.makeShortLabel([g.biosampleTermName]), h.makeLongLabel(Experiments(g.biosampleTermName, |g.expIDs|)),
                         false, AxesFor(g.bt), v))
  }

  /** The header exists exactly when its three axes are subgroup keys. The
      composite is then the parent its job's tracks name, shown exactly
      when they start shown, split along the type's axes, and placed under
      the super track of its type. */
  lemma HeaderProps(h: Helpers, lookup: map<string, Lookup>, active: Lookup -> bool, expsOf: seq<string> -> seq<Exp>,
                    reg: Registry<Group>, j: Job<Group>, subs: Subs)
    ensures var p := Plan(h, lookup, active, expsOf, j);
      var r := p.header(subs);
      var ax := AxesFor(j.info.bt);
      && (r.Ok? <==> ax.k1 in h.subGroupKeys && ax.k2 in h.subGroupKeys && ViewFacet in h.subGroupKeys)
      && (r.Ok? ==>
            && r.value.track == p.parent.parent && r.value.active == p.parent.on
            && r.value.axes == ax
            && (Head(h, reg, j.info.bt).Ok? ==> r.value.parent == Head(h, reg, j.info.bt).value.name))
  {
  }

  /** The axes are (label, assay, view) for cell lines and (donor, age,
      view) for every other type. */
  lemma AxesForProps(bt: string)
    ensures AxesFor(bt).k3 == ViewFacet
    ensures AxesFor(bt) == Axes(Label, AssayFacet, ViewFacet) <==> bt == "cell_line"
    ensures AxesFor(bt) == Axes(Donor, Age, ViewFacet) <==> bt != "cell_line"
  {
  }

  /** A job: the experiments the service returns for the group's ids, under
      the parent `<bt>_<btn>`, shown when any experiment is active; their
      priorities start at `(1 + idx) * 1000`. */
  function Plan(h: Helpers, lookup: map<string, Lookup>, active: Lookup -> bool, expsOf: seq<string> -> seq<Exp>, j: Job<Group>): GroupPlan {
    var g := j.info;
    var isActive := AnyActive(lookup, active, g.expIDs);
    GroupPlan(Parent(g.bt + "_" + g.btn, isActive), (1 + j.idx) * 1000, g.fnp, MapSeq(ExpAdd(lookup, active), expsOf(g.expIDs)),
              (subs: Subs) => Header(h, g, isActive, subs))
  }

  /** The composite of a job is shown (`visibility full`), and its tracks
      start shown, exactly when one of its experiment ids has an active
      lookup record. */
  lemma PlanActive(h: Helpers, lookup: map<string, Lookup>, active: Lookup -> bool, expsOf: seq<string> -> seq<Exp>,
                   j: Job<Group>, subs: Subs)
    ensures var p := Plan(h, lookup, active, expsOf, j);
      var any := exists i :: 0 <= i < |j.info.expIDs| && j.info.expIDs[i] in lookup && active(lookup[j.info.expIDs[i]]);
      && (p.parent.on <==> any)
      && (p.header(subs).Ok? ==> (("visibility", "full") in CompositeSettings(p.header(subs).value) <==> any))
  {
  }

  /** With the lookup of `LookupActive`, no composite of the scheme is ever
      shown and every track starts hidden. */
  lemma PlanNeverActive(h: Helpers, lookup: map<string, Lookup>, expsOf: seq<string> -> seq<Exp>, j: Job<Group>)
    ensures var p := Plan(h, lookup, IsActive, expsOf, j);
      !p.parent.on && forall k :: 0 <= k < |p.adds| ==> !p.adds[k].1
  {
    var ids := j.info.expIDs;
    forall i | 0 <= i < |ids| && ids[i] in lookup ensures !IsActive(lookup[ids[i]]) {
      assert !IsActive(lookup[ids[i]]);
    }
    var exps := expsOf(ids);
    forall k | 0 <= k < |exps| ensures !ExpAdd(lookup, IsActive)(exps[k]).1 {
      if exps[k].encodeID in lookup {
        assert !IsActive(lookup[exps[k].encodeID]);
      }
    }
  }

  function JobStep(h: Helpers, assembly: string, lookup: map<string, Lookup>, active: Lookup -> bool, expsOf: seq<string> -> seq<Exp>)
    : (map<string, string>, Job<Group>) -> Result<map<string, string>>
  {
    (files: map<string, string>, j: Job<Group>) => Hub.PlanStep(h, assembly)(files, Plan(h, lookup, active, expsOf, j))
  }

  /** `outputAllTracksByBiosampleType`: the `actives` loop, then the
      subtracks and the header in front of them. */
  method OutputGroup(fs: FileStore.Files, h: Helpers, assembly: string, lookup: map<string, Lookup>, active: Lookup -> bool,
                     expsOf: seq<string> -> seq<Exp>, j: Job<Group>) returns (r: Result<()>)
    modifies fs
    ensures var want := JobStep(h, assembly, lookup, active, expsOf)(old(fs.contents), j);
      && (want.Ok? ==> r.Ok? && fs.contents == want.value)
      && (want.Err? ==> r == Err(want.msg))
  {
    var g := j.info;
    var isActive := Actives(lookup, active, g.expIDs);
    var plan := GroupPlan(Parent(g.bt + "_" + g.btn, isActive), (1 + j.idx) * 1000, g.fnp,
                          MapSeq(ExpAdd(lookup, active), expsOf(g.expIDs)), (subs: Subs) => Header(h, g, isActive, subs));
    assert plan == Plan(h, lookup, active, expsOf, j);
    r := Hub.OutputGroup(fs, h, assembly, plan);
  }

  /** The jobs run one after the other; the first error ends the run. */
  method RunJobs(fs: FileStore.Files, h: Helpers, assembly: string, lookup: map<string, Lookup>, active: Lookup -> bool,
                 expsOf: seq<string> -> seq<Exp>, jobs: seq<Job<Group>>) returns (r: Result<()>)
    modifies fs
    ensures var want := Fold(JobStep(h, assembly, lookup, active, expsOf), old(fs.contents), jobs);
      && (want.Ok? ==> r.Ok? && fs.contents == want.value)
      && (want.Err? ==> r == Err(want.msg))
  {
    ghost var step := JobStep(h, assembly, lookup, active, expsOf);
    ghost var s0 := fs.contents;
    for i := 0 to |jobs|
      invariant Fold(step, s0, jobs[..i]) == Ok(fs.contents)
    {
      FoldSnoc(step, s0, jobs, i);
      var done := OutputGroup(fs, h, assembly, lookup, active, expsOf, jobs[i]);
      if done.Err? {
        FoldSticky(step, s0, jobs, i + 1);
        return Err(done.msg);
      }
    }
    assert jobs[..|jobs|] == jobs;
    r := Ok(());
  }

  // ---------------------------------------------------------------------
  // The main trackDb text
  // ---------------------------------------------------------------------

  /** The experiment ids of some groups. */
  function IdCount(gs: seq<Group>): nat
    decreases |gs|
  {
    if gs == [] then 0 else IdCount(gs[..|gs| - 1]) + |gs[|gs| - 1].expIDs|
  }

  function Row(t: Table<Group>, bt: string): map<string, Group> {
    if bt in t then t[bt] else map[]
  }

  /** The super track of a type: shown, labelled with the raw type and
      counting the experiment ids of all its groups. */
  function Head(h: Helpers, reg: Registry<Group>, bt: string): Result<SuperTrack> {
    if bt !in reg.names then Err("KeyError: " + bt)
    else
      var row := Row(reg.table, bt);
      var n := IdCount(RowFrom(row, h.keyOrder(row.Keys)));
      Ok(SuperTrack(bt, true, 0, h.makeShortLabel([reg.names[bt]]), h.makeLongLabel(Experiments(reg.names[bt], n)), false))
  }

  function HeadOf(h: Helpers, reg: Registry<Group>): string -> Result<SuperTrack> {
    bt => Head(h, reg, bt)
  }

  /** Once every type of the table has a raw name, the headers are made,
      one per type in iteration order, numbered 11, 12, 13, ... */
  lemma HeadsOk(h: Helpers, reg: Registry<Group>)
    requires reg.table.Keys <= reg.names.Keys
    ensures var outer := h.keyOrder(reg.table.Keys);
      var r := Supers(HeadOf(h, reg), outer, 10);
      && r.Ok? && |r.value| == |outer|
      && forall i :: 0 <= i < |outer| ==> r.value[i].priority == i + 11 && r.value[i].name == outer[i]
  {
    var outer := h.keyOrder(reg.table.Keys);
    SupersProps(HeadOf(h, reg), outer, 10);
    assert forall i :: 0 <= i < |outer| ==> outer[i] in reg.table.Keys;
  }

  /** A generator runs once, from an empty table: every type the listing
      brings gets its header, numbered 11, 12, 13, ... in iteration order. */
  lemma FreshRunHeads(h: Helpers, tmpDir: string, assembly: string, rows: seq<InputRow>)
    ensures var reg := RegisterRows(Registry(map[], map[]), h, tmpDir, assembly, rows);
      var outer := h.keyOrder(reg.table.Keys);
      var r := Supers(HeadOf(h, reg), outer, 10);
      && reg.table.Keys == TypeKeys(h, rows)
      && r.Ok? && |r.value| == |outer|
      && forall i :: 0 <= i < |outer| ==> r.value[i].priority == i + 11 && r.value[i].name == outer[i]
  {
    var reg := RegisterRows(Registry(map[], map[]), h, tmpDir, assembly, rows);
    RegisterRowsTypes(Registry(map[], map[]), h, tmpDir, assembly, rows);
    RegisterRowsNames(Registry(map[], map[]), h, tmpDir, assembly, rows);
    HeadsOk(h, reg);
  }

  function FnpOf(g: Group): string {
    g.fnp
  }

  /** `_makeMainTrackDb`: the headers numbered from 11, then every group file
      in iteration order. */
  function MainTrackDbText(h: Helpers, reg: Registry<Group>, files: map<string, string>): Result<string> {
    match Supers(HeadOf(h, reg), h.keyOrder(reg.table.Keys), 10)
    case Err(m) => Err(m)
    case Ok(hs) => MainText(hs, files, MapSeq(FnpOf, Walk(h.keyOrder, reg.table)))
  }

  /** The generator object. The listing of the metadata service is fetched
      when it is made. */
  class Generator {
    const h: Helpers
    const assembly: string
    const tmpDir: string
    const fs: FileStore.Files
    const globalData: GlobalData
    const inputData: seq<InputRow>
    var reg: Registry<Group>
    var lookupByExp: map<string, Lookup>

    constructor(h: Helpers, assembly: string, tmpDir: string, fs: FileStore.Files, globalData: GlobalData, inputData: seq<InputRow>)
      ensures this.h == h && this.assembly == assembly && this.tmpDir == tmpDir
      ensures this.fs == fs && this.globalData == globalData && this.inputData == inputData
      ensures reg == Registry(map[], map[]) && lookupByExp == map[]
    {
      this.h := h;
      this.assembly := assembly;
      this.tmpDir := tmpDir;
      this.fs := fs;
      this.globalData := globalData;
      this.inputData := inputData;
      reg := Registry(map[], map[]);
      lookupByExp := map[];
    }

    /** The inner loop of `_lookup`. */
    method LookupCellType(infos: seq<CellTypeExp>)
      modifies `lookupByExp
      ensures lookupByExp == LookupRow(old(lookupByExp), globalData, infos)
    {
      for j := 0 to |infos|
        invariant lookupByExp == LookupRow(old(lookupByExp), globalData, infos[..j])
      {
        assert infos[..j + 1][..j] == infos[..j];
        var info := infos[j];
        lookupByExp := lookupByExp[info.expID := Record(globalData, info)];
      }
      assert infos[..|infos|] == infos;
    }

    /** `_lookup`: a record for every experiment id of the global data. */
    method BuildLookup()
      modifies `lookupByExp
      ensures lookupByExp == LookupOf(h.keyOrder, globalData)
    {
      lookupByExp := map[];
      var ctns := h.keyOrder(globalData.byCellType.Keys);
      for i := 0 to |ctns|
        invariant lookupByExp == LookupFrom(globalData, ctns[..i])
      {
        assert ctns[..i + 1][..i] == ctns[..i];
        LookupCellType(InfosOf(globalData, ctns[i]));
      }
      assert ctns[..|ctns|] == ctns;
    }

    /** The loop of `run` over the listing, after the raw names are reset. */
    method RegisterInput()
      modifies `reg
      ensures reg == RegisterRows(Registry(old(reg).table, map[]), h, tmpDir, assembly, inputData)
    {
      reg := Registry(reg.table, map[]);
      ghost var r0 := reg;
      for i := 0 to |inputData|
        invariant reg == RegisterRows(r0, h, tmpDir, assembly, inputData[..i])
      {
        assert inputData[..i + 1][..i] == inputData[..i];
        var g := GroupOf(h, tmpDir, assembly, inputData[i]);
        reg := Registry(Put(reg.table, g.bt, g.btn, g), reg.names[g.bt := g.biosampleType]);
      }
      assert inputData[..|inputData|] == inputData;
    }

    /** `_makeSubTracks`: one job per group, numbered, the listing's length
        as the total, run in turn. */
    method MakeSubTracks(active: Lookup -> bool, expsOf: seq<string> -> seq<Exp>) returns (r: Result<()>)
      modifies fs
      ensures var want := Fold(JobStep(h, assembly, lookupByExp, active, expsOf), old(fs.contents),
                               JobList(Walk(h.keyOrder, reg.table), |inputData|));
        && (want.Ok? ==> r.Ok? && fs.contents == want.value)
        && (want.Err? ==> r == Err(want.msg))
    {
      var jobs := MakeJobs(h.keyOrder, reg.table, |inputData|);
      r := RunJobs(fs, h, assembly, lookupByExp, active, expsOf, jobs);
    }

    /** `_makeMainTrackDb`: one header per type with a local priority
        counting from 11, then the group files. */
    method MakeMainTrackDb() returns (r: Result<string>)
      ensures r == MainTrackDbText(h, reg, fs.contents)
    {
      var headers := SupersFrom(10, HeadOf(h, reg), h.keyOrder(reg.table.Keys));
      r := MainTrackDb(fs, headers, MapSeq(FnpOf, Walk(h.keyOrder, reg.table)));
    }

    /** `run`: the lookup, the groups of the listing, their jobs, then the
        main trackDb text. Which lookup records are active, and the
        experiments the service returns for some ids, are given. */
    method Run(active: Lookup -> bool, expsOf: seq<string> -> seq<Exp>) returns (r: Result<string>)
      modifies this, fs
      ensures lookupByExp == LookupOf(h.keyOrder, globalData)
      ensures reg == RegisterRows(Registry(old(reg).table, map[]), h, tmpDir, assembly, inputData)
      ensures var want := Fold(JobStep(h, assembly, lookupByExp, active, expsOf), old(fs.contents),
                               JobList(Walk(h.keyOrder, reg.table), |inputData|));
        && (want.Err? ==> r == Err(want.msg))
        && (want.Ok? ==> fs.contents == want.value && r == MainTrackDbText(h, reg, fs.contents))
    {
      BuildLookup();
      RegisterInput();
      var done := MakeSubTracks(active, expsOf);
      if done.Err? {
        return Err(done.msg);
      }
      r := MakeMainTrackDb();
    }
  }
}

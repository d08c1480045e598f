/** The by-assay scheme of `byAssay.py`: for each of three assays, the
    experiments grouped by biosample type, one composite per type under a
    super track of that type. The dictionary of groups is keyed by the
    biosample type alone and is kept from one assay to the next, while the
    dictionary of raw type names is made afresh by each assay's `_build`. */
module ByAssay {
  import opened Common
  import opened Encode
  import opened Tracks
  import opened Hub
  import FileStore

  /** The assays `run` walks: title and abbreviation. The experiments of
      each come from the metadata service. */
  const Assays: seq<(string, string)> := [
    ("Chromatin Accessibility", "chromatin_accessibility"),
    ("Transcription Factors", "transcription_factors"),
    ("Histone Modifications", "histone_modifications")]

  /** A group of `_build`: the experiments of one biosample type. */
  datatype Group = Group(biosampleType: string, bt: string, fnp: string, exps: seq<Exp>)

  /** The sort and group key. */
  function TypeOf(e: Exp): string {
    e.biosampleType
  }

  /** The group file: `<tmp>/<assembly>/subtracks/<assayAbbr>/<bt>.txt`. */
  function GroupPath(tmpDir: string, assembly: string, assayAbbr: string, bt: string): string {
    PathJoin(tmpDir, [assembly, "subtracks", assayAbbr, bt + ".txt"])
  }

  function GroupMaker(tmpDir: string, assembly: string, assayAbbr: string): (string, string, seq<Exp>) -> Group {
    (name: string, key: string, exps: seq<Exp>) => Group(name, key, GroupPath(tmpDir, assembly, assayAbbr, key), exps)
  }

  /** The groups `_build` records for one assay: the experiments sorted by
      biosample type and grouped. */
  function BuildEntries(h: Helpers, tmpDir: string, assembly: string, assayAbbr: string, exps: seq<Exp>): seq<Entry<Group>> {
    GroupEntries(h.sanitize, TypeOf, GroupMaker(tmpDir, assembly, assayAbbr), exps)
  }

  // ---------------------------------------------------------------------
  // Recording the groups
  // ---------------------------------------------------------------------

  /** The two dictionaries: groups by sanitized type, and the raw type of
      each sanitized one. */
  datatype State = State(table: map<string, Group>, btToNormal: map<string, string>)

  /** The loop of `_build`: each entry's group recorded under its key, and
      its raw name too; a later entry replaces an earlier one. */
  function RecordEntries(st: State, es: seq<Entry<Group>>): State
    decreases |es|
  {
    if es == [] then st
    else
      var prev := RecordEntries(st, es[..|es| - 1]);
      var e := es[|es| - 1];
      State(prev.table[e.key := e.info], prev.btToNormal[e.key := e.name])
  }

  /** `_build`'s records: the raw names start empty, the groups are kept. */
  function BuildState(table: map<string, Group>, es: seq<Entry<Group>>): State {
    RecordEntries(State(table, map[]), es)
  }

  /** Recording adds the entries' keys to both dictionaries and nothing else. */
  lemma {:induction false} RecordKeys(st: State, es: seq<Entry<Group>>)
    ensures var r := RecordEntries(st, es);
      r.table.Keys == st.table.Keys + EntryKeys(es) && r.btToNormal.Keys == st.btToNormal.Keys + EntryKeys(es)
    decreases |es|
  {
    if es != [] {
      var init, e := es[..|es| - 1], es[|es| - 1];
      RecordKeys(st, init);
      assert EntryKeys(es) == EntryKeys(init) + {e.key} by {
        assert es == init + [e];
      }
    }
  }

  /** A key holds the group and the name of the last entry with that key. */
  lemma {:induction false} RecordLast(st: State, es: seq<Entry<Group>>, i: nat)
    requires LastWith(es, i)
    ensures var r := RecordEntries(st, es);
      && es[i].key in r.table && r.table[es[i].key] == es[i].info
      && es[i].key in r.btToNormal && r.btToNormal[es[i].key] == es[i].name
    decreases |es|
  {
    var init := es[..|es| - 1];
    if i < |init| {
      assert init[i] == es[i];
      assert LastWith(init, i);
      RecordLast(st, init, i);
    }
  }

  /** A group whose key no entry has is kept as it was. */
  lemma {:induction false} RecordKeeps(st: State, es: seq<Entry<Group>>, k: string)
    requires k in st.table && k !in EntryKeys(es)
    ensures var r := RecordEntries(st, es); k in r.table && r.table[k] == st.table[k]
    decreases |es|
  {
    if es != [] {
      var init := es[..|es| - 1];
      assert EntryKeys(init) <= EntryKeys(es) by {
        forall j | 0 <= j < |init| ensures init[j] == es[j] { }
      }
      RecordKeeps(st, init, k);
      assert es[|es| - 1].key in EntryKeys(es);
    }
  }

  /** The biosample types of an assay's experiments, sanitized. */
  function TypeKeys(h: Helpers, exps: seq<Exp>): set<string> {
    set e | e in exps :: h.sanitize(e.biosampleType)
  }

  /** After `_build`, the groups are those kept plus one per type of the
      assay, and the raw names are exactly the assay's types. */
  lemma BuildKeys(h: Helpers, tmpDir: string, assembly: string, table: map<string, Group>, assayAbbr: string, exps: seq<Exp>)
    ensures var r := BuildState(table, BuildEntries(h, tmpDir, assembly, assayAbbr, exps));
      r.table.Keys == table.Keys + TypeKeys(h, exps) && r.btToNormal.Keys == TypeKeys(h, exps)
  {
    GroupEntriesKeys(h.sanitize, TypeOf, GroupMaker(tmpDir, assembly, assayAbbr), exps);
    RecordKeys(State(table, map[]), BuildEntries(h, tmpDir, assembly, assayAbbr, exps));
  }

  /** After `_build`, each biosample type of the assay has its group under
      its sanitized key, holding exactly the experiments of that type in
      their input order, with its file under the assay's directory, and the
      raw type under the same key. Holds when no two types sanitize alike. */
  lemma BuildGroupsByType(h: Helpers, tmpDir: string, assembly: string, table: map<string, Group>, assayAbbr: string,
                          exps: seq<Exp>, e: Exp)
    requires SanitizeInjective(h.sanitize, TypeOf, exps) && e in exps
    ensures var r := BuildState(table, BuildEntries(h, tmpDir, assembly, assayAbbr, exps));
      var key := h.sanitize(e.biosampleType);
      && key in r.table && key in r.btToNormal
      && r.table[key] == Group(e.biosampleType, key, GroupPath(tmpDir, assembly, assayAbbr, key),
                               WithKey(exps, StrKey(TypeOf), [Str(e.biosampleType)]))
      && r.btToNormal[key] == e.biosampleType
  {
    var es := BuildEntries(h, tmpDir, assembly, assayAbbr, exps);
    GroupEntriesClasses(h.sanitize, TypeOf, GroupMaker(tmpDir, assembly, assayAbbr), exps, e);
    var i :| LastWith(es, i) && es[i].key == h.sanitize(e.biosampleType) && es[i].name == e.biosampleType
      && es[i].info == GroupMaker(tmpDir, assembly, assayAbbr)(e.biosampleType, h.sanitize(e.biosampleType),
                                                              WithKey(exps, StrKey(TypeOf), [Str(e.biosampleType)]));
    RecordLast(State(table, map[]), es, i);
  }

  /** A group an earlier assay left whose type this assay does not have is
      kept, file and experiments unchanged. */
  lemma BuildKeepsStale(h: Helpers, tmpDir: string, assembly: string, table: map<string, Group>, assayAbbr: string,
                        exps: seq<Exp>, bt: string)
    requires bt in table && bt !in TypeKeys(h, exps)
    ensures var r := BuildState(table, BuildEntries(h, tmpDir, assembly, assayAbbr, exps));
      bt in r.table && r.table[bt] == table[bt] && bt !in r.btToNormal
  {
    var es := BuildEntries(h, tmpDir, assembly, assayAbbr, exps);
    GroupEntriesKeys(h.sanitize, TypeOf, GroupMaker(tmpDir, assembly, assayAbbr), exps);
    RecordKeeps(State(table, map[]), es, bt);
    RecordKeys(State(table, map[]), es);
  }

  // ---------------------------------------------------------------------
  // The jobs
  // ---------------------------------------------------------------------

  /** The axes: label and assay for immortalized cell lines, donor and age
      otherwise; view third. */
  function AxesFor(bt: string): Axes {
    if "immortalized_cell_line" == bt then Axes(Label, AssayFacet, ViewFacet) else Axes(Donor, Age, ViewFacet)
  }

  /** `outputCompositeTrackByBiosampleType`'s header: the composite is named
      after the type, never shown (the activity list stays empty). */
  function Header(h: Helpers, g: Group, subs: Subs): Result<CompositeHeader> {
    match AxisValues(h, subs, AxesFor(g.bt))
    case Err(m) => Err(m)
    case Ok(v) =>
      Ok(CompositeHeader(g.bt, g.bt, false, false,
                         h.makeShortLabel([g.biosampleType]), h.makeLongLabel(Experiments(g.biosampleType, |g.exps|)),
                         false, AxesFor(g.bt), v))
  }

  /** The header exists exactly when its three axes are subgroup keys. The
      composite is then the parent its job's tracks name, never shown
      (`visibility full` is not written), like them, split along the
      type's axes, and placed under the super track of its type. */
  lemma HeaderProps(h: Helpers, st: State, j: Job<Group>, subs: Subs)
    ensures var p := Plan(h, j);
      var r := p.header(subs);
      var ax := AxesFor(j.info.bt);
      && (r.Ok? <==> ax.k1 in h.subGroupKeys && ax.k2 in h.subGroupKeys && ViewFacet in h.subGroupKeys)
      && (r.Ok? ==>
            && r.value.track == p.parent.parent && !r.value.active && !p.parent.on
            && ("visibility", "full") !in CompositeSettings(r.value) && r.value.axes == ax
            && (Head(h, st, j.info.bt).Ok? ==> r.value.parent == Head(h, st, j.info.bt).value.name))
  {
  }

  /** The axes are (label, assay, view) for immortalized cell lines and
      (donor, age, view) for every other type. */
  lemma AxesForProps(bt: string)
    ensures AxesFor(bt).k3 == ViewFacet
    ensures AxesFor(bt) == Axes(Label, AssayFacet, ViewFacet) <==> bt == "immortalized_cell_line"
    ensures AxesFor(bt) == Axes(Donor, Age, ViewFacet) <==> bt != "immortalized_cell_line"
  {
  }

  /** `addExp(exp, False, {})`: the lookup the scheme consults is never
      filled, so every experiment is added hidden and without ccRE files. */
  function HiddenAdd(e: Exp): Add {
    (e, false, map[])
  }

  /** A job: the group's experiments under the parent `<bt>`, inactive,
      their priorities starting at `(1 + idx) * 1000`. */
  function Plan(h: Helpers, j: Job<Group>): GroupPlan {
    GroupPlan(Parent(j.info.bt, false), (1 + j.idx) * 1000, j.info.fnp, MapSeq(HiddenAdd, j.info.exps),
              (subs: Subs) => Header(h, j.info, subs))
  }

  function Planner(h: Helpers): Job<Group> -> GroupPlan {
    (j: Job<Group>) => Plan(h, j)
  }

  /** The job list of `_makeSubTracks`: every group of the table in
      iteration order, numbered from 1, the table's size as the total. */
  function Jobs(order: KeyOrder, table: map<string, Group>): seq<Job<Group>> {
    JobList(RowFrom(table, order(table.Keys)), |table|)
  }

  /** Every group of the table, the stale ones too, gets one job; the i-th
      job's tracks start at priority `(i + 2) * 1000` and are hidden. */
  lemma PlanPriorities(h: Helpers, order: KeyOrder, table: map<string, Group>)
    ensures var plans := MapSeq(Planner(h), Jobs(order, table));
      && |plans| == |table|
      && forall i :: 0 <= i < |plans| ==>
           && plans[i].priorityStart == (i + 2) * 1000 && !plans[i].parent.on
           && forall k :: 0 <= k < |plans[i].adds| ==> !plans[i].adds[k].1
  {
    var keys := order(table.Keys);
    OrderLength(keys, table.Keys);
    RowFromAll(table, keys);
  }

  /** `RowFrom` over keys all present has one value per key. */
  lemma {:induction false} RowFromAll(table: map<string, Group>, keys: seq<string>)
    requires forall k :: k in keys ==> k in table
    ensures |RowFrom(table, keys)| == |keys|
    decreases |keys|
  {
    if keys != [] {
      RowFromAll(table, keys[..|keys| - 1]);
    }
  }

  /** `_makeSubTracks`'s files: every job run in turn. */
  function AssayFiles(h: Helpers, assembly: string, order: KeyOrder, table: map<string, Group>, files: map<string, string>)
    : Result<map<string, string>>
  {
    Fold(Hub.PlanStep(h, assembly), files, MapSeq(Planner(h), Jobs(order, table)))
  }

  // ---------------------------------------------------------------------
  // The main trackDb text
  // ---------------------------------------------------------------------

  /** The super track of a type: shown, labelled with the raw type of this
      assay and counting the group's experiments. A type the raw names do
      not have raises `KeyError`. */
  function Head(h: Helpers, st: State, bt: string): Result<SuperTrack> {
    if bt !in st.btToNormal then Err("KeyError: " + bt)
    else
      var n := if bt in st.table then |st.table[bt].exps| else 0;
      Ok(SuperTrack(bt, true, 0, h.makeShortLabel([st.btToNormal[bt]]), h.makeLongLabel(Experiments(st.btToNormal[bt], n)), false))
  }

  function HeadOf(h: Helpers, st: State): string -> Result<SuperTrack> {
    bt => Head(h, st, bt)
  }

  function FnpOf(g: Group): string {
    g.fnp
  }

  /** `_makeMainTrackDb`: the headers numbered from 11, then every group
      file in iteration order. */
  function MainTrackDbText(h: Helpers, st: State, files: map<string, string>): Result<string> {
    var keys := h.keyOrder(st.table.Keys);
    match Supers(HeadOf(h, st), keys, 10)
    case Err(m) => Err(m)
    case Ok(hs) => MainText(hs, files, MapSeq(FnpOf, RowFrom(st.table, keys)))
  }

  /** The headers of `_makeMainTrackDb` are made exactly when every group
      of the table has a raw name; they are then one per group, numbered
      11, 12, 13, ... in iteration order. */
  lemma HeadsOk(h: Helpers, st: State)
    ensures var outer := h.keyOrder(st.table.Keys);
      var r := Supers(HeadOf(h, st), outer, 10);
      && (r.Ok? <==> st.table.Keys <= st.btToNormal.Keys)
      && (r.Ok? ==> |r.value| == |outer| && forall i :: 0 <= i < |outer| ==> r.value[i].priority == i + 11 && r.value[i].name == outer[i])
  {
    var outer := h.keyOrder(st.table.Keys);
    SupersProps(HeadOf(h, st), outer, 10);
    assert forall i :: 0 <= i < |outer| ==> outer[i] in st.table.Keys;
    if !(st.table.Keys <= st.btToNormal.Keys) {
      var bt :| bt in st.table.Keys && bt !in st.btToNormal.Keys;
      assert bt in outer;
      var i :| 0 <= i < |outer| && outer[i] == bt;
      assert HeadOf(h, st)(outer[i]).Err?;
    }
  }

  /** The main text of an assay's `_build` is made exactly when every
      biosample type some earlier assay left in the table is also a type of
      this assay; otherwise it raises `KeyError`. */
  lemma BuildTextIff(h: Helpers, tmpDir: string, assembly: string, table: map<string, Group>, assayAbbr: string,
                     exps: seq<Exp>, files: map<string, string>)
    ensures var st := BuildState(table, BuildEntries(h, tmpDir, assembly, assayAbbr, exps));
      Supers(HeadOf(h, st), h.keyOrder(st.table.Keys), 10).Ok? <==> table.Keys <= TypeKeys(h, exps)
  {
    BuildKeys(h, tmpDir, assembly, table, assayAbbr, exps);
    HeadsOk(h, BuildState(table, BuildEntries(h, tmpDir, assembly, assayAbbr, exps)));
  }

  // ---------------------------------------------------------------------
  // `run`
  // ---------------------------------------------------------------------

  /** What `run` carries from one assay to the next: the groups, the files
      and the text returned so far. */
  datatype Progress = Progress(table: map<string, Group>, files: map<string, string>, text: string)

  /** One assay's `_build` on top of what the earlier ones left: its
      groups, the jobs of the whole table, and its main text appended. */
  function BuildOne(h: Helpers, tmpDir: string, assembly: string, p: Progress, assayAbbr: string, exps: seq<Exp>): Result<Progress> {
    var st := BuildState(p.table, BuildEntries(h, tmpDir, assembly, assayAbbr, exps));
    match AssayFiles(h, assembly, h.keyOrder, st.table, p.files)
    case Err(m) => Err(m)
    case Ok(files) =>
      match MainTrackDbText(h, st, files)
      case Err(m) => Err(m)
      case Ok(text) => Ok(Progress(st.table, files, p.text + text))
  }

  function BuildStep(h: Helpers, tmpDir: string, assembly: string, expsOf: string -> seq<Exp>)
    : (Progress, (string, string)) -> Result<Progress>
  {
    (p: Progress, a: (string, string)) => BuildOne(h, tmpDir, assembly, p, a.1, expsOf(a.1))
  }

  /** The generator object. */
  class Generator {
    const h: Helpers
    const assembly: string
    const tmpDir: string
    const fs: FileStore.Files
    var table: map<string, Group>
    var btToNormal: map<string, string>

    constructor(h: Helpers, assembly: string, tmpDir: string, fs: FileStore.Files)
      ensures this.h == h && this.assembly == assembly && this.tmpDir == tmpDir && this.fs == fs
      ensures table == map[] && btToNormal == map[]
    {
      this.h := h;
      this.assembly := assembly;
      this.tmpDir := tmpDir;
      this.fs := fs;
      table := map[];
      btToNormal := map[];
    }

    /** The loop of `_build` over the runs of `groupby`. */
    method RegisterRuns(assayAbbr: string, runs: seq<(string, seq<Exp>)>)
      modifies `table, `btToNormal
      ensures State(table, btToNormal) == RecordEntries(State(old(table), old(btToNormal)),
                                                   MapSeq(RunEntry(h.sanitize, GroupMaker(tmpDir, assembly, assayAbbr)), runs))
    {
      ghost var es := MapSeq(RunEntry(h.sanitize, GroupMaker(tmpDir, assembly, assayAbbr)), runs);
      ghost var st0 := State(table, btToNormal);
      for i := 0 to |runs|
        invariant State(table, btToNormal) == RecordEntries(st0, es[..i])
      {
        assert es[..i + 1][..i] == es[..i];
        var biosampleType := runs[i].0;
        var bt := h.sanitize(biosampleType);
        btToNormal := btToNormal[bt := biosampleType];
        table := table[bt := Group(biosampleType, bt, GroupPath(tmpDir, assembly, assayAbbr, bt), runs[i].1)];
      }
      assert es[..|runs|] == es;
    }

    /** `_makeSubTracks`: one job per group of the table, then every job. */
    method MakeSubTracks() returns (r: Result<()>)
      modifies fs
      ensures var want := AssayFiles(h, assembly, h.keyOrder, table, old(fs.contents));
        && (want.Ok? ==> r.Ok? && fs.contents == want.value)
        && (want.Err? ==> r == Err(want.msg))
    {
      var keys := h.keyOrder(table.Keys);
      var jobs := AppendRow([], [], table, keys, |table|);
      assert [] + RowFrom(table, keys) == RowFrom(table, keys);
      r := RunPlans(fs, h, assembly, MapSeq(Planner(h), jobs));
    }

    /** `_makeMainTrackDb`: one header per group with a local priority
        counting from 11, then the group files. */
    method MakeMainTrackDb() returns (r: Result<string>)
      ensures r == MainTrackDbText(h, State(table, btToNormal), fs.contents)
    {
      var keys := h.keyOrder(table.Keys);
      var headers := SupersFrom(10, HeadOf(h, State(table, btToNormal)), keys);
      r := MainTrackDb(fs, headers, MapSeq(FnpOf, RowFrom(table, keys)));
    }

    /** `_build`: the experiments sorted by biosample type and grouped, the
        raw names reset and each group recorded, then `_makeSubTracks` and
        `_makeMainTrackDb`. */
    method Build(assayAbbr: string, exps: seq<Exp>) returns (r: Result<string>)
      modifies this, fs
      ensures State(table, btToNormal) == BuildState(old(table), BuildEntries(h, tmpDir, assembly, assayAbbr, exps))
      ensures var want := AssayFiles(h, assembly, h.keyOrder, table, old(fs.contents));
        && (want.Err? ==> r == Err(want.msg))
        && (want.Ok? ==> fs.contents == want.value && r == MainTrackDbText(h, State(table, btToNormal), fs.contents))
    {
      var sorted := SortBy(exps, StrKey(TypeOf));
      btToNormal := map[];
      RegisterRuns(assayAbbr, GroupRuns(sorted, TypeOf));
      var done := MakeSubTracks();
      if done.Err? {
        return Err(done.msg);
      }
      r := MakeMainTrackDb();
    }

    /** `run`: every assay built in turn, the texts concatenated; the first
        error ends the run. */
    method Run(expsOf: string -> seq<Exp>) returns (r: Result<string>)
      modifies this, fs
      ensures var want := Fold(BuildStep(h, tmpDir, assembly, expsOf), Progress(old(table), old(fs.contents), ""), Assays);
        && (want.Err? ==> r == Err(want.msg))
        && (want.Ok? ==> r == Ok(want.value.text) && table == want.value.table && fs.contents == want.value.files)
    {
      ghost var step := BuildStep(h, tmpDir, assembly, expsOf);
      ghost var p0 := Progress(table, fs.contents, "");
      var ret := "";
      for i := 0 to |Assays|
        invariant Fold(step, p0, Assays[..i]) == Ok(Progress(table, fs.contents, ret))
      {
        FoldSnoc(step, p0, Assays, i);
        var text := Build(Assays[i].1, expsOf(Assays[i].1));
        if text.Err? {
          FoldSticky(step, p0, Assays, i + 1);
          return Err(text.msg);
        }
        ret := ret + text.value;
      }
      assert Assays[..|Assays|] == Assays;
      r := Ok(ret);
    }
  }
}

/** The ccRE scheme of `src/byCcREs.py`: the experiments behind the
    candidate cis-regulatory elements, one per experiment id, grouped by
    biosample type under a single super track. The experiments come from the
    assembly's global data, not from the metadata service. */
module ByCcREs {
  import opened Common
  import opened Encode
  import opened Tracks
  import opened Hub
  import FileStore

  /** The cell types whose experiments are shown expanded. */
  const ActiveBiosamples: seq<string> := [
    "hepatocyte_derived_from_H9",
    "bipolar_spindle_neuron_derived_from_induced_pluripotent_stem_cell",
    "B_cell_adult"]

  /** The one assay the scheme walks: its title and abbreviation. */
  const Title := "candidate cis-Regulatory Regions"
  const Abbr := "ccres"

  // ---------------------------------------------------------------------
  // Mock experiments
  // ---------------------------------------------------------------------

  /** `MockFile`: the experiment's one bigWig, a pooled fold-change file
      downloaded from the ENCODE portal. */
  function MockFile(ct: CellTypeExp): File {
    File(ct.expID, ct.fileID,
         "https://www.encodeproject.org/files/" + ct.fileID + "/@@download/" + ct.fileID + ".bigWig",
         "fold change over control")
  }

  /** `MockExp`: a global-data entry dressed as an experiment. The assay
      stands in for the factor, label and target, the experiment id for the
      donor, and the cell type's description for the biosample; there is no
      age or sex, and the assay title, which the mock does not set, is "". */
  function MockExp(ct: CellTypeExp): Exp {
    Exp(ct.expID, ct.assay, "", ct.assay, ct.assay, ct.assay,
        ct.cellTypeDesc, ct.biosampleSummary, ct.biosampleType, ct.cellTypeDesc,
        "", "", ct.expID, [],
        ct.assay == "DNase-seq", ct.assay == "CTCF", ct.assay == "H3K4me3" || ct.assay == "H3K27ac",
        [MockFile(ct)])
  }

  /** The mock's predicates answer from the assay alone, and so does the
      rank the track list sorts by: DNase first, then H3K4me3, then CTCF and
      H3K27ac together, then any other assay by name. */
  lemma MockPredicates(ct: CellTypeExp)
    ensures var e := MockExp(ct);
      && (e.isDNaseSeq <==> ct.assay == "DNase-seq")
      && (e.isChipSeqTF <==> ct.assay == "CTCF")
      && (e.isChipSeqHistoneMark <==> ct.assay == "H3K4me3" || ct.assay == "H3K27ac")
      && e.encodeID == e.donorId == ct.expID
      && Rank(e) == if ct.assay == "DNase-seq" then Num(1)
                    else if ct.assay == "H3K4me3" then Num(2)
                    else if ct.assay == "CTCF" || ct.assay == "H3K27ac" then Num(4)
                    else Str(ct.assay)
  {
  }

  // ---------------------------------------------------------------------
  // `ccREexps`
  // ---------------------------------------------------------------------

  /** Entry `i` is the first with its id and that id was not seen before. */
  ghost predicate FirstNew(seen: set<string>, infos: seq<CellTypeExp>, i: int)
    requires 0 <= i < |infos|
  {
    infos[i].expID !in seen && forall k :: 0 <= k < i ==> infos[k].expID != infos[i].expID
  }

  /** The inner loop of `ccREexps` on one cell type's entries: an entry whose
      id was seen, in an earlier cell type or earlier in this one, is
      skipped; the others are kept and their ids become seen. */
  function Dedup(seen: set<string>, infos: seq<CellTypeExp>): (seq<CellTypeExp>, set<string>)
    decreases |infos|
  {
    if infos == [] then ([], seen)
    else
      var prev := Dedup(seen, infos[..|infos| - 1]);
      var x := infos[|infos| - 1];
      if x.expID in prev.1 then prev else (prev.0 + [x], prev.1 + {x.expID})
  }

  /** Every id of the cell type is seen afterwards, and the ids kept are
      exactly those not seen before. */
  lemma {:induction false} DedupIds(seen: set<string>, infos: seq<CellTypeExp>)
    ensures var r := Dedup(seen, infos);
      && r.1 == seen + Ids(infos)
      && Ids(r.0) == Ids(infos) - seen
    decreases |infos|
  {
    if infos != [] {
      var init := infos[..|infos| - 1];
      var x := infos[|infos| - 1];
      var prev := Dedup(seen, init);
      DedupIds(seen, init);
      assert infos == init + [x];
      assert Ids(infos) == Ids(init) + {x.expID};
      if x.expID !in prev.1 {
        assert Ids(prev.0 + [x]) == Ids(prev.0) + {x.expID};
      }
    }
  }

  /** No kept id was seen before or is kept twice, and every kept entry is
      one of the cell type's. */
  lemma {:induction false} DedupDistinct(seen: set<string>, infos: seq<CellTypeExp>)
    ensures var r := Dedup(seen, infos);
      && (forall i :: 0 <= i < |r.0| ==> r.0[i] in infos && r.0[i].expID !in seen)
      && (forall i, j :: 0 <= i < j < |r.0| ==> r.0[i].expID != r.0[j].expID)
    decreases |infos|
  {
    if infos != [] {
      var init := infos[..|infos| - 1];
      var x := infos[|infos| - 1];
      var prev := Dedup(seen, init);
      DedupDistinct(seen, init);
      DedupIds(seen, init);
      assert infos == init + [x];
      if x.expID !in prev.1 {
        forall i | 0 <= i < |prev.0| ensures prev.0[i].expID != x.expID {
          assert prev.0[i] in prev.0;
        }
      }
    }
  }

  /** The first entry of every id not seen before is kept: later entries
      with the same id are the ones skipped. */
  lemma {:induction false} DedupFirst(seen: set<string>, infos: seq<CellTypeExp>)
    ensures var r := Dedup(seen, infos);
      forall i :: 0 <= i < |infos| && FirstNew(seen, infos, i) ==> infos[i] in r.0
    decreases |infos|
  {
    if infos != [] {
      var init := infos[..|infos| - 1];
      var x := infos[|infos| - 1];
      var prev := Dedup(seen, init);
      DedupFirst(seen, init);
      DedupIds(seen, init);
      forall i | 0 <= i < |infos| && FirstNew(seen, infos, i) ensures infos[i] in Dedup(seen, infos).0 {
        if i < |init| {
          assert init[i] == infos[i];
          assert FirstNew(seen, init, i);
        } else {
          assert forall k :: 0 <= k < |init| ==> init[k].expID != x.expID;
          assert x.expID !in prev.1;
        }
      }
    }
  }

  /** An experiment as the loop makes it: its `active` flag set, no ccRE
      files yet. */
  function Fresh(active: bool): CellTypeExp -> Add {
    ct => (MockExp(ct), active, map[])
  }

  /** What one cell type adds to `ret`: its kept experiments, the first
      given the cell type's ccRE files. */
  function Block(gd: GlobalData, ctn: string, kept: seq<CellTypeExp>): (r: seq<Add>)
    ensures |r| == |kept|
    ensures forall i :: 0 <= i < |r| ==> r[i].0 == MockExp(kept[i]) && (r[i].1 <==> ctn in ActiveBiosamples)
    ensures forall i :: 0 <= i < |r| ==> r[i].2 == if i == 0 then CreBigBeds(gd, ctn) else map[]
  {
    var plain := MapSeq(Fresh(ctn in ActiveBiosamples), kept);
    if plain == [] then [] else plain[0 := (plain[0].0, plain[0].1, CreBigBeds(gd, ctn))]
  }

  /** `ccREexps` over the cell types `ctns`: the experiments added and the
      ids seen. */
  function CcreFrom(gd: GlobalData, ctns: seq<string>): (seq<Add>, set<string>)
    decreases |ctns|
  {
    if ctns == [] then ([], {})
    else
      var prev := CcreFrom(gd, ctns[..|ctns| - 1]);
      var ctn := ctns[|ctns| - 1];
      var d := Dedup(prev.1, InfosOf(gd, ctn));
      (prev.0 + Block(gd, ctn, d.0), d.1)
  }

  /** `ccREexps`, the cell types in the interpreter's order. */
  function CcreExps(order: KeyOrder, gd: GlobalData): seq<Add> {
    CcreFrom(gd, order(gd.byCellType.Keys)).0
  }

  function AddIds(s: seq<Add>): set<string> {
    set a | a in s :: a.0.encodeID
  }

  /** No experiment id occurs twice. */
  ghost predicate DistinctIds(s: seq<Add>) {
    forall i, j :: 0 <= i < j < |s| ==> s[i].0.encodeID != s[j].0.encodeID
  }

  /** A block carries the ids of its kept entries, in order. */
  lemma BlockIds(gd: GlobalData, ctn: string, kept: seq<CellTypeExp>)
    ensures var b := Block(gd, ctn, kept);
      && AddIds(b) == Ids(kept)
      && forall i :: 0 <= i < |b| ==> b[i].0.encodeID == kept[i].expID
  {
    var b := Block(gd, ctn, kept);
    forall id | id in AddIds(b) ensures id in Ids(kept) {
      var i :| 0 <= i < |b| && b[i].0.encodeID == id;
      assert kept[i] in kept;
    }
    forall id | id in Ids(kept) ensures id in AddIds(b) {
      var x :| x in kept && x.expID == id;
      var i :| 0 <= i < |kept| && kept[i] == x;
      assert b[i] in b;
    }
  }

  lemma AddIdsAppend(a: seq<Add>, b: seq<Add>)
    ensures AddIds(a + b) == AddIds(a) + AddIds(b)
  {
    forall id | id in AddIds(a + b) ensures id in AddIds(a) + AddIds(b) {
      var x :| x in a + b && x.0.encodeID == id;
    }
  }

  /** Two lists without repeated ids and with no id in common make one. */
  lemma DistinctAppend(a: seq<Add>, b: seq<Add>)
    requires DistinctIds(a) && DistinctIds(b) && AddIds(a) !! AddIds(b)
    ensures DistinctIds(a + b)
  {
    var all := a + b;
    forall i, j | 0 <= i < j < |all| ensures all[i].0.encodeID != all[j].0.encodeID {
      if j < |a| {
        assert all[i] == a[i] && all[j] == a[j];
      } else if i >= |a| {
        assert all[i] == b[i - |a|] && all[j] == b[j - |a|];
      } else {
        assert all[i] == a[i] && all[i] in a && all[i].0.encodeID in AddIds(a);
        assert all[j] == b[j - |a|] && all[j] in b && all[j].0.encodeID in AddIds(b);
      }
    }
  }

  /** Every experiment id of the cell types walked appears exactly once
      among the experiments `ccREexps` returns, and no other id does. */
  lemma {:induction false} CcreIds(gd: GlobalData, ctns: seq<string>)
    ensures var r := CcreFrom(gd, ctns);
      && r.1 == SeenIds(gd, ctns)
      && AddIds(r.0) == SeenIds(gd, ctns)
      && DistinctIds(r.0)
    decreases |ctns|
  {
    if ctns != [] {
      var init := ctns[..|ctns| - 1];
      var ctn := ctns[|ctns| - 1];
      var prev := CcreFrom(gd, init);
      CcreIds(gd, init);
      var d := Dedup(prev.1, InfosOf(gd, ctn));
      DedupIds(prev.1, InfosOf(gd, ctn));
      DedupDistinct(prev.1, InfosOf(gd, ctn));
      var b := Block(gd, ctn, d.0);
      BlockIds(gd, ctn, d.0);
      AddIdsAppend(prev.0, b);
      assert DistinctIds(b);
      DistinctAppend(prev.0, b);
    }
  }

  /** The inner loop of `ccREexps`: the entries of one cell type, each whose
      id was not seen yet made into an experiment. */
  method KeepNew(seen: set<string>, infos: seq<CellTypeExp>, active: bool)
    returns (ctnExps: seq<Add>, expIDs: set<string>)
    ensures ctnExps == MapSeq(Fresh(active), Dedup(seen, infos).0)
    ensures expIDs == Dedup(seen, infos).1
  {
    ctnExps := [];
    expIDs := seen;
    for j := 0 to |infos|
      invariant Dedup(seen, infos[..j]) == (Dedup(seen, infos[..j]).0, expIDs)
      invariant ctnExps == MapSeq(Fresh(active), Dedup(seen, infos[..j]).0)
    {
      assert infos[..j + 1][..j] == infos[..j];
      var eInfo := infos[j];
      if eInfo.expID in expIDs {
        continue;
      }
      expIDs := expIDs + {eInfo.expID};
      MapSeqSnoc(Fresh(active), Dedup(seen, infos[..j]).0, eInfo);
      ctnExps := ctnExps + [(MockExp(eInfo), active, map[])];
    }
    assert infos[..|infos|] == infos;
  }

  lemma CcreFromSnoc(gd: GlobalData, ctns: seq<string>, i: nat)
    requires i < |ctns|
    ensures var prev := CcreFrom(gd, ctns[..i]);
      var d := Dedup(prev.1, InfosOf(gd, ctns[i]));
      CcreFrom(gd, ctns[..i + 1]) == (prev.0 + Block(gd, ctns[i], d.0), d.1)
  {
    assert ctns[..i + 1][..i] == ctns[..i];
  }

  /** `ccREexps`: the cell types in turn, each contributing its kept
      experiments, the first carrying the cell type's ccRE files. */
  method CcreExpsLoop(order: KeyOrder, gd: GlobalData) returns (ret: seq<Add>)
    ensures ret == CcreExps(order, gd)
  {
    var expIDs: set<string> := {};
    ret := [];
    var ctns := order(gd.byCellType.Keys);
    for i := 0 to |ctns|
      invariant CcreFrom(gd, ctns[..i]) == (ret, expIDs)
    {
      CcreFromSnoc(gd, ctns, i);
      var ctn := ctns[i];
      ghost var kept := Dedup(expIDs, InfosOf(gd, ctn)).0;
      var ctnExps, seen := KeepNew(expIDs, InfosOf(gd, ctn), ctn in ActiveBiosamples);
      expIDs := seen;
      if ctnExps == [] {
        assert Block(gd, ctn, kept) == [];
        assert ret + [] == ret;
        continue;
      }
      ctnExps := ctnExps[0 := (ctnExps[0].0, ctnExps[0].1, CreBigBeds(gd, ctn))];
      assert ctnExps == Block(gd, ctn, kept);
      ret := ret + ctnExps;
    }
    assert ctns[..|ctns|] == ctns;
  }

  // ---------------------------------------------------------------------
  // `_build`
  // ---------------------------------------------------------------------

  /** A group of `_build`: the experiments of one biosample type. */
  datatype Group = Group(assayTermName: string, atn: string, biosampleType: string, bt: string, fnp: string, exps: seq<Add>)

  /** The sort and group key. */
  function TypeOf(a: Add): string {
    a.0.biosampleType
  }

  /** The group file: `<tmp>/<assembly>/subtracks/<atn>/<bt>.txt`. */
  function GroupPath(tmpDir: string, assembly: string, atn: string, key: string): string {
    PathJoin(tmpDir, [assembly, "subtracks", atn, key + ".txt"])
  }

  function GroupMaker(tmpDir: string, assembly: string, title: string, atn: string): (string, string, seq<Add>) -> Group {
    (name: string, key: string, exps: seq<Add>) => Group(title, atn, name, key, GroupPath(tmpDir, assembly, atn, key), exps)
  }

  /** The groups `_build` records for the assay. */
  function BuildEntries(h: Helpers, tmpDir: string, assembly: string, title: string, atn: string, exps: seq<Add>): seq<Entry<Group>> {
    GroupEntries(h.sanitize, TypeOf, GroupMaker(tmpDir, assembly, title, atn), exps)
  }

  /** After `_build`, each biosample type has its group under its sanitized
      key, holding exactly the experiments of that type in their input
      order, and its file under the assay's directory; the raw type is
      recorded under the key. Holds when no two types sanitize alike. */
  lemma BuildGroupsByType(h: Helpers, tmpDir: string, assembly: string, reg: Registry<Group>, title: string, atn: string,
                          exps: seq<Add>, e: Add)
    requires SanitizeInjective(h.sanitize, TypeOf, exps) && e in exps
    ensures var r := Built(reg, atn, title, BuildEntries(h, tmpDir, assembly, title, atn, exps));
      var key := h.sanitize(e.0.biosampleType);
      && atn in r.table && key in r.table[atn] && key in r.names
      && r.table[atn][key].exps == WithKey(exps, StrKey(TypeOf), [Str(e.0.biosampleType)])
      && r.table[atn][key].biosampleType == e.0.biosampleType
      && r.table[atn][key].fnp == GroupPath(tmpDir, assembly, atn, key)
      && r.names[key] == e.0.biosampleType
  {
    var es := BuildEntries(h, tmpDir, assembly, title, atn, exps);
    GroupEntriesClasses(h.sanitize, TypeOf, GroupMaker(tmpDir, assembly, title, atn), exps, e);
    RegisterValues(Registry(reg.table, reg.names[atn := title]), atn, es);
  }

  /** ... and the assay's row has no other keys when it was new. */
  lemma BuildRowKeys(h: Helpers, tmpDir: string, assembly: string, reg: Registry<Group>, title: string, atn: string, exps: seq<Add>)
    requires atn !in reg.table && exps != []
    ensures var r := Built(reg, atn, title, BuildEntries(h, tmpDir, assembly, title, atn, exps));
      && r.table.Keys == reg.table.Keys + {atn}
      && r.table[atn].Keys == set e | e in exps :: h.sanitize(e.0.biosampleType)
  {
    var es := BuildEntries(h, tmpDir, assembly, title, atn, exps);
    GroupEntriesKeys(h.sanitize, TypeOf, GroupMaker(tmpDir, assembly, title, atn), exps);
    RegisterKeys(Registry(reg.table, reg.names[atn := title]), atn, es);
    assert es != [] by {
      SortByProps(exps, StrKey(TypeOf));
    }
  }

  // ---------------------------------------------------------------------
  // The jobs
  // ---------------------------------------------------------------------

  /** The composite axes: biosample down, assay across, then view. */
  const CcreAxes: Axes := Axes(Biosample, AssayFacet, ViewFacet)

  /** `outputCompositeTrackByBiosampleType`'s header. The active test
      compares the sanitized biosample type with the cell-type names. */
  function Header(h: Helpers, g: Group, subs: Subs): Result<CompositeHeader> {
    match AxisValues(h, subs, CcreAxes)
    case Err(m) => Err(m)
    case Ok(v) =>
      Ok(CompositeHeader(g.atn + "_" + g.bt, g.atn, false, g.bt in ActiveBiosamples,
                         h.makeShortLabel([g.biosampleType]), h.makeLongLabel(Experiments(g.biosampleType, |g.exps|)),
                         false, CcreAxes, v))
  }

  /** The header exists exactly when the biosample, assay and view keys are
      all subgroup keys. The composite is then the parent its job's tracks
      name, shown exactly when they are, which is when the type is one of
      the active biosamples, and placed under the super track of the assay. */
  lemma HeaderProps(h: Helpers, reg: Registry<Group>, j: Job<Group>, subs: Subs)
    ensures var p := Plan(h, j);
      var r := p.header(subs);
      && (r.Ok? <==> Biosample in h.subGroupKeys && AssayFacet in h.subGroupKeys && ViewFacet in h.subGroupKeys)
      && (r.Ok? ==>
            && r.value.track == p.parent.parent && r.value.active == p.parent.on
            && (r.value.active <==> j.info.bt in ActiveBiosamples)
            && r.value.axes == CcreAxes
            && (Head(h, reg, j.info.atn).Ok? ==> r.value.parent == Head(h, reg, j.info.atn).value.name))
  {
  }

  /** A job: the group's experiments, each with its own `active` flag and
      ccRE files, under the parent `<atn>_<bt>`, shown when the type is
      active; their priorities start at `(1 + idx) * 1000`. */
  function Plan(h: Helpers, j: Job<Group>): GroupPlan {
    GroupPlan(Parent(j.info.atn + "_" + j.info.bt, j.info.bt in ActiveBiosamples), (1 + j.idx) * 1000, j.info.fnp, j.info.exps,
              (subs: Subs) => Header(h, j.info, subs))
  }

  function Planner(h: Helpers): Job<Group> -> GroupPlan {
    j => Plan(h, j)
  }

  /** The jobs of a walk start their priorities a thousand apart: the
      `i`-th at `(i + 2) * 1000`. */
  lemma PlanPriorities(h: Helpers, groups: seq<Group>, total: nat)
    ensures var jobs := JobList(groups, total);
      forall i :: 0 <= i < |jobs| ==> Planner(h)(jobs[i]).priorityStart == (i + 2) * 1000
  {
  }

  // ---------------------------------------------------------------------
  // The main trackDb text
  // ---------------------------------------------------------------------

  function ExpCount(gs: seq<Group>): nat
    decreases |gs|
  {
    if gs == [] then 0 else ExpCount(gs[..|gs| - 1]) + |gs[|gs| - 1].exps|
  }

  function Row(t: Table<Group>, atn: string): map<string, Group> {
    if atn in t then t[atn] else map[]
  }

  /** The super track of an assay: shown, labelled with the assay's title
      as it stands and counting the experiments of all its groups. */
  function Head(h: Helpers, reg: Registry<Group>, atn: string): Result<SuperTrack> {
    if atn !in reg.names then Err("KeyError: " + atn)
    else
      var row := Row(reg.table, atn);
      var n := ExpCount(RowFrom(row, h.keyOrder(row.Keys)));
      Ok(SuperTrack(atn, true, 0, reg.names[atn], h.makeLongLabel(Experiments(reg.names[atn], n)), false))
  }

  function HeadOf(h: Helpers, reg: Registry<Group>): string -> Result<SuperTrack> {
    atn => Head(h, reg, atn)
  }

  /** Once every assay of the table has a name, the headers are made and
      numbered 1, 2, 3, ... in the order the assays are walked. */
  lemma HeadsOk(h: Helpers, reg: Registry<Group>)
    requires reg.table.Keys <= reg.names.Keys
    ensures var outer := h.keyOrder(reg.table.Keys);
      var r := Supers(HeadOf(h, reg), outer, 0);
      && r.Ok? && |r.value| == |outer|
      && forall i :: 0 <= i < |outer| ==> r.value[i].priority == i + 1 && r.value[i].name == outer[i]
  {
    var outer := h.keyOrder(reg.table.Keys);
    SupersProps(HeadOf(h, reg), outer, 0);
    assert forall i :: 0 <= i < |outer| ==> outer[i] in reg.table.Keys;
  }

  function FnpOf(g: Group): string {
    g.fnp
  }

  /** `_makeMainTrackDb`: the headers numbered from 1, then every group file
      in iteration order. */
  function MainTrackDbText(h: Helpers, reg: Registry<Group>, files: map<string, string>): Result<string> {
    match Supers(HeadOf(h, reg), h.keyOrder(reg.table.Keys), 0)
    case Err(m) => Err(m)
    case Ok(hs) => MainText(hs, files, MapSeq(FnpOf, Walk(h.keyOrder, reg.table)))
  }

  /** The generator object. */
  class Generator {
    const h: Helpers
    const assembly: string
    const tmpDir: string
    const fs: FileStore.Files
    const globalData: GlobalData
    var reg: Registry<Group>

    constructor(h: Helpers, assembly: string, tmpDir: string, fs: FileStore.Files, globalData: GlobalData)
      ensures this.h == h && this.assembly == assembly && this.tmpDir == tmpDir
      ensures this.fs == fs && this.globalData == globalData
      ensures reg == Registry(map[], map[])
    {
      this.h := h;
      this.assembly := assembly;
      this.tmpDir := tmpDir;
      this.fs := fs;
      this.globalData := globalData;
      reg := Registry(map[], map[]);
    }

    /** `_build`: the experiments sorted by biosample type and grouped, each
        group recorded, then `_makeSubTracks`. */
    method Build(title: string, atn: string, exps: seq<Add>) returns (r: Result<()>)
      modifies this, fs
      ensures reg == Built(old(reg), atn, title, BuildEntries(h, tmpDir, assembly, title, atn, exps))
      ensures var want := TableFiles(h, assembly, Planner(h), h.keyOrder, reg.table, old(fs.contents));
        && (want.Ok? ==> r.Ok? && fs.contents == want.value)
        && (want.Err? ==> r == Err(want.msg))
    {
      var sorted := SortBy(exps, StrKey(TypeOf));
      reg := Registry(reg.table, reg.names[atn := title]);
      reg := RegisterRuns(reg, atn, h.sanitize, GroupMaker(tmpDir, assembly, title, atn), GroupRuns(sorted, TypeOf));
      r := MakeSubTracks(fs, h, assembly, Planner(h), h.keyOrder, reg.table);
    }

    /** `_makeMainTrackDb`: one header per assay with a local priority
        counting from 1, then the group files. */
    method MakeMainTrackDb() returns (r: Result<string>)
      ensures r == MainTrackDbText(h, reg, fs.contents)
    {
      var headers := SupersFrom(0, HeadOf(h, reg), h.keyOrder(reg.table.Keys));
      r := MainTrackDb(fs, headers, MapSeq(FnpOf, Walk(h.keyOrder, reg.table)));
    }

    /** `run`: the ccRE experiments built as the one assay, then the main
        trackDb text. */
    method Run() returns (r: Result<string>)
      modifies this, fs
      ensures var b := Built(old(reg), Abbr, Title, BuildEntries(h, tmpDir, assembly, Title, Abbr, CcreExps(h.keyOrder, globalData)));
        var want := TableFiles(h, assembly, Planner(h), h.keyOrder, b.table, old(fs.contents));
        && reg == b
        && (want.Err? ==> r == Err(want.msg))
        && (want.Ok? ==> fs.contents == want.value && r == MainTrackDbText(h, reg, fs.contents))
    {
      var exps := CcreExpsLoop(h.keyOrder, globalData);
      var built := Build(Title, Abbr, exps);
      if built.Err? {
        return Err(built.msg);
      }
      r := MakeMainTrackDb();
    }
  }
}

/** The by-factor scheme of `src/byAssayByFactor.py`: ChIP-seq experiments
    grouped by assay and then by their label (the factor or the histone
    mark), one composite per label under one super track per assay. */
module ByAssayByFactor {
  import opened Common
  import opened Encode
  import opened Tracks
  import opened Hub
  import FileStore
  import PriorityCounter

  /** The assays the scheme walks: title and abbreviation. The experiments
      of each come from the metadata service. */
  const Assays: seq<(string, string)> := [("TFs by Factor", "tf_factors"), ("Histone by Mark", "hm_by_marks")]

  /** A group of `_build`: the experiments of one assay sharing one label. */
  datatype Group = Group(assayTermName: string, atn: string, name: string, nameN: string, fnp: string, exps: seq<Exp>)

  /** The sort and group key. */
  function LabelOf(e: Exp): string {
    e.labelName
  }

  /** The group file: `<tmp>/<assembly>/subtracks/<atn>/<labelN>.txt`. */
  function GroupPath(tmpDir: string, assembly: string, atn: string, key: string): string {
    PathJoin(tmpDir, [assembly, "subtracks", atn, key + ".txt"])
  }

  function GroupMaker(tmpDir: string, assembly: string, title: string, atn: string): (string, string, seq<Exp>) -> Group {
    (name: string, key: string, exps: seq<Exp>) => Group(title, atn, name, key, GroupPath(tmpDir, assembly, atn, key), exps)
  }

  /** The groups `_build` records for one assay. */
  function BuildEntries(h: Helpers, tmpDir: string, assembly: string, title: string, atn: string, exps: seq<Exp>): seq<Entry<Group>> {
    GroupEntries(h.sanitize, LabelOf, GroupMaker(tmpDir, assembly, title, atn), exps)
  }

  /** After `_build`, each label of the assay has its group under its
      sanitized key, holding exactly the experiments with that label in
      their input order, and its file under the assay's directory; the
      title is recorded under the abbreviation unless a label sanitizes to
      it. Holds when no two labels sanitize alike. */
  lemma BuildGroupsByLabel(h: Helpers, tmpDir: string, assembly: string, reg: Registry<Group>, title: string, atn: string,
                           exps: seq<Exp>, e: Exp)
    requires SanitizeInjective(h.sanitize, LabelOf, exps) && e in exps
    ensures var r := Built(reg, atn, title, BuildEntries(h, tmpDir, assembly, title, atn, exps));
      var key := h.sanitize(e.labelName);
      && atn in r.table && key in r.table[atn] && key in r.names
      && r.table[atn][key].exps == WithKey(exps, StrKey(LabelOf), [Str(e.labelName)])
      && r.table[atn][key].name == e.labelName
      && r.table[atn][key].fnp == GroupPath(tmpDir, assembly, atn, key)
      && r.names[key] == e.labelName
  {
    var es := BuildEntries(h, tmpDir, assembly, title, atn, exps);
    GroupEntriesClasses(h.sanitize, LabelOf, GroupMaker(tmpDir, assembly, title, atn), exps, e);
    RegisterValues(Registry(reg.table, reg.names[atn := title]), atn, es);
  }

  /** ... and the assay's row has no other keys when it was new. */
  lemma BuildRowKeys(h: Helpers, tmpDir: string, assembly: string, reg: Registry<Group>, title: string, atn: string, exps: seq<Exp>)
    requires atn !in reg.table && exps != []
    ensures var r := Built(reg, atn, title, BuildEntries(h, tmpDir, assembly, title, atn, exps));
      && r.table.Keys == reg.table.Keys + {atn}
      && r.table[atn].Keys == set e | e in exps :: h.sanitize(e.labelName)
  {
    var es := BuildEntries(h, tmpDir, assembly, title, atn, exps);
    GroupEntriesKeys(h.sanitize, LabelOf, GroupMaker(tmpDir, assembly, title, atn), exps);
    RegisterKeys(Registry(reg.table, reg.names[atn := title]), atn, es);
    assert es != [] by {
      SortByProps(exps, StrKey(LabelOf));
    }
  }

  // ---------------------------------------------------------------------
  // The jobs
  // ---------------------------------------------------------------------

  /** The composite axes: biosample down, age and sex across, then view. */
  const FactorAxes: Axes := Axes(Biosample, AgeSex, ViewFacet)

  /** `outputCompositeTrackByBiosampleType`'s header: printing the assay
      subgroups first raises KeyError when "assay" is not a subgroup key. */
  function Header(h: Helpers, g: Group, subs: Subs): Result<CompositeHeader> {
    if AssayFacet !in h.subGroupKeys then Err("KeyError: assay")
    else match AxisValues(h, subs, FactorAxes)
      case Err(m) => Err(m)
      case Ok(v) =>
        Ok(CompositeHeader(g.atn + "_" + g.nameN, g.atn, true, false,
                           h.makeShortLabel([g.name]), h.makeLongLabel(Experiments(g.name, |g.exps|)), true,
                           FactorAxes, v))
  }

  /** The header exists exactly when the assay, biosample, age-and-sex and
      view keys are all subgroup keys. The composite is then the parent its
      job's tracks name, hidden like them, split by biosample, age and sex,
      and view, and placed under the super track of its assay. */
  lemma HeaderProps(h: Helpers, reg: Registry<Group>, j: Job<Group>, subs: Subs)
    ensures var p := Plan(h, j);
      var r := p.header(subs);
      && (r.Ok? <==> AssayFacet in h.subGroupKeys && Biosample in h.subGroupKeys
                     && AgeSex in h.subGroupKeys && ViewFacet in h.subGroupKeys)
      && (r.Ok? ==>
            && r.value.track == p.parent.parent && r.value.active == p.parent.on
            && r.value.axes == FactorAxes
            && (Head(h, reg, j.info.atn).Ok? ==> r.value.parent == Head(h, reg, j.info.atn).value.name))
  {
  }

  /** A job: the tracks of the group's experiments under the parent
      `<atn>_<labelN>`, numbered from 0 (the flag passed where the priority
      start is expected is false). */
  function Plan(h: Helpers, j: Job<Group>): GroupPlan {
    GroupPlan(Parent(j.info.atn + "_" + j.info.nameN, false), 0, j.info.fnp, MapSeq(ShownAdd, j.info.exps),
              (subs: Subs) => Header(h, j.info, subs))
  }

  function Planner(h: Helpers): Job<Group> -> GroupPlan {
    j => Plan(h, j)
  }

  // ---------------------------------------------------------------------
  // The main trackDb text
  // ---------------------------------------------------------------------

  function ExpCount(gs: seq<Group>): nat
    decreases |gs|
  {
    if gs == [] then 0 else ExpCount(gs[..|gs| - 1]) + |gs[|gs| - 1].exps|
  }

  function Row(t: Table<Group>, atn: string): map<string, Group> {
    if atn in t then t[atn] else map[]
  }

  /** The super track of an assay: labelled with the assay's title and
      counting the experiments of all its groups. */
  function Head(h: Helpers, reg: Registry<Group>, atn: string): Result<SuperTrack> {
    if atn !in reg.names then Err("KeyError: " + atn)
    else
      var row := Row(reg.table, atn);
      var n := ExpCount(RowFrom(row, h.keyOrder(row.Keys)));
      Ok(SuperTrack(atn, false, 0, reg.names[atn], h.makeLongLabel(Experiments(reg.names[atn], n)), true))
  }

  function HeadOf(h: Helpers, reg: Registry<Group>): string -> Result<SuperTrack> {
    atn => Head(h, reg, atn)
  }

  /** Once every assay of the table has a name, every header can be made. */
  lemma HeadsOk(h: Helpers, reg: Registry<Group>, start: int)
    requires reg.table.Keys <= reg.names.Keys
    ensures Supers(HeadOf(h, reg), h.keyOrder(reg.table.Keys), start).Ok?
  {
    SupersProps(HeadOf(h, reg), h.keyOrder(reg.table.Keys), start);
  }

  function FnpOf(g: Group): string {
    g.fnp
  }

  /** `_makeMainTrackDb`: the headers numbered from `start`, then every group
      file in iteration order. */
  function MainTrackDbText(h: Helpers, reg: Registry<Group>, files: map<string, string>, start: int): Result<string> {
    match Supers(HeadOf(h, reg), h.keyOrder(reg.table.Keys), start)
    case Err(m) => Err(m)
    case Ok(hs) => MainText(hs, files, MapSeq(FnpOf, Walk(h.keyOrder, reg.table)))
  }

  /** One assay of `run`: `_build`, whose `_makeSubTracks` runs every job of
      the table so far. */
  function BuildStep(h: Helpers, tmpDir: string, assembly: string, expsOf: string -> seq<Exp>)
    : ((Registry<Group>, map<string, string>), (string, string)) -> Result<(Registry<Group>, map<string, string>)>
  {
    (st: (Registry<Group>, map<string, string>), a: (string, string)) =>
      var reg := Built(st.0, a.1, a.0, BuildEntries(h, tmpDir, assembly, a.0, a.1, expsOf(a.1)));
      match TableFiles(h, assembly, Planner(h), h.keyOrder, reg.table, st.1)
      case Err(m) => Err(m)
      case Ok(files) => Ok((reg, files))
  }

  /** The generator object. */
  class Generator {
    const h: Helpers
    const assembly: string
    const tmpDir: string
    const fs: FileStore.Files
    const priority: PriorityCounter.Counter
    var reg: Registry<Group>

    constructor(h: Helpers, assembly: string, tmpDir: string, fs: FileStore.Files, priority: PriorityCounter.Counter)
      ensures this.h == h && this.assembly == assembly && this.tmpDir == tmpDir
      ensures this.fs == fs && this.priority == priority
      ensures reg == Registry(map[], map[])
    {
      this.h := h;
      this.assembly := assembly;
      this.tmpDir := tmpDir;
      this.fs := fs;
      this.priority := priority;
      reg := Registry(map[], map[]);
    }

    /** `_build`: the experiments sorted by label and grouped, each group
        recorded, then `_makeSubTracks`. */
    method Build(title: string, atn: string, exps: seq<Exp>) returns (r: Result<()>)
      modifies this, fs
      ensures reg == Built(old(reg), atn, title, BuildEntries(h, tmpDir, assembly, title, atn, exps))
      ensures var want := TableFiles(h, assembly, Planner(h), h.keyOrder, reg.table, old(fs.contents));
        && (want.Ok? ==> r.Ok? && fs.contents == want.value)
        && (want.Err? ==> r == Err(want.msg))
    {
      var sorted := SortBy(exps, StrKey(LabelOf));
      reg := Registry(reg.table, reg.names[atn := title]);
      reg := RegisterRuns(reg, atn, h.sanitize, GroupMaker(tmpDir, assembly, title, atn), GroupRuns(sorted, LabelOf));
      r := MakeSubTracks(fs, h, assembly, Planner(h), h.keyOrder, reg.table);
    }

    /** `_makeMainTrackDb`: one header per assay, each taking the next value
        of the shared counter, then the group files. */
    method MakeMainTrackDb() returns (r: Result<string>)
      modifies priority
      ensures r == MainTrackDbText(h, reg, fs.contents, old(priority.val))
      ensures r.Ok? ==> priority.val == old(priority.val) + |reg.table|
    {
      var headers := SupersCounted(priority, HeadOf(h, reg), h.keyOrder(reg.table.Keys));
      r := MainTrackDb(fs, headers, MapSeq(FnpOf, Walk(h.keyOrder, reg.table)));
      assert |h.keyOrder(reg.table.Keys)| == |reg.table| by {
        OrderLength(h.keyOrder(reg.table.Keys), reg.table.Keys);
      }
    }

    /** `run`: every assay built in turn, then the main trackDb text. */
    method Run(expsOf: string -> seq<Exp>) returns (r: Result<string>)
      modifies this, fs, priority
      ensures var built := Fold(BuildStep(h, tmpDir, assembly, expsOf), (old(reg), old(fs.contents)), Assays);
        && (built.Err? ==> r == Err(built.msg))
        && (built.Ok? ==> reg == built.value.0 && fs.contents == built.value.1
                          && r == MainTrackDbText(h, reg, fs.contents, old(priority.val)))
    {
      var built := BuildAssays(Assays, expsOf);
      if built.Err? {
        return Err(built.msg);
      }
      r := MakeMainTrackDb();
    }

    /** The loop of `run`: `_build` for each assay in turn, stopping at the
        first error. */
    method BuildAssays(assays: seq<(string, string)>, expsOf: string -> seq<Exp>) returns (r: Result<()>)
      modifies this, fs
      ensures var built := Fold(BuildStep(h, tmpDir, assembly, expsOf), (old(reg), old(fs.contents)), assays);
        && (built.Err? ==> r == Err(built.msg))
        && (built.Ok? ==> r == Ok(()) && reg == built.value.0 && fs.contents == built.value.1)
    {
      ghost var step := BuildStep(h, tmpDir, assembly, expsOf);
      ghost var s0 := (reg, fs.contents);
      for i := 0 to |assays|
        invariant Fold(step, s0, assays[..i]) == Ok((reg, fs.contents))
      {
        FoldSnoc(step, s0, assays, i);
        var built := Build(assays[i].0, assays[i].1, expsOf(assays[i].1));
        if built.Err? {
          FoldSticky(step, s0, assays, i + 1);
          return Err(built.msg);
        }
      }
      assert assays[..|assays|] == assays;
      r := Ok(());
    }
  }
}

/** The by-biosample-type scheme of `src/byAssayByBiosampleType.py`: the
    experiments of each assay grouped by biosample type, one composite per
    type under one super track per assay, and for some assays an extra
    composite of all the assay's experiments coloured by tissue. */
module ByAssayByBiosampleType {
  import opened Common
  import opened Encode
  import opened Tracks
  import opened Hub
  import ByAll
  import FileStore
  import PriorityCounter

  /** An assay the scheme walks: its title, abbreviation, the base of its
      super track's long label and whether it has the all-data composite.
      Its experiments come from the metadata service. */
  datatype Assay = Assay(title: string, atn: string, longLabelBase: string, showAll: bool)

  /** The assays of an assembly: five for every assembly, then ATAC-seq on
      mm10 and RAMPAGE on hg19. */
  function AssaysFor(assembly: string): seq<Assay> {
    [Assay("DNase-seq", "dnase", "DNase-seq", true),
     Assay("Histone by Biosample", "histone_modifications", "Histone modifications and variants", false),
     Assay("RNA-seq", "transcription", "RNA-seq", true),
     Assay("microRNA-seq", "microRNAseq", "microRNA-seq", true),
     Assay("TFs by Biosample Type", "transcription_factors", "Transcription Factors", false)]
    + (if assembly == "mm10" then [Assay("ATAC-seq", "atac_seq", "ATAC-seq", true)] else [])
    + (if assembly == "hg19" then [Assay("RAMPAGE", "rampage", "RAMPAGE", true)] else [])
  }

  /** The key and the name of the all-data group. */
  const AllKey: string := "0_all"
  const AllName: string := "_ALL DATA"

  /** A group of `_build`: the experiments of one assay sharing one
      biosample type, or all of them for the all-data group. */
  datatype Group = Group(assayTermName: string, atn: string, name: string, bt: string, fnp: string,
                         exps: seq<Exp>, longLabelBase: string)

  /** The sort and group key. */
  function TypeOf(e: Exp): string {
    e.biosampleType
  }

  /** The group file: `<tmp>/<assembly>/subtracks/<atn>/<bt>.txt`. */
  function GroupPath(tmpDir: string, assembly: string, atn: string, key: string): string {
    PathJoin(tmpDir, [assembly, "subtracks", atn, key + ".txt"])
  }

  function GroupMaker(tmpDir: string, assembly: string, a: Assay): (string, string, seq<Exp>) -> Group {
    (name: string, key: string, exps: seq<Exp>) =>
      Group(a.title, a.atn, name, key, GroupPath(tmpDir, assembly, a.atn, key), exps, a.longLabelBase)
  }

  /** The all-data group, when the assay has one: every experiment, sorted. */
  function AllEntries(tmpDir: string, assembly: string, a: Assay, sorted: seq<Exp>): seq<Entry<Group>> {
    if a.showAll then [Entry(AllKey, AllName, GroupMaker(tmpDir, assembly, a)(AllName, AllKey, sorted))] else []
  }

  /** The groups `_build` records for one assay, in order. */
  function BuildEntries(h: Helpers, tmpDir: string, assembly: string, a: Assay, exps: seq<Exp>): seq<Entry<Group>> {
    AllEntries(tmpDir, assembly, a, SortBy(exps, StrKey(TypeOf)))
    + GroupEntries(h.sanitize, TypeOf, GroupMaker(tmpDir, assembly, a), exps)
  }

  /** Unless a biosample type sanitizes to "0_all", an assay with the
      all-data composite records under that key all its experiments sorted
      by biosample type, and "_ALL DATA" as its name. */
  lemma BuildAllGroup(h: Helpers, tmpDir: string, assembly: string, reg: Registry<Group>, a: Assay, exps: seq<Exp>)
    requires a.showAll
    requires forall e :: e in exps ==> h.sanitize(e.biosampleType) != AllKey
    ensures var r := Built(reg, a.atn, a.title, BuildEntries(h, tmpDir, assembly, a, exps));
      && a.atn in r.table && AllKey in r.table[a.atn] && AllKey in r.names
      && var g := r.table[a.atn][AllKey];
      && SortedBy(g.exps, StrKey(TypeOf)) && multiset(g.exps) == multiset(exps)
      && g.name == AllName && r.names[AllKey] == AllName
      && g.fnp == GroupPath(tmpDir, assembly, a.atn, AllKey) && g.longLabelBase == a.longLabelBase
  {
    var sorted := SortBy(exps, StrKey(TypeOf));
    var pre := AllEntries(tmpDir, assembly, a, sorted);
    var es := GroupEntries(h.sanitize, TypeOf, GroupMaker(tmpDir, assembly, a), exps);
    var all: seq<Entry<Group>> := pre + es;
    GroupEntriesKeysFrom(h.sanitize, TypeOf, GroupMaker(tmpDir, assembly, a), exps);
    forall j: int | 0 < j < |all| ensures all[j].key != AllKey {
      assert (pre + es)[j] == es[j - 1];
      assert es[j - 1].key in EntryKeys(es);
    }
    assert LastWith(pre + es, 0);
    RegisterValues(Registry(reg.table, reg.names[a.atn := a.title]), a.atn, pre + es);
    SortByProps(exps, StrKey(TypeOf));
  }

  /** Each biosample type of the assay has its group under its sanitized
      key, holding exactly the experiments of that type in their input
      order, and its file under the assay's directory. Holds when no two
      types sanitize alike. */
  lemma BuildGroupsByType(h: Helpers, tmpDir: string, assembly: string, reg: Registry<Group>, a: Assay,
                          exps: seq<Exp>, e: Exp)
    requires SanitizeInjective(h.sanitize, TypeOf, exps) && e in exps
    ensures var r := Built(reg, a.atn, a.title, BuildEntries(h, tmpDir, assembly, a, exps));
      var key := h.sanitize(e.biosampleType);
      && a.atn in r.table && key in r.table[a.atn] && key in r.names
      && r.table[a.atn][key].exps == WithKey(exps, StrKey(TypeOf), [Str(e.biosampleType)])
      && r.table[a.atn][key].name == e.biosampleType
      && r.table[a.atn][key].fnp == GroupPath(tmpDir, assembly, a.atn, key)
      && r.names[key] == e.biosampleType
  {
    var pre := AllEntries(tmpDir, assembly, a, SortBy(exps, StrKey(TypeOf)));
    var es := GroupEntries(h.sanitize, TypeOf, GroupMaker(tmpDir, assembly, a), exps);
    GroupEntriesClasses(h.sanitize, TypeOf, GroupMaker(tmpDir, assembly, a), exps, e);
    var i :| LastWith(es, i) && es[i].key == h.sanitize(TypeOf(e)) && es[i].name == TypeOf(e)
             && es[i].info == GroupMaker(tmpDir, assembly, a)(TypeOf(e), h.sanitize(TypeOf(e)),
                                                              WithKey(exps, StrKey(TypeOf), [Str(TypeOf(e))]));
    LastWithShift(pre, es, i);
    RegisterValues(Registry(reg.table, reg.names[a.atn := a.title]), a.atn, pre + es);
  }

  /** The keys of an assay's groups: "0_all" when it shows all data, and
      the sanitized biosample types of its experiments; there are none
      exactly when it has neither. */
  lemma BuildEntriesKeys(h: Helpers, tmpDir: string, assembly: string, a: Assay, exps: seq<Exp>)
    ensures var es := BuildEntries(h, tmpDir, assembly, a, exps);
      && EntryKeys(es) == (if a.showAll then {AllKey} else {}) + (set e | e in exps :: h.sanitize(TypeOf(e)))
      && (es == [] <==> !a.showAll && exps == [])
  {
    var sorted := SortBy(exps, StrKey(TypeOf));
    var pre := AllEntries(tmpDir, assembly, a, sorted);
    var es := GroupEntries(h.sanitize, TypeOf, GroupMaker(tmpDir, assembly, a), exps);
    GroupEntriesKeys(h.sanitize, TypeOf, GroupMaker(tmpDir, assembly, a), exps);
    EntryKeysAppend(pre, es);
    assert (es == []) == (exps == []) by {
      SortByProps(exps, StrKey(TypeOf));
      assert |sorted| == |exps|;
    }
    if a.showAll {
      assert pre[0].key == AllKey;
      assert EntryKeys(pre) == {AllKey};
    } else {
      assert EntryKeys(pre) == {};
    }
  }

  /** An assay new to the table gets a row exactly when it has experiments
      or the all-data composite; the row then holds exactly those keys. */
  lemma BuildRowKeys(h: Helpers, tmpDir: string, assembly: string, reg: Registry<Group>, a: Assay, exps: seq<Exp>)
    requires a.atn !in reg.table
    ensures var r := Built(reg, a.atn, a.title, BuildEntries(h, tmpDir, assembly, a, exps));
      && r.table.Keys == reg.table.Keys + (if a.showAll || exps != [] then {a.atn} else {})
      && (a.atn in r.table ==>
            r.table[a.atn].Keys == (if a.showAll then {AllKey} else {}) + set e | e in exps :: h.sanitize(TypeOf(e)))
  {
    BuildEntriesKeys(h, tmpDir, assembly, a, exps);
    RegisterKeys(Registry(reg.table, reg.names[a.atn := a.title]), a.atn, BuildEntries(h, tmpDir, assembly, a, exps));
  }

  // ---------------------------------------------------------------------
  // The composite header
  // ---------------------------------------------------------------------

  /** The subgroup axes of `outputCompositeTrackByBiosampleType`, by assay;
      the all-data group always uses biosample down and age-and-sex across. */
  function AxesFor(atn: string, bt: string): Axes {
    if bt == AllKey then Axes(Biosample, AgeSex, ViewFacet)
    else if atn == "dnase" || atn == "atac_seq" then Axes(Biosample, Age, ViewFacet)
    else if atn == "histone_modifications" || atn == "transcription_factors" then Axes(Biosample, Label, ViewFacet)
    else if atn == "transcription" || atn == "rampage" || atn == "microRNAseq" then Axes(Biosample, AssayFacet, ViewFacet)
    else Axes(Donor, Age, ViewFacet)
  }

  /** The header: printing the assay subgroups first raises KeyError when
      "assay" is not a subgroup key; the composite is never shown by
      default and has no description. */
  function Header(h: Helpers, g: Group, subs: Subs): Result<CompositeHeader> {
    if AssayFacet !in h.subGroupKeys then Err("KeyError: assay")
    else
      var ax := AxesFor(g.atn, g.bt);
      match AxisValues(h, subs, ax)
      case Err(m) => Err(m)
      case Ok(v) =>
        Ok(CompositeHeader(g.atn + "_" + g.bt, g.atn, true, false,
                           h.makeShortLabel([g.name]), h.makeLongLabel(Experiments(g.name, |g.exps|)), false,
                           ax, v))
  }

  function HeaderOf(h: Helpers, g: Group): Subs -> Result<CompositeHeader> {
    subs => Header(h, g, subs)
  }

  /** The header exists exactly when "assay" and the group's three axes
      are subgroup keys. The composite is then the parent its group's
      tracks name, hidden like them, split along the assay's axes, and
      placed under the super track of its assay. */
  lemma HeaderProps(h: Helpers, reg: Registry<Group>, g: Group, subs: Subs)
    ensures var p := Plan(h, g);
      var r := p.header(subs);
      var ax := AxesFor(g.atn, g.bt);
      && (r.Ok? <==> AssayFacet in h.subGroupKeys && ax.k1 in h.subGroupKeys
                     && ax.k2 in h.subGroupKeys && ax.k3 in h.subGroupKeys)
      && (r.Ok? ==>
            && r.value.track == p.parent.parent && r.value.active == p.parent.on
            && r.value.axes == ax
            && (Head(h, reg, g.atn).Ok? ==> r.value.parent == Head(h, reg, g.atn).value.name))
  {
  }

  /** The all-data group is split by biosample and by age and sex; DNase
      and ATAC groups by biosample and age; histone and factor groups by
      biosample and label; transcription, RAMPAGE and microRNA groups by
      biosample and assay; any other assay by donor and age; always by view
      last. */
  lemma AxesForProps(atn: string, bt: string)
    ensures AxesFor(atn, bt).k3 == ViewFacet
    ensures bt == AllKey ==> AxesFor(atn, bt) == Axes(Biosample, AgeSex, ViewFacet)
    ensures bt != AllKey && atn in ["dnase", "atac_seq"] ==> AxesFor(atn, bt).k2 == Age
    ensures bt != AllKey && atn in ["histone_modifications", "transcription_factors"] ==> AxesFor(atn, bt).k2 == Label
    ensures bt != AllKey && atn in ["transcription", "rampage", "microRNAseq"] ==> AxesFor(atn, bt).k2 == AssayFacet
    ensures atn in ["dnase", "histone_modifications", "transcription", "microRNAseq", "transcription_factors", "atac_seq", "rampage"]
            ==> AxesFor(atn, bt).k1 == Biosample
    ensures bt != AllKey && atn !in ["dnase", "histone_modifications", "transcription", "microRNAseq", "transcription_factors", "atac_seq", "rampage"]
            ==> AxesFor(atn, bt) == Axes(Donor, Age, ViewFacet)
  {
  }

  // ---------------------------------------------------------------------
  // The jobs
  // ---------------------------------------------------------------------

  /** The parent of a group's tracks: `<atn>_<bt>`, never shown (no
      experiment is in the lookup). */
  function GroupParent(g: Group): Parent {
    Parent(g.atn + "_" + g.bt, false)
  }

  /** A group other than the all-data one: its experiments shown, with no
      ccRE files, numbered from 0. */
  function Plan(h: Helpers, g: Group): GroupPlan {
    GroupPlan(GroupParent(g), 0, g.fnp, MapSeq(ShownAdd, g.exps), HeaderOf(h, g))
  }

  /** One `addExpAll(exp, True, {})` on the state (composites so far,
      palette). */
  function AllAdd(h: Helpers, lookupBTN: map<string, map<string, string>>, assembly: string, parent: Parent)
    : ((seq<Composite>, ByAll.Palette), Exp) -> Result<(seq<Composite>, ByAll.Palette)>
  {
    (st: (seq<Composite>, ByAll.Palette), e: Exp) =>
      var step := AllStep(h, lookupBTN, assembly, parent, st.1, e, true);
      if step.0.Err? then Err(step.0.msg) else Ok((st.0 + [step.0.value], step.1))
  }

  /** The all-data group's job on the state (files, palette): its
      experiments added with `addExpAll`, numbered from 1 (the flag passed
      where the priority start is expected is true). */
  function AllGroupFiles(h: Helpers, assembly: string, lookupBTN: map<string, map<string, string>>,
                         st: (map<string, string>, ByAll.Palette), g: Group): Result<(map<string, string>, ByAll.Palette)>
  {
    match Fold(AllAdd(h, lookupBTN, assembly, GroupParent(g)), ([], st.1), g.exps)
    case Err(m) => Err(m)
    case Ok(run) =>
      match GroupFiles(h, st.0, g.fnp, run.0, 1, HeaderOf(h, g))
      case Err(m) => Err(m)
      case Ok(files) => Ok((files, run.1))
  }

  /** Any other group's job: its experiments added with `addExp`, numbered
      from 0; the palette is not consulted. */
  function TypeGroupFiles(h: Helpers, assembly: string, st: (map<string, string>, ByAll.Palette), g: Group)
    : Result<(map<string, string>, ByAll.Palette)>
  {
    match Hub.PlanStep(h, assembly)(st.0, Plan(h, g))
    case Err(m) => Err(m)
    case Ok(files) => Ok((files, st.1))
  }

  /** `outputAllTracksByBiosampleType` on the state (files, palette). */
  function JobStep(h: Helpers, assembly: string, lookupBTN: map<string, map<string, string>>)
    : ((map<string, string>, ByAll.Palette), Job<Group>) -> Result<(map<string, string>, ByAll.Palette)>
  {
    (st: (map<string, string>, ByAll.Palette), j: Job<Group>) =>
      if j.info.bt == AllKey then AllGroupFiles(h, assembly, lookupBTN, st, j.info)
      else TypeGroupFiles(h, assembly, st, j.info)
  }

  /** The `addExpAll` loop of `outputSubTrack`; the first error ends it. */
  method AddAllExps(t: TrackList, h: Helpers, lookupBTN: map<string, map<string, string>>,
                    palette: ByAll.TissuePalette, exps: seq<Exp>) returns (r: Result<()>)
    requires palette.Valid()
    modifies t, palette
    ensures palette.Valid()
    ensures var want := Fold(AllAdd(h, lookupBTN, t.assembly, t.parent), (old(t.tracks), old(palette.State())), exps);
      && (want.Ok? ==> r.Ok? && t.tracks == want.value.0 && palette.State() == want.value.1)
      && (want.Err? ==> r == Err(want.msg))
  {
    ghost var step := AllAdd(h, lookupBTN, t.assembly, t.parent);
    ghost var s0 := (t.tracks, palette.State());
    for i := 0 to |exps|
      invariant palette.Valid()
      invariant Fold(step, s0, exps[..i]) == Ok((t.tracks, palette.State()))
    {
      FoldSnoc(step, s0, exps, i);
      var added := t.AddExpAll(h, lookupBTN, palette, exps[i], true);
      if added.Err? {
        FoldSticky(step, s0, exps, i + 1);
        return Err(added.msg);
      }
    }
    assert exps[..|exps|] == exps;
    r := Ok(());
  }

  /** `outputSubTrack` for the all-data group: a fresh `Tracks` numbered
      from 1, every experiment added with `addExpAll`, the lines written to
      the group file; the subgroups are returned. */
  method OutputAllSubTrack(fs: FileStore.Files, h: Helpers, assembly: string, lookupBTN: map<string, map<string, string>>,
                           palette: ByAll.TissuePalette, parent: Parent, fnp: string, exps: seq<Exp>)
    returns (r: Result<Subs>)
    requires palette.Valid()
    modifies fs, palette
    ensures palette.Valid()
    ensures var run := Fold(AllAdd(h, lookupBTN, assembly, parent), ([], old(palette.State())), exps);
      && (run.Err? ==> r == Err(run.msg))
      && (run.Ok? ==>
            var lines := TracksLines(run.value.0, false, 1);
            && palette.State() == run.value.1
            && fs.contents == SubTrackFiles(old(fs.contents), fnp, lines)
            && r == if lines.Err? then Err(lines.msg) else SubgroupsOf(run.value.0, h.subGroupKeys))
  {
    var tracks := new TrackList(assembly, parent, 1, false);
    var added := AddAllExps(tracks, h, lookupBTN, palette, exps);
    if added.Err? {
      return Err(added.msg);
    }
    r := WriteTracks(fs, h, tracks, fnp);
  }

  /** `outputAllTracksByBiosampleType` for the all-data group: the
      subtracks, then the header in front of them. */
  method OutputAllGroup(fs: FileStore.Files, h: Helpers, assembly: string, lookupBTN: map<string, map<string, string>>,
                        palette: ByAll.TissuePalette, g: Group) returns (r: Result<()>)
    requires palette.Valid()
    modifies fs, palette
    ensures palette.Valid()
    ensures var want := AllGroupFiles(h, assembly, lookupBTN, (old(fs.contents), old(palette.State())), g);
      && (want.Ok? ==> r.Ok? && fs.contents == want.value.0 && palette.State() == want.value.1)
      && (want.Err? ==> r == Err(want.msg))
  {
    var subs := OutputAllSubTrack(fs, h, assembly, lookupBTN, palette, GroupParent(g), g.fnp, g.exps);
    if subs.Err? {
      return Err(subs.msg);
    }
    r := Compose(fs, g.fnp, Header(h, g, subs.value));
  }

  /** `outputAllTracksByBiosampleType`: the subtracks, then the header in
      front of them. */
  method OutputGroup(fs: FileStore.Files, h: Helpers, assembly: string, lookupBTN: map<string, map<string, string>>,
                     palette: ByAll.TissuePalette, j: Job<Group>) returns (r: Result<()>)
    requires palette.Valid()
    modifies fs, palette
    ensures palette.Valid()
    ensures var want := JobStep(h, assembly, lookupBTN)((old(fs.contents), old(palette.State())), j);
      && (want.Ok? ==> r.Ok? && fs.contents == want.value.0 && palette.State() == want.value.1)
      && (want.Err? ==> r == Err(want.msg))
  {
    if j.info.bt == AllKey {
      r := OutputAllGroup(fs, h, assembly, lookupBTN, palette, j.info);
    } else {
      r := Hub.OutputGroup(fs, h, assembly, Plan(h, j.info));
    }
  }

  /** The jobs run one after the other; the first error ends the run. */
  method RunJobs(fs: FileStore.Files, h: Helpers, assembly: string, lookupBTN: map<string, map<string, string>>,
                 palette: ByAll.TissuePalette, jobs: seq<Job<Group>>) returns (r: Result<()>)
    requires palette.Valid()
    modifies fs, palette
    ensures palette.Valid()
    ensures var want := Fold(JobStep(h, assembly, lookupBTN), (old(fs.contents), old(palette.State())), jobs);
      && (want.Ok? ==> r.Ok? && fs.contents == want.value.0 && palette.State() == want.value.1)
      && (want.Err? ==> r == Err(want.msg))
  {
    ghost var s0 := (fs.contents, palette.State());
    for i := 0 to |jobs|
      invariant palette.Valid()
      invariant Fold(JobStep(h, assembly, lookupBTN), s0, jobs[..i]) == Ok((fs.contents, palette.State()))
    {
      FoldSnoc(JobStep(h, assembly, lookupBTN), s0, jobs, i);
      var done := OutputGroup(fs, h, assembly, lookupBTN, palette, jobs[i]);
      if done.Err? {
        FoldSticky(JobStep(h, assembly, lookupBTN), s0, jobs, i + 1);
        return Err(done.msg);
      }
    }
    assert jobs[..|jobs|] == jobs;
    r := Ok(());
  }

  /** `_makeSubTracks`: one job per group of the table, numbered, run in turn. */
  function JobFiles(h: Helpers, assembly: string, lookupBTN: map<string, map<string, string>>, t: Table<Group>,
                      st: (map<string, string>, ByAll.Palette)): Result<(map<string, string>, ByAll.Palette)> {
    Fold(JobStep(h, assembly, lookupBTN), st, JobList(Walk(h.keyOrder, t), |t|))
  }

  // ---------------------------------------------------------------------
  // The main trackDb text
  // ---------------------------------------------------------------------

  /** The experiments of the groups under `keys`, the all-data group left
      out. */
  function TypedCount(row: map<string, Group>, keys: seq<string>): nat
    decreases |keys|
  {
    if keys == [] then 0
    else
      var k := keys[|keys| - 1];
      TypedCount(row, keys[..|keys| - 1]) + (if k != AllKey && k in row then |row[k].exps| else 0)
  }

  /** The super track of an assay: labelled with the assay's recorded name,
      its long label from the base of the row's last group, counting the
      experiments of every group but the all-data one. A row without groups
      leaves `info` unbound. */
  function Head(h: Helpers, reg: Registry<Group>, atn: string): Result<SuperTrack> {
    var row := Row(reg.table, atn);
    var keys := h.keyOrder(row.Keys);
    var gs := RowFrom(row, keys);
    if atn !in reg.names then Err("KeyError: " + atn)
    else if gs == [] then Err("NameError: info")
    else
      var n := TypedCount(row, keys);
      Ok(SuperTrack(atn, false, 0, reg.names[atn],
                    h.makeLongLabel(Experiments(gs[|gs| - 1].longLabelBase, n)), false))
  }

  function Row(t: Table<Group>, atn: string): map<string, Group> {
    if atn in t then t[atn] else map[]
  }

  function HeadOf(h: Helpers, reg: Registry<Group>): string -> Result<SuperTrack> {
    atn => Head(h, reg, atn)
  }

  /** A row with a key yields a group. */
  lemma {:induction false} RowFromNonEmpty<G>(inner: map<string, G>, keys: seq<string>, k: string)
    requires k in keys && k in inner
    ensures RowFrom(inner, keys) != []
    decreases |keys|
  {
    if keys[|keys| - 1] != k {
      assert k in keys[..|keys| - 1] by {
        var i :| 0 <= i < |keys| && keys[i] == k;
        assert keys[..|keys| - 1][i] == k;
      }
      RowFromNonEmpty(inner, keys[..|keys| - 1], k);
    }
  }

  /** Once every assay of the table has a name and a group, every header
      can be made. */
  lemma HeadsOk(h: Helpers, reg: Registry<Group>, start: int)
    requires reg.table.Keys <= reg.names.Keys
    requires forall atn :: atn in reg.table ==> reg.table[atn] != map[]
    ensures Supers(HeadOf(h, reg), h.keyOrder(reg.table.Keys), start).Ok?
  {
    var outer := h.keyOrder(reg.table.Keys);
    forall i | 0 <= i < |outer| ensures HeadOf(h, reg)(outer[i]).Ok? {
      var row := reg.table[outer[i]];
      var k :| k in row.Keys;
      RowFromNonEmpty(row, h.keyOrder(row.Keys), k);
    }
    SupersProps(HeadOf(h, reg), outer, start);
  }

  /** `_build` leaves every assay of the table named and with a group. */
  lemma BuiltRows(reg: Registry<Group>, atn: string, title: string, es: seq<Entry<Group>>)
    requires reg.table.Keys <= reg.names.Keys
    requires forall a :: a in reg.table ==> reg.table[a] != map[]
    ensures var r := Built(reg, atn, title, es);
      && r.table.Keys <= r.names.Keys
      && forall a :: a in r.table ==> r.table[a] != map[]
  {
    BuiltNamesAssays(reg, atn, title, es);
    RegisterKeys(Registry(reg.table, reg.names[atn := title]), atn, es);
    if es != [] {
      assert es[0].key in EntryKeys(es);
    }
  }

  function FnpOf(g: Group): string {
    g.fnp
  }

  /** `_makeMainTrackDb`: the headers numbered from `start`, then every
      group file in iteration order. */
  function MainTrackDbText(h: Helpers, reg: Registry<Group>, files: map<string, string>, start: int): Result<string> {
    match Supers(HeadOf(h, reg), h.keyOrder(reg.table.Keys), start)
    case Err(m) => Err(m)
    case Ok(hs) => MainText(hs, files, MapSeq(FnpOf, Walk(h.keyOrder, reg.table)))
  }

  /** The state `run` threads through the assays: the records, the files
      and the palette. */
  datatype State = State(reg: Registry<Group>, files: map<string, string>, palette: ByAll.Palette)

  /** One assay of `run`: `_build`, whose `_makeSubTracks` runs every job of
      the table so far. */
  function BuildOne(h: Helpers, tmpDir: string, assembly: string, lookupBTN: map<string, map<string, string>>,
                    st: State, a: Assay, exps: seq<Exp>) : Result<State>
  {
    var reg := Built(st.reg, a.atn, a.title, BuildEntries(h, tmpDir, assembly, a, exps));
    match JobFiles(h, assembly, lookupBTN, reg.table, (st.files, st.palette))
    case Err(m) => Err(m)
    case Ok(out) => Ok(State(reg, out.0, out.1))
  }

  /** `run`'s loop body, each assay with the experiments found for it. */
  function BuildStep(h: Helpers, tmpDir: string, assembly: string, lookupBTN: map<string, map<string, string>>,
                     expsOf: string -> seq<Exp>) : (State, Assay) -> Result<State>
  {
    (st: State, a: Assay) => BuildOne(h, tmpDir, assembly, lookupBTN, st, a, expsOf(a.atn))
  }

  /** The generator object. The tissue lookup and the palette are the
      module-level state of the tracks code that `addExpAll` consults. */
  class Generator {
    const h: Helpers
    const assembly: string
    const tmpDir: string
    const fs: FileStore.Files
    const priority: PriorityCounter.Counter
    const lookupBTN: map<string, map<string, string>>
    const palette: ByAll.TissuePalette
    var reg: Registry<Group>

    constructor(h: Helpers, assembly: string, tmpDir: string, fs: FileStore.Files, priority: PriorityCounter.Counter,
                lookupBTN: map<string, map<string, string>>, palette: ByAll.TissuePalette)
      ensures this.h == h && this.assembly == assembly && this.tmpDir == tmpDir
      ensures this.fs == fs && this.priority == priority
      ensures this.lookupBTN == lookupBTN && this.palette == palette
      ensures reg == Registry(map[], map[])
    {
      this.h := h;
      this.assembly := assembly;
      this.tmpDir := tmpDir;
      this.fs := fs;
      this.priority := priority;
      this.lookupBTN := lookupBTN;
      this.palette := palette;
      reg := Registry(map[], map[]);
    }

    /** `_build`: the experiments sorted by biosample type, the all-data
        group when the assay has one, each type's group, then
        `_makeSubTracks`. */
    method Build(a: Assay, exps: seq<Exp>) returns (r: Result<()>)
      requires palette.Valid()
      modifies this, fs, palette
      ensures palette.Valid()
      ensures reg == Built(old(reg), a.atn, a.title, BuildEntries(h, tmpDir, assembly, a, exps))
      ensures var want := BuildOne(h, tmpDir, assembly, lookupBTN, State(old(reg), old(fs.contents), old(palette.State())), a, exps);
        && (want.Ok? ==> r.Ok? && State(reg, fs.contents, palette.State()) == want.value)
        && (want.Err? ==> r == Err(want.msg))
    {
      var sorted := SortBy(exps, StrKey(TypeOf));
      var named := Registry(reg.table, reg.names[a.atn := a.title]);
      ghost var pre := AllEntries(tmpDir, assembly, a, sorted);
      reg := named;
      if a.showAll {
        var g := GroupMaker(tmpDir, assembly, a)(AllName, AllKey, sorted);
        reg := Registry(Put(reg.table, a.atn, AllKey, g), reg.names[AllKey := AllName]);
        assert pre[..0] == [];
      }
      assert reg == Register(named, a.atn, pre);
      reg := RegisterRuns(reg, a.atn, h.sanitize, GroupMaker(tmpDir, assembly, a), GroupRuns(sorted, TypeOf));
      RegisterAppend(named, a.atn, pre, GroupEntries(h.sanitize, TypeOf, GroupMaker(tmpDir, assembly, a), exps));
      var jobs := MakeJobs(h.keyOrder, reg.table, |reg.table|);
      r := RunJobs(fs, h, assembly, lookupBTN, palette, jobs);
    }

    /** `_makeMainTrackDb`: one header per assay, each taking the next value
        of the shared counter, then the group files. */
    method MakeMainTrackDb() returns (r: Result<string>)
      modifies priority
      ensures r == MainTrackDbText(h, reg, fs.contents, old(priority.val))
      ensures r.Ok? ==> priority.val == old(priority.val) + |reg.table|
    {
      var headers := SupersCounted(priority, HeadOf(h, reg), h.keyOrder(reg.table.Keys));
      r := MainTrackDb(fs, headers, MapSeq(FnpOf, Walk(h.keyOrder, reg.table)));
      assert |h.keyOrder(reg.table.Keys)| == |reg.table| by {
        OrderLength(h.keyOrder(reg.table.Keys), reg.table.Keys);
      }
    }

    /** `run`: every assay of the assembly built in turn, then the main
        trackDb text. */
    method Run(expsOf: string -> seq<Exp>) returns (r: Result<string>)
      requires palette.Valid()
      modifies this, fs, palette, priority
      ensures palette.Valid()
      ensures var built := Fold(BuildStep(h, tmpDir, assembly, lookupBTN, expsOf),
                                State(old(reg), old(fs.contents), old(palette.State())), AssaysFor(assembly));
        && (built.Err? ==> r == Err(built.msg))
        && (built.Ok? ==> reg == built.value.reg && fs.contents == built.value.files && palette.State() == built.value.palette
                          && r == MainTrackDbText(h, reg, fs.contents, old(priority.val)))
    {
      var built := BuildAssays(AssaysFor(assembly), expsOf);
      if built.Err? {
        return Err(built.msg);
      }
      r := MakeMainTrackDb();
    }

    /** The loop of `run`: `_build` for each assay in turn, stopping at the
        first error. */
    method BuildAssays(assays: seq<Assay>, expsOf: string -> seq<Exp>) returns (r: Result<()>)
      requires palette.Valid()
      modifies this, fs, palette
      ensures palette.Valid()
      ensures var built := Fold(BuildStep(h, tmpDir, assembly, lookupBTN, expsOf),
                                State(old(reg), old(fs.contents), old(palette.State())), assays);
        && (built.Err? ==> r == Err(built.msg))
        && (built.Ok? ==> r == Ok(()) && reg == built.value.reg && fs.contents == built.value.files
                          && palette.State() == built.value.palette)
    {
      ghost var step := BuildStep(h, tmpDir, assembly, lookupBTN, expsOf);
      ghost var s0 := State(reg, fs.contents, palette.State());
      for i := 0 to |assays|
        invariant palette.Valid()
        invariant Fold(step, s0, assays[..i]) == Ok(State(reg, fs.contents, palette.State()))
      {
        FoldSnoc(step, s0, assays, i);
        var built := Build(assays[i], expsOf(assays[i].atn));
        if built.Err? {
          FoldSticky(step, s0, assays, i + 1);
          return Err(built.msg);
        }
      }
      assert assays[..|assays|] == assays;
      r := Ok(());
    }
  }
}

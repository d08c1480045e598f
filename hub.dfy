/** What the scheme generators have in common. Each scheme file repeats the
    same pieces: `merge_two_dicts`, the job list of `_makeSubTracks`, a group
    file written by `outputSubTrack` and then prefixed by a composite header,
    and the super-track headers of `_makeMainTrackDb` followed by every group
    file. They are defined once here; the settings that vary between schemes
    are fields of the datatypes below. */
module Hub {
  import opened Common
  import opened Encode
  import opened Tracks
  import FileStore
  import PriorityCounter

  /** `merge_two_dicts(x, y)`: a copy of `x` updated with `y`, so the keys of
      `y` win; `x` itself is a value and stays as it was. */
  function MergeTwoDicts<K, V>(x: map<K, V>, y: map<K, V>): (z: map<K, V>)
    ensures z.Keys == x.Keys + y.Keys
    ensures forall k :: k in y ==> z[k] == y[k]
    ensures forall k :: k in x && k !in y ==> z[k] == x[k]
  {
    x + y
  }

  // ---------------------------------------------------------------------
  // Two-level dictionaries and the job list
  // ---------------------------------------------------------------------

  /** A dictionary of dictionaries, such as assay abbreviation to biosample
      type to group info. */
  type Table<G> = map<string, map<string, G>>

  /** The values of `inner` under `keys`, in that order. */
  function RowFrom<G>(inner: map<string, G>, keys: seq<string>): seq<G>
    decreases |keys|
  {
    if keys == [] then []
    else
      var k := keys[|keys| - 1];
      RowFrom(inner, keys[..|keys| - 1]) + (if k in inner then [inner[k]] else [])
  }

  /** The rows of the outer keys `outer`, each walked in iteration order. */
  function WalkFrom<G>(order: KeyOrder, t: Table<G>, outer: seq<string>): seq<G>
    decreases |outer|
  {
    if outer == [] then []
    else
      var o := outer[|outer| - 1];
      WalkFrom(order, t, outer[..|outer| - 1]) + (if o in t then RowFrom(t[o], order(t[o].Keys)) else [])
  }

  /** The values in the order the nested `iteritems()` loops meet them. */
  function Walk<G>(order: KeyOrder, t: Table<G>): seq<G> {
    WalkFrom(order, t, order(t.Keys))
  }

  /** A job of `_makeSubTracks`: a group's info merged with its 1-based
      position `idx` and the `total` the progress messages print. */
  datatype Job<G> = Job(info: G, idx: nat, total: nat)

  /** The job list: every group once, in order, numbered from 1. */
  function JobList<G>(groups: seq<G>, total: nat): (r: seq<Job<G>>)
    ensures |r| == |groups|
    ensures forall i :: 0 <= i < |r| ==> r[i] == Job(groups[i], i + 1, total)
    decreases |groups|
  {
    if groups == [] then []
    else JobList(groups[..|groups| - 1], total) + [Job(groups[|groups| - 1], |groups|, total)]
  }

  lemma JobListSnoc<G>(groups: seq<G>, g: G, total: nat)
    ensures JobList(groups + [g], total) == JobList(groups, total) + [Job(g, |groups| + 1, total)]
  {
    assert (groups + [g])[..|groups|] == groups;
  }

  /** The inner loop of `_makeSubTracks`: one job per key of `inner`
      present in `keys`, appended after the jobs already made. */
  method AppendRow<G>(jobs: seq<Job<G>>, ghost before: seq<G>, inner: map<string, G>, keys: seq<string>, total: nat)
    returns (out: seq<Job<G>>)
    requires jobs == JobList(before, total)
    requires forall k :: k in keys ==> k in inner
    ensures out == JobList(before + RowFrom(inner, keys), total)
  {
    out := jobs;
    for j := 0 to |keys|
      invariant out == JobList(before + RowFrom(inner, keys[..j]), total)
    {
      ghost var cur := before + RowFrom(inner, keys[..j]);
      var g := inner[keys[j]];
      assert keys[..j + 1][..j] == keys[..j];
      assert RowFrom(inner, keys[..j + 1]) == RowFrom(inner, keys[..j]) + [g];
      AppendAssoc(before, RowFrom(inner, keys[..j]), [g]);
      JobListSnoc(cur, g, total);
      out := out + [Job(g, |out| + 1, total)];
    }
    assert keys[..|keys|] == keys;
  }

  /** The loops of `_makeSubTracks` that fill `jobs`: one job per group of
      the table, `idx` being the number of jobs before it plus one. */
  method MakeJobs<G>(order: KeyOrder, t: Table<G>, total: nat) returns (jobs: seq<Job<G>>)
    ensures jobs == JobList(Walk(order, t), total)
  {
    jobs := [];
    var outer := order(t.Keys);
    for i := 0 to |outer|
      invariant jobs == JobList(WalkFrom(order, t, outer[..i]), total)
    {
      var o := outer[i];
      assert o in t;
      var keys := order(t[o].Keys);
      assert forall k :: k in keys ==> k in t[o];
      WalkFromSnoc(order, t, outer, i);
      jobs := AppendRow(jobs, WalkFrom(order, t, outer[..i]), t[o], keys, total);
    }
    assert outer[..|outer|] == outer;
  }

  /** One more outer key extends the walk by that key's row. */
  lemma WalkFromSnoc<G>(order: KeyOrder, t: Table<G>, outer: seq<string>, i: nat)
    requires i < |outer| && outer[i] in t
    ensures WalkFrom(order, t, outer[..i + 1]) == WalkFrom(order, t, outer[..i]) + RowFrom(t[outer[i]], order(t[outer[i]].Keys))
  {
    assert outer[..i + 1][..i] == outer[..i];
  }

  // ---------------------------------------------------------------------
  // Stanza text
  // ---------------------------------------------------------------------

  /** A header line: the setting, a space, the value, a newline. */
  function SettingLine(kv: (string, string)): string {
    kv.0 + " " + kv.1 + "\n"
  }

  /** A header as the templates write it: a blank line, then its settings. */
  function Stanza(settings: seq<(string, string)>): string {
    "\n" + Concat(MapSeq(SettingLine, settings))
  }

  /** `name + " (%s experiments)" % n`. */
  function Experiments(name: string, n: nat): string {
    name + " (" + NatToString(n) + " experiments)"
  }

  // ---------------------------------------------------------------------
  // Super-track headers and the main trackDb text
  // ---------------------------------------------------------------------

  /** A super-track header of `_makeMainTrackDb`. Some schemes show the
      super track (`superTrack on show`); the by-factor scheme repeats the
      long label as a description. */
  datatype SuperTrack = SuperTrack(name: string, show: bool, priority: int,
                                   shortLabel: string, longLabel: string, description: bool)

  function SuperSettings(s: SuperTrack): (r: seq<(string, string)>)
    ensures |r| >= 5 && r[0] == ("track", "super_" + s.name) && r[2] == ("priority", IntToString(s.priority))
    ensures ("description", s.longLabel) in r <==> s.description
  {
    [("track", "super_" + s.name),
     ("superTrack", if s.show then "on show" else "on"),
     ("priority", IntToString(s.priority)),
     ("shortLabel", s.shortLabel),
     ("longLabel", s.longLabel)]
    + (if s.description then [("description", s.longLabel)] else [])
  }

  function SuperText(s: SuperTrack): string {
    Stanza(SuperSettings(s))
  }

  /** The group files of `_makeMainTrackDb`, each followed by a newline;
      opening a missing one raises. */
  function FilesText(files: map<string, string>, fnps: seq<string>): (r: Result<string>)
    ensures r.Ok? <==> forall f :: f in fnps ==> f in files
    decreases |fnps|
  {
    if fnps == [] then Ok("")
    else
      var f := fnps[|fnps| - 1];
      match FilesText(files, fnps[..|fnps| - 1])
      case Err(m) => Err(m)
      case Ok(s) => if f in files then Ok(s + files[f] + "\n") else Err("IOError: " + f)
  }

  /** Once a prefix fails, the whole list fails with the same error. */
  lemma {:induction false} FilesTextSticky(files: map<string, string>, fnps: seq<string>, i: nat)
    requires i <= |fnps| && FilesText(files, fnps[..i]).Err?
    ensures FilesText(files, fnps) == FilesText(files, fnps[..i])
    decreases |fnps| - i
  {
    if i < |fnps| {
      assert fnps[..i + 1][..i] == fnps[..i];
      FilesTextSticky(files, fnps, i + 1);
    } else {
      assert fnps[..i] == fnps;
    }
  }

  /** The text `_makeMainTrackDb` returns: the super-track headers joined by
      newlines, then the group files. */
  function MainText(headers: seq<SuperTrack>, files: map<string, string>, fnps: seq<string>): Result<string> {
    match FilesText(files, fnps)
    case Err(m) => Err(m)
    case Ok(s) => Ok(Join("\n", MapSeq(SuperText, headers)) + s)
  }

  /** The reading loop of `_makeMainTrackDb`, after `head`. */
  method AppendFiles(fs: FileStore.Files, head: string, fnps: seq<string>) returns (r: Result<string>)
    ensures r == match FilesText(fs.contents, fnps)
      case Err(m) => Err(m)
      case Ok(s) => Ok(head + s)
  {
    var out := "";
    for i := 0 to |fnps|
      invariant FilesText(fs.contents, fnps[..i]) == Ok(out)
    {
      assert fnps[..i + 1][..i] == fnps[..i];
      var got := fs.Read(fnps[i]);
      if got.Err? {
        FilesTextSticky(fs.contents, fnps, i + 1);
        return Err(got.msg);
      }
      out := out + got.value + "\n";
    }
    assert fnps[..|fnps|] == fnps;
    r := Ok(head + out);
  }

  // ---------------------------------------------------------------------
  // Composite headers
  // ---------------------------------------------------------------------

  /** The three subgroup axes of a composite. */
  datatype Axes = Axes(k1: Facet, k2: Facet, k3: Facet)

  /** The header `outputCompositeTrackByBiosampleType` writes at the top of a
      group file; `values` are the unrolled subgroup values of the axes. */
  datatype CompositeHeader = CompositeHeader(
    track: string, parent: string, centerLabelsDense: bool, active: bool,
    shortLabel: string, longLabel: string, description: bool,
    axes: Axes, values: (string, string, string))

  /** The header's settings: `visibility full` exactly when the composite is
      active; the three axes as subGroup1..3, the sort order and the
      dimensions (the second axis across, the first down). */
  function CompositeSettings(hd: CompositeHeader): (r: seq<(string, string)>)
    ensures ("visibility", "full") in r <==> hd.active
    ensures var k1, k2, k3 := FacetName(hd.axes.k1), FacetName(hd.axes.k2), FacetName(hd.axes.k3);
      && ("subGroup1", k1 + " " + k1 + " " + hd.values.0) in r
      && ("subGroup2", k2 + " " + k2 + " " + hd.values.1) in r
      && ("subGroup3", k3 + " " + k3 + " " + hd.values.2) in r
      && ("dimensions", "dimX=" + k2 + " dimY=" + k1) in r
  {
    var k1, k2, k3 := FacetName(hd.axes.k1), FacetName(hd.axes.k2), FacetName(hd.axes.k3);
    [("track", hd.track), ("parent", "super_" + hd.parent), ("compositeTrack", "on")]
    + (if hd.centerLabelsDense then [("centerLabelsDense", "on")] else [])
    + (if hd.active then [("visibility", "full")] else [])
    + [("shortLabel", hd.shortLabel)]
    + (if hd.description then [("description", hd.longLabel)] else [])
    + [("longLabel", hd.longLabel),
       ("type", "bigWig 9 +"),
       ("maxHeightPixels", "64:12:8"),
       ("autoScale", "on"),
       ("subGroup1", k1 + " " + k1 + " " + hd.values.0),
       ("subGroup2", k2 + " " + k2 + " " + hd.values.1),
       ("subGroup3", k3 + " " + k3 + " " + hd.values.2),
       ("sortOrder", k1 + "=+ " + k2 + "=+ " + k3 + "=+"),
       ("dimensions", "dimX=" + k2 + " dimY=" + k1),
       ("dragAndDrop", "subTracks"),
       ("hoverMetadata", "on"),
       ("darkerLabels", "on")]
  }

  function CompositeText(hd: CompositeHeader): string {
    Stanza(CompositeSettings(hd))
  }

  /** The subgroup sets `subgroups()` returned, per key. */
  type Subs = map<Facet, set<(string, string)>>

  /** `subGroups[k]` of the default dictionary: empty when no leaf gave a value. */
  function Presented(subs: Subs, k: Facet): set<(string, string)> {
    if k in subs then subs[k] else {}
  }

  /** `unrollEquals(subGroupsDict[k])` for the three axes: `subGroupsDict`
      only has the helper's subgroup keys, so any other axis raises KeyError. */
  function AxisValues(h: Helpers, subs: Subs, ax: Axes): (r: Result<(string, string, string)>)
    ensures r.Ok? <==> ax.k1 in h.subGroupKeys && ax.k2 in h.subGroupKeys && ax.k3 in h.subGroupKeys
  {
    if ax.k1 !in h.subGroupKeys then Err("KeyError: " + FacetName(ax.k1))
    else if ax.k2 !in h.subGroupKeys then Err("KeyError: " + FacetName(ax.k2))
    else if ax.k3 !in h.subGroupKeys then Err("KeyError: " + FacetName(ax.k3))
    else Ok((h.unrollPairs(Presented(subs, ax.k1)),
             h.unrollPairs(Presented(subs, ax.k2)),
             h.unrollPairs(Presented(subs, ax.k3))))
  }

  /** Compositing a group file: it must exist ("missing" otherwise); then it
      is rewritten as the header, a newline and the subtracks it held. */
  function ComposedFiles(files: map<string, string>, fnp: string, hd: Result<CompositeHeader>): Result<map<string, string>> {
    if fnp !in files then Err("missing " + fnp)
    else if hd.Err? then Err(hd.msg)
    else Ok(files[fnp := CompositeText(hd.value) + "\n" + files[fnp]])
  }

  method Compose(fs: FileStore.Files, fnp: string, hd: Result<CompositeHeader>) returns (r: Result<()>)
    modifies fs
    ensures var want := ComposedFiles(old(fs.contents), fnp, hd);
      && (want.Ok? ==> r.Ok? && fs.contents == want.value)
      && (want.Err? ==> r == Err(want.msg))
  {
    if !fs.Exists(fnp) {
      return Err("missing " + fnp);
    }
    if hd.Err? {
      return Err(hd.msg);
    }
    var subtracks := fs.Read(fnp);
    fs.Write(fnp, CompositeText(hd.value) + "\n" + subtracks.value);
    r := Ok(());
  }

  /** Compositing straight after the subtracks were written never finds the
      file missing: the result is the header, a newline and those subtracks,
      and no other file changes. */
  lemma ComposeAfterWrite(files: map<string, string>, fnp: string, text: string, hd: Result<CompositeHeader>)
    ensures ComposedFiles(files[fnp := text], fnp, hd)
         == if hd.Ok? then Ok(files[fnp := CompositeText(hd.value) + "\n" + text]) else Err(hd.msg)
  {
    if hd.Ok? {
      var t := CompositeText(hd.value) + "\n" + text;
      assert files[fnp := text][fnp := t] == files[fnp := t];
    }
  }

  // ---------------------------------------------------------------------
  // Group files
  // ---------------------------------------------------------------------

  /** An experiment as `outputSubTrack` hands it to `addExp`: the
      experiment, its `active` argument and its ccRE map. */
  type Add = (Exp, bool, map<string, string>)

  /** `addExp(exp, True, {})`: the experiment shown, with no ccRE files, as
      the by-assay schemes add it (the lookup they consult is always empty). */
  function ShownAdd(e: Exp): Add {
    (e, true, map[])
  }

  /** The composites `addExp` appends, one per experiment, in order. */
  function ExpComposites(h: Helpers, assembly: string, parent: Parent, adds: seq<Add>): (r: seq<Composite>)
    ensures |r| == |adds|
    decreases |adds|
  {
    if adds == [] then []
    else
      var a := adds[|adds| - 1];
      ExpComposites(h, assembly, parent, adds[..|adds| - 1]) + [ExpComposite(h, assembly, parent, a.0, a.1, a.2)]
  }

  lemma ExpCompositesSnoc(h: Helpers, assembly: string, parent: Parent, adds: seq<Add>, i: nat)
    requires i < |adds|
    ensures ExpComposites(h, assembly, parent, adds[..i + 1])
         == ExpComposites(h, assembly, parent, adds[..i]) + [ExpComposite(h, assembly, parent, adds[i].0, adds[i].1, adds[i].2)]
  {
    assert adds[..i + 1][..i] == adds[..i];
  }

  /** The `addExp` loop of `outputSubTrack`. */
  method AddAll(t: TrackList, h: Helpers, adds: seq<Add>)
    modifies t
    ensures t.tracks == old(t.tracks) + ExpComposites(h, t.assembly, t.parent, adds)
  {
    for i := 0 to |adds|
      invariant t.tracks == old(t.tracks) + ExpComposites(h, t.assembly, t.parent, adds[..i])
    {
      ExpCompositesSnoc(h, t.assembly, t.parent, adds, i);
      AppendAssoc(old(t.tracks), ExpComposites(h, t.assembly, t.parent, adds[..i]),
                  [ExpComposite(h, t.assembly, t.parent, adds[i].0, adds[i].1, adds[i].2)]);
      t.AddExp(h, adds[i].0, adds[i].1, adds[i].2);
    }
    assert adds[..|adds|] == adds;
  }

  /** The group file `outputSubTrack` leaves: the lines of `lines()`, or an
      empty file when `lines()` raises before its first line. */
  function SubTrackFiles(files: map<string, string>, fnp: string, lines: Result<seq<string>>): map<string, string> {
    files[fnp := if lines.Ok? then Concat(lines.value) else ""]
  }

  /** The end of `outputSubTrack`: the lines of `tracks` written to the
      group file, then its subgroups. */
  method WriteTracks(fs: FileStore.Files, h: Helpers, tracks: TrackList, fnp: string) returns (r: Result<Subs>)
    modifies fs
    ensures var lines := TracksLines(tracks.tracks, tracks.isAll, tracks.priorityStart);
      && fs.contents == SubTrackFiles(old(fs.contents), fnp, lines)
      && r == if lines.Err? then Err(lines.msg) else SubgroupsOf(tracks.tracks, h.subGroupKeys)
  {
    var lines := tracks.Lines();
    if lines.Err? {
      fs.Write(fnp, "");
      return Err(lines.msg);
    }
    fs.Write(fnp, Concat(lines.value));
    r := tracks.Subgroups(h);
  }

  /** `outputSubTrack` once its experiments are chosen: a fresh `Tracks`,
      every experiment added, the lines written to the group file; the
      subgroups are returned. */
  method OutputSubTrack(fs: FileStore.Files, h: Helpers, assembly: string, parent: Parent, priorityStart: int,
                        fnp: string, adds: seq<Add>)
    returns (r: Result<Subs>)
    modifies fs
    ensures var cs := ExpComposites(h, assembly, parent, adds);
      var lines := TracksLines(cs, false, priorityStart);
      && fs.contents == SubTrackFiles(old(fs.contents), fnp, lines)
      && r == if lines.Err? then Err(lines.msg) else SubgroupsOf(cs, h.subGroupKeys)
  {
    var tracks := new TrackList(assembly, parent, priorityStart, false);
    AddAll(tracks, h, adds);
    assert tracks.tracks == ExpComposites(h, assembly, parent, adds);
    r := WriteTracks(fs, h, tracks, fnp);
  }

  // ---------------------------------------------------------------------
  // The jobs of `_makeSubTracks`
  // ---------------------------------------------------------------------

  /** One job of `outputAllTracksByBiosampleType`: `outputSubTrack` writes the
      lines of the composites `cs` to the group file, then the composite
      header computed from their subgroups is put in front of them. */
  function GroupFiles(h: Helpers, files: map<string, string>, fnp: string, cs: seq<Composite>, priorityStart: int,
                      header: Subs -> Result<CompositeHeader>): Result<map<string, string>>
  {
    var lines := TracksLines(cs, false, priorityStart);
    if lines.Err? then Err(lines.msg)
    else match SubgroupsOf(cs, h.subGroupKeys)
      case Err(m) => Err(m)
      case Ok(subs) => ComposedFiles(SubTrackFiles(files, fnp, lines), fnp, header(subs))
  }

  /** A job succeeds exactly when the lines, the subgroups and the header can
      all be made; it then leaves the group file as the header, a newline and
      the subtrack lines, whatever the file held before, and changes no other
      file. */
  lemma GroupFilesShape(h: Helpers, files: map<string, string>, fnp: string, cs: seq<Composite>, priorityStart: int,
                        header: Subs -> Result<CompositeHeader>)
    ensures var r := GroupFiles(h, files, fnp, cs, priorityStart, header);
      var lines := TracksLines(cs, false, priorityStart);
      var subs := SubgroupsOf(cs, h.subGroupKeys);
      && (r.Ok? <==> lines.Ok? && subs.Ok? && header(subs.value).Ok?)
      && (r.Ok? ==> r.value == files[fnp := CompositeText(header(subs.value).value) + "\n" + Concat(lines.value)])
  {
    var lines := TracksLines(cs, false, priorityStart);
    if lines.Ok? && SubgroupsOf(cs, h.subGroupKeys).Ok? {
      ComposeAfterWrite(files, fnp, Concat(lines.value), header(SubgroupsOf(cs, h.subGroupKeys).value));
    }
  }

  /** What one job is given: the parent of its tracks, the start of their
      priorities, its group file, the experiments to add and how the header
      follows from the subgroups. */
  datatype GroupPlan = GroupPlan(parent: Parent, priorityStart: int, fnp: string, adds: seq<Add>,
                                 header: Subs -> Result<CompositeHeader>)

  /** A job as a step on the files. */
  function PlanStep(h: Helpers, assembly: string): (map<string, string>, GroupPlan) -> Result<map<string, string>> {
    (files: map<string, string>, p: GroupPlan) =>
      GroupFiles(h, files, p.fnp, ExpComposites(h, assembly, p.parent, p.adds), p.priorityStart, p.header)
  }

  /** `outputAllTracksByBiosampleType`: `outputSubTrack`, then
      `outputCompositeTrackByBiosampleType` with the subgroups it returned. */
  method OutputGroup(fs: FileStore.Files, h: Helpers, assembly: string, p: GroupPlan) returns (r: Result<()>)
    modifies fs
    ensures var want := PlanStep(h, assembly)(old(fs.contents), p);
      && (want.Ok? ==> r.Ok? && fs.contents == want.value)
      && (want.Err? ==> r == Err(want.msg))
  {
    var subs := OutputSubTrack(fs, h, assembly, p.parent, p.priorityStart, p.fnp, p.adds);
    if subs.Err? {
      return Err(subs.msg);
    }
    r := Compose(fs, p.fnp, p.header(subs.value));
  }

  /** The jobs run one after the other; the first error ends the run. */
  method RunPlans(fs: FileStore.Files, h: Helpers, assembly: string, plans: seq<GroupPlan>) returns (r: Result<()>)
    modifies fs
    ensures var want := Fold(PlanStep(h, assembly), old(fs.contents), plans);
      && (want.Ok? ==> r.Ok? && fs.contents == want.value)
      && (want.Err? ==> r == Err(want.msg))
  {
    for i := 0 to |plans|
      invariant Fold(PlanStep(h, assembly), old(fs.contents), plans[..i]) == Ok(fs.contents)
    {
      FoldSnoc(PlanStep(h, assembly), old(fs.contents), plans, i);
      var done := OutputGroup(fs, h, assembly, plans[i]);
      if done.Err? {
        FoldSticky(PlanStep(h, assembly), old(fs.contents), plans, i + 1);
        return Err(done.msg);
      }
    }
    assert plans[..|plans|] == plans;
    r := Ok(());
  }

  /** `_makeSubTracks` over a two-level table: the job list, then every job. */
  function TableFiles<G>(h: Helpers, assembly: string, planner: Job<G> -> GroupPlan, order: KeyOrder, t: Table<G>,
                         files: map<string, string>): Result<map<string, string>> {
    Fold(PlanStep(h, assembly), files, MapSeq(planner, JobList(Walk(order, t), |t|)))
  }

  method MakeSubTracks<G>(fs: FileStore.Files, h: Helpers, assembly: string, planner: Job<G> -> GroupPlan,
                          order: KeyOrder, t: Table<G>) returns (r: Result<()>)
    modifies fs
    ensures var want := TableFiles(h, assembly, planner, order, t, old(fs.contents));
      && (want.Ok? ==> r.Ok? && fs.contents == want.value)
      && (want.Err? ==> r == Err(want.msg))
  {
    var jobs := MakeJobs(order, t, |t|);
    r := RunPlans(fs, h, assembly, MapSeq(planner, jobs));
  }

  // ---------------------------------------------------------------------
  // Registering the groups of a `_build`
  // ---------------------------------------------------------------------

  /** `d[atn][key] = info` on a dictionary of dictionaries whose rows are
      created on first use. */
  function Put<G>(t: Table<G>, atn: string, key: string, g: G): Table<G> {
    t[atn := (if atn in t then t[atn] else map[])[key := g]]
  }

  /** A group `_build` records: its key (the sanitized name), the name and
      its info. */
  datatype Entry<G> = Entry(key: string, name: string, info: G)

  /** What `_build` fills: the groups by assay and key, and the dictionary
      from keys back to the names they were made from. */
  datatype Registry<G> = Registry(table: Table<G>, names: map<string, string>)

  /** The groups recorded one after the other under `atn`. */
  function Register<G>(reg: Registry<G>, atn: string, es: seq<Entry<G>>): Registry<G>
    decreases |es|
  {
    if es == [] then reg
    else
      var prev := Register(reg, atn, es[..|es| - 1]);
      var e := es[|es| - 1];
      Registry(Put(prev.table, atn, e.key, e.info), prev.names[e.key := e.name])
  }

  lemma RegisterSnoc<G>(reg: Registry<G>, atn: string, es: seq<Entry<G>>, i: nat)
    requires i < |es|
    ensures var prev := Register(reg, atn, es[..i]);
      Register(reg, atn, es[..i + 1]) == Registry(Put(prev.table, atn, es[i].key, es[i].info), prev.names[es[i].key := es[i].name])
  {
    assert es[..i + 1][..i] == es[..i];
  }

  ghost function EntryKeys<G>(es: seq<Entry<G>>): set<string> {
    set i | 0 <= i < |es| :: es[i].key
  }

  /** An entry no later entry overwrites. */
  ghost predicate LastWith<G>(es: seq<Entry<G>>, i: int) {
    0 <= i < |es| && forall j :: i < j < |es| ==> es[j].key != es[i].key
  }

  /** Registering changes only the row of `atn`, which exists afterwards
      when there was an entry; the row gains exactly the entries' keys and
      the names gain them too. */
  lemma RegisterKeys<G>(reg: Registry<G>, atn: string, es: seq<Entry<G>>)
    ensures var r := Register(reg, atn, es);
      var row := if atn in reg.table then reg.table[atn] else map[];
      && r.table.Keys == reg.table.Keys + (if es == [] then {} else {atn})
      && (forall a :: a in reg.table && a != atn ==> r.table[a] == reg.table[a])
      && (es != [] ==> r.table[atn].Keys == row.Keys + EntryKeys(es))
      && r.names.Keys == reg.names.Keys + EntryKeys(es)
  {
    RegisterTableKeys(reg, atn, es);
    RegisterNameKeys(reg, atn, es);
  }

  lemma EntryKeysSnoc<G>(es: seq<Entry<G>>)
    requires es != []
    ensures EntryKeys(es) == EntryKeys(es[..|es| - 1]) + {es[|es| - 1].key}
  {
    assert es == es[..|es| - 1] + [es[|es| - 1]];
  }

  lemma {:induction false} RegisterTableKeys<G>(reg: Registry<G>, atn: string, es: seq<Entry<G>>)
    ensures var r := Register(reg, atn, es);
      var row := if atn in reg.table then reg.table[atn] else map[];
      && r.table.Keys == reg.table.Keys + (if es == [] then {} else {atn})
      && (forall a :: a in reg.table && a != atn ==> r.table[a] == reg.table[a])
      && (es != [] ==> r.table[atn].Keys == row.Keys + EntryKeys(es))
    decreases |es|
  {
    if es != [] {
      RegisterTableKeys(reg, atn, es[..|es| - 1]);
      EntryKeysSnoc(es);
    }
  }

  lemma {:induction false} RegisterNameKeys<G>(reg: Registry<G>, atn: string, es: seq<Entry<G>>)
    ensures Register(reg, atn, es).names.Keys == reg.names.Keys + EntryKeys(es)
    decreases |es|
  {
    if es != [] {
      RegisterNameKeys(reg, atn, es[..|es| - 1]);
      EntryKeysSnoc(es);
    }
  }

  /** A key holds the group of the last entry with that key, and keys no
      entry has keep the groups they had. */
  lemma {:induction false} RegisterValues<G>(reg: Registry<G>, atn: string, es: seq<Entry<G>>)
    ensures var r := Register(reg, atn, es);
      var row := if atn in reg.table then reg.table[atn] else map[];
      && (forall k :: k in row && k !in EntryKeys(es) ==> atn in r.table && k in r.table[atn] && r.table[atn][k] == row[k])
      && (forall i :: LastWith(es, i) ==>
            && atn in r.table && es[i].key in r.table[atn] && es[i].key in r.names
            && r.table[atn][es[i].key] == es[i].info && r.names[es[i].key] == es[i].name)
    decreases |es|
  {
    if es != [] {
      var init, e := es[..|es| - 1], es[|es| - 1];
      RegisterValues(reg, atn, init);
      assert EntryKeys(es) == EntryKeys(init) + {e.key} by {
        assert es == init + [e];
      }
      forall i | LastWith(es, i) && i < |es| - 1
        ensures LastWith(init, i) && es[i] == init[i]
      {
      }
    }
  }

  /** The entry `_build` makes of one run of `groupby`: keyed by the
      sanitized value, `mk` builds the info from the value, the key and the
      run's members. */
  function RunEntry<T, G>(sanitize: string -> string, mk: (string, string, seq<T>) -> G): ((string, seq<T>)) -> Entry<G> {
    (run: (string, seq<T>)) => Entry(sanitize(run.0), run.0, mk(run.0, sanitize(run.0), run.1))
  }

  /** `_build`'s loop over `groupby` of the list sorted by `g`. */
  function GroupEntries<T, G>(sanitize: string -> string, g: T -> string, mk: (string, string, seq<T>) -> G, s: seq<T>): seq<Entry<G>> {
    MapSeq(RunEntry(sanitize, mk), GroupRuns(SortBy(s, StrKey(g)), g))
  }

  /** No two different values of `g` on `s` sanitize to the same key. */
  ghost predicate SanitizeInjective<T>(sanitize: string -> string, g: T -> string, s: seq<T>) {
    forall x, y :: x in s && y in s && sanitize(g(x)) == sanitize(g(y)) ==> g(x) == g(y)
  }

  /** The loop of `_build` over the runs: each run's group recorded under
      its sanitized value, and the value under the key. */
  method RegisterRuns<T, G>(reg: Registry<G>, atn: string, sanitize: string -> string, mk: (string, string, seq<T>) -> G,
                            runs: seq<(string, seq<T>)>) returns (r: Registry<G>)
    ensures r == Register(reg, atn, MapSeq(RunEntry(sanitize, mk), runs))
  {
    ghost var es := MapSeq(RunEntry(sanitize, mk), runs);
    r := reg;
    for i := 0 to |runs|
      invariant r == Register(reg, atn, es[..i])
    {
      RegisterSnoc(reg, atn, es, i);
      var name := runs[i].0;
      var key := sanitize(name);
      r := Registry(Put(r.table, atn, key, mk(name, key, runs[i].1)), r.names[key := name]);
    }
    assert es[..|runs|] == es;
  }

  /** The keys are the sanitized values of the elements. */
  lemma GroupEntriesKeys<T, G>(sanitize: string -> string, g: T -> string, mk: (string, string, seq<T>) -> G, s: seq<T>)
    ensures EntryKeys(GroupEntries(sanitize, g, mk, s)) == set x | x in s :: sanitize(g(x))
  {
    GroupEntriesKeysFrom(sanitize, g, mk, s);
    GroupEntriesKeysOf(sanitize, g, mk, s);
  }

  /** Every entry key is the sanitized value of some element. */
  lemma GroupEntriesKeysFrom<T, G>(sanitize: string -> string, g: T -> string, mk: (string, string, seq<T>) -> G, s: seq<T>)
    ensures forall k :: k in EntryKeys(GroupEntries(sanitize, g, mk, s)) ==> exists x :: x in s && sanitize(g(x)) == k
  {
    var es := GroupEntries(sanitize, g, mk, s);
    var r := GroupRuns(SortBy(s, StrKey(g)), g);
    SortedGroupKeys(s, g);
    assert var r := GroupRuns(SortBy(s, StrKey(g)), g);
      forall i :: 0 <= i < |r| ==> exists x :: x in s && g(x) == r[i].0;
    forall k | k in EntryKeys(es) ensures exists x :: x in s && sanitize(g(x)) == k {
      var i :| 0 <= i < |es| && es[i].key == k;
      assert es[i].key == sanitize(r[i].0);
      var x :| x in s && g(x) == r[i].0;
    }
  }

  /** Every element's sanitized value is an entry key. */
  lemma GroupEntriesKeysOf<T, G>(sanitize: string -> string, g: T -> string, mk: (string, string, seq<T>) -> G, s: seq<T>)
    ensures forall x :: x in s ==> sanitize(g(x)) in EntryKeys(GroupEntries(sanitize, g, mk, s))
  {
    var es := GroupEntries(sanitize, g, mk, s);
    var r := GroupRuns(SortBy(s, StrKey(g)), g);
    SortedGroupsAreClasses(s, g);
    forall x | x in s ensures sanitize(g(x)) in EntryKeys(es) {
      var i :| 0 <= i < |r| && r[i].0 == g(x) && x in r[i].1;
      assert es[i].key == sanitize(g(x));
    }
  }

  /** When sanitizing keeps the values apart, the value of every element
      has one entry, which no later entry overwrites, and its info is made
      from exactly the elements with that value, in their input order. */
  lemma GroupEntriesClasses<T, G>(sanitize: string -> string, g: T -> string, mk: (string, string, seq<T>) -> G, s: seq<T>, x: T)
    requires SanitizeInjective(sanitize, g, s) && x in s
    ensures var es := GroupEntries(sanitize, g, mk, s);
      exists i :: LastWith(es, i) && es[i].key == sanitize(g(x)) && es[i].name == g(x)
        && es[i].info == mk(g(x), sanitize(g(x)), WithKey(s, StrKey(g), [Str(g(x))]))
  {
    var es := GroupEntries(sanitize, g, mk, s);
    var r := GroupRuns(SortBy(s, StrKey(g)), g);
    SortedGroupsAreClasses(s, g);
    var i :| 0 <= i < |r| && r[i].0 == g(x) && x in r[i].1;
    RunEntryAt(sanitize, mk, r, i);
    GroupEntryKeysDistinct(sanitize, g, mk, s);
    assert LastWith(es, i);
  }

  /** When sanitizing keeps the values apart, no two entries share a key. */
  lemma GroupEntryKeysDistinct<T, G>(sanitize: string -> string, g: T -> string, mk: (string, string, seq<T>) -> G, s: seq<T>)
    requires SanitizeInjective(sanitize, g, s)
    ensures var es := GroupEntries(sanitize, g, mk, s);
      forall a, b :: 0 <= a < b < |es| ==> es[a].key != es[b].key
  {
    var es := GroupEntries(sanitize, g, mk, s);
    var r := GroupRuns(SortBy(s, StrKey(g)), g);
    SortedGroupsAreClasses(s, g);
    SortedGroupKeys(s, g);
    forall a, b | 0 <= a < b < |es| ensures es[a].key != es[b].key {
      RunEntryAt(sanitize, mk, r, a);
      RunEntryAt(sanitize, mk, r, b);
      var x :| x in s && g(x) == r[a].0;
      var y :| y in s && g(y) == r[b].0;
    }
  }

  /** The entry `_build` records for the `i`-th run. */
  lemma RunEntryAt<T, G>(sanitize: string -> string, mk: (string, string, seq<T>) -> G, r: seq<(string, seq<T>)>, i: nat)
    requires i < |r|
    ensures var e := MapSeq(RunEntry(sanitize, mk), r)[i];
      e.key == sanitize(r[i].0) && e.name == r[i].0 && e.info == mk(r[i].0, sanitize(r[i].0), r[i].1)
  {
  }

  /** `_build`'s records for one assay: its title under its abbreviation,
      then its groups. */
  function Built<G>(reg: Registry<G>, atn: string, title: string, es: seq<Entry<G>>): Registry<G> {
    Register(Registry(reg.table, reg.names[atn := title]), atn, es)
  }

  /** Recording two lists one after the other records their concatenation. */
  lemma {:induction false} RegisterAppend<G>(reg: Registry<G>, atn: string, a: seq<Entry<G>>, b: seq<Entry<G>>)
    ensures Register(Register(reg, atn, a), atn, b) == Register(reg, atn, a + b)
    decreases |b|
  {
    if b == [] {
      assert a + b == a;
    } else {
      RegisterAppend(reg, atn, a, b[..|b| - 1]);
      assert (a + b)[..|a + b| - 1] == a + b[..|b| - 1];
    }
  }

  /** An entry no later entry overwrites keeps that place behind a prefix. */
  lemma LastWithShift<G>(pre: seq<Entry<G>>, es: seq<Entry<G>>, i: int)
    requires LastWith(es, i)
    ensures LastWith(pre + es, |pre| + i) && (pre + es)[|pre| + i] == es[i]
  {
    forall j | |pre| + i < j < |pre + es| ensures (pre + es)[j].key != es[i].key {
      assert (pre + es)[j] == es[j - |pre|];
    }
  }

  lemma EntryKeysAppend<G>(a: seq<Entry<G>>, b: seq<Entry<G>>)
    ensures EntryKeys(a + b) == EntryKeys(a) + EntryKeys(b)
  {
    forall k | k in EntryKeys(a + b) ensures k in EntryKeys(a) + EntryKeys(b) {
      var j :| 0 <= j < |a + b| && (a + b)[j].key == k;
      if j >= |a| {
        assert (a + b)[j] == b[j - |a|];
      }
    }
    forall k | k in EntryKeys(a) ensures k in EntryKeys(a + b) {
      var j :| 0 <= j < |a| && a[j].key == k;
      assert (a + b)[j] == a[j];
    }
    forall k | k in EntryKeys(b) ensures k in EntryKeys(a + b) {
      var j :| 0 <= j < |b| && b[j].key == k;
      assert (a + b)[|a| + j] == b[j];
    }
  }

  /** Every assay with groups has a name once its `_build` ran. */
  lemma BuiltNamesAssays<G>(reg: Registry<G>, atn: string, title: string, es: seq<Entry<G>>)
    requires reg.table.Keys <= reg.names.Keys
    ensures var r := Built(reg, atn, title, es); r.table.Keys <= r.names.Keys
  {
    RegisterKeys(Registry(reg.table, reg.names[atn := title]), atn, es);
  }

  // ---------------------------------------------------------------------
  // The super-track headers of `_makeMainTrackDb`
  // ---------------------------------------------------------------------

  /** One header per outer key, in order, the i-th numbered `start + i + 1`
      (the priority is incremented before it is used); a header that raises
      ends the list. */
  function Supers(head: string -> Result<SuperTrack>, outer: seq<string>, start: int): (r: Result<seq<SuperTrack>>)
    decreases |outer|
  {
    if outer == [] then Ok([])
    else match Supers(head, outer[..|outer| - 1], start)
      case Err(m) => Err(m)
      case Ok(prev) =>
        match head(outer[|outer| - 1])
        case Err(m) => Err(m)
        case Ok(s) => Ok(prev + [s.(priority := start + |outer|)])
  }

  /** The headers are made exactly when every outer key's header can be;
      they come in the order of the keys and are numbered consecutively. */
  lemma {:induction false} SupersProps(head: string -> Result<SuperTrack>, outer: seq<string>, start: int)
    ensures var r := Supers(head, outer, start);
      && (r.Ok? <==> forall i :: 0 <= i < |outer| ==> head(outer[i]).Ok?)
      && (r.Ok? ==>
            && |r.value| == |outer|
            && forall i :: 0 <= i < |outer| ==> r.value[i] == head(outer[i]).value.(priority := start + i + 1))
    decreases |outer|
  {
    if outer != [] {
      var init := outer[..|outer| - 1];
      SupersProps(head, init, start);
      assert forall i :: 0 <= i < |init| ==> init[i] == outer[i];
    }
  }

  lemma SupersSnoc(head: string -> Result<SuperTrack>, outer: seq<string>, start: int, i: nat)
    requires i < |outer|
    ensures Supers(head, outer[..i + 1], start) == match Supers(head, outer[..i], start)
      case Err(m) => Err(m)
      case Ok(prev) =>
        match head(outer[i])
        case Err(m) => Err(m)
        case Ok(s) => Ok(prev + [s.(priority := start + i + 1)])
  {
    assert outer[..i + 1][..i] == outer[..i];
  }

  /** The header loop with the shared priority counter: it is incremented
      once per header. */
  method SupersCounted(counter: PriorityCounter.Counter, head: string -> Result<SuperTrack>, outer: seq<string>)
    returns (r: Result<seq<SuperTrack>>)
    modifies counter
    ensures r == Supers(head, outer, old(counter.val))
    ensures r.Ok? ==> counter.val == old(counter.val) + |outer|
  {
    var out: seq<SuperTrack> := [];
    for i := 0 to |outer|
      invariant Supers(head, outer[..i], old(counter.val)) == Ok(out)
      invariant counter.val == old(counter.val) + i
    {
      SupersSnoc(head, outer, old(counter.val), i);
      var pri := counter.Increment(1);
      var s := head(outer[i]);
      if s.Err? {
        SupersSticky(head, outer, old(counter.val), i + 1);
        return Err(s.msg);
      }
      out := out + [s.value.(priority := pri)];
    }
    assert outer[..|outer|] == outer;
    r := Ok(out);
  }

  /** The header loop with a local priority that starts at `start`. */
  method SupersFrom(start: int, head: string -> Result<SuperTrack>, outer: seq<string>) returns (r: Result<seq<SuperTrack>>)
    ensures r == Supers(head, outer, start)
  {
    var priority := start;
    var out: seq<SuperTrack> := [];
    for i := 0 to |outer|
      invariant Supers(head, outer[..i], start) == Ok(out)
      invariant priority == start + i
    {
      SupersSnoc(head, outer, start, i);
      priority := priority + 1;
      var s := head(outer[i]);
      if s.Err? {
        SupersSticky(head, outer, start, i + 1);
        return Err(s.msg);
      }
      out := out + [s.value.(priority := priority)];
    }
    assert outer[..|outer|] == outer;
    r := Ok(out);
  }

  lemma {:induction false} SupersSticky(head: string -> Result<SuperTrack>, outer: seq<string>, start: int, i: nat)
    requires i <= |outer| && Supers(head, outer[..i], start).Err?
    ensures Supers(head, outer, start) == Supers(head, outer[..i], start)
    decreases |outer| - i
  {
    if i < |outer| {
      SupersSnoc(head, outer, start, i);
      SupersSticky(head, outer, start, i + 1);
    } else {
      assert outer[..i] == outer;
    }
  }

  /** `_makeMainTrackDb`'s text once the headers are made. */
  method MainTrackDb(fs: FileStore.Files, headers: Result<seq<SuperTrack>>, fnps: seq<string>) returns (r: Result<string>)
    ensures r == match headers
      case Err(m) => Err(m)
      case Ok(hs) => MainText(hs, fs.contents, fnps)
  {
    if headers.Err? {
      return Err(headers.msg);
    }
    r := AppendFiles(fs, Join("\n", MapSeq(SuperText, headers.value)), fnps);
  }
}

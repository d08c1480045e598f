/** The track builders and the per-group emitter of `src/helpers/tracks.py`:
    leaf bigWig, bigBed and cRE stanzas, the composite that gathers one
    experiment's leaves, and the `Tracks` list that numbers and writes them. */
module Tracks {
  import opened Common
  import opened Encode
  import ByAll

  /** The helper module's functions, which are outside this model, and the
      order in which the interpreter walks dictionaries. `unrollPairs` is
      `unrollEquals` of the dictionary a composite builds from a set of
      (key, value) pairs; the set's iteration order, also outside the model,
      decides which value a repeated key keeps. */
  datatype Helpers = Helpers(
    sanitize: string -> string,
    unrollEquals: map<Facet, string> -> string,
    unrollPairs: set<(string, string)> -> string,
    viz: (string, bool) -> string,
    colorize: Exp -> string,
    makeShortLabel: seq<string> -> string,
    makeLongLabel: string -> string,
    htmlEscape: string -> string,
    getOrUnknown: string -> string,
    bigWigFilters: (string, Exp) -> seq<File>,
    bigBedFilters: (string, Exp) -> seq<File>,
    subGroupKeys: seq<Facet>,
    keyOrder: KeyOrder)

  // ---------------------------------------------------------------------
  // Activity lookups
  // ---------------------------------------------------------------------

  /** A biosample's lookup record: its id, its name, its metadata record and its ccRE files. */
  datatype LookupRecord<I> = LookupRecord(btid: string, btname: string, info: I, cREs: map<string, string>)

  /** `LookupActive.isActive`: no biosample is active. */
  function IsActive<I>(l: LookupRecord<I>): (r: bool)
    ensures !r
  {
    false
  }

  /** The three biosamples `LookupActiveForCcREs` shows expanded. */
  const ActiveForCcREs: seq<string> := [
    "hepatocyte_derived_from_H9",
    "bipolar_spindle_neuron_derived_from_induced_pluripotent_stem_cell",
    "B_cell_adult"]

  /** `LookupActiveForCcREs.isActive`. */
  function IsActiveForCcREs<I>(l: LookupRecord<I>): (r: bool)
    ensures r <==> (|| l.btid == "hepatocyte_derived_from_H9"
                    || l.btid == "bipolar_spindle_neuron_derived_from_induced_pluripotent_stem_cell"
                    || l.btid == "B_cell_adult")
  {
    l.btid in ActiveForCcREs
  }

  // ---------------------------------------------------------------------
  // Stanza lines
  // ---------------------------------------------------------------------

  /** A stanza value: the builders store strings, the priority extra an int. */
  datatype Value = S(s: string) | I(i: int)

  /** Python truthiness: "" and 0 are false. */
  predicate Truthy(v: Value) {
    match v
    case S(s) => s != ""
    case I(i) => i != 0
  }

  /** `str(v)` in `outputLines`: a string as it is, an integer in decimal.
      A non-ASCII unicode value, which raises there, is not modelled. */
  function ValueString(v: Value): string {
    match v
    case S(s) => s
    case I(i) => IntToString(i)
  }

  /** The trackDb settings the stanzas use. */
  datatype Setting =
    | Track | ParentTrack | SubGroups | BigDataUrl | Visibility | TrackType | Color | Height
    | ShortLabel | LongLabel | ItemRgb | DarkerLabels | MetadataSetting | ViewSetting | Priority

  /** The settings' names as written in trackDb, in declaration order. */
  const SettingNames: seq<string> := [
    "track", "parent", "subGroups", "bigDataUrl", "visibility", "type", "color", "height",
    "shortLabel", "longLabel", "itemRgb", "darkerLabels", "metadata", "view", "priority"]

  function SettingIndex(k: Setting): (i: nat)
    ensures i < |SettingNames|
  {
    match k
    case Track => 0
    case ParentTrack => 1
    case SubGroups => 2
    case BigDataUrl => 3
    case Visibility => 4
    case TrackType => 5
    case Color => 6
    case Height => 7
    case ShortLabel => 8
    case LongLabel => 9
    case ItemRgb => 10
    case DarkerLabels => 11
    case MetadataSetting => 12
    case ViewSetting => 13
    case Priority => 14
  }

  /** The setting's name as written in trackDb. */
  function SettingName(k: Setting): string {
    SettingNames[SettingIndex(k)]
  }

  /** An ordered dictionary, or a dictionary in its iteration order. */
  type Entries = seq<(Setting, Value)>

  /** The entries with a truthy value, in order. */
  function Emitted(d: Entries): (r: Entries)
    ensures |r| <= |d|
  {
    if d == [] then []
    else Emitted(d[..|d| - 1]) + (if Truthy(d[|d| - 1].1) then [d[|d| - 1]] else [])
  }

  /** `outputLines` drops exactly the falsy entries. */
  lemma {:induction false} EmittedMembers(d: Entries)
    ensures forall e :: e in Emitted(d) <==> e in d && Truthy(e.1)
    decreases |d|
  {
    if d != [] {
      var init := d[..|d| - 1];
      EmittedMembers(init);
      assert d == init + [d[|d| - 1]];
    }
  }

  function Tabs(n: nat): string {
    if n == 0 then "" else Tabs(n - 1) + "\t"
  }

  function Line(prefix: string, e: (Setting, Value)): string {
    prefix + SettingName(e.0) + " " + ValueString(e.1) + "\n"
  }

  /** The `key value` lines of some entries, in order. */
  function EntryLines(prefix: string, es: Entries): (r: seq<string>)
    ensures |r| == |es|
  {
    if es == [] then [] else EntryLines(prefix, es[..|es| - 1]) + [Line(prefix, es[|es| - 1])]
  }

  lemma {:induction false} EntryLinesAt(prefix: string, es: Entries)
    ensures forall i :: 0 <= i < |es| ==> EntryLines(prefix, es)[i] == Line(prefix, es[i])
    decreases |es|
  {
    if es != [] {
      EntryLinesAt(prefix, es[..|es| - 1]);
    }
  }

  /** The loop of `outputLines`: a line for each entry with a truthy value. */
  function StanzaLines(prefix: string, es: Entries): seq<string> {
    if es == [] then []
    else StanzaLines(prefix, es[..|es| - 1]) + (if Truthy(es[|es| - 1].1) then [Line(prefix, es[|es| - 1])] else [])
  }

  /** `outputLines`: one line per truthy entry, the dictionary's before the
      extras', then one blank line closing the stanza. */
  function OutputLines(d: Entries, indent: nat, extras: Entries): seq<string> {
    StanzaLines(Tabs(indent), d + extras) + ["\n"]
  }

  lemma {:induction false} EmittedAppend(a: Entries, b: Entries)
    ensures Emitted(a + b) == Emitted(a) + Emitted(b)
    decreases |b|
  {
    if b != [] {
      EmittedAppend(a, b[..|b| - 1]);
      assert (a + b)[..|a + b| - 1] == a + b[..|b| - 1];
    } else {
      assert a + b == a;
    }
  }

  /** Skipping the falsy entries line by line writes the lines of the emitted entries. */
  lemma {:induction false} StanzaLinesEmitted(prefix: string, es: Entries)
    ensures StanzaLines(prefix, es) == EntryLines(prefix, Emitted(es))
    decreases |es|
  {
    if es != [] {
      var init, e := es[..|es| - 1], es[|es| - 1];
      StanzaLinesEmitted(prefix, init);
      if Truthy(e.1) {
        var m := Emitted(init) + [e];
        assert Emitted(es) == m;
        assert m[..|m| - 1] == Emitted(init) && m[|m| - 1] == e;
        assert EntryLines(prefix, m) == EntryLines(prefix, Emitted(init)) + [Line(prefix, e)];
      } else {
        assert Emitted(es) == Emitted(init) + [];
        assert Emitted(init) + [] == Emitted(init);
      }
    }
  }

  /** Every stanza is its entry lines and then exactly one blank line. */
  lemma OutputLinesShape(d: Entries, indent: nat, extras: Entries)
    ensures var r := OutputLines(d, indent, extras);
            var es := Emitted(d) + Emitted(extras);
            && |r| == |es| + 1
            && (forall i :: 0 <= i < |es| ==> r[i] == Line(Tabs(indent), es[i]))
            && r[|r| - 1] == "\n"
            && (forall i :: 0 <= i < |r| - 1 ==> r[i] != "\n")
  {
    var es := Emitted(d) + Emitted(extras);
    var r := OutputLines(d, indent, extras);
    EmittedAppend(d, extras);
    StanzaLinesEmitted(Tabs(indent), d + extras);
    EntryLinesAt(Tabs(indent), es);
    forall i | 0 <= i < |r| - 1 ensures r[i] != "\n" {
      assert r[i] == Line(Tabs(indent), es[i]);
      assert |r[i]| >= 2;
    }
  }

  /** The first value stored under `k`. */
  function Get(d: Entries, k: Setting): Option<Value> {
    GetFrom(d, k, 0)
  }

  /** The first value stored under `k` at position `i` or later. */
  function GetFrom(d: Entries, k: Setting, i: nat): Option<Value>
    requires i <= |d|
    decreases |d| - i
  {
    if i == |d| then None else if d[i].0 == k then Some(d[i].1) else GetFrom(d, k, i + 1)
  }

  function KeysOf(d: Entries): seq<Setting> {
    seq(|d|, i requires 0 <= i < |d| => d[i].0)
  }

  /** An ordered dictionary filled key by key, as the `_init` methods do. */
  function Zip(keys: seq<Setting>, vals: seq<Value>): (d: Entries)
    requires |keys| == |vals|
    ensures |d| == |keys| && KeysOf(d) == keys
    ensures forall i :: 0 <= i < |d| ==> d[i] == (keys[i], vals[i])
  {
    seq(|keys|, i requires 0 <= i < |keys| => (keys[i], vals[i]))
  }

  /** The value found under a key is the one at the key's first position. */
  lemma GetAt(d: Entries, i: nat)
    requires i < |d| && forall j :: 0 <= j < i ==> d[j].0 != d[i].0
    ensures Get(d, d[i].0) == Some(d[i].1)
  {
    GetFromAt(d, i, 0);
  }

  lemma {:induction false} GetFromAt(d: Entries, i: nat, from: nat)
    requires from <= i < |d| && forall j :: from <= j < i ==> d[j].0 != d[i].0
    ensures GetFrom(d, d[i].0, from) == Some(d[i].1)
    decreases i - from
  {
    if from < i {
      GetFromAt(d, i, from + 1);
    }
  }

  /** `d[k] = v` on an ordered dictionary that already holds `k`: the entry
      keeps its place. */
  function SetKey(d: Entries, k: Setting, v: Value): (r: Entries)
    ensures KeysOf(r) == KeysOf(d)
  {
    seq(|d|, i requires 0 <= i < |d| => if d[i].0 == k then (k, v) else d[i])
  }

  lemma GetSetKey(d: Entries, k: Setting, v: Value, k2: Setting)
    ensures Get(SetKey(d, k, v), k2) == if k2 == k && Get(d, k).Some? then Some(v) else Get(d, k2)
  {
    GetFromSetKey(d, k, v, k2, 0);
  }

  lemma {:induction false} GetFromSetKey(d: Entries, k: Setting, v: Value, k2: Setting, i: nat)
    requires i <= |d|
    ensures GetFrom(SetKey(d, k, v), k2, i) == if k2 == k && GetFrom(d, k, i).Some? then Some(v) else GetFrom(d, k2, i)
    decreases |d| - i
  {
    if i < |d| {
      GetFromSetKey(d, k, v, k2, i + 1);
    }
  }

  // ---------------------------------------------------------------------
  // Parents, URLs and descriptions
  // ---------------------------------------------------------------------

  datatype Parent = Parent(parent: string, on: bool)

  /** `Parent.param`: the parent id and whether the child starts shown. */
  function Param(p: Parent, active: bool): (r: string)
    ensures StartsWith(r, p.parent)
    ensures EndsWith(r, " on") <==> active
  {
    if active then
      EndsWithAppend(p.parent, " on");
      p.parent + " on"
    else
      var r := p.parent + " off";
      assert r[|r| - 3..] == "off";
      r
  }

  /** `Parent.initials`: the prefix every child track id starts with. */
  function Initials(p: Parent): (r: string)
    ensures |r| == (if |p.parent| < 3 then |p.parent| else 3) + 1
    ensures r[|r| - 1] == '_' && r[..|r| - 1] <= p.parent
  {
    var t := Take(p.parent, 3);
    assert (t + "_")[..|t|] == t;
    t + "_"
  }

  const EncodeHost: string := "www.encodeproject.org"
  const ProxySuffix: string := "?proxy=true"

  /** `_url`: files served by the ENCODE portal are fetched through its proxy. */
  function ProxyUrl(u: string): (r: string)
    ensures Contains(u, EncodeHost) ==> EndsWith(r, ProxySuffix) && (EndsWith(u, ProxySuffix) ==> r == u)
    ensures !Contains(u, EncodeHost) ==> r == u
    ensures r == u || r == u + ProxySuffix
  {
    if Contains(u, EncodeHost) && !EndsWith(u, ProxySuffix) then
      EndsWithAppend(u, ProxySuffix);
      u + ProxySuffix
    else u
  }

  /** Rewriting an already rewritten URL changes nothing: the suffix is never added twice. */
  lemma ProxyUrlIdempotent(u: string)
    ensures ProxyUrl(ProxyUrl(u)) == ProxyUrl(u)
  {
    if Contains(u, EncodeHost) && !EndsWith(u, ProxySuffix) {
      ContainsAppend(u, EncodeHost, ProxySuffix);
    }
  }

  /** One step of `os.path.join`: an absolute part restarts the path; a
      "/" separates parts unless the path so far is empty or ends with one. */
  function JoinStep(init: string, b: string): string {
    if StartsWith(b, "/") then b
    else if init == "" || EndsWith(init, "/") then init + b
    else init + "/" + b
  }

  /** `os.path.join` of the POSIX path module. */
  function PathJoin(a: string, parts: seq<string>): string
    decreases |parts|
  {
    if parts == [] then a
    else JoinStep(PathJoin(a, parts[..|parts| - 1]), parts[|parts| - 1])
  }

  /** Joining always ends with the last part. */
  lemma PathJoinEndsWithLast(a: string, parts: seq<string>)
    requires parts != []
    ensures EndsWith(PathJoin(a, parts), parts[|parts| - 1])
  {
    var init := PathJoin(a, parts[..|parts| - 1]);
    var b := parts[|parts| - 1];
    EndsWithAppend(init, b);
    EndsWithAppend(init + "/", b);
  }

  /** Three relative parts, none with a leading "/", joined onto a directory. */
  lemma PathJoinThree(base: string, x: string, y: string, z: string)
    requires EndsWith(base, "/") && x != [] && x[0] != '/' && x[|x| - 1] != '/'
    requires y != [] && y[0] != '/' && EndsWith(y, "/") && z != [] && z[0] != '/'
    ensures PathJoin(base, [x, y, z]) == base + x + "/" + y + z
  {
    assert [x, y, z][..2] == [x, y] && [x, y][..1] == [x] && [x][..0] == [];
    assert !StartsWith(x, "/") && !StartsWith(y, "/") && !StartsWith(z, "/") by {
      assert x[..1] != "/" && y[..1] != "/" && z[..1] != "/";
    }
    var j1 := base + x;
    assert PathJoin(base, [x]) == j1;
    assert !EndsWith(j1, "/") by { assert j1[|j1| - 1..] == [x[|x| - 1]]; }
    var j2 := j1 + "/" + y;
    assert PathJoin(base, [x, y]) == j2;
    assert EndsWith(j2, "/") by { assert j2[|j2| - 1..] == y[|y| - 1..]; }
  }

  const PortalFiles: string := "https://www.encodeproject.org/files/"
  const BigBedProxied: string := ".bigBed?proxy=true"

  /** `cRETrack._url`: the portal download URL of a ccRE bigBed. */
  function CreUrl(accession: string): string {
    PathJoin(PortalFiles, [accession, "@@download/", accession + BigBedProxied])
  }

  /** Whatever the accession, the URL ends with the proxy flag, so the
      bigWig/bigBed rewriting would leave it alone. */
  lemma CreUrlProxied(accession: string)
    ensures EndsWith(CreUrl(accession), BigBedProxied)
  {
    var parts := [accession, "@@download/", accession + BigBedProxied];
    PathJoinEndsWithLast(PortalFiles, parts);
    EndsWithAppend(accession, BigBedProxied);
    EndsWithTrans(CreUrl(accession), parts[2], BigBedProxied);
  }

  /** For a plain accession the URL is the portal's download path. */
  lemma CreUrlShape(accession: string)
    requires accession != "" && accession[0] != '/' && accession[|accession| - 1] != '/'
    ensures CreUrl(accession) == PortalFiles + accession + "/@@download/" + accession + BigBedProxied
  {
    EndsWithAppend("https://www.encodeproject.org/files", "/");
    EndsWithAppend("@@download", "/");
    PathJoinThree(PortalFiles, accession, "@@download/", accession + BigBedProxied);
  }

  /** Python `' '.join(...)` of the truthy parts only. */
  function NonEmpty(parts: seq<string>): seq<string>
  {
    if parts == [] then [] else NonEmpty(parts[..|parts| - 1]) + (if parts[|parts| - 1] != "" then [parts[|parts| - 1]] else [])
  }

  /** `.encode('ascii', 'ignore').decode('ascii')`: drops every non-ASCII character. */
  function AsciiOnly(s: string): (r: string)
    ensures |r| <= |s|
    ensures forall i :: 0 <= i < |r| ==> (r[i] as int) < 128
  {
    if s == [] then [] else AsciiOnly(s[..|s| - 1]) + (if (s[|s| - 1] as int) < 128 then [s[|s| - 1]] else [])
  }

  /** `_desc` of bigWig and bigBed tracks: the accession, then what best
      describes the biosample, then the file's output type in parentheses. */
  function Desc(h: Helpers, exp: Exp, outputType: string): (r: string)
    ensures StartsWith(r, exp.encodeID)
    ensures EndsWith(r, "(" + outputType + ")")
  {
    var middle :=
      if exp.biosampleSummary != "" then [h.sanitize(Strip(exp.biosampleSummary))]
      else if exp.description != "" then [exp.description]
      else [exp.assayTermName] + (if exp.tf != "" then [exp.tf] else [])
           + (if exp.ageDisplay != "" && "unknown" != exp.ageDisplay then [exp.ageDisplay] else []);
    var parts := [exp.encodeID] + middle + ["(" + outputType + ")"];
    JoinEnds(" ", parts);
    Join(" ", parts)
  }

  // ---------------------------------------------------------------------
  // Leaf tracks
  // ---------------------------------------------------------------------

  datatype LeafKind = BigWig | BigWigAll | BigBed | CRE

  /** The dictionary keys of the subgroup, presentation and metadata
      dictionaries. */
  datatype Facet =
    | Donor | AssayFacet | Label | TargetLabel | Biosample | BiosampleSummary | Age | Sex | AgeSex
    | ViewFacet | Tissue | Accession | Description

  /** The key as the generated text spells it. */
  function FacetName(f: Facet): string {
    match f
    case Donor => "donor"
    case AssayFacet => "assay"
    case Label => "label"
    case TargetLabel => "target_label"
    case Biosample => "biosample"
    case BiosampleSummary => "biosample_summary"
    case Age => "age"
    case Sex => "sex"
    case AgeSex => "age_sex"
    case ViewFacet => "view"
    case Tissue => "tissue"
    case Accession => "accession"
    case Description => "description"
  }

  /** A leaf stanza: its kind, whether it is shown, its ordered settings and
      its subgroup presentation pairs. */
  datatype Leaf = Leaf(kind: LeafKind, active: bool, p: Entries, presentation: map<Facet, (string, string)>)

  /** The subgroup values `_subgroups` computes. */
  datatype Subgroups = Subgroups(
    donor: string, assay: string, tf: string, targetLabel: string, biosample: string,
    biosampleSummary: string, age: string, sex: string, ageSex: string, view: string)

  /** `_subgroups` of bigWig and bigBed tracks, for the given view. */
  function ExpSubgroups(h: Helpers, exp: Exp, view: string): Subgroups {
    var assay := if "RNA-seq" == exp.assayTermName then exp.assayTitle else exp.assayTermName;
    var targetLabel := Strip(Join(" ", [exp.assayTermName, exp.target, exp.labelName]));
    var ageSex := Strip(Join(" ", NonEmpty([exp.ageDisplay, exp.donorSex])));
    Subgroups(
      h.getOrUnknown(exp.donorId),
      h.getOrUnknown(assay),
      h.getOrUnknown(exp.tf),
      h.getOrUnknown(targetLabel),
      h.getOrUnknown(exp.biosampleTermName),
      AsciiOnly(h.getOrUnknown(exp.biosampleSummary)),
      "a" + h.sanitize(h.getOrUnknown(exp.ageDisplay)),
      h.getOrUnknown(exp.donorSex),
      h.getOrUnknown(ageSex),
      view)
  }

  /** The dictionary `unrollEquals` receives. */
  function ExpSubgroupMap(s: Subgroups): map<Facet, string> {
    map[
      Donor := s.donor, AssayFacet := s.assay, Label := s.tf, TargetLabel := s.targetLabel,
      Biosample := s.biosample, BiosampleSummary := s.biosampleSummary, Age := s.age,
      Sex := s.sex, AgeSex := s.ageSex, ViewFacet := s.view]
  }

  /** The presentation pairs `_subgroups` records beside the values. */
  function ExpPresentation(h: Helpers, exp: Exp, s: Subgroups): map<Facet, (string, string)> {
    map[
      Label := (s.tf, h.htmlEscape(h.getOrUnknown(exp.tf))),
      AssayFacet := (s.assay, s.assay),
      Donor := (s.donor, s.donor),
      TargetLabel := (s.targetLabel, s.targetLabel),
      Age := (s.age, h.htmlEscape(h.getOrUnknown(exp.ageDisplay))),
      ViewFacet := (s.view, s.view),
      Sex := (s.sex, s.sex),
      AgeSex := (s.ageSex, s.ageSex),
      Biosample := (s.biosample, s.biosample),
      BiosampleSummary := (s.biosampleSummary, s.biosampleSummary),
      Tissue := (s.biosample, s.biosample)]
  }

  /** `_metadata` of every leaf kind. */
  function MetadataOf(h: Helpers, exp: Exp, desc: string, view: string): map<Facet, string> {
    map[
      Age := h.sanitize(h.getOrUnknown(exp.ageDisplay)),
      Sex := h.getOrUnknown(exp.donorSex),
      Accession := exp.encodeID,
      Description := h.sanitize(desc),
      Donor := exp.donorId,
      ViewFacet := view]
  }

  /** The id of a file's track under a parent. */
  function FileTrackId(h: Helpers, parent: Parent, f: File): string {
    Initials(parent) + h.sanitize(f.expID + "_" + f.fileID)
  }

  /** The settings of a bigWig stanza, in the order `_init` stores them. */
  const BigWigKeys: seq<Setting> := [
    Track, ParentTrack, SubGroups, BigDataUrl, Visibility, TrackType, Color, Height,
    ShortLabel, LongLabel, ItemRgb, DarkerLabels, MetadataSetting, ViewSetting]

  /** A bigWig stanza's settings, given their values. */
  function BigWigEntries(id: string, parentParam: string, subGroups: string, url: string, viz: string,
                         color: string, shortLabel: string, longLabel: string, metadata: string): (d: Entries)
    ensures KeysOf(d) == BigWigKeys
    ensures Get(d, Track) == Some(S(id)) && Get(d, ParentTrack) == Some(S(parentParam))
    ensures Get(d, Color) == Some(S(color))
  {
    var d := Zip(BigWigKeys, [
      S(id), S(parentParam), S(subGroups), S(url), S(viz), S("bigWig"), S(color),
      S("maxHeightPixels 64:12:8"), S(shortLabel), S(longLabel), S("On"), S("on"),
      S(metadata), S("bigWig")]);
    GetAt(d, 0);
    GetAt(d, 1);
    GetAt(d, 6);
    d
  }

  /** `BigWigTrack`: the signal track of one file. */
  function BigWigTrack(h: Helpers, exp: Exp, f: File, parent: Parent, active: bool): (r: Leaf)
    ensures r.kind == BigWig && r.active == active
    ensures KeysOf(r.p) == BigWigKeys
    ensures Get(r.p, Track) == Some(S(FileTrackId(h, parent, f)))
    ensures Get(r.p, ParentTrack) == Some(S(Param(parent, active)))
    ensures Get(r.p, Color) == Some(S(h.colorize(exp)))
  {
    var desc := Desc(h, exp, f.outputType);
    var s := ExpSubgroups(h, exp, "bigWig");
    var p := BigWigEntries(
      FileTrackId(h, parent, f), Param(parent, active), h.unrollEquals(ExpSubgroupMap(s)),
      ProxyUrl(f.url), h.viz("full", active), h.colorize(exp),
      h.makeShortLabel([exp.assayTermName, exp.tf]),
      h.makeLongLabel(exp.assayTermName + " " + desc),
      h.unrollEquals(MetadataOf(h, exp, desc, "bigWig")));
    Leaf(BigWig, active, p, ExpPresentation(h, exp, s))
  }

  /** The settings `BigWigTrackAll` overrides after building a plain bigWig track. */
  const AllOverrides: set<Setting> := {Color, Track, Height, ShortLabel}

  /** The four assignments `BigWigTrackAll` makes to a plain bigWig
      track's settings: each replaces a value in place. */
  function AllSettings(d: Entries, color: string, id: string, shortLabel: string): (r: Entries)
    ensures KeysOf(r) == KeysOf(d)
    ensures forall i :: 0 <= i < |r| && r[i].0 !in AllOverrides ==> r[i] == d[i]
    ensures Get(d, Track).Some? ==> Get(r, Track) == Some(S("all_" + id))
    ensures Get(d, Color).Some? ==> Get(r, Color) == Some(S(color))
  {
    var p1 := SetKey(d, Color, S(color));
    var p2 := SetKey(p1, Track, S("all_" + id));
    var p3 := SetKey(p2, Height, S("maxHeightPixels 32:12:8"));
    var r := SetKey(p3, ShortLabel, S(shortLabel));
    GetSetKey(d, Color, S(color), Track);
    GetSetKey(p1, Track, S("all_" + id), Track);
    GetSetKey(p2, Height, S("maxHeightPixels 32:12:8"), Track);
    GetSetKey(p3, ShortLabel, S(shortLabel), Track);
    GetSetKey(d, Color, S(color), Color);
    GetSetKey(p1, Track, S("all_" + id), Color);
    GetSetKey(p2, Height, S("maxHeightPixels 32:12:8"), Color);
    GetSetKey(p3, ShortLabel, S(shortLabel), Color);
    r
  }

  /** `BigWigTrackAll`: a bigWig track coloured by tissue, with an "all_" id;
      every other setting is the plain track's, in the same place. */
  function BigWigTrackAll(h: Helpers, exp: Exp, f: File, parent: Parent, active: bool, tissue: string, color: string): (r: Leaf)
    ensures r.kind == BigWigAll && r.active == active
    ensures KeysOf(r.p) == BigWigKeys
    ensures Get(r.p, Track) == Some(S("all_" + FileTrackId(h, parent, f)))
    ensures Get(r.p, Color) == Some(S(color))
    ensures var base := BigWigTrack(h, exp, f, parent, active).p;
            forall i :: 0 <= i < |r.p| && r.p[i].0 !in AllOverrides ==> r.p[i] == base[i]
    ensures r.presentation == BigWigTrack(h, exp, f, parent, active).presentation[Tissue := (tissue, tissue)]
  {
    var base := BigWigTrack(h, exp, f, parent, active);
    var p := AllSettings(base.p, color, FileTrackId(h, parent, f), h.makeShortLabel([tissue]));
    Leaf(BigWigAll, active, p, base.presentation[Tissue := (tissue, tissue)])
  }

  /** The settings of a bigBed stanza, in the order `_init` stores them. */
  const BigBedKeys: seq<Setting> := [
    Track, ParentTrack, SubGroups, BigDataUrl, Visibility, TrackType, ShortLabel,
    LongLabel, ItemRgb, Color, DarkerLabels, MetadataSetting, ViewSetting]

  /** A bigBed stanza's settings, given their values. */
  function BigBedEntries(id: string, parentParam: string, subGroups: string, url: string, viz: string,
                         shortLabel: string, longLabel: string, color: string, metadata: string,
                         view: string): (d: Entries)
    ensures KeysOf(d) == BigBedKeys
    ensures Get(d, Track) == Some(S(id)) && Get(d, ParentTrack) == Some(S(parentParam))
  {
    var d := Zip(BigBedKeys, [
      S(id), S(parentParam), S(subGroups), S(url), S(viz), S("bigBed"), S(shortLabel),
      S(longLabel), S("On"), S(color), S("on"), S(metadata), S(view)]);
    GetAt(d, 0);
    GetAt(d, 1);
    d
  }

  /** `BigBedTrack`: the peak track of one file, under the experiment's view. */
  function BigBedTrack(h: Helpers, exp: Exp, f: File, bedParent: Parent, active: bool): (r: Leaf)
    ensures r.kind == BigBed && r.active == active
    ensures KeysOf(r.p) == BigBedKeys
    ensures Get(r.p, Track) == Some(S(FileTrackId(h, bedParent, f)))
    ensures Get(r.p, ParentTrack) == Some(S(Param(bedParent, bedParent.on)))
  {
    var desc := Desc(h, exp, f.outputType);
    var s := ExpSubgroups(h, exp, exp.encodeID);
    var p := BigBedEntries(
      FileTrackId(h, bedParent, f), Param(bedParent, bedParent.on), h.unrollEquals(ExpSubgroupMap(s)),
      ProxyUrl(f.url), h.viz("dense", active), h.makeShortLabel([exp.assayTermName, exp.tf]),
      h.makeLongLabel(desc), h.colorize(exp), h.unrollEquals(MetadataOf(h, exp, desc, exp.encodeID)),
      exp.encodeID);
    Leaf(BigBed, active, p, ExpPresentation(h, exp, s))
  }

  /** `cRETrack._subgroups`: values and presentation pairs. */
  function CreSubgroupMap(h: Helpers, exp: Exp, stateType: string): map<Facet, string> {
    map[
      Donor := h.getOrUnknown(exp.donorId),
      AssayFacet := h.getOrUnknown(stateType),
      Label := h.getOrUnknown(exp.tf),
      Biosample := h.getOrUnknown(exp.biosampleTermName),
      Age := "a" + h.sanitize(h.getOrUnknown(exp.ageDisplay)),
      ViewFacet := exp.encodeID]
  }

  function CrePresentation(h: Helpers, exp: Exp, stateType: string): map<Facet, (string, string)> {
    var assay := h.getOrUnknown(stateType);
    var biosample := h.getOrUnknown(exp.biosampleTermName);
    var tf := h.getOrUnknown(exp.tf);
    var donor := h.getOrUnknown(exp.donorId);
    var age := "a" + h.sanitize(h.getOrUnknown(exp.ageDisplay));
    map[
      Label := (tf, h.htmlEscape(h.getOrUnknown(exp.tf))),
      AssayFacet := (assay, assay),
      Donor := (donor, donor),
      Age := (age, h.htmlEscape(h.getOrUnknown(exp.ageDisplay))),
      ViewFacet := (exp.encodeID, exp.encodeID),
      Biosample := (biosample, biosample),
      Sex := ("", ""),
      AgeSex := ("", ""),
      TargetLabel := (assay, assay),
      BiosampleSummary := (biosample, biosample),
      Tissue := (biosample, biosample)]
  }

  /** The settings of a ccRE stanza, in the order `_init` stores them. */
  const CreKeys: seq<Setting> := [
    Track, ParentTrack, SubGroups, BigDataUrl, Visibility, TrackType, ShortLabel,
    LongLabel, ItemRgb, DarkerLabels, MetadataSetting, ViewSetting]

  /** A ccRE stanza's settings, given their values. */
  function CreEntries(id: string, parentParam: string, subGroups: string, url: string, viz: string,
                      shortLabel: string, longLabel: string, metadata: string, view: string): (d: Entries)
    ensures KeysOf(d) == CreKeys
    ensures Get(d, Track) == Some(S(id)) && Get(d, ParentTrack) == Some(S(parentParam))
  {
    var d := Zip(CreKeys, [
      S(id), S(parentParam), S(subGroups), S(url), S(viz), S("bigBed 9"), S(shortLabel),
      S(longLabel), S("On"), S("on"), S(metadata), S(view)]);
    GetAt(d, 0);
    GetAt(d, 1);
    d
  }

  /** `cRETrack`: one ccRE bigBed; only the five-group state can be shown. */
  function CRETrack(h: Helpers, exp: Exp, stateType: string, accession: string, bedParent: Parent, active: bool): (r: Leaf)
    ensures r.kind == CRE
    ensures r.active <==> active && stateType == "5group"
    ensures KeysOf(r.p) == CreKeys
    ensures Get(r.p, Track) == Some(S(Initials(bedParent) + h.sanitize(exp.encodeID + "_" + accession)))
    ensures Get(r.p, ParentTrack) == Some(S(Param(bedParent, bedParent.on)))
  {
    var a := active && "5group" == stateType;
    var desc := accession + " " + stateType + " " + exp.description;
    var p := CreEntries(
      Initials(bedParent) + h.sanitize(exp.encodeID + "_" + accession), Param(bedParent, bedParent.on),
      h.unrollEquals(CreSubgroupMap(h, exp, stateType)), CreUrl(accession), h.viz("dense", a),
      h.makeShortLabel([exp.assayTermName, exp.tf]), h.makeLongLabel(desc),
      h.unrollEquals(MetadataOf(h, exp, desc, exp.encodeID)), exp.encodeID);
    Leaf(CRE, a, p, CrePresentation(h, exp, stateType))
  }

  function LeafIndent(l: Leaf): nat {
    if l.kind == BigWig || l.kind == BigWigAll then 1 else 2
  }

  /** The extras of `lines(idx)`: a priority for shown tracks only. */
  function LeafExtras(l: Leaf, idx: int): Entries {
    if l.active then [(Priority, I(idx))] else []
  }

  /** `lines(idx)` of every leaf kind. */
  function LeafLines(l: Leaf, idx: int): seq<string> {
    OutputLines(l.p, LeafIndent(l), LeafExtras(l, idx))
  }

  /** A leaf writes a priority line exactly when it is shown and its
      priority is non-zero (0 is falsy and dropped). */
  lemma PriorityWritten(l: Leaf, idx: int)
    requires Priority !in KeysOf(l.p)
    ensures (exists v :: (Priority, v) in Emitted(l.p) + Emitted(LeafExtras(l, idx))) <==> l.active && idx != 0
  {
    EmittedMembers(l.p);
    EmittedMembers(LeafExtras(l, idx));
    if l.active && idx != 0 {
      assert (Priority, I(idx)) in Emitted(LeafExtras(l, idx));
    }
    forall i | 0 <= i < |l.p| ensures l.p[i].0 != Priority {
      assert KeysOf(l.p)[i] == l.p[i].0;
    }
  }

  // ---------------------------------------------------------------------
  // One experiment's composite
  // ---------------------------------------------------------------------

  /** A finished composite: what `Tracks` keeps of a `CompositeExpTrack`. */
  datatype Composite = Composite(
    exp: Exp, active: bool, parent: Parent, bedParent: Parent,
    beds: seq<Leaf>, bigWigs: seq<Leaf>, cREs: seq<Leaf>, tissue: Option<string>)

  function BedParentOf(parent: Parent, exp: Exp): Parent {
    Parent(parent.parent + "_view_" + exp.encodeID, parent.on)
  }

  /** `_addExpBestBed`: the first bigBed file's track, if any. */
  function BedTracks(h: Helpers, assembly: string, exp: Exp, bedParent: Parent, active: bool): (r: seq<Leaf>)
    ensures |r| <= 1
    ensures r == [] <==> h.bigBedFilters(assembly, exp) == []
    ensures r != [] ==> r[0] == BigBedTrack(h, exp, h.bigBedFilters(assembly, exp)[0], bedParent, active)
  {
    var files := h.bigBedFilters(assembly, exp);
    if files == [] then [] else [BigBedTrack(h, exp, files[0], bedParent, active)]
  }

  /** `_addExpBestBigWig`: one track per bigWig file, in file order. */
  function BigWigTracks(h: Helpers, assembly: string, exp: Exp, parent: Parent, active: bool): seq<Leaf> {
    MapSeq(BigWigMaker(h, exp, parent, active), h.bigWigFilters(assembly, exp))
  }

  /** The track a file gets under `_addExpBestBigWig`. */
  function BigWigMaker(h: Helpers, exp: Exp, parent: Parent, active: bool): File -> Leaf {
    f => BigWigTrack(h, exp, f, parent, active)
  }

  function Accessions(kept: seq<(string, string)>): set<string> {
    set i | 0 <= i < |kept| :: kept[i].1
  }

  lemma AccessionsSnoc(kept: seq<(string, string)>, x: (string, string))
    ensures Accessions(kept + [x]) == Accessions(kept) + {x.1}
  {
    var r := kept + [x];
    forall a | a in Accessions(r) ensures a in Accessions(kept) + {x.1} {
      var i :| 0 <= i < |r| && r[i].1 == a;
      if i < |kept| { assert kept[i].1 == a; }
    }
    assert r[|kept|].1 == x.1;
    forall a | a in Accessions(kept) ensures a in Accessions(r) {
      var i :| 0 <= i < |kept| && kept[i].1 == a;
      assert r[i].1 == a;
    }
  }

  /** The (state type, accession) pairs `_addcREs` keeps while walking the
      first `n` state types in order: a pair whose accession was already
      kept is skipped. */
  function KeptCREs(order: seq<string>, cREs: map<string, string>, n: nat): seq<(string, string)>
    requires n <= |order| && forall k :: k in order ==> k in cREs
  {
    if n == 0 then []
    else
      var kept := KeptCREs(order, cREs, n - 1);
      var st := order[n - 1];
      if cREs[st] in Accessions(kept) then kept else kept + [(st, cREs[st])]
  }

  lemma {:induction false} KeptCREsProps(order: seq<string>, cREs: map<string, string>, n: nat)
    requires n <= |order| && forall k :: k in order ==> k in cREs
    ensures var r := KeptCREs(order, cREs, n);
            && (forall i :: 0 <= i < |r| ==> r[i].0 in order[..n] && r[i].1 == cREs[r[i].0])
            && (forall i, j :: 0 <= i < j < |r| ==> r[i].1 != r[j].1)
            && (forall k :: k in order[..n] ==> cREs[k] in Accessions(r))
    decreases n
  {
    if n > 0 {
      KeptCREsProps(order, cREs, n - 1);
      assert order[..n] == order[..n - 1] + [order[n - 1]];
      var kept := KeptCREs(order, cREs, n - 1);
      var st := order[n - 1];
      if cREs[st] !in Accessions(kept) {
        AccessionsSnoc(kept, (st, cREs[st]));
      }
    }
  }

  /** `_addcREs` keeps exactly one track per distinct accession in the map. */
  lemma KeptCREsOnePerAccession(order: seq<string>, cREs: map<string, string>)
    requires IsOrderOf(order, cREs.Keys)
    ensures var kept := KeptCREs(order, cREs, |order|);
            && Accessions(kept) == cREs.Values
            && |kept| == |cREs.Values|
  {
    var kept := KeptCREs(order, cREs, |order|);
    KeptCREsProps(order, cREs, |order|);
    assert order[..|order|] == order;
    forall a | a in Accessions(kept) ensures a in cREs.Values {
      var i :| 0 <= i < |kept| && kept[i].1 == a;
      assert kept[i].0 in cREs;
    }
    forall a | a in cREs.Values ensures a in Accessions(kept) {
      var k :| k in cREs && cREs[k] == a;
      assert k in order;
    }
    DistinctCard(kept);
  }

  lemma {:induction false} DistinctCard(kept: seq<(string, string)>)
    requires forall i, j :: 0 <= i < j < |kept| ==> kept[i].1 != kept[j].1
    ensures |Accessions(kept)| == |kept|
    decreases |kept|
  {
    if kept != [] {
      var init := kept[..|kept| - 1];
      DistinctCard(init);
      assert kept == init + [kept[|kept| - 1]];
      AccessionsSnoc(init, kept[|kept| - 1]);
    }
  }

  /** The track a kept (state type, accession) pair gets. */
  function CREMaker(h: Helpers, exp: Exp, bedParent: Parent, active: bool): ((string, string)) -> Leaf {
    (x: (string, string)) => CRETrack(h, exp, x.0, x.1, bedParent, active)
  }

  function CRELeaves(h: Helpers, exp: Exp, kept: seq<(string, string)>, bedParent: Parent, active: bool): seq<Leaf> {
    MapSeq(CREMaker(h, exp, bedParent, active), kept)
  }

  function CRETracks(h: Helpers, exp: Exp, cREs: map<string, string>, bedParent: Parent, active: bool): seq<Leaf> {
    var order := h.keyOrder(cREs.Keys);
    CRELeaves(h, exp, KeptCREs(order, cREs, |order|), bedParent, active)
  }

  /** The composite `Tracks.addExp` appends. */
  function ExpComposite(h: Helpers, assembly: string, parent: Parent, exp: Exp, active: bool, cREs: map<string, string>): Composite {
    var bedParent := BedParentOf(parent, exp);
    Composite(exp, active, parent, bedParent,
              BedTracks(h, assembly, exp, bedParent, active),
              BigWigTracks(h, assembly, exp, parent, active),
              CRETracks(h, exp, cREs, bedParent, active),
              None)
  }

  /** The colour-by-tissue tracks of `_addExpBestBigWigAll`, given the
      colours handed out for the files in turn. */
  function BigWigAllTracks(h: Helpers, exp: Exp, files: seq<File>, parent: Parent, active: bool, tissue: string, colors: seq<string>): seq<Leaf>
    requires |colors| == |files|
  {
    MapSeq(BigWigAllMaker(h, exp, parent, active, tissue), Pairs(files, colors))
  }

  /** The track a file gets under `_addExpBestBigWigAll`, given its colour. */
  function BigWigAllMaker(h: Helpers, exp: Exp, parent: Parent, active: bool, tissue: string): ((File, string)) -> Leaf {
    (x: (File, string)) => BigWigTrackAll(h, exp, x.0, parent, active, tissue, x.1)
  }

  /** One more pass of `_addExpBestBigWigAll`'s loop. */
  lemma BigWigAllStep(h: Helpers, exp: Exp, files: seq<File>, i: nat, parent: Parent, active: bool, tissue: string, colors: seq<string>, c: string)
    requires |colors| == i < |files|
    ensures BigWigAllTracks(h, exp, files[..i + 1], parent, active, tissue, colors + [c])
         == BigWigAllTracks(h, exp, files[..i], parent, active, tissue, colors) + [BigWigTrackAll(h, exp, files[i], parent, active, tissue, c)]
  {
    assert files[..i + 1] == files[..i] + [files[i]];
    PairsSnoc(files[..i], colors, files[i], c);
    MapSeqSnoc(BigWigAllMaker(h, exp, parent, active, tissue), Pairs(files[..i], colors), (files[i], c));
  }

  /** The composite `Tracks.addExpAll` appends, given the experiment's
      tissue and the colours its files received. */
  function AllComposite(h: Helpers, parent: Parent, exp: Exp, active: bool, files: seq<File>, tissue: string, colors: seq<string>): Composite
    requires |colors| == |files|
  {
    Composite(exp, active, parent, BedParentOf(parent, exp), [],
              BigWigAllTracks(h, exp, files, parent, active, tissue, colors), [], Some(tissue))
  }

  /** `Tracks.addExpAll` from the palette state `p`: the tissue lookup, then
      one colour per bigWig file; the composite, or the first error, and the
      palette state after it. */
  function AllStep(h: Helpers, lookupBTN: map<string, map<string, string>>, assembly: string, parent: Parent,
                   p: ByAll.Palette, exp: Exp, active: bool): (Result<Composite>, ByAll.Palette)
  {
    match ByAll.GetTissue(lookupBTN, assembly, exp)
    case Err(m) => (Err(m), p)
    case Ok(t) =>
      var files := h.bigWigFilters(assembly, exp);
      var run := ByAll.ColorAll(p, Repeat(t, |files|));
      if run.0.Err? then (Err(run.0.msg), run.1)
      else (Ok(AllComposite(h, parent, exp, active, files, t, run.0.value)), run.1)
  }

  /** Proof helper for `CompositeExpTrack.AddExpAll`: once the tissue is
      found, `addExpAll` is the colouring of that tissue's bigWig files. */
  lemma AllStepOk(h: Helpers, lookupBTN: map<string, map<string, string>>, assembly: string, parent: Parent,
                  p: ByAll.Palette, exp: Exp, active: bool, t: string)
    requires ByAll.GetTissue(lookupBTN, assembly, exp) == Ok(t)
    ensures var files := h.bigWigFilters(assembly, exp);
      var run := ByAll.ColorAll(p, Repeat(t, |files|));
      AllStep(h, lookupBTN, assembly, parent, p, exp, active)
        == if run.0.Err? then (Err(run.0.msg), run.1)
           else (Ok(AllComposite(h, parent, exp, active, files, t, run.0.value)), run.1)
  {
  }

  /** `addExpAll` succeeds exactly when the tissue is known and the palette
      can colour every bigWig file; its composite then holds one track per
      file and no beds or ccREs, and the palette stays consistent, keeping
      every colour it had already handed out. */
  lemma AllStepProps(h: Helpers, lookupBTN: map<string, map<string, string>>, assembly: string, parent: Parent,
                     p: ByAll.Palette, exp: Exp, active: bool)
    requires ByAll.PaletteValid(p)
    ensures var step := AllStep(h, lookupBTN, assembly, parent, p, exp, active);
      var got := ByAll.GetTissue(lookupBTN, assembly, exp);
      var files := h.bigWigFilters(assembly, exp);
      && ByAll.PaletteValid(step.1)
      && (forall u :: u in p.byTissue ==> u in step.1.byTissue && step.1.byTissue[u] == p.byTissue[u])
      && (step.0.Ok? <==> got.Ok? && ByAll.ColorAll(p, Repeat(got.value, |files|)).0.Ok?)
      && (step.0.Ok? ==>
            && step.0.value.tissue == Some(got.value) && |step.0.value.bigWigs| == |files|
            && step.0.value.beds == [] && step.0.value.cREs == [])
  {
    var got := ByAll.GetTissue(lookupBTN, assembly, exp);
    if got.Ok? {
      ByAll.ColorAllConsistent(p, Repeat(got.value, |h.bigWigFilters(assembly, exp)|));
    }
  }

  /** The same tissue, once per bigWig file. */
  function Repeat(t: string, n: nat): (r: seq<string>)
    ensures |r| == n && forall i :: 0 <= i < n ==> r[i] == t
  {
    seq(n, _ => t)
  }

  /** All files of one experiment get one colour: the tissue's. */
  lemma OneColorPerExperiment(p: ByAll.Palette, t: string, n: nat)
    requires ByAll.PaletteValid(p)
    requires ByAll.ColorAll(p, Repeat(t, n)).0.Ok?
    ensures var cs := ByAll.ColorAll(p, Repeat(t, n)).0.value;
            |cs| == n && forall i :: 0 <= i < n ==> cs[i] == cs[0]
  {
    ByAll.ColorAllConsistent(p, Repeat(t, n));
  }

  /** Once a run of colour requests fails, every longer run fails the same
      way and leaves the palette as it was at the failure. */
  lemma {:induction false} ColorAllStopsAtError(p: ByAll.Palette, t: string, n: nat, m: nat)
    requires n <= m
    requires ByAll.ColorAll(p, Repeat(t, n)).0.Err?
    ensures ByAll.ColorAll(p, Repeat(t, m)) == ByAll.ColorAll(p, Repeat(t, n))
    decreases m - n
  {
    if n < m {
      assert Repeat(t, n + 1)[..n] == Repeat(t, n);
      ColorAllStopsAtError(p, t, n + 1, m);
    }
  }

  const Dense: string := "dense"
  const BigBedType: string := "bigBed"

  /** `CompositeExpTrack.view`: the stanza grouping an experiment's bigBeds. */
  function ViewEntries(c: Composite): Entries {
    [(Track, S(c.bedParent.parent)),
     (ParentTrack, S(Param(c.parent, c.active))),
     (ViewSetting, S(c.exp.encodeID)),
     (Visibility, S(Dense)),
     (TrackType, S(BigBedType))]
  }

  /** `CompositeExpTrack.tracks()`: beds, then ccREs, then bigWigs. */
  function CompositeLeaves(c: Composite): seq<Leaf> {
    c.beds + c.cREs + c.bigWigs
  }

  /** The per-experiment builder of `tracks.py`; `addExp` or `addExpAll`
      fills its leaf lists. */
  class CompositeExpTrack {
    const assembly: string
    const parent: Parent
    const exp: Exp
    const active: bool
    const bedParent: Parent := BedParentOf(parent, exp)
    var beds: seq<Leaf>
    var bigWigs: seq<Leaf>
    var cREs: seq<Leaf>
    var tissue: Option<string>

    constructor(assembly: string, parent: Parent, exp: Exp, active: bool)
      ensures this.assembly == assembly && this.parent == parent && this.exp == exp && this.active == active
      ensures bedParent == BedParentOf(parent, exp)
      ensures beds == [] && bigWigs == [] && cREs == [] && tissue == None
    {
      this.assembly := assembly;
      this.parent := parent;
      this.exp := exp;
      this.active := active;
      beds, bigWigs, cREs := [], [], [];
      tissue := None;
    }

    function Snapshot(): Composite
      reads this
    {
      Composite(exp, active, parent, bedParent, beds, bigWigs, cREs, tissue)
    }

    method AddExpBestBigWig(h: Helpers) returns (ret: seq<Leaf>)
      ensures ret == BigWigTracks(h, assembly, exp, parent, active)
    {
      var files := h.bigWigFilters(assembly, exp);
      ret := [];
      for i := 0 to |files|
        invariant ret == MapSeq(BigWigMaker(h, exp, parent, active), files[..i])
      {
        MapSeqStep(BigWigMaker(h, exp, parent, active), files, i);
        ret := ret + [BigWigTrack(h, exp, files[i], parent, active)];
      }
      assert files[..|files|] == files;
    }

    /** Only the first bigBed file is used: the loop over the files stops
        after its first pass. */
    method AddExpBestBed(h: Helpers) returns (ret: seq<Leaf>)
      ensures ret == BedTracks(h, assembly, exp, bedParent, active)
    {
      var files := h.bigBedFilters(assembly, exp);
      if files == [] {
        return [];
      }
      ret := [BigBedTrack(h, exp, files[0], bedParent, active)];
    }

    method AddCREs(h: Helpers, cREMap: map<string, string>) returns (ret: seq<Leaf>)
      ensures ret == CRETracks(h, exp, cREMap, bedParent, active)
    {
      var order := h.keyOrder(cREMap.Keys);
      ret := [];
      var seen: set<string> := {};
      for i := 0 to |order|
        invariant seen == Accessions(KeptCREs(order, cREMap, i))
        invariant ret == CRELeaves(h, exp, KeptCREs(order, cREMap, i), bedParent, active)
      {
        var stateType := order[i];
        var accession := cREMap[stateType];
        ghost var kept := KeptCREs(order, cREMap, i);
        if accession !in seen {
          ret := ret + [CRETrack(h, exp, stateType, accession, bedParent, active)];
          seen := seen + {accession};
          AccessionsSnoc(kept, (stateType, accession));
          MapSeqSnoc(CREMaker(h, exp, bedParent, active), kept, (stateType, accession));
        }
      }
    }

    method AddExp(h: Helpers, cREMap: map<string, string>)
      modifies this
      ensures Snapshot() == ExpComposite(h, assembly, parent, exp, active, cREMap).(tissue := old(tissue))
    {
      beds := AddExpBestBed(h);
      bigWigs := AddExpBestBigWig(h);
      cREs := AddCREs(h, cREMap);
    }

    /** The loop of `_addExpBestBigWigAll`: one tissue-coloured track per
        bigWig file, each colour asked of the palette in turn; a palette that
        runs out ends it with the error. */
    method ColorFiles(h: Helpers, palette: ByAll.TissuePalette, t: string, files: seq<File>) returns (r: Result<seq<Leaf>>)
      requires palette.Valid()
      modifies palette
      ensures palette.Valid()
      ensures var run := ByAll.ColorAll(old(palette.State()), Repeat(t, |files|));
        && palette.State() == run.1
        && (run.0.Err? ==> r == Err(run.0.msg))
        && (run.0.Ok? ==> r == Ok(BigWigAllTracks(h, exp, files, parent, active, t, run.0.value)))
    {
      ghost var p0 := palette.State();
      var ret: seq<Leaf> := [];
      ghost var colors: seq<string> := [];
      for i := 0 to |files|
        invariant palette.Valid()
        invariant ByAll.ColorAll(p0, Repeat(t, i)) == (Ok(colors), palette.State())
        invariant |colors| == i
        invariant ret == BigWigAllTracks(h, exp, files[..i], parent, active, t, colors)
      {
        assert Repeat(t, i + 1)[..i] == Repeat(t, i);
        var c := palette.ColorByTissue(t);
        if c.Err? {
          ColorAllStopsAtError(p0, t, i + 1, |files|);
          return Err(c.msg);
        }
        BigWigAllStep(h, exp, files, i, parent, active, t, colors, c.value);
        ret := ret + [BigWigTrackAll(h, exp, files[i], parent, active, t, c.value)];
        colors := colors + [c.value];
      }
      assert files[..|files|] == files;
      r := Ok(ret);
    }

    /** `addExpAll` (through `_addExpBestBigWigAll`): records the tissue and
        builds one tissue-coloured track per bigWig file; a tissue lookup
        that raises or a palette that runs out ends it with the error. */
    method AddExpAll(h: Helpers, lookupBTN: map<string, map<string, string>>, palette: ByAll.TissuePalette) returns (r: Result<()>)
      requires palette.Valid()
      modifies this, palette
      ensures palette.Valid()
      ensures var step := AllStep(h, lookupBTN, assembly, parent, old(palette.State()), exp, active);
        && palette.State() == step.1
        && (step.0.Err? ==> r == Err(step.0.msg))
        && (step.0.Ok? ==> r == Ok(()) && Snapshot() == step.0.value.(beds := old(beds), cREs := old(cREs)))
    {
      ghost var p0 := palette.State();
      var got := ByAll.GetTissue(lookupBTN, assembly, exp);
      if got.Err? {
        return Err(got.msg);
      }
      var t := got.value;
      tissue := Some(t);
      var files := h.bigWigFilters(assembly, exp);
      AllStepOk(h, lookupBTN, assembly, parent, p0, exp, active, t);
      var made := ColorFiles(h, palette, t, files);
      if made.Err? {
        return Err(made.msg);
      }
      bigWigs := made.value;
      r := Ok(());
    }

    function View(): Entries
      reads this
    {
      ViewEntries(Snapshot())
    }
  }

  // ---------------------------------------------------------------------
  // Ordering the composites
  // ---------------------------------------------------------------------

  /** `_sortedTracks`' key: DNase first, then H3K4me3, then CTCF and H3K27ac,
      then every other experiment by its label (ints sort before strings). */
  function Rank(exp: Exp): Atom {
    if exp.isDNaseSeq then Num(1)
    else if exp.isChipSeqTF && "CTCF" == exp.labelName then Num(4)
    else if exp.isChipSeqHistoneMark && "H3K4me3" == exp.labelName then Num(2)
    else if exp.isChipSeqHistoneMark && "H3K27ac" == exp.labelName then Num(4)
    else Str(exp.labelName)
  }

  function RankKey(c: Composite): Key {
    [Rank(c.exp)]
  }

  /** `_sortAllTracks`' key: tissue, then biosample term name. A composite
      without a tissue never reaches it (see `SortedComposites`). */
  function TissueKey(c: Composite): Key {
    [Str(if c.tissue.Some? then c.tissue.value else ""), Str(c.exp.biosampleTermName)]
  }

  /** The order `lines` writes composites in; in the all-experiments mode a
      composite without a tissue makes the key raise AttributeError. */
  function SortedComposites(cs: seq<Composite>, isAll: bool): Result<seq<Composite>> {
    if !isAll then Ok(SortBy(cs, RankKey))
    else if exists i :: 0 <= i < |cs| && cs[i].tissue.None? then Err("AttributeError: tissue")
    else Ok(SortBy(cs, TissueKey))
  }

  /** The rank order: DNase composites come first, ranks 1, 2, 4 come in
      that order before any label, labels follow in string order, and
      composites of equal rank keep their insertion order. */
  lemma RankOrder(cs: seq<Composite>)
    ensures var r := SortBy(cs, RankKey);
      && multiset(r) == multiset(cs)
      && (forall i, j :: 0 <= i < j < |r| && r[j].exp.isDNaseSeq ==> r[i].exp.isDNaseSeq)
      && (forall i, j :: 0 <= i < j < |r| && Rank(r[i].exp).Str? ==>
            Rank(r[j].exp).Str? && StrLe(r[i].exp.labelName, r[j].exp.labelName))
      && (forall i, j :: 0 <= i < j < |r| && Rank(r[i].exp).Num? && Rank(r[j].exp).Num? ==>
            Rank(r[i].exp).n <= Rank(r[j].exp).n)
      && (forall k :: WithKey(r, RankKey, k) == WithKey(cs, RankKey, k))
  {
    SortByProps(cs, RankKey);
    var r := SortBy(cs, RankKey);
    forall i, j | 0 <= i < j < |r| && r[j].exp.isDNaseSeq ensures r[i].exp.isDNaseSeq {
      assert KeyLe(RankKey(r[i]), RankKey(r[j]));
    }
    forall i, j | 0 <= i < j < |r| && Rank(r[i].exp).Str?
      ensures Rank(r[j].exp).Str? && StrLe(r[i].exp.labelName, r[j].exp.labelName)
    {
      assert KeyLe(RankKey(r[i]), RankKey(r[j]));
      assert Rank(r[j].exp).Str?;
      StrKeyLe(r[i].exp.labelName, r[j].exp.labelName);
    }
    forall i, j | 0 <= i < j < |r| && Rank(r[i].exp).Num? && Rank(r[j].exp).Num?
      ensures Rank(r[i].exp).n <= Rank(r[j].exp).n
    {
      assert KeyLe(RankKey(r[i]), RankKey(r[j]));
    }
  }

  // ---------------------------------------------------------------------
  // Writing the composites
  // ---------------------------------------------------------------------

  /** One element of the written sequence: a leaf with its priority, or a view stanza. */
  datatype Item = LeafAt(leaf: Leaf, priority: int) | ViewOf(owner: Composite)

  function LeafItems(ls: seq<Leaf>, base: int): seq<Item> {
    seq(|ls|, i requires 0 <= i < |ls| => LeafAt(ls[i], base + i + 1))
  }

  predicate HasBedView(c: Composite) {
    |c.beds + c.cREs| > 0
  }

  /** What one composite contributes after `base` leaves were numbered:
      its bigWigs, then, only if it has beds or ccREs, its view and them. */
  function CompositePlan(c: Composite, base: int): seq<Item> {
    LeafItems(c.bigWigs, base)
    + (if HasBedView(c) then [ViewOf(c)] + LeafItems(c.beds + c.cREs, base + |c.bigWigs|) else [])
  }

  /** The leaves of one composite in the order `lines` writes them. */
  function WrittenLeaves(c: Composite): seq<Leaf> {
    c.bigWigs + (if HasBedView(c) then c.beds + c.cREs else [])
  }

  function AllWritten(cs: seq<Composite>): seq<Leaf> {
    FlatMap(WrittenLeaves, cs)
  }

  /** The layout of `lines()` over composites in order, from priority `start`. */
  function Plan(cs: seq<Composite>, start: int): seq<Item> {
    if cs == [] then []
    else Plan(cs[..|cs| - 1], start) + CompositePlan(cs[|cs| - 1], start + |AllWritten(cs[..|cs| - 1])|)
  }

  /** The entries, indent and extras an item's stanza is written from. */
  function ItemEntries(it: Item): Entries {
    match it
    case LeafAt(l, _) => l.p
    case ViewOf(c) => ViewEntries(c)
  }

  function ItemIndent(it: Item): nat {
    match it
    case LeafAt(l, _) => LeafIndent(l)
    case ViewOf(_) => 1
  }

  function ItemExtras(it: Item): Entries {
    match it
    case LeafAt(l, p) => LeafExtras(l, p)
    case ViewOf(_) => []
  }

  function ItemLines(it: Item): seq<string> {
    OutputLines(ItemEntries(it), ItemIndent(it), ItemExtras(it))
  }

  function Render(items: seq<Item>): seq<string> {
    FlatMap(ItemLines, items)
  }

  function PriorityOf(it: Item): seq<int> {
    match it
    case LeafAt(_, p) => [p]
    case ViewOf(_) => []
  }

  function LeafOf(it: Item): seq<Leaf> {
    match it
    case LeafAt(l, _) => [l]
    case ViewOf(_) => []
  }

  function ViewsOf(it: Item): seq<Composite> {
    match it
    case LeafAt(_, _) => []
    case ViewOf(c) => [c]
  }

  function CompositeViews(c: Composite): seq<Composite> {
    if HasBedView(c) then [c] else []
  }

  /** The priorities `from + 1, ..., from + n`. */
  function Counting(from: int, n: nat): (r: seq<int>)
    ensures |r| == n && forall i :: 0 <= i < n ==> r[i] == from + i + 1
  {
    seq(n, i => from + i + 1)
  }

  lemma CountingAppend(from: int, n: nat, m: nat)
    ensures Counting(from, n) + Counting(from + n, m) == Counting(from, n + m)
  {
  }

  lemma {:induction false} LeafItemsPriorities(ls: seq<Leaf>, base: int)
    ensures FlatMap(PriorityOf, LeafItems(ls, base)) == Counting(base, |ls|)
    decreases |ls|
  {
    if ls != [] {
      var init := ls[..|ls| - 1];
      LeafItemsPriorities(init, base);
      assert LeafItems(ls, base)[..|ls| - 1] == LeafItems(init, base);
    }
  }

  lemma {:induction false} LeafItemsLeaves(ls: seq<Leaf>, base: int)
    ensures FlatMap(LeafOf, LeafItems(ls, base)) == ls
    decreases |ls|
  {
    if ls != [] {
      var init := ls[..|ls| - 1];
      LeafItemsLeaves(init, base);
      assert LeafItems(ls, base)[..|ls| - 1] == LeafItems(init, base);
    }
  }

  lemma {:induction false} LeafItemsViews(ls: seq<Leaf>, base: int)
    ensures FlatMap(ViewsOf, LeafItems(ls, base)) == []
    decreases |ls|
  {
    if ls != [] {
      var init := ls[..|ls| - 1];
      LeafItemsViews(init, base);
      assert LeafItems(ls, base)[..|ls| - 1] == LeafItems(init, base);
    }
  }

  /** Any per-item map over a composite's plan: its bigWigs, then the view
      and its beds and ccREs when it has any. */
  lemma CompositePlanMap<U>(f: Item -> seq<U>, c: Composite, base: int)
    ensures FlatMap(f, CompositePlan(c, base)) ==
      FlatMap(f, LeafItems(c.bigWigs, base))
      + (if HasBedView(c) then f(ViewOf(c)) + FlatMap(f, LeafItems(c.beds + c.cREs, base + |c.bigWigs|)) else [])
  {
    if HasBedView(c) {
      CompositePlanSplit(c, base);
      FlatMapAround(f, LeafItems(c.bigWigs, base), ViewOf(c), LeafItems(c.beds + c.cREs, base + |c.bigWigs|));
    } else {
      assert CompositePlan(c, base) == LeafItems(c.bigWigs, base);
      assert FlatMap(f, LeafItems(c.bigWigs, base)) + [] == FlatMap(f, LeafItems(c.bigWigs, base));
    }
  }

  /** A composite's plan numbers its written leaves from `base + 1` on. */
  lemma CompositePlanPriorities(c: Composite, base: int)
    ensures FlatMap(PriorityOf, CompositePlan(c, base)) == Counting(base, |WrittenLeaves(c)|)
  {
    CompositePlanMap(PriorityOf, c, base);
    LeafItemsPriorities(c.bigWigs, base);
    if HasBedView(c) {
      LeafItemsPriorities(c.beds + c.cREs, base + |c.bigWigs|);
      CountingAppend(base, |c.bigWigs|, |c.beds + c.cREs|);
    } else {
      assert Counting(base, |c.bigWigs|) + [] == Counting(base, |c.bigWigs|);
    }
  }

  /** A composite's plan writes exactly its written leaves, in order. */
  lemma CompositePlanLeaves(c: Composite, base: int)
    ensures FlatMap(LeafOf, CompositePlan(c, base)) == WrittenLeaves(c)
  {
    CompositePlanMap(LeafOf, c, base);
    LeafItemsLeaves(c.bigWigs, base);
    if HasBedView(c) {
      LeafItemsLeaves(c.beds + c.cREs, base + |c.bigWigs|);
    } else {
      assert c.bigWigs + [] == c.bigWigs;
    }
  }

  /** A composite's plan writes a view stanza exactly when it has beds or ccREs. */
  lemma CompositePlanViews(c: Composite, base: int)
    ensures FlatMap(ViewsOf, CompositePlan(c, base)) == CompositeViews(c)
  {
    CompositePlanMap(ViewsOf, c, base);
    LeafItemsViews(c.bigWigs, base);
    if HasBedView(c) {
      LeafItemsViews(c.beds + c.cREs, base + |c.bigWigs|);
      assert [c] + [] == [c];
    }
  }

  lemma {:induction false} PlanPriorities(cs: seq<Composite>, start: int)
    ensures FlatMap(PriorityOf, Plan(cs, start)) == Counting(start, |AllWritten(cs)|)
    decreases |cs|
  {
    if cs != [] {
      var init := cs[..|cs| - 1];
      var last := cs[|cs| - 1];
      var base := start + |AllWritten(init)|;
      PlanPriorities(init, start);
      CompositePlanPriorities(last, base);
      FlatMapAppend(PriorityOf, Plan(init, start), CompositePlan(last, base));
      CountingAppend(start, |AllWritten(init)|, |WrittenLeaves(last)|);
    }
  }

  lemma {:induction false} PlanLeaves(cs: seq<Composite>, start: int)
    ensures FlatMap(LeafOf, Plan(cs, start)) == AllWritten(cs)
    decreases |cs|
  {
    if cs != [] {
      var init := cs[..|cs| - 1];
      var last := cs[|cs| - 1];
      var base := start + |AllWritten(init)|;
      PlanLeaves(init, start);
      CompositePlanLeaves(last, base);
      FlatMapAppend(LeafOf, Plan(init, start), CompositePlan(last, base));
    }
  }

  lemma {:induction false} PlanViews(cs: seq<Composite>, start: int)
    ensures FlatMap(ViewsOf, Plan(cs, start)) == FlatMap(CompositeViews, cs)
    decreases |cs|
  {
    if cs != [] {
      var init := cs[..|cs| - 1];
      var last := cs[|cs| - 1];
      var base := start + |AllWritten(init)|;
      PlanViews(init, start);
      CompositePlanViews(last, base);
      FlatMapAppend(ViewsOf, Plan(init, start), CompositePlan(last, base));
    }
  }

  /** `lines()` numbers the written leaves `start+1, start+2, ...` with no
      gap or repeat, writes each composite's bigWigs before its beds and
      ccREs, and writes a view stanza for exactly the composites that have
      beds or ccREs. */
  lemma PlanProps(cs: seq<Composite>, start: int)
    ensures FlatMap(PriorityOf, Plan(cs, start)) == Counting(start, |AllWritten(cs)|)
    ensures FlatMap(LeafOf, Plan(cs, start)) == AllWritten(cs)
    ensures FlatMap(ViewsOf, Plan(cs, start)) == FlatMap(CompositeViews, cs)
  {
    PlanPriorities(cs, start);
    PlanLeaves(cs, start);
    PlanViews(cs, start);
  }

  // The steps below hold for any stanza writer `text`; `lines()` uses
  // `ItemLines`. Keeping `text` abstract keeps the stanza contents out of
  // the proofs about the order of the stanzas.

  /** Writing one more leaf at the next priority extends the text by its stanza. */
  lemma LeafItemsStep(text: Item -> seq<string>, ls: seq<Leaf>, j: nat, base: int, idx: int)
    requires j < |ls| && idx == base + j + 1
    ensures FlatMap(text, LeafItems(ls[..j + 1], base)) == FlatMap(text, LeafItems(ls[..j], base)) + text(LeafAt(ls[j], idx))
  {
    assert LeafItems(ls[..j + 1], base) == LeafItems(ls[..j], base) + [LeafAt(ls[j], base + j + 1)];
    FlatMapAppend(text, LeafItems(ls[..j], base), [LeafAt(ls[j], base + j + 1)]);
    FlatMapSingle(text, LeafAt(ls[j], base + j + 1));
  }

  lemma CompositePlanSplit(c: Composite, base: int)
    requires HasBedView(c)
    ensures CompositePlan(c, base) ==
      LeafItems(c.bigWigs, base) + ([ViewOf(c)] + LeafItems(c.beds + c.cREs, base + |c.bigWigs|))
  {
  }

  /** One composite with beds or ccREs is written as its bigWigs, then its
      view stanza, then its beds and ccREs. */
  lemma CompositeBedsStep(text: Item -> seq<string>, c: Composite, base: int)
    requires HasBedView(c)
    ensures FlatMap(text, CompositePlan(c, base)) ==
      FlatMap(text, LeafItems(c.bigWigs, base)) + (text(ViewOf(c)) + FlatMap(text, LeafItems(c.beds + c.cREs, base + |c.bigWigs|)))
  {
    CompositePlanSplit(c, base);
    FlatMapAround(text, LeafItems(c.bigWigs, base), ViewOf(c), LeafItems(c.beds + c.cREs, base + |c.bigWigs|));
  }

  /** The plan of one more composite extends the plan of the ones before. */
  lemma PlanSnoc(cs: seq<Composite>, i: nat, start: int)
    requires i < |cs|
    ensures Plan(cs[..i + 1], start) == Plan(cs[..i], start) + CompositePlan(cs[i], start + |AllWritten(cs[..i])|)
    ensures |AllWritten(cs[..i + 1])| == |AllWritten(cs[..i])| + |WrittenLeaves(cs[i])|
  {
    assert cs[..i + 1][..i] == cs[..i];
  }

  /** ... and so does its text. */
  lemma PlanStep(text: Item -> seq<string>, cs: seq<Composite>, i: nat, start: int, base: int)
    requires i < |cs| && base == start + |AllWritten(cs[..i])|
    ensures FlatMap(text, Plan(cs[..i + 1], start)) == FlatMap(text, Plan(cs[..i], start)) + FlatMap(text, CompositePlan(cs[i], base))
    ensures |AllWritten(cs[..i + 1])| == |AllWritten(cs[..i])| + |WrittenLeaves(cs[i])|
  {
    PlanSnoc(cs, i, start);
    FlatMapAppend(text, Plan(cs[..i], start), CompositePlan(cs[i], base));
  }

  /** What `lines()` yields, or the error its sort key raises. */
  function TracksLines(cs: seq<Composite>, isAll: bool, priorityStart: int): Result<seq<string>> {
    match SortedComposites(cs, isAll)
    case Err(m) => Err(m)
    case Ok(sorted) => Ok(Render(Plan(sorted, priorityStart)))
  }

  // ---------------------------------------------------------------------
  // Subgroup presentation
  // ---------------------------------------------------------------------

  /** The leaves of the composites as `tracks()` walks them. */
  function AllLeaves(cs: seq<Composite>): seq<Leaf> {
    FlatMap(CompositeLeaves, cs)
  }

  lemma {:induction false} AllLeavesContains(cs: seq<Composite>, i: nat, l: Leaf)
    requires i < |cs| && l in CompositeLeaves(cs[i])
    ensures l in AllLeaves(cs)
    decreases |cs|
  {
    if i < |cs| - 1 {
      AllLeavesContains(cs[..|cs| - 1], i, l);
    }
  }

  /** Every leaf has every subgroup key. */
  ghost predicate Complete(leaves: seq<Leaf>, keys: seq<Facet>) {
    forall l, k :: l in leaves && k in keys ==> k in l.presentation
  }

  /** Per key, the presentation pairs of all the leaves; no key at all when
      there is no leaf (the default dictionary creates a key on first use). */
  function Union(leaves: seq<Leaf>, keys: seq<Facet>): map<Facet, set<(string, string)>>
    requires forall l, k :: l in leaves && k in keys ==> k in l.presentation
  {
    map k | k in keys && leaves != [] :: set l | l in leaves :: l.presentation[k]
  }

  /** `subgroups()`: for every subgroup key, the set of presentation pairs of
      all leaves; a leaf lacking one of the keys raises KeyError. */
  function SubgroupsOf(cs: seq<Composite>, keys: seq<Facet>): Result<map<Facet, set<(string, string)>>> {
    var leaves := AllLeaves(cs);
    if forall l, k :: l in leaves && k in keys ==> k in l.presentation then Ok(Union(leaves, keys))
    else Err("KeyError")
  }

  /** Adding one more leaf adds its pair to every key's set. */
  lemma UnionSnoc(prev: seq<Leaf>, t: Leaf, keys: seq<Facet>)
    requires Complete(prev + [t], keys)
    ensures Complete(prev, keys)
    ensures var u := Union(prev + [t], keys);
            && u.Keys == set k | k in keys
            && forall k :: k in u ==> u[k] == (if prev != [] then Union(prev, keys)[k] else {}) + {t.presentation[k]}
  {
    assert forall l :: l in prev ==> l in prev + [t];
    var u := Union(prev + [t], keys);
    forall k | k in u
      ensures u[k] == (if prev != [] then Union(prev, keys)[k] else {}) + {t.presentation[k]}
    {
      var lhs := set l | l in prev + [t] :: l.presentation[k];
      var rhs := (set l | l in prev :: l.presentation[k]) + {t.presentation[k]};
      forall x | x in lhs ensures x in rhs {
        var l :| l in prev + [t] && l.presentation[k] == x;
        if l != t { assert l in prev; }
      }
      assert t in prev + [t];
    }
  }

  /** The innermost loop of `subgroups()`: adds one leaf's pair under every
      subgroup key, or raises KeyError at the first key it lacks. */
  method AddPresentation(acc: map<Facet, set<(string, string)>>, t: Leaf, keys: seq<Facet>)
    returns (r: Result<map<Facet, set<(string, string)>>>)
    ensures r.Ok? <==> forall k :: k in keys ==> k in t.presentation
    ensures r.Err? ==> r.msg == "KeyError"
    ensures r.Ok? ==> r.value.Keys == acc.Keys + (set k | k in keys)
    ensures r.Ok? ==> forall k :: k in r.value ==>
      r.value[k] == (if k in acc then acc[k] else {}) + (if k in keys then {t.presentation[k]} else {})
  {
    var out := acc;
    ghost var done: set<Facet> := {};
    for m := 0 to |keys|
      invariant done == set k | k in keys[..m]
      invariant done <= t.presentation.Keys
      invariant GatheredFrom(acc, t, done, out)
    {
      var k := keys[m];
      if k !in t.presentation {
        return Err("KeyError");
      }
      GatherStep(acc, t, done, out, k);
      out := out[k := (if k in out then out[k] else {}) + {t.presentation[k]}];
      done := done + {k};
      assert keys[..m + 1] == keys[..m] + [k];
    }
    assert keys[..|keys|] == keys;
    assert out.Keys == acc.Keys + done;
    r := Ok(out);
  }

  /** The set under key `k` once the leaf's pair is added under the keys `done`. */
  ghost function Wanted(acc: map<Facet, set<(string, string)>>, t: Leaf, done: set<Facet>, k: Facet): set<(string, string)>
    requires done <= t.presentation.Keys
  {
    (if k in acc then acc[k] else {}) + (if k in done then {t.presentation[k]} else {})
  }

  /** Holds when `out` is `acc` with the leaf's pair added under the keys `done`. */
  ghost predicate GatheredFrom(acc: map<Facet, set<(string, string)>>, t: Leaf, done: set<Facet>, out: map<Facet, set<(string, string)>>)
    requires done <= t.presentation.Keys
  {
    && (forall k :: k in out <==> k in acc || k in done)
    && forall k :: k in out ==> out[k] == Wanted(acc, t, done, k)
  }

  /** Adding the pair under one more key keeps `GatheredFrom`. */
  lemma GatherStep(acc: map<Facet, set<(string, string)>>, t: Leaf, done: set<Facet>, out: map<Facet, set<(string, string)>>, k: Facet)
    requires done <= t.presentation.Keys && k in t.presentation
    requires GatheredFrom(acc, t, done, out)
    ensures GatheredFrom(acc, t, done + {k}, out[k := (if k in out then out[k] else {}) + {t.presentation[k]}])
  {
    var out' := out[k := (if k in out then out[k] else {}) + {t.presentation[k]}];
    forall j | j in out'
      ensures out'[j] == Wanted(acc, t, done + {k}, j)
    {
      if j == k {
        WantedAdd(acc, t, done, k);
      } else {
        assert out'[j] == out[j];
      }
    }
  }

  /** Under the new key itself, the pair joins the set once. */
  lemma WantedAdd(acc: map<Facet, set<(string, string)>>, t: Leaf, done: set<Facet>, k: Facet)
    requires done <= t.presentation.Keys && k in t.presentation
    ensures Wanted(acc, t, done + {k}, k) == Wanted(acc, t, done, k) + {t.presentation[k]}
  {
    var a := if k in acc then acc[k] else {};
    var pair := t.presentation[k];
    if k in done {
      assert a + {pair} + {pair} == a + {pair};
    } else {
      assert a + {} + {pair} == a + {pair};
    }
  }

  lemma CompleteSnoc(prev: seq<Leaf>, t: Leaf, keys: seq<Facet>)
    requires Complete(prev, keys)
    requires forall k :: k in keys ==> k in t.presentation
    ensures Complete(prev + [t], keys)
  {
    forall l, k | l in prev + [t] && k in keys
      ensures k in l.presentation
    {
      if l != t { assert l in prev; }
    }
  }

  /** Gathering one more leaf's pairs keeps the accumulator equal to the union. */
  lemma UnionStep(prev: seq<Leaf>, t: Leaf, keys: seq<Facet>, before: map<Facet, set<(string, string)>>, after: map<Facet, set<(string, string)>>)
    requires Complete(prev, keys) && before == Union(prev, keys)
    requires forall k :: k in keys ==> k in t.presentation
    requires after.Keys == before.Keys + (set k | k in keys)
    requires forall k :: k in after ==>
      after[k] == (if k in before then before[k] else {}) + (if k in keys then {t.presentation[k]} else {})
    ensures Complete(prev + [t], keys) && after == Union(prev + [t], keys)
  {
    CompleteSnoc(prev, t, keys);
    var u := Union(prev + [t], keys);
    assert after == u by {
      UnionSnoc(prev, t, keys);
      assert after.Keys == u.Keys;
      forall k | k in u
        ensures after[k] == u[k]
      {
        assert k in before <==> prev != [];
      }
    }
  }

  /** The loop of `subgroups()` over the leaves of one composite, on top of
      the pairs `acc` already gathered from the leaves `prev`. */
  method AddLeaves(acc: map<Facet, set<(string, string)>>, ghost prev: seq<Leaf>, ls: seq<Leaf>, keys: seq<Facet>)
    returns (r: Result<map<Facet, set<(string, string)>>>)
    requires Complete(prev, keys) && acc == Union(prev, keys)
    ensures r.Ok? <==> Complete(prev + ls, keys)
    ensures r.Err? ==> r.msg == "KeyError" && !Complete(ls, keys)
    ensures r.Ok? ==> r.value == Union(prev + ls, keys)
  {
    var out := acc;
    assert prev + ls[..0] == prev;
    for j := 0 to |ls|
      invariant Complete(prev + ls[..j], keys)
      invariant out == Union(prev + ls[..j], keys)
    {
      var t := ls[j];
      assert prev + ls[..j] + [t] == prev + ls[..j + 1];
      var added := AddPresentation(out, t, keys);
      if added.Err? {
        assert t in ls;
        return Err(added.msg);
      }
      UnionStep(prev + ls[..j], t, keys, out, added.value);
      out := added.value;
    }
    assert ls[..|ls|] == ls;
    r := Ok(out);
  }

  // ---------------------------------------------------------------------
  // The list of composites
  // ---------------------------------------------------------------------

  /** The `Tracks` object of one composite group. */
  class TrackList {
    const assembly: string
    const parent: Parent
    const priorityStart: int
    const isAll: bool
    var tracks: seq<Composite>

    constructor(assembly: string, parent: Parent, priorityStart: int, isAll: bool)
      ensures this.assembly == assembly && this.parent == parent
      ensures this.priorityStart == priorityStart && this.isAll == isAll
      ensures tracks == []
    {
      this.assembly := assembly;
      this.parent := parent;
      this.priorityStart := priorityStart;
      this.isAll := isAll;
      tracks := [];
    }

    method AddExp(h: Helpers, exp: Exp, active: bool, cREs: map<string, string>)
      modifies this
      ensures tracks == old(tracks) + [ExpComposite(h, assembly, parent, exp, active, cREs)]
    {
      var ct := new CompositeExpTrack(assembly, parent, exp, active);
      ct.AddExp(h, cREs);
      tracks := tracks + [ct.Snapshot()];
    }

    method AddExpAll(h: Helpers, lookupBTN: map<string, map<string, string>>, palette: ByAll.TissuePalette, exp: Exp, active: bool)
      returns (r: Result<()>)
      requires palette.Valid()
      modifies this, palette
      ensures palette.Valid()
      ensures var step := AllStep(h, lookupBTN, assembly, parent, old(palette.State()), exp, active);
        && palette.State() == step.1
        && (step.0.Err? ==> r == Err(step.0.msg) && tracks == old(tracks))
        && (step.0.Ok? ==> r == Ok(()) && tracks == old(tracks) + [step.0.value])
    {
      var ct := new CompositeExpTrack(assembly, parent, exp, active);
      r := ct.AddExpAll(h, lookupBTN, palette);
      if r.Ok? {
        tracks := tracks + [ct.Snapshot()];
      }
    }

    /** An inner loop of `lines()`: one stanza per leaf, each numbered by
        incrementing the counter first. */
    method LeafRunLines(ls: seq<Leaf>, counter0: int, text: Item -> seq<string>) returns (lines: seq<string>, counter: int)
      ensures lines == FlatMap(text, LeafItems(ls, priorityStart + counter0))
      ensures counter == counter0 + |ls|
    {
      lines := [];
      counter := counter0;
      for j := 0 to |ls|
        invariant lines == FlatMap(text, LeafItems(ls[..j], priorityStart + counter0))
        invariant counter == counter0 + j
      {
        counter := counter + 1;
        lines := lines + text(LeafAt(ls[j], priorityStart + counter));
        LeafItemsStep(text, ls, j, priorityStart + counter0, priorityStart + counter);
      }
      assert ls[..|ls|] == ls;
    }

    /** One pass of `lines()`' outer loop: the stanzas of one composite,
        numbering its leaves on from `counter0`; the view stanza only when
        there are beds or ccREs, since an empty view is not allowed. */
    method CompositeLines(ct: Composite, counter0: int, text: Item -> seq<string>) returns (lines: seq<string>, counter: int)
      ensures lines == FlatMap(text, CompositePlan(ct, priorityStart + counter0))
      ensures counter == counter0 + |WrittenLeaves(ct)|
    {
      lines, counter := LeafRunLines(ct.bigWigs, counter0, text);
      if |ct.beds + ct.cREs| > 0 {
        CompositeBedsStep(text, ct, priorityStart + counter0);
        var rest;
        rest, counter := LeafRunLines(ct.beds + ct.cREs, counter, text);
        AppendAssoc(lines, text(ViewOf(ct)), rest);
        lines := lines + text(ViewOf(ct)) + rest;
      } else {
        assert CompositePlan(ct, priorityStart + counter0) == LeafItems(ct.bigWigs, priorityStart + counter0);
      }
    }

    /** The loop of `lines()` over composites already in order: leaves are
        numbered on from `priorityStart` across composites, and `text`
        writes each stanza. */
    method WriteInOrder(cs: seq<Composite>, text: Item -> seq<string>) returns (lines: seq<string>)
      ensures lines == FlatMap(text, Plan(cs, priorityStart))
    {
      lines := [];
      var counter := 0;
      for i := 0 to |cs|
        invariant lines == FlatMap(text, Plan(cs[..i], priorityStart))
        invariant counter == |AllWritten(cs[..i])|
      {
        PlanStep(text, cs, i, priorityStart, priorityStart + counter);
        var out;
        out, counter := CompositeLines(cs[i], counter, text);
        lines := lines + out;
      }
      assert cs[..|cs|] == cs;
    }

    /** `lines()`: the composites sorted by `_sortedTracks`, or by
        `_sortAllTracks` in the all-experiments mode, then written in order. */
    method Lines() returns (r: Result<seq<string>>)
      ensures r == TracksLines(tracks, isAll, priorityStart)
    {
      var sorted := SortedComposites(tracks, isAll);
      if sorted.Err? {
        return Err(sorted.msg);
      }
      var lines := WriteInOrder(sorted.value, ItemLines);
      r := Ok(lines);
    }

    method Subgroups(h: Helpers) returns (r: Result<map<Facet, set<(string, string)>>>)
      ensures r == SubgroupsOf(tracks, h.subGroupKeys)
    {
      var keys := h.subGroupKeys;
      var acc: map<Facet, set<(string, string)>> := map[];
      for i := 0 to |tracks|
        invariant Complete(AllLeaves(tracks[..i]), keys)
        invariant acc == Union(AllLeaves(tracks[..i]), keys)
      {
        assert tracks[..i + 1][..i] == tracks[..i];
        var ls := CompositeLeaves(tracks[i]);
        var added := AddLeaves(acc, AllLeaves(tracks[..i]), ls, keys);
        if added.Err? {
          forall l | l in ls
            ensures l in AllLeaves(tracks)
          {
            AllLeavesContains(tracks, i, l);
          }
          return Err(added.msg);
        }
        acc := added.value;
      }
      assert tracks[..|tracks|] == tracks;
      r := Ok(acc);
    }
  }
}

/** The top-level script `src/01_make_big_trackhubs.py`: for each assembly
    it writes `hub.txt`, runs the enabled schemes in a fixed order and
    writes the assembly's `trackDb.txt` as the concatenation of their texts;
    at the end it writes `genomes.txt`. */
module MakeBigTrackhubs {
  import opened Common
  import opened Encode
  import opened Tracks
  import FileStore
  import PriorityCounter
  import Hub
  import ByAll
  import ByCcREs
  import ByAssayByFactor
  import ByAssayByBiosampleType
  import ByBiosampleType

  /** The hub description `_makeHub` writes. */
  const HubText: string :=
    "\nhub ENCODE\nshortLabel ENCODE Trackhub Test6\nlongLabel ENCODE Trackhub Test6\n"
    + "genomesFile genomes.txt\nemail zhiping.weng@umassmed.edu\ndescriptionUrl http://encodeproject.org/\n"

  /** The schemes in the order they run and their texts are written. */
  const Typs: seq<string> := ["ccREs", "organSlim", "factor", "assay", "biosample"]

  /** The assemblies `main` walks. */
  const Assemblies: seq<string> := ["hg19", "mm10"]

  /** The `--<scheme>` / `--no-<scheme>` switches; each defaults to on. */
  datatype Flags = Flags(ccREs: bool, organSlim: bool, factor: bool, assay: bool, biosample: bool)

  const DefaultFlags: Flags := Flags(true, true, true, true, true)

  /** `getattr(self.args, typ)`. */
  function Enabled(f: Flags, typ: string): bool {
    match typ
    case "ccREs" => f.ccREs
    case "organSlim" => f.organSlim
    case "factor" => f.factor
    case "assay" => f.assay
    case "biosample" => f.biosample
    case _ => false
  }

  /** What the metadata service and the disk supply for one assembly: the
      global data, the experiments each scheme asks for, the biosample
      listing and which lookup records count as active, the tissue lookup
      of `byAll.py`, and the text of the organ-slim scheme, which is not
      part of this model. */
  datatype Sources = Sources(
    globalData: GlobalData,
    factorExps: string -> seq<Exp>,
    assayExps: string -> seq<Exp>,
    biosampleRows: seq<ByBiosampleType.InputRow>,
    expsByIds: seq<string> -> seq<Exp>,
    active: ByBiosampleType.Lookup -> bool,
    lookupBTN: map<string, map<string, string>>,
    organSlim: Result<string>)

  /** The texts of the schemes `typs`, in order, from the dictionary `out`. */
  function Outputs(out: map<string, string>, typs: seq<string>): (r: seq<string>)
    ensures |r| == |typs| && forall i :: 0 <= i < |typs| && typs[i] in out ==> r[i] == out[typs[i]]
    decreases |typs|
  {
    if typs == [] then []
    else
      var t := typs[|typs| - 1];
      Outputs(out, typs[..|typs| - 1]) + [if t in out then out[t] else ""]
  }

  /** The text of an assembly's `trackDb.txt`. */
  function TrackDbText(out: map<string, string>): string {
    Concat(Outputs(out, Typs))
  }

  /** A disabled scheme adds nothing: with every scheme but one switched
      off, the trackDb is that scheme's text alone. */
  lemma TrackDbOnly(out: map<string, string>, typ: string)
    requires typ in Typs && typ in out
    requires forall t :: t in Typs && t != typ ==> t in out && out[t] == ""
    ensures TrackDbText(out) == out[typ]
  {
    var os := Outputs(out, Typs);
    var i :| 0 <= i < |Typs| && Typs[i] == typ;
    forall j | 0 <= j < |os| && j != i ensures os[j] == "" {
      assert Typs[j] in Typs && Typs[j] != typ;
    }
    ConcatOnly(os, i);
  }

  /** Parts that are empty but for the `i`-th concatenate to that part. */
  lemma {:induction false} ConcatOnly(parts: seq<string>, i: nat)
    requires i < |parts| && forall j :: 0 <= j < |parts| && j != i ==> parts[j] == ""
    ensures Concat(parts) == parts[i]
    decreases |parts|
  {
    var init := parts[..|parts| - 1];
    if i == |parts| - 1 {
      ConcatEmpty(init);
    } else {
      assert forall j :: 0 <= j < |init| ==> init[j] == parts[j];
      ConcatOnly(init, i);
    }
  }

  /** Parts that are all empty concatenate to nothing. */
  lemma {:induction false} ConcatEmpty(parts: seq<string>)
    requires forall i :: 0 <= i < |parts| ==> parts[i] == ""
    ensures Concat(parts) == ""
    decreases |parts|
  {
    if parts != [] {
      ConcatEmpty(parts[..|parts| - 1]);
    }
  }

  /** `defaultPoses.get(assembly, "")`. */
  function DefaultPos(assembly: string): (r: string)
    ensures r != "" <==> assembly == "hg19" || assembly == "mm10"
  {
    if assembly == "hg19" then "chr12:121374959-121481905"
    else if assembly == "mm10" then "chr2:163423234-163655010"
    else ""
  }

  /** The stanza `outputGenomes` writes for one assembly. */
  function GenomeStanza(assembly: string): string {
    "\ngenome " + assembly + "\ntrackDb " + assembly + "/trackDb.txt\ndefaultPos " + DefaultPos(assembly) + "\n"
  }

  /** The text of `genomes.txt`. */
  function GenomesText(assemblies: seq<string>): string {
    Concat(MapSeq(GenomeStanza, assemblies))
  }

  /** The genomes text of two lists of assemblies is the text of the first
      followed by the text of the second. */
  lemma GenomesAppend(a: seq<string>, b: seq<string>)
    ensures GenomesText(a + b) == GenomesText(a) + GenomesText(b)
  {
    ConcatMapAppend(GenomeStanza, a, b);
  }

  /** Concatenating the images of two lists is concatenating the images of
      the first, then those of the second. */
  lemma ConcatMapAppend<T>(f: T -> string, a: seq<T>, b: seq<T>)
    ensures Concat(MapSeq(f, a + b)) == Concat(MapSeq(f, a)) + Concat(MapSeq(f, b))
  {
    assert MapSeq(f, a + b) == MapSeq(f, a) + MapSeq(f, b);
    ConcatAppend(MapSeq(f, a), MapSeq(f, b));
  }

  /** One more pass of a loop appending `f(s[i])`. */
  lemma ConcatMapStep<T>(f: T -> string, s: seq<T>, i: nat)
    requires i < |s|
    ensures Concat(MapSeq(f, s[..i + 1])) == Concat(MapSeq(f, s[..i])) + f(s[i])
  {
    assert s[..i + 1] == s[..i] + [s[i]];
    ConcatMapAppend(f, s[..i], [s[i]]);
    assert MapSeq(f, [s[i]]) == [f(s[i])];
    ConcatOne(f(s[i]));
  }

  /** The genomes file has one stanza per assembly the script builds, each
      naming the assembly's trackDb and its default position. */
  lemma GenomesOfAssemblies()
    ensures GenomesText(Assemblies) == GenomeStanza("hg19") + GenomeStanza("mm10")
    ensures DefaultPos("hg19") == "chr12:121374959-121481905" && DefaultPos("mm10") == "chr2:163423234-163655010"
  {
    assert MapSeq(GenomeStanza, Assemblies) == [GenomeStanza("hg19")] + [GenomeStanza("mm10")];
    ConcatAppend([GenomeStanza("hg19")], [GenomeStanza("mm10")]);
    ConcatOne(GenomeStanza("hg19"));
    ConcatOne(GenomeStanza("mm10"));
  }

  lemma ConcatOne(x: string)
    ensures Concat([x]) == x
  {
    assert [x][..0] == [];
  }

  /** `outputGenomes`: one stanza per assembly, in order. */
  method OutputGenomes(fs: FileStore.Files, wwwDir: string, assemblies: seq<string>)
    modifies fs
    ensures fs.contents == old(fs.contents)[PathJoin(wwwDir, ["genomes.txt"]) := GenomesText(assemblies)]
  {
    var text := "";
    for i := 0 to |assemblies|
      invariant text == GenomesText(assemblies[..i])
      invariant fs.contents == old(fs.contents)
    {
      ConcatMapStep(GenomeStanza, assemblies, i);
      text := text + GenomeStanza(assemblies[i]);
    }
    assert assemblies[..|assemblies|] == assemblies;
    fs.Write(PathJoin(wwwDir, ["genomes.txt"]), text);
  }

  /** One assembly's hub. */
  class MegaTrackHub {
    const h: Helpers
    const assembly: string
    const wwwDir: string
    const tmpDir: string
    const fs: FileStore.Files
    const priority: PriorityCounter.Counter
    const palette: ByAll.TissuePalette
    const flags: Flags
    const src: Sources
    var out: map<string, string>

    constructor(h: Helpers, assembly: string, wwwDir: string, tmpDir: string, fs: FileStore.Files,
                priority: PriorityCounter.Counter, palette: ByAll.TissuePalette, flags: Flags, src: Sources)
      ensures this.h == h && this.assembly == assembly && this.wwwDir == wwwDir && this.tmpDir == tmpDir
      ensures this.fs == fs && this.priority == priority && this.palette == palette
      ensures this.flags == flags && this.src == src && out == map[]
    {
      this.h := h;
      this.assembly := assembly;
      this.wwwDir := wwwDir;
      this.tmpDir := tmpDir;
      this.fs := fs;
      this.priority := priority;
      this.palette := palette;
      this.flags := flags;
      this.src := src;
      out := map[];
    }

    /** `_makeHub`. */
    method MakeHub()
      modifies fs
      ensures fs.contents == old(fs.contents)[PathJoin(wwwDir, ["hub.txt"]) := HubText]
    {
      fs.Write(PathJoin(wwwDir, ["hub.txt"]), HubText);
    }

    /** The ccREs scheme's generator and its `run`. */
    method RunCcREs() returns (r: Result<string>)
      modifies fs
      ensures var b := Hub.Built(Hub.Registry(map[], map[]), ByCcREs.Abbr, ByCcREs.Title,
                                     ByCcREs.BuildEntries(h, tmpDir, assembly, ByCcREs.Title, ByCcREs.Abbr,
                                                          ByCcREs.CcreExps(h.keyOrder, src.globalData)));
        var want := Hub.TableFiles(h, assembly, ByCcREs.Planner(h), h.keyOrder, b.table, old(fs.contents));
        && (want.Err? ==> r == Err(want.msg))
        && (want.Ok? ==> fs.contents == want.value && r == ByCcREs.MainTrackDbText(h, b, fs.contents))
    {
      var g := new ByCcREs.Generator(h, assembly, tmpDir, fs, src.globalData);
      r := g.Run();
    }

    /** The by-factor scheme's generator and its `run`. */
    method RunFactor() returns (r: Result<string>)
      modifies fs, priority
      ensures var built := Fold(ByAssayByFactor.BuildStep(h, tmpDir, assembly, src.factorExps),
                                (Hub.Registry(map[], map[]), old(fs.contents)), ByAssayByFactor.Assays);
        && (built.Err? ==> r == Err(built.msg))
        && (built.Ok? ==> fs.contents == built.value.1
                          && r == ByAssayByFactor.MainTrackDbText(h, built.value.0, fs.contents, old(priority.val)))
    {
      var g := new ByAssayByFactor.Generator(h, assembly, tmpDir, fs, priority);
      r := g.Run(src.factorExps);
    }

    /** The by-assay-by-biosample-type scheme's generator and its `run`. */
    method RunAssay() returns (r: Result<string>)
      requires palette.Valid()
      modifies fs, priority, palette
      ensures palette.Valid()
      ensures var built := Fold(ByAssayByBiosampleType.BuildStep(h, tmpDir, assembly, src.lookupBTN, src.assayExps),
                                ByAssayByBiosampleType.State(Hub.Registry(map[], map[]), old(fs.contents), old(palette.State())),
                                ByAssayByBiosampleType.AssaysFor(assembly));
        && (built.Err? ==> r == Err(built.msg))
        && (built.Ok? ==> fs.contents == built.value.files && palette.State() == built.value.palette
                          && r == ByAssayByBiosampleType.MainTrackDbText(h, built.value.reg, fs.contents, old(priority.val)))
    {
      var g := new ByAssayByBiosampleType.Generator(h, assembly, tmpDir, fs, priority, src.lookupBTN, palette);
      r := g.Run(src.assayExps);
    }

    /** The biosample scheme's generator and its `run`. */
    method RunBiosample() returns (r: Result<string>)
      modifies fs
      ensures var reg := ByBiosampleType.RegisterRows(Hub.Registry(map[], map[]), h, tmpDir, assembly, src.biosampleRows);
        var lookup := ByBiosampleType.LookupOf(h.keyOrder, src.globalData);
        var want := Fold(ByBiosampleType.JobStep(h, assembly, lookup, src.active, src.expsByIds), old(fs.contents),
                         Hub.JobList(Hub.Walk(h.keyOrder, reg.table), |src.biosampleRows|));
        && (want.Err? ==> r == Err(want.msg))
        && (want.Ok? ==> fs.contents == want.value && r == ByBiosampleType.MainTrackDbText(h, reg, fs.contents))
    {
      var g := new ByBiosampleType.Generator(h, assembly, tmpDir, fs, src.globalData, src.biosampleRows);
      r := g.Run(src.active, src.expsByIds);
    }

    /** `runner`: nothing for a disabled scheme, otherwise a new generator
        of the scheme and its `run`. */
    method RunScheme(typ: string) returns (r: Result<string>)
      requires typ in Typs && palette.Valid()
      modifies fs, priority, palette
      ensures palette.Valid()
      ensures !Enabled(flags, typ) ==> r == Ok("") && fs.contents == old(fs.contents)
      ensures Enabled(flags, typ) && typ == "organSlim" ==> r == src.organSlim
    {
      if !Enabled(flags, typ) {
        return Ok("");
      }
      if typ == "ccREs" {
        r := RunCcREs();
      } else if typ == "organSlim" {
        r := src.organSlim;
      } else if typ == "factor" {
        r := RunFactor();
      } else if typ == "assay" {
        r := RunAssay();
      } else {
        r := RunBiosample();
      }
    }

    /** `makeMainTrackDb`: the schemes' texts in their fixed order. */
    method MakeMainTrackDb()
      modifies fs
      ensures fs.contents == old(fs.contents)[PathJoin(wwwDir, [assembly, "trackDb.txt"]) := TrackDbText(out)]
    {
      var text := JoinOutputs(Typs);
      fs.Write(PathJoin(wwwDir, [assembly, "trackDb.txt"]), text);
    }

    /** The loop of `makeMainTrackDb`: each type's text in turn, an absent
        one counting as empty. */
    method JoinOutputs(typs: seq<string>) returns (text: string)
      ensures text == Concat(Outputs(out, typs))
    {
      text := "";
      for i := 0 to |typs|
        invariant text == Concat(Outputs(out, typs[..i]))
      {
        assert typs[..i + 1][..i] == typs[..i];
        var t := typs[i];
        text := text + (if t in out then out[t] else "");
      }
      assert typs[..|typs|] == typs;
    }

    /** `run`: the hub file, every scheme in turn, then the trackDb. A
        scheme that raises ends the run before the trackDb is written. */
    method Run() returns (r: Result<()>)
      requires palette.Valid()
      modifies this, fs, priority, palette
      ensures palette.Valid()
      ensures r.Ok? ==> forall t :: t in Typs ==> t in out && (!Enabled(flags, t) ==> out[t] == "")
      ensures r.Ok? ==> var p := PathJoin(wwwDir, [assembly, "trackDb.txt"]);
        p in fs.contents && fs.contents[p] == TrackDbText(out)
    {
      MakeHub();
      out := map[];
      for i := 0 to |Typs|
        invariant palette.Valid()
        invariant forall k :: 0 <= k < i ==> Typs[k] in out && (!Enabled(flags, Typs[k]) ==> out[Typs[k]] == "")
      {
        var text := RunScheme(Typs[i]);
        if text.Err? {
          return Err(text.msg);
        }
        out := out[Typs[i] := text.value];
      }
      MakeMainTrackDb();
      r := Ok(());
    }
  }

  /** `main`: one shared priority counter and one palette for both
      assemblies, each assembly's hub in turn, then `genomes.txt`. The
      global data of an assembly and what the metadata service returns are
      given by `sourcesOf`; `shuffled` is the palette after its shuffle. */
  method MakeAll(fs: FileStore.Files, h: Helpers, wwwDir: string, tmpDir: string, flags: Flags,
                 sourcesOf: string -> Sources, shuffled: seq<string>) returns (r: Result<()>)
    requires multiset(shuffled) == multiset(ByAll.Colors)
    modifies fs
    ensures r.Ok? ==> var p := PathJoin(wwwDir, ["genomes.txt"]);
      p in fs.contents && fs.contents[p] == GenomesText(Assemblies)
  {
    var priority := new PriorityCounter.Counter(0);
    var palette := new ByAll.TissuePalette(shuffled);
    for i := 0 to |Assemblies|
      invariant palette.Valid() && fresh(priority) && fresh(palette)
    {
      var tdb := new MegaTrackHub(h, Assemblies[i], wwwDir, tmpDir, fs, priority, palette, flags, sourcesOf(Assemblies[i]));
      var done := tdb.Run();
      if done.Err? {
        return Err(done.msg);
      }
    }
    OutputGenomes(fs, wwwDir, Assemblies);
    r := Ok(());
  }
}

# ENCODE big trackhub, modelled in Dafny

This project models the core of a generator for UCSC Genome Browser track
hubs over ENCODE experiments. For each assembly (hg19, mm10) the generator
writes `hub.txt`, `genomes.txt` and a `trackDb.txt`. Each `trackDb.txt` is
built from up to five organisation schemes:

- candidate cis-regulatory regions (ccREs) per biosample type;
- organ slims;
- assay by factor;
- assay by biosample type;
- biosample type by biosample.

Each scheme groups experiments and writes one sub-track file per group.
That file holds the group's composite track stanza, then one stanza per
bigWig, bigBed or ccRE file. The scheme then returns a main text: its
super-track stanzas followed by every group file.

The modules follow the program's files:

| module | file | what it holds |
|---|---|---|
| `Common` | — | Option/Result, string helpers, Python string ordering, a stable sort (`sorted`, `list.sort`), `itertools.groupby`, a fold that stops at the first error |
| `Encode` | — | the experiment, file and cell-type records the schemes read |
| `Tracks` | src/helpers/tracks.py | the leaf stanzas, `outputLines`, `CompositeExpTrack`, `Tracks` (ordering, priority numbering, sub-groups) |
| `ByAll` | src/byAll.py | the colour palette, tissue determination, colour-by-tissue allocator |
| `Hub` | shared by the scheme files | `merge_two_dicts`, job lists, group registration, composite headers, super tracks, the main text |
| `FileStore` | — | the file system as a map from path to text |
| `PriorityCounter` | src/01_make_big_trackhubs.py | the shared `Counter` |
| `ByCcREs` | src/byCcREs.py | the ccRE scheme |
| `ByAssayByFactor` | src/byAssayByFactor.py | the assay-by-factor scheme |
| `ByAssayByBiosampleType` | src/byAssayByBiosampleType.py | the assay-by-biosample-type scheme, including its "all data" group |
| `ByBiosampleType` | byBiosampleType.py | the biosample-type scheme |
| `ByAssay` | byAssay.py | the by-assay scheme |
| `MakeBigTrackhubs` | src/01_make_big_trackhubs.py | `MegaTrackHub`, `hub.txt`, `genomes.txt`, the run over both assemblies |

The model follows the source's shape:

- The objects the source updates in place are classes with `modifies`
  clauses: `CompositeExpTrack`, `Tracks` (here `TrackList`), the counter,
  the colour palette, the scheme generators and `MegaTrackHub`.
- Each such method is proved against a pure function of the old state.
- Leaf tracks are never changed after they are built, so they are values.
- Python's insertion-ordered dictionaries are sequences of entries.
- The order in which Python 2 iterates a dictionary is unspecified. It is a
  parameter (`KeyOrder`), and every property holds for any such order.

Several calls in the source no longer match the definitions they call.
Each is modelled by the callee's own definition, not reconciled. Two of
them raise TypeError as written; the model gives the evidently intended
behaviour instead, as said below:

- `Tracks(assembly, parent, bool)` at src/byAssayByBiosampleType.py:278 and
  src/byAssayByFactor.py:220. The boolean lands in `priorityStart`, so
  `isAll` stays false. The "all data" group is therefore numbered from 1 in
  the plain order.
- `tracks.lines(priority)` at src/byAssayByBiosampleType.py:293 and
  src/byAssayByFactor.py:232. `def lines(self)` (src/helpers/tracks.py:453)
  takes no argument, so as written every job of those two schemes opens
  its group file, writes nothing and raises TypeError. The model
  (`Hub.WriteTracks`, `ByAssayByBiosampleType.OutputAllSubTrack`) writes
  the text `lines()` produces, as evidently intended.
- The `Lookup` class imported at byBiosampleType.py:13 and byAssay.py:14
  does not exist in src/helpers/tracks.py. Which lookup records count as
  active is therefore a parameter. `ByBiosampleType.PlanNeverActive`
  proves that with `LookupActive.isActive` nothing is shown.
- `btn` is printed at src/byAssayByBiosampleType.py:274 (and
  byAssay.py:208). It is undefined there, but the `actives` list is always
  empty, so that line is unreachable.
- src/01_make_big_trackhubs.py:69-78 passes a `priority` keyword to every
  scheme. `TrackhubDbByCcREs` (src/byCcREs.py:123) and
  `TrackhubDbBiosampleType` do not accept it, so as written their
  construction raises TypeError. The ccRE scheme is on by default
  (src/01_make_big_trackhubs.py:155-157), so a default run stops at the
  first scheme, right after `hub.txt` is written. The model
  (`MakeBigTrackhubs.MegaTrackHub.RunScheme`) gives each scheme only what
  its constructor takes and runs it, as evidently intended.

## Model

| member | source | states |
|---|---|---|
| Tracks.IsActive | src/helpers/tracks.py:21-22 | `LookupActive` never marks a biosample active |
| Tracks.IsActiveForCcREs | src/helpers/tracks.py:31-35 | active exactly for the three listed biosample ids |
| Tracks.EmittedMembers | src/helpers/tracks.py:39-44 | an entry is written exactly when it is in the dictionary and its value is truthy |
| Tracks.EmittedAppend | src/helpers/tracks.py:39-44 | filtering the dictionary and then the extras is filtering their concatenation |
| Tracks.StanzaLinesEmitted | src/helpers/tracks.py:39-44 | the loop that skips falsy entries one by one writes exactly the lines of the kept entries, in order |
| Tracks.OutputLinesShape | src/helpers/tracks.py:37-45 | a stanza is one tab-indented `key value` line per truthy entry, the dictionary's before the extras', then exactly one blank line; no other line is blank |
| Tracks.Param | src/helpers/tracks.py:52-55 | the parent setting starts with the parent id and ends with " on" exactly when the child is shown |
| Tracks.Initials | src/helpers/tracks.py:57-58 | the first three characters of the parent id (fewer if shorter), a prefix of it, followed by "_" |
| Tracks.ProxyUrl | src/helpers/tracks.py:131-136 | a portal URL ends with the proxy flag afterwards; a URL already ending with it, or off the portal, is unchanged; at most the flag is appended |
| Tracks.ProxyUrlIdempotent | src/helpers/tracks.py:198-203 | rewriting a rewritten URL changes nothing |
| Tracks.PathJoinEndsWithLast | src/helpers/tracks.py:300-304 | `os.path.join` always ends with its last part |
| Tracks.PathJoinThree | src/helpers/tracks.py:300-304 | three relative parts joined onto a directory ending in "/" are separated by one "/" unless the middle part already ends with one |
| Tracks.CreUrlProxied | src/helpers/tracks.py:300-304 | every ccRE URL ends with ".bigBed?proxy=true" |
| Tracks.CreUrlShape | src/helpers/tracks.py:300-304 | for a plain accession the URL is the portal file path, the accession, "/@@download/", the accession and ".bigBed?proxy=true" |
| Tracks.AsciiOnly | src/helpers/tracks.py:110 | the ASCII re-encoding keeps only characters below 128 and never lengthens the text |
| Tracks.Desc | src/helpers/tracks.py:138-153 | a description starts with the accession and ends with the file's output type in parentheses |
| Tracks.BigWigTrack | src/helpers/tracks.py:60-87 | a bigWig leaf keeps the given shown flag; its settings come in `_init`'s order; its id is the parent's initials plus the sanitized "expID_fileID"; its parent setting follows the shown flag; its colour is the experiment's |
| Tracks.AllSettings | src/helpers/tracks.py:165-168 | the four reassignments replace values in place: the keys and every other entry are unchanged, the id gains "all_", the colour is the tissue's |
| Tracks.BigWigTrackAll | src/helpers/tracks.py:161-170 | a colour-by-tissue leaf is the plain bigWig leaf with "all_" on its id, the tissue's colour, every other setting in the same place, and the tissue as its presentation |
| Tracks.BigBedTrack | src/helpers/tracks.py:172-196 | a bigBed leaf sits under the experiment's view; its parent setting follows the view's flag, not the leaf's |
| Tracks.CRETrack | src/helpers/tracks.py:271-298 | a ccRE leaf is shown exactly when requested and its state type is "5group"; its id is the view's initials plus the sanitized "accession_ccRE"; its parent setting follows the view's flag |
| Tracks.PriorityWritten | src/helpers/tracks.py:155-159 | a leaf writes a priority line exactly when it is shown and its priority is non-zero (0 is falsy) |
| Tracks.BedTracks | src/helpers/tracks.py:389-402 | at most one bigBed leaf, none exactly when there is no bigBed file, otherwise the first file's |
| Tracks.KeptCREsProps | src/helpers/tracks.py:404-412 | every kept ccRE comes from the map; kept accessions are pairwise distinct; every accession walked so far is kept |
| Tracks.KeptCREsOnePerAccession | src/helpers/tracks.py:404-412 | the kept accessions are exactly the map's values, one leaf each |
| Tracks.AllStepProps | src/helpers/tracks.py:374-387 | `addExpAll` succeeds exactly when the tissue is known and the palette can colour every bigWig file; then the composite has one leaf per file and no beds or ccREs; colours already handed out stay as they were |
| Tracks.OneColorPerExperiment | src/helpers/tracks.py:383-386 | all files of one experiment get the same colour |
| Tracks.ColorAllStopsAtError | src/helpers/tracks.py:383-386 | once the palette runs out, later requests fail the same way and change nothing |
| Tracks.CompositeExpTrack.constructor | src/helpers/tracks.py:351-359 | fields as given; the view parent is "<parent>_view_<accession>" with the parent's flag; no leaves yet |
| Tracks.CompositeExpTrack.AddExpBestBigWig | src/helpers/tracks.py:361-372 | one bigWig leaf per bigWig file, in file order |
| Tracks.CompositeExpTrack.AddExpBestBed | src/helpers/tracks.py:389-402 | the loop stops after the first bigBed file |
| Tracks.CompositeExpTrack.AddCREs | src/helpers/tracks.py:404-412 | the loop keeps the first state type seen for each accession |
| Tracks.CompositeExpTrack.AddExp | src/helpers/tracks.py:414-417 | the composite's beds, bigWigs and ccREs become those of the three builders |
| Tracks.CompositeExpTrack.ColorFiles | src/helpers/tracks.py:383-386 | one tissue-coloured leaf per file, colours asked in turn; the palette's new state is that run's; an exhausted palette ends the loop with its error |
| Tracks.CompositeExpTrack.AddExpAll | src/helpers/tracks.py:374-387 | records the tissue and the coloured bigWigs, or returns the tissue lookup's or the palette's error; beds and ccREs untouched |
| Tracks.RankOrder | src/helpers/tracks.py:481-497 | sorting by rank is a permutation; DNase composites come first; numeric ranks ascend; labels follow in string order; equal ranks keep their order |
| Tracks.PlanProps | src/helpers/tracks.py:453-471 | leaves are numbered `start+1, start+2, ...` with no gap or repeat; each composite writes its bigWigs, then its beds and ccREs; a view stanza is written exactly for composites with beds or ccREs |
| Tracks.CompositePlanViews | src/helpers/tracks.py:464-467 | an empty view is never written |
| Tracks.UnionSnoc | src/helpers/tracks.py:499-505 | one more leaf adds its presentation pair to every sub-group key's set |
| Tracks.AddPresentation | src/helpers/tracks.py:503-504 | succeeds exactly when the leaf has every sub-group key, else KeyError; adds its pair under each key and keeps the rest |
| Tracks.AddLeaves | src/helpers/tracks.py:501-504 | succeeds exactly when every leaf so far has every key; the result is the per-key union of their pairs |
| Tracks.TrackList.constructor | src/helpers/tracks.py:436-441 | fields as given, no composites |
| Tracks.TrackList.AddExp | src/helpers/tracks.py:443-446 | appends the experiment's composite |
| Tracks.TrackList.AddExpAll | src/helpers/tracks.py:448-451 | appends the colour-by-tissue composite; on an error nothing is appended, though the palette keeps the colours it already gave |
| Tracks.TrackList.LeafRunLines | src/helpers/tracks.py:460-463 | one stanza per leaf, the counter incremented before each; the counter ends advanced by the number of leaves |
| Tracks.TrackList.CompositeLines | src/helpers/tracks.py:459-471 | one composite's stanzas follow its plan; the counter advances by its written leaves |
| Tracks.TrackList.WriteInOrder | src/helpers/tracks.py:458-471 | the text is the plan of all composites from `priorityStart` |
| Tracks.TrackList.Lines | src/helpers/tracks.py:453-471 | rank order, or tissue order in the all-experiments mode (AttributeError for a composite without a tissue), then written in that order |
| Tracks.TrackList.Subgroups | src/helpers/tracks.py:499-505 | the per-key sets of presentation pairs of every leaf, or KeyError |
| ByAll.ParseHex | src/byAll.py:13 | `int(h, 16)` succeeds exactly on a non-empty string of hex digits |
| ByAll.ToHexThenRgb | src/byAll.py:13-14 | the hex triple of any (r, g, b) converts back to "r,g,b" |
| ByAll.RgbStringInjective | src/byAll.py:14 | "r,g,b" determines r, g and b |
| ByAll.HexToRgbInjective | src/byAll.py:12-14 | distinct hex colours convert to distinct "r,g,b" strings |
| ByAll.WebShadesProps | src/byAll.py:12 | the shade list has 212 entries, each a six-digit upper-case hex colour, none repeated |
| ByAll.WebShadesEnds | src/byAll.py:12 | the list starts "0000CC", "0000FF" and ends "FFFFCC", "FFFFFF" |
| Common.MapResult | src/byAll.py:13-14 | a comprehension over a list succeeds exactly when every element converts; it then holds each element's result at the element's place |
| ByAll.ConvertDistinct | src/byAll.py:13-14 | a list of distinct hex colours converts without ValueError into a list of distinct "r,g,b" strings |
| ByAll.ColorsProps | src/byAll.py:12-14 | `COLORS` before the shuffle is the conversion of the shade list: 212 colours, none repeated |
| Common.DistinctPermutation | src/byAll.py:16 | a reordering of a list without repeats has no repeats |
| ByAll.FirstSlim | src/byAll.py:35-39 | "" without organ slims, otherwise the least slim in string order |
| ByAll.TranslateTissue | src/byAll.py:34-57 | KeyError exactly when the assembly has no renaming table, or when the first slim is not renamed and the assembly has no biosample table |
| ByAll.TranslateTissueSources | src/byAll.py:34-57 | the tissue is "", a renamed slim, a biosample table value, or one of "blood", "brain", "stem cells" |
| ByAll.GetTissue | src/byAll.py:59-67 | fails exactly when the translation fails; otherwise the stripped translation when that is non-empty, else the biosample term name; non-empty whenever the term name is |
| ByAll.ColorStep | src/byAll.py:71-75 | a known tissue keeps its colour; a new one takes the last free colour; IndexError exactly when the tissue is new and no colour is free; other tissues' colours and the palette's validity are kept |
| ByAll.ColorAllConsistent | src/byAll.py:69-75 | over any run of calls, two tissues get the same colour exactly when they are the same tissue, and no colour changes |
| ByAll.TissuePalette.constructor | src/byAll.py:15-16 | any reordering of the converted shade list, no tissue coloured yet; the palette is then valid (no colour twice) |
| ByAll.TissuePalette.ColorByTissue | src/byAll.py:71-75 | `ColorByTissue` on the palette's state |
| Hub.MergeTwoDicts | src/byAssayByFactor.py:32-35 | keys of both, the second dictionary's values win |
| Hub.JobList | src/byAssayByFactor.py:94-101 | one job per group, numbered from 1, with the given total |
| Hub.AppendRow | src/byAssayByFactor.py:97-101 | the inner loop appends one row's jobs, numbering on |
| Hub.MakeJobs | src/byAssayByFactor.py:94-101 | the jobs of the two-level table walked in dictionary order |
| Hub.SuperSettings | src/byAssayByFactor.py:112-125 | a super track's stanza starts with "track super_<name>" and writes its priority; a description line exactly when the scheme writes one |
| Hub.FilesText | src/byAssayByFactor.py:129-133 | appending the group files succeeds exactly when every file exists |
| Hub.AppendFiles | src/byAssayByFactor.py:127-134 | the super-track text followed by every group file and a newline each, or the first missing file's IOError |
| Hub.CompositeSettings | src/byAssayByFactor.py:171-203 | "visibility full" exactly when the group is active; the three `subGroupN` lines and the dimensions come from the chosen axes |
| Hub.AxisValues | src/byAssayByFactor.py:146-158 | succeeds exactly when the three axes are sub-group keys, else KeyError |
| Hub.Compose | src/byAssayByFactor.py:141-204 | the group file becomes its composite header, a newline, then its old text; IOError when it is missing |
| Hub.ComposeAfterWrite | src/byAssayByFactor.py:160-204 | right after the sub-tracks are written, the header goes in front of them |
| Hub.AddAll | src/byAssayByFactor.py:220-229 | appends one composite per experiment |
| Hub.WriteTracks | src/byAssayByFactor.py:230-236 | writes `lines()` to the group file and returns the sub-groups, or the error of either |
| Hub.OutputSubTrack | src/byAssayByFactor.py:208-236 | the group file holds the composites' stanzas; the sub-groups are returned |
| Hub.GroupFilesShape | src/byAssayByFactor.py:136-139 | a job succeeds exactly when its lines, sub-groups and header do; the file is then the header, a newline and the stanzas |
| Hub.OutputGroup | src/byAssayByFactor.py:136-139 | one job: the sub-tracks, then the composite header |
| Hub.RunPlans | src/byAssayByFactor.py:103-104 | the jobs run one after another; the first error stops them |
| Hub.MakeSubTracks | src/byAssayByFactor.py:94-104 | the job list built, then run |
| Hub.RegisterKeys | src/byAssayByFactor.py:75-89 | registering adds the assay's row (when there is a group) and the groups' keys, and leaves other rows alone |
| Hub.RegisterValues | src/byAssayByFactor.py:75-89 | the last group registered under a key wins; earlier keys not registered again keep their info |
| Hub.RegisterAppend | src/byAssayByFactor.py:61-64 | registering one run of groups after another equals registering both at once |
| Hub.RegisterRuns | src/byAssayByFactor.py:75-89 | the `groupby` loop registers each run as one group |
| Hub.GroupEntriesKeys | src/byAssayByFactor.py:68-76 | the group keys are exactly the sanitized keys of the experiments |
| Hub.GroupEntriesClasses | src/byAssayByFactor.py:68-89 | when sanitizing keeps keys apart, each experiment's group holds exactly the experiments with its key, in sorted order |
| Hub.GroupEntryKeysDistinct | src/byAssayByFactor.py:68-89 | when sanitizing keeps different labels apart, no two of `_build`'s groups share a key |
| Hub.SupersProps | src/byAssayByFactor.py:106-126 | the super tracks succeed exactly when every row's header does; they are numbered `start+1, start+2, ...` in walk order |
| Hub.SupersCounted | src/byAssayByFactor.py:108-110 | numbering with the shared counter advances it by one per row |
| Hub.SupersFrom | src/byCcREs.py:188-190 | numbering with a local counter from a start value |
| Hub.MainTrackDb | src/byAssayByFactor.py:106-135 | the super-track stanzas, then every group file |
| ByAssayByFactor.BuildGroupsByLabel | src/byAssayByFactor.py:67-89 | each factor label's group holds exactly the experiments with that label, with its name and file path |
| ByAssayByFactor.BuildRowKeys | src/byAssayByFactor.py:67-89 | a new assay adds one row whose keys are the sanitized labels |
| ByAssayByFactor.HeaderProps | src/byAssayByFactor.py:116-218 | the header succeeds exactly when "assay" and the axes are sub-group keys; the composite is then the track its job's tracks name as parent, hidden like them, split by biosample, age and sex, and view, and its parent is the assay's super track |
| ByAssayByFactor.HeadsOk | src/byAssayByFactor.py:106-126 | every assay row has its normal name, so the super tracks never raise |
| ByAssayByFactor.Generator.constructor | src/byAssayByFactor.py:38-59 | fields as given, nothing registered |
| ByAssayByFactor.Generator.Build | src/byAssayByFactor.py:67-104 | registers the label groups, then writes every group file of the table so far |
| ByAssayByFactor.Generator.MakeMainTrackDb | src/byAssayByFactor.py:106-135 | the main text; the shared counter advances by one per assay |
| ByAssayByFactor.Generator.Run | src/byAssayByFactor.py:61-65 | both assays built in turn, then the main text; the first error stops it |
| ByAssayByFactor.Generator.BuildAssays | src/byAssayByFactor.py:62-64 | the registry and the files are those of `_build` folded over the given assays; the first error is returned and stops the loop |
| ByAssayByBiosampleType.BuildAllGroup | src/byAssayByBiosampleType.py:94-109 | the "0_all" group holds every experiment of the assay, sorted by biosample type, named "_ALL DATA" |
| ByAssayByBiosampleType.BuildGroupsByType | src/byAssayByBiosampleType.py:111-126 | each biosample type's group holds exactly its experiments |
| ByAssayByBiosampleType.BuildEntriesKeys | src/byAssayByBiosampleType.py:94-126 | the group keys are "0_all" when the assay shows it, plus the sanitized types; there is no group exactly when neither applies |
| ByAssayByBiosampleType.BuildRowKeys | src/byAssayByBiosampleType.py:85-126 | a new assay adds a row exactly when it has a group |
| ByAssayByBiosampleType.BuiltRows | src/byAssayByBiosampleType.py:85-126 | every row has its normal name and is non-empty |
| ByAssayByBiosampleType.HeaderProps | src/byAssayByBiosampleType.py:158-276 | the header succeeds exactly when "assay" and its axes are sub-group keys; the composite is then the track its group's tracks name as parent, hidden like them, split along the assay's axes, and its parent is the assay's super track |
| ByAssayByBiosampleType.AxesForProps | src/byAssayByBiosampleType.py:194-214 | the third axis is always the view; "0_all" uses biosample × age_sex; otherwise DNase and ATAC use age, histone and factor ChIP use label, transcription, RAMPAGE and microRNA use assay, all with biosample first; any other assay uses donor × age |
| ByAssayByBiosampleType.AddAllExps | src/byAssayByBiosampleType.py:279-287 | the "all data" loop adds colour-by-tissue composites in turn; the first error stops it |
| ByAssayByBiosampleType.OutputAllSubTrack | src/byAssayByBiosampleType.py:266-296 | the "all data" group file and its sub-groups, numbered from 1 |
| ByAssayByBiosampleType.OutputAllGroup | src/byAssayByBiosampleType.py:177-180 | the "all data" job |
| ByAssayByBiosampleType.OutputGroup | src/byAssayByBiosampleType.py:177-180 | one job, colour-by-tissue for "0_all", plain otherwise |
| ByAssayByBiosampleType.RunJobs | src/byAssayByBiosampleType.py:140-141 | the jobs run in turn with the palette threaded through |
| ByAssayByBiosampleType.HeadsOk | src/byAssayByBiosampleType.py:143-168 | the super tracks never raise once every row is named and non-empty |
| ByAssayByBiosampleType.Generator.constructor | src/byAssayByBiosampleType.py:38-77 | fields as given, nothing registered |
| ByAssayByBiosampleType.Generator.Build | src/byAssayByBiosampleType.py:85-129 | registers the assay's groups, then writes every group file |
| ByAssayByBiosampleType.Generator.MakeMainTrackDb | src/byAssayByBiosampleType.py:143-175 | the main text; the counter advances by one per assay |
| ByAssayByBiosampleType.Generator.Run | src/byAssayByBiosampleType.py:79-83 | the assembly's assays built in turn, then the main text |
| ByAssayByBiosampleType.Generator.BuildAssays | src/byAssayByBiosampleType.py:80-82 | the registry, the files and the palette are those of `_build` folded over the given assays; the first error is returned and stops the loop |
| ByCcREs.MockPredicates | src/byCcREs.py:59-90 | a mock experiment is DNase, CTCF or a histone mark exactly by its assay; its rank follows from that |
| ByCcREs.DedupIds | src/byCcREs.py:96-106 | the ids seen afterwards are the ids before plus this cell type's; the kept ids are the new ones |
| ByCcREs.DedupDistinct | src/byCcREs.py:101-106 | kept experiments are new and pairwise distinct by id |
| ByCcREs.DedupFirst | src/byCcREs.py:101-106 | the first occurrence of every new id is kept |
| ByCcREs.Block | src/byCcREs.py:107-118 | one mock experiment per kept record; active exactly for the listed biosamples; only the first carries the ccRE files |
| ByCcREs.BlockIds | src/byCcREs.py:107-118 | a block's experiments have the kept records' ids |
| ByCcREs.CcreIds | src/byCcREs.py:92-120 | every experiment id walked appears exactly once in the result |
| ByCcREs.KeepNew | src/byCcREs.py:100-109 | the inner loop keeps the new records and extends the seen set |
| ByCcREs.CcreFromSnoc | src/byCcREs.py:99-119 | one more cell type appends its block |
| ByCcREs.CcreExpsLoop | src/byCcREs.py:92-120 | `ccREexps` over the cell types in dictionary order |
| ByCcREs.BuildGroupsByType | src/byCcREs.py:146-168 | each biosample type's group holds exactly its experiments |
| ByCcREs.BuildRowKeys | src/byCcREs.py:146-168 | the row's keys are the sanitized biosample types |
| ByCcREs.HeaderProps | src/byCcREs.py:195-291 | the header succeeds exactly when its axes are sub-group keys; the composite is then the track its job's tracks name as parent, shown exactly when they are, that is for the listed biosamples, and its parent is the assay's super track |
| ByCcREs.PlanPriorities | src/byCcREs.py:285-302 | job i's leaves are numbered from `(i + 2) * 1000` |
| ByCcREs.HeadsOk | src/byCcREs.py:185-212 | super tracks are numbered 1, 2, ... in walk order and never raise |
| ByCcREs.Generator.constructor | src/byCcREs.py:123-138 | fields as given, nothing registered |
| ByCcREs.Generator.Build | src/byCcREs.py:146-171 | registers the groups, then writes every group file |
| ByCcREs.Generator.MakeMainTrackDb | src/byCcREs.py:185-212 | the main text |
| ByCcREs.Generator.Run | src/byCcREs.py:140-144 | the ccRE experiments built, then the main text |
| Encode.SeenIdsCover | src/byCcREs.py:99-106 | every record of a walked cell type has its id seen |
| ByBiosampleType.LookupRowKeys | byBiosampleType.py:69-77 | the lookup gains exactly the records' ids |
| ByBiosampleType.LookupRowKeeps | byBiosampleType.py:69-77 | ids not seen again keep their record |
| ByBiosampleType.LookupRowLast | byBiosampleType.py:69-77 | the last record for an id wins |
| ByBiosampleType.LookupKeys | byBiosampleType.py:61-78 | the lookup's ids are every id of every cell type |
| ByBiosampleType.LookupLast | byBiosampleType.py:61-78 | across cell types, the last record for an id wins |
| ByBiosampleType.RegisterRowsTypes | byBiosampleType.py:86-104 | the rows are exactly the sanitized biosample types |
| ByBiosampleType.RegisterRowsNames | byBiosampleType.py:86-89 | every sanitized type gets a normal name |
| ByBiosampleType.RegisterRowsHas | byBiosampleType.py:86-104 | every input row gets a slot |
| ByBiosampleType.RegisterRowsLast | byBiosampleType.py:95-104 | the last input row for a slot wins |
| ByBiosampleType.RegisterRowsLastName | byBiosampleType.py:87-89 | the last type spelling for a sanitized type wins |
| ByBiosampleType.AnyActive | byBiosampleType.py:166-172 | true exactly when some experiment id has an active lookup record |
| ByBiosampleType.Actives | byBiosampleType.py:217-221 | the loop that collects `actives` |
| ByBiosampleType.HeaderProps | byBiosampleType.py:120-225 | the header succeeds exactly when its axes are sub-group keys; the composite is then the track its job's tracks name as parent, shown exactly when they start shown, split along the type's axes, and its parent is the type's super track |
| ByBiosampleType.AxesForProps | byBiosampleType.py:155-161 | "cell_line" uses label × assay; every other type uses donor × age; the view is third |
| ByBiosampleType.PlanActive | byBiosampleType.py:212-235 | the parent and the composite are shown exactly when some experiment is active |
| ByBiosampleType.PlanNeverActive | byBiosampleType.py:212-235 | with `LookupActive`, nothing is shown |
| ByBiosampleType.OutputGroup | byBiosampleType.py:139-142 | one job: actives, the sub-tracks, the composite header |
| ByBiosampleType.RunJobs | byBiosampleType.py:58-59 | the jobs run in turn; the first error stops them |
| ByBiosampleType.HeadsOk | byBiosampleType.py:110-128 | super tracks are numbered 11, 12, ... and never raise |
| ByBiosampleType.FreshRunHeads | byBiosampleType.py:80-128 | after a run from nothing, the rows are the input's types and the super tracks are numbered from 11 |
| ByBiosampleType.Generator.constructor | byBiosampleType.py:36-47 | fields as given, empty lookup |
| ByBiosampleType.Generator.LookupCellType | byBiosampleType.py:70-77 | the inner lookup loop |
| ByBiosampleType.Generator.BuildLookup | byBiosampleType.py:61-78 | the lookup over the cell types in dictionary order |
| ByBiosampleType.Generator.RegisterInput | byBiosampleType.py:85-104 | the names reset, then every input row registered |
| ByBiosampleType.Generator.MakeSubTracks | byBiosampleType.py:49-59 | the jobs, totalled by the input length, run in turn |
| ByBiosampleType.Generator.MakeMainTrackDb | byBiosampleType.py:110-137 | the main text |
| ByBiosampleType.Generator.Run | byBiosampleType.py:80-108 | the lookup, the groups, the jobs, then the main text |
| ByAssay.RecordKeys | byAssay.py:72-84 | the table and the names gain exactly the group keys |
| ByAssay.RecordLast | byAssay.py:72-84 | the last group for a key wins |
| ByAssay.RecordKeeps | byAssay.py:72-84 | keys not registered again keep their group |
| ByAssay.BuildKeys | byAssay.py:65-84 | the table keeps earlier assays' keys; the names are only this assay's |
| ByAssay.BuildGroupsByType | byAssay.py:67-84 | each biosample type's group holds exactly its experiments |
| ByAssay.BuildKeepsStale | byAssay.py:71-84 | a type of an earlier assay stays in the table without a name |
| ByAssay.HeaderProps | byAssay.py:111-210 | the header succeeds exactly when its axes are sub-group keys; the composite is then the track its job's tracks name as parent, never shown, like them, and its parent is the type's super track |
| ByAssay.AxesForProps | byAssay.py:144-150 | "immortalized_cell_line" uses label × assay; other types donor × age |
| ByAssay.PlanPriorities | byAssay.py:200-215 | one job per group; job i is numbered from `(i + 2) * 1000`; nothing is shown |
| ByAssay.HeadsOk | byAssay.py:101-119 | the super tracks succeed exactly when every table key has a name; numbered from 11 |
| ByAssay.BuildTextIff | byAssay.py:65-119 | an assay's main text raises KeyError exactly when an earlier assay left a type this one lacks |
| ByAssay.Generator.constructor | byAssay.py:38-56 | fields as given, empty table |
| ByAssay.Generator.RegisterRuns | byAssay.py:72-84 | the `groupby` loop |
| ByAssay.Generator.MakeSubTracks | byAssay.py:90-99 | every group file written in dictionary order |
| ByAssay.Generator.MakeMainTrackDb | byAssay.py:101-127 | the main text |
| ByAssay.Generator.Build | byAssay.py:65-88 | groups, files, then the main text |
| ByAssay.Generator.Run | byAssay.py:58-63 | the three assays' texts concatenated; the first error stops it |
| PriorityCounter.Counter.constructor | src/01_make_big_trackhubs.py:31-33 | starts at the given value |
| PriorityCounter.Counter.AddPre | src/01_make_big_trackhubs.py:39-42 | adds, returns the new value |
| PriorityCounter.Counter.AddPost | src/01_make_big_trackhubs.py:45-49 | adds, returns the old value |
| PriorityCounter.Counter.Increment | src/01_make_big_trackhubs.py:35-36 | `add_pre` |
| PriorityCounter.Counter.Value | src/01_make_big_trackhubs.py:51-53 | the value, unchanged |
| FileStore.Files.Read | src/byAssayByFactor.py:131-132 | a file's text, or IOError when it does not exist |
| FileStore.Files.Write | src/byAssayByFactor.py:171 | the file's text replaced, every other file unchanged |
| MakeBigTrackhubs.Outputs | src/01_make_big_trackhubs.py:96-97 | each scheme's output, in scheme order |
| MakeBigTrackhubs.TrackDbOnly | src/01_make_big_trackhubs.py:86-97 | with every other scheme disabled, `trackDb.txt` is that scheme's text |
| MakeBigTrackhubs.DefaultPos | src/01_make_big_trackhubs.py:116-121 | a default position exactly for hg19 and mm10 |
| MakeBigTrackhubs.GenomesAppend | src/01_make_big_trackhubs.py:120-128 | genomes text over concatenated assembly lists is the concatenation |
| MakeBigTrackhubs.GenomesOfAssemblies | src/01_make_big_trackhubs.py:113-128 | the two stanzas, with the listed positions |
| MakeBigTrackhubs.OutputGenomes | src/01_make_big_trackhubs.py:113-129 | `genomes.txt` holds one stanza per assembly; no other file changes |
| MakeBigTrackhubs.MegaTrackHub.constructor | src/01_make_big_trackhubs.py:57-64 | fields as given, no outputs |
| MakeBigTrackhubs.MegaTrackHub.MakeHub | src/01_make_big_trackhubs.py:100-111 | `hub.txt` written, nothing else |
| MakeBigTrackhubs.MegaTrackHub.RunCcREs | src/01_make_big_trackhubs.py:75-80 | a fresh ccRE generator's run: its text and files are those of the ccRE build over the experiments in the global data, from an empty registry |
| MakeBigTrackhubs.MegaTrackHub.RunFactor | src/01_make_big_trackhubs.py:75-82 | a fresh by-factor generator's run: the fold over both assay titles from an empty registry, failing exactly when that fold fails |
| MakeBigTrackhubs.MegaTrackHub.RunAssay | src/01_make_big_trackhubs.py:75-83 | a fresh by-assay-by-biosample-type generator's run: the fold over the assembly's assays, including the palette's new state, failing exactly when that fold fails |
| MakeBigTrackhubs.MegaTrackHub.RunBiosample | src/01_make_big_trackhubs.py:75-84 | a fresh biosample generator's run: the input rows registered from empty, then the fold over the jobs they give |
| MakeBigTrackhubs.MegaTrackHub.RunScheme | src/01_make_big_trackhubs.py:75-78 | a disabled scheme yields "" and writes nothing; organ slims yield their given text |
| MakeBigTrackhubs.MegaTrackHub.MakeMainTrackDb | src/01_make_big_trackhubs.py:92-98 | `trackDb.txt` is the schemes' outputs in order |
| MakeBigTrackhubs.MegaTrackHub.JoinOutputs | src/01_make_big_trackhubs.py:97-98 | the text is each type's output in the given order, concatenated, with a missing type counted as empty |
| MakeBigTrackhubs.MegaTrackHub.Run | src/01_make_big_trackhubs.py:66-90 | on success every scheme has an output, "" for disabled ones, and `trackDb.txt` holds them |
| MakeBigTrackhubs.MakeAll | src/01_make_big_trackhubs.py:172-198 | on success `genomes.txt` holds the hg19 and mm10 stanzas |
| Common.SortByProps | src/byAssayByFactor.py:69-72 | the stable sort is sorted, a permutation, and keeps the order of equal keys |
| Common.SortedGroupsAreClasses | src/byAssayByFactor.py:75-76 | `groupby` after sorting yields distinct keys, each run holding exactly the experiments with its key |
| Common.GroupRunsPartition | src/byAssayByFactor.py:75 | `groupby`'s runs concatenate back to the input, each run sharing one key |
| Common.StripIdempotent | src/byAll.py:60 | stripping twice is stripping once |
| Common.StrLeTotal | src/helpers/tracks.py:497 | Python string comparison is total |
| Common.StrLeTrans | src/helpers/tracks.py:497 | and transitive |

## Left out

- Parallel execution with joblib: the model runs the jobs one after
  another, in list order, with one colour palette threaded through them.
  The source runs them in `-j` worker processes (4 by default,
  src/01_make_big_trackhubs.py:141), and `ColorByTissue`
  (src/byAll.py:69-75), called inside the jobs, pops from each worker's own
  copy of `COLORS` and fills its own `TissueColors`. With more than one
  worker, two tissues handled in different workers can get the same
  colour, and one tissue can get different colours in different jobs.
  `ByAll.ColorAllConsistent` and `ByAll.TissuePalette` describe a run with
  `-j 1` only.
- File I/O: the file system is a map from path to text. `ensureDir`, the
  printing and the line counts are not modelled.
- The metadata web service (`MetadataWS`) and the network: the
  experiments each query returns are parameters.
- `helpers.helpers` is not part of this model. Its functions (sanitize,
  unrollEquals, viz, colorize, the label makers, the file filters, the
  sub-group keys, getOrUnknown, html_escape) are fields of a `Helpers`
  parameter.
- Python 2 dictionary iteration order: a `KeyOrder` parameter.
- `random.shuffle` of the palette: the shuffled list is an input, any
  reordering of the converted shade list (`ByAll.Colors`), which
  `ByAll.ColorsProps` shows has no repeated colour. The shade list is
  written as the web-safe cube it enumerates rather than as 212 literals.
- The organ-slim scheme (`byOrganSlim.py`) is not part of this model: its
  output is a parameter.
- `testHub` runs an external checker; argparse becomes the `Flags` record;
  `globalData` is given, not loaded from disk or the web service.
- The root `01_make_big_trakchubs.py` and `paths.py` are not part of this
  model. No caller of `byAssay.py` appears in the source (the runner's
  "assay" scheme is `byAssayByBiosampleType.py`);
  `ByAssay.Generator.Run` is modelled from that file's own `run`.
- `MockFile`'s assembly and `isPooled` are not represented: no modelled
  function reads them.
- `MockExp` sets `assay_title` only when the global-data entry has such a
  key. The model gives every mock an empty assay title, which
  `Tracks.ExpSubgroups` reads for an "RNA-seq" assay. The source then
  raises AttributeError in `_subgroups`, where the model uses "".
- Tracks.ValueString: `str(v)` in `outputLines`
  (src/helpers/tracks.py:41,44) is modelled as the identity on strings.
  Under Python 2's default ASCII codec, `str()` of a unicode value holding
  a non-ASCII character raises UnicodeEncodeError; such a value can reach
  a stanza through `_desc`, which appends `exp.description` as it is
  (src/helpers/tracks.py:146). `Tracks.StanzaLinesEmitted` and the stanza
  texts built on it therefore do not model that error path.
- `Common.Strip` removes ASCII whitespace only; Python 2 `unicode.strip()`
  also removes other Unicode whitespace.
- MakeBigTrackhubs.MegaTrackHub.RunScheme: states the runner's own rule
  (a disabled scheme gives "", the organ-slim text is passed through),
  not the text of each scheme. That text is stated by the scheme's own
  runner (`RunCcREs`, `RunFactor`, `RunAssay`, `RunBiosample`) and by
  each scheme's `Generator.Run`.
- MakeBigTrackhubs.MegaTrackHub.Run: states the outputs and
  `trackDb.txt`, not each scheme's text, for the same reason.
- MakeBigTrackhubs.MakeAll: states `genomes.txt`, not the per-assembly
  files written by `MegaTrackHub.Run`.
- ByBiosampleType.Generator.Run: the experiments the service returns for
  an id list, and which lookup records count as active, are parameters.
- Tracks.Desc: states the beginning and end of the description, not the
  middle, which depends on `sanitize`.

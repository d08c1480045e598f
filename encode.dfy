/** The ENCODE metadata records the generators consume. They come from the
    metadata library (experiments, their files and the portal lookups), which
    is outside this model: its answers arrive as these values. */
module Encode {

  /** An experiment. The three flags are the answers of the library's
      `isDNaseSeq`, `isChipSeqTF` and `isChipSeqHistoneMark` methods. */
  datatype Exp = Exp(
    encodeID: string,
    assayTermName: string,
    assayTitle: string,
    tf: string,
    labelName: string,
    target: string,
    biosampleTermName: string,
    biosampleSummary: string,
    biosampleType: string,
    description: string,
    ageDisplay: string,
    donorSex: string,
    donorId: string,
    organSlims: seq<string>,
    isDNaseSeq: bool,
    isChipSeqTF: bool,
    isChipSeqHistoneMark: bool,
    files: seq<File>)

  /** A processed file of an experiment. */
  datatype File = File(expID: string, fileID: string, url: string, outputType: string)

  /** One entry of the global data's `byCellType` lists: an experiment of a
      cell type, with the keys the ccRE and biosample schemes read. */
  datatype CellTypeExp = CellTypeExp(
    expID: string,
    fileID: string,
    assay: string,
    cellTypeName: string,
    cellTypeDesc: string,
    biosampleSummary: string,
    biosampleType: string)

  /** The parts of an assembly's global data file the generators read: the
      experiments of each cell type and each cell type's ccRE bigBeds (state
      type to file accession). */
  datatype GlobalData = GlobalData(
    byCellType: map<string, seq<CellTypeExp>>,
    creBigBedsByCellType: map<string, map<string, string>>)

  /** The ids of some entries. */
  function Ids(s: seq<CellTypeExp>): set<string> {
    set x | x in s :: x.expID
  }

  /** The ccRE files of a cell type; `{}` when it has none. */
  function CreBigBeds(gd: GlobalData, ctn: string): map<string, string> {
    if ctn in gd.creBigBedsByCellType then gd.creBigBedsByCellType[ctn] else map[]
  }

  /** The entries of a cell type; none for a cell type the data lacks. */
  function InfosOf(gd: GlobalData, ctn: string): seq<CellTypeExp> {
    if ctn in gd.byCellType then gd.byCellType[ctn] else []
  }

  /** The ids of the entries of the cell types `ctns`. */
  function SeenIds(gd: GlobalData, ctns: seq<string>): set<string>
    decreases |ctns|
  {
    if ctns == [] then {} else SeenIds(gd, ctns[..|ctns| - 1]) + Ids(InfosOf(gd, ctns[|ctns| - 1]))
  }

  /** An entry of a walked cell type has its id among those seen. */
  lemma {:induction false} SeenIdsCover(gd: GlobalData, ctns: seq<string>, ctn: string, x: CellTypeExp)
    requires ctn in ctns && x in InfosOf(gd, ctn)
    ensures x.expID in SeenIds(gd, ctns)
    decreases |ctns|
  {
    var init := ctns[..|ctns| - 1];
    if ctn != ctns[|ctns| - 1] {
      assert ctn in init by {
        var i :| 0 <= i < |ctns| && ctns[i] == ctn;
        assert init[i] == ctn;
      }
      SeenIdsCover(gd, init, ctn, x);
    }
  }
}

/**
 * OutputHandle (igia/skeleton.py:89-127): the bundle of ten result files of
 * a run, four for genomic elements and six for isoform classes, all under one
 * output directory. The handle is a context manager: entering it opens the ten
 * files for writing, leaving it closes all of them.
 *
 * A file is modelled by its path and whether it is open. What the collaborators
 * write through the handle is kept as one append-only log of records, each the
 * stream group written to and the number of the cluster whose name ends every
 * line of it.
 */
module Output {
  import opened Basics
  import opened Names

  /** The ten streams, in the order the handle opens and closes them. */
  datatype StreamKind =
    | Intron | InternalExon | TssExon | TesExon
    | IsoF | IsoA | IsoR | IsoM | IsoC | IsoP

  const AllKinds: seq<StreamKind> :=
    [Intron, InternalExon, TssExon, TesExon, IsoF, IsoA, IsoR, IsoM, IsoC, IsoP]

  function FileName(k: StreamKind): string {
    match k
    case Intron => "intron.bed6"
    case InternalExon => "internal_exon.bed6"
    case TssExon => "tss_exon.bed6"
    case TesExon => "tes_exon.bed6"
    case IsoF => "isoF.bed12"
    case IsoA => "isoA.bed12"
    case IsoR => "isoR.bed12"
    case IsoM => "isoM.bed12"
    case IsoC => "isoC.bed12"
    case IsoP => "isoP.bed12"
  }

  /** os.path.join of a directory and a relative file name. */
  function Join(dir: string, name: string): string {
    if dir == [] || dir[|dir| - 1] == '/' then dir + name else dir + "/" + name
  }

  /** Path of the i-th stream of a handle rooted at dir. */
  function PathOf(dir: string, i: nat): string
    requires i < 10
  {
    Join(dir, FileName(AllKinds[i]))
  }

  /** A stream field: not yet assigned (before __enter__), or a file that is open or closed. */
  datatype Stream = Unset | File(path: string, isOpen: bool)

  datatype Group = Elements | Isoforms

  /**
   * One batch written by a collaborator through a group of streams for the
   * cluster numbered `cluster`; every line of the batch ends with Name().
   */
  datatype Record = Record(group: Group, cluster: nat) {
    function Name(): string {
      ClusterName(cluster)
    }
  }

  /** The ten streams of a handle rooted at dir, all open or all closed. */
  function FileStreams(dir: string, isOpen: bool): (ss: seq<Stream>)
    ensures |ss| == 10
  {
    seq(10, i requires 0 <= i < 10 => File(PathOf(dir, i), isOpen))
  }

  /** The streams after opening the first `count` files and failing on the next one. */
  function OpenedUpTo(dir: string, count: nat): (ss: seq<Stream>)
    requires count < 10
    ensures |ss| == 10
  {
    seq(10, i requires 0 <= i < 10 => if i < count then File(PathOf(dir, i), true) else Unset)
  }

  /** Opening a file for writing; it fails for the paths the file system refuses. */
  function Open(path: string, unopenable: set<string>): (r: Result<Stream>)
    ensures r.Success? <==> path !in unopenable
    ensures r.Success? ==> r.value == File(path, true)
  {
    if path in unopenable then Failure(path) else Success(File(path, true))
  }

  /** Index of the first of the ten files, from `from` on, that the file system refuses. */
  function FirstUnopenable(dir: string, unopenable: set<string>, from: nat): (r: Option<nat>)
    requires from <= 10
    ensures r.Some? ==> from <= r.value < 10 && PathOf(dir, r.value) in unopenable
    ensures forall i :: from <= i < 10 && (r.None? || i < r.value) ==> PathOf(dir, i) !in unopenable
    decreases 10 - from
  {
    if from == 10 then None
    else if PathOf(dir, from) in unopenable then Some(from)
    else FirstUnopenable(dir, unopenable, from + 1)
  }

  /** The first refused file is the one after a run of accepted ones; with none refused there is none. */
  lemma FirstUnopenableAt(dir: string, unopenable: set<string>, n: nat)
    requires n <= 10
    requires forall i :: 0 <= i < n ==> PathOf(dir, i) !in unopenable
    requires n < 10 ==> PathOf(dir, n) in unopenable
    ensures FirstUnopenable(dir, unopenable, 0) == if n < 10 then Some(n) else None
  {
  }

  lemma JoinInjective(dir: string, a: string, b: string)
    ensures Join(dir, a) == Join(dir, b) <==> a == b
  {
    var p := if dir == [] || dir[|dir| - 1] == '/' then dir else dir + "/";
    assert Join(dir, a) == p + a && Join(dir, b) == p + b;
    if p + a == p + b {
      assert a == (p + a)[|p|..];
      assert b == (p + b)[|p|..];
    }
  }

  /** The ten file names differ from each other. */
  lemma FileNamesDistinct()
    ensures forall i, j :: 0 <= i < j < 10 ==> FileName(AllKinds[i]) != FileName(AllKinds[j])
  {
  }

  /**
   * The ten paths the handle opens lie under the output directory and are
   * pairwise different, so the handle holds ten distinct files.
   */
  lemma PathsDistinct(dir: string)
    ensures forall i :: 0 <= i < 10 ==> dir <= PathOf(dir, i)
    ensures forall i, j :: 0 <= i < j < 10 ==> PathOf(dir, i) != PathOf(dir, j)
  {
    FileNamesDistinct();
    forall i, j | 0 <= i < j < 10
      ensures PathOf(dir, i) != PathOf(dir, j)
    {
      JoinInjective(dir, FileName(AllKinds[i]), FileName(AllKinds[j]));
    }
  }

  /** The same stream after its file has been closed. */
  function Closed(s: Stream): Stream {
    match s
    case Unset => Unset
    case File(path, _) => File(path, false)
  }

  class OutputHandle {
    var outdir: string
    var fIntron: Stream
    var fInternalExon: Stream
    var fTssExon: Stream
    var fTesExon: Stream
    var fIsoF: Stream
    var fIsoA: Stream
    var fIsoR: Stream
    var fIsoM: Stream
    var fIsoC: Stream
    var fIsoP: Stream
    /** Everything written through the handle since its files were opened. */
    var written: seq<Record>

    /** The ten stream fields in declaration (and opening) order. */
    function Streams(): (ss: seq<Stream>)
      reads this`fIntron, this`fInternalExon, this`fTssExon, this`fTesExon, this`fIsoF,
        this`fIsoA, this`fIsoR, this`fIsoM, this`fIsoC, this`fIsoP
      ensures |ss| == 10
    {
      [fIntron, fInternalExon, fTssExon, fTesExon, fIsoF, fIsoA, fIsoR, fIsoM, fIsoC, fIsoP]
    }

    /** Every stream field has been assigned, as after a successful __enter__. */
    predicate Entered()
      reads this`fIntron, this`fInternalExon, this`fTssExon, this`fTesExon, this`fIsoF,
        this`fIsoA, this`fIsoR, this`fIsoM, this`fIsoC, this`fIsoP
    {
      forall i :: 0 <= i < 10 ==> Streams()[i].File?
    }

    predicate IsOpenStream(s: Stream) {
      s.File? && s.isOpen
    }

    constructor (outdir: string)
      ensures this.outdir == outdir && written == []
      ensures forall i :: 0 <= i < 10 ==> Streams()[i] == Unset
    {
      this.outdir := outdir;
      fIntron, fInternalExon, fTssExon, fTesExon := Unset, Unset, Unset, Unset;
      fIsoF, fIsoA, fIsoR, fIsoM, fIsoC, fIsoP := Unset, Unset, Unset, Unset, Unset, Unset;
      written := [];
    }

    /**
     * __enter__: opens the ten files in order, for writing (so nothing from
     * earlier runs is kept), and returns the handle itself. The first file the
     * file system refuses raises; the files opened before it stay open and the
     * rest stay unassigned.
     */
    method Enter(unopenable: set<string>) returns (r: Result<OutputHandle>)
      modifies this`written, this`fIntron, this`fInternalExon, this`fTssExon, this`fTesExon, this`fIsoF,
        this`fIsoA, this`fIsoR, this`fIsoM, this`fIsoC, this`fIsoP
      ensures written == []
      ensures FirstUnopenable(outdir, unopenable, 0).None? ==>
        r == Success(this) && Streams() == FileStreams(outdir, true)
      ensures FirstUnopenable(outdir, unopenable, 0).Some? ==>
        var j := FirstUnopenable(outdir, unopenable, 0).value;
        && r == Failure(PathOf(outdir, j))
        && forall i :: 0 <= i < 10 ==>
             Streams()[i] == if i < j then File(PathOf(outdir, i), true) else old(Streams()[i])
    {
      written := [];
      for n := 0 to 10
        invariant written == []
        invariant forall i :: 0 <= i < n ==> PathOf(outdir, i) !in unopenable
        invariant forall i :: 0 <= i < 10 ==>
          Streams()[i] == if i < n then File(PathOf(outdir, i), true) else old(Streams()[i])
      {
        var s := Open(PathOf(outdir, n), unopenable);
        if s.Failure? {
          FirstUnopenableAt(outdir, unopenable, n);
          r := Failure(s.error);
          return;
        }
        SetStream(n, s.value);
      }
      FirstUnopenableAt(outdir, unopenable, 10);
      r := Success(this);
    }

    /** Assigns the i-th stream field, as each `self.f_... = open(...)` line does. */
    method SetStream(i: nat, s: Stream)
      requires i < 10
      modifies this`fIntron, this`fInternalExon, this`fTssExon, this`fTesExon, this`fIsoF,
        this`fIsoA, this`fIsoR, this`fIsoM, this`fIsoC, this`fIsoP
      ensures Streams() == old(Streams())[i := s]
    {
      if i == 0 { fIntron := s; }
      else if i == 1 { fInternalExon := s; }
      else if i == 2 { fTssExon := s; }
      else if i == 3 { fTesExon := s; }
      else if i == 4 { fIsoF := s; }
      else if i == 5 { fIsoA := s; }
      else if i == 6 { fIsoR := s; }
      else if i == 7 { fIsoM := s; }
      else if i == 8 { fIsoC := s; }
      else { fIsoP := s; }
    }

    /** element_handles: the four element streams, intron first. */
    function ElementHandles(): (hs: seq<Stream>)
      reads this`fIntron, this`fInternalExon, this`fTssExon, this`fTesExon, this`fIsoF,
        this`fIsoA, this`fIsoR, this`fIsoM, this`fIsoC, this`fIsoP
      ensures |hs| == 4
      ensures hs == Streams()[..4]
    {
      [fIntron, fInternalExon, fTssExon, fTesExon]
    }

    /** isoform_handles: the six isoform streams, isoF first. */
    function IsoformHandles(): (hs: seq<Stream>)
      reads this`fIntron, this`fInternalExon, this`fTssExon, this`fTesExon, this`fIsoF,
        this`fIsoA, this`fIsoR, this`fIsoM, this`fIsoC, this`fIsoP
      ensures |hs| == 6
      ensures hs == Streams()[4..]
    {
      [fIsoF, fIsoA, fIsoR, fIsoM, fIsoC, fIsoP]
    }

    /**
     * Once the handle is open, element_handles is the four open element files
     * intron, internal_exon, tss_exon, tes_exon, and isoform_handles the six
     * open isoform files isoF, isoA, isoR, isoM, isoC, isoP, in these orders.
     */
    lemma HandlesWhenOpen()
      requires Streams() == FileStreams(outdir, true)
      ensures ElementHandles() == [
        File(Join(outdir, "intron.bed6"), true), File(Join(outdir, "internal_exon.bed6"), true),
        File(Join(outdir, "tss_exon.bed6"), true), File(Join(outdir, "tes_exon.bed6"), true)]
      ensures IsoformHandles() == [
        File(Join(outdir, "isoF.bed12"), true), File(Join(outdir, "isoA.bed12"), true),
        File(Join(outdir, "isoR.bed12"), true), File(Join(outdir, "isoM.bed12"), true),
        File(Join(outdir, "isoC.bed12"), true), File(Join(outdir, "isoP.bed12"), true)]
    {
    }

    function Handles(g: Group): seq<Stream>
      reads this`fIntron, this`fInternalExon, this`fTssExon, this`fTesExon, this`fIsoF,
        this`fIsoA, this`fIsoR, this`fIsoM, this`fIsoC, this`fIsoP
    {
      if g == Elements then ElementHandles() else IsoformHandles()
    }

    /**
     * A collaborator writing one cluster's batch through a group of handles,
     * each line tagged with the cluster's name; it needs every stream of the group open.
     */
    method Write(g: Group, cluster: nat)
      requires forall i :: 0 <= i < |Handles(g)| ==> IsOpenStream(Handles(g)[i])
      modifies this`written
      ensures written == old(written) + [Record(g, cluster)]
    {
      written := written + [Record(g, cluster)];
    }

    /** close: closes the ten files one by one; closing a closed file does nothing. */
    method Close()
      requires Entered()
      modifies this`fIntron, this`fInternalExon, this`fTssExon, this`fTesExon, this`fIsoF,
        this`fIsoA, this`fIsoR, this`fIsoM, this`fIsoC, this`fIsoP
      ensures forall i :: 0 <= i < 10 ==> Streams()[i] == File(old(Streams()[i]).path, false)
    {
      fIntron := Closed(fIntron);
      fInternalExon := Closed(fInternalExon);
      fTssExon := Closed(fTssExon);
      fTesExon := Closed(fTesExon);
      fIsoF := Closed(fIsoF);
      fIsoA := Closed(fIsoA);
      fIsoR := Closed(fIsoR);
      fIsoM := Closed(fIsoM);
      fIsoC := Closed(fIsoC);
      fIsoP := Closed(fIsoP);
    }

    /** __exit__: closes everything, whatever ended the with-block. */
    method Exit()
      requires Entered()
      modifies this`fIntron, this`fInternalExon, this`fTssExon, this`fTesExon, this`fIsoF,
        this`fIsoA, this`fIsoR, this`fIsoM, this`fIsoC, this`fIsoP
      ensures forall i :: 0 <= i < 10 ==> Streams()[i] == File(old(Streams()[i]).path, false)
    {
      Close();
    }
  }
}

/** The study directory as DCMSystem sees it: a tree of directories whose
    leaves are files, each of which may or may not parse as a DICOM object, and
    the search DCMSystem.getDicomObject makes for the first one that does. */
module DicomFiles {
  import opened Text

  /** The attributes of a parsed DICOM object that the core reads. */
  datatype DicomHeader = DicomHeader(studyUid: string, seriesUid: string, modality: string)

  /** What happens to a parsed file in sendInstances: an attribute update throws
      before any UID is drawn, DicomSender.send throws, kos.add throws, close()
      throws after the success was counted, or every call returns. */
  datatype Delivery = UpdateFails | SendFails | KosAddFails | CloseFails | Delivered

  /** A leaf file: its header when it parses as DICOM, and its delivery. */
  datatype DicomFile = DicomFile(header: Option<DicomHeader>, delivery: Delivery)

  /** File.listFiles order is the order of children. */
  datatype FileNode = Dir(children: seq<FileNode>) | Leaf(file: DicomFile)

  /** The leaf files in depth-first, listing order. */
  function Leaves(node: FileNode): seq<DicomFile>
    decreases node, 1
  {
    match node
    case Leaf(f) => [f]
    case Dir(children) => LeavesAll(children)
  }

  function LeavesAll(nodes: seq<FileNode>): seq<DicomFile>
    decreases nodes, 0
  {
    if nodes == [] then []
    else LeavesAll(nodes[..|nodes| - 1]) + Leaves(nodes[|nodes| - 1])
  }

  /** The first file of a sequence that parses. */
  function FirstParsed(files: seq<DicomFile>): Option<DicomHeader>
  {
    if files == [] then None
    else if files[0].header.Some? then files[0].header
    else FirstParsed(files[1..])
  }

  /** getDicomObject: a file yields its header if it parses; a directory asks
      its children in order and stops at the first that yields one. */
  function FirstParsable(node: FileNode): Option<DicomHeader>
    decreases node, 1
  {
    match node
    case Leaf(f) => f.header
    case Dir(children) => FirstParsableIn(children)
  }

  function FirstParsableIn(nodes: seq<FileNode>): Option<DicomHeader>
    decreases nodes, 0
  {
    if nodes == [] then None
    else
      var h := FirstParsable(nodes[0]);
      if h.Some? then h else FirstParsableIn(nodes[1..])
  }

  lemma {:induction false} FirstParsedAppend(a: seq<DicomFile>, b: seq<DicomFile>)
    ensures FirstParsed(a + b) == if FirstParsed(a).Some? then FirstParsed(a) else FirstParsed(b)
    decreases |a|
  {
    if a == [] {
      assert a + b == b;
    } else {
      assert (a + b)[0] == a[0];
      assert (a + b)[1..] == a[1..] + b;
      FirstParsedAppend(a[1..], b);
    }
  }

  lemma {:induction false} LeavesAllCons(nodes: seq<FileNode>)
    requires nodes != []
    ensures LeavesAll(nodes) == Leaves(nodes[0]) + LeavesAll(nodes[1..])
    decreases |nodes|
  {
    if |nodes| > 1 {
      var last := nodes[|nodes| - 1];
      LeavesAllCons(nodes[..|nodes| - 1]);
      assert nodes[..|nodes| - 1][1..] == nodes[1..][..|nodes[1..]| - 1];
      assert nodes[..|nodes| - 1][0] == nodes[0];
    } else {
      assert nodes[..|nodes| - 1] == [];
      assert nodes[1..] == [];
    }
  }

  /** getDicomObject returns the header of the first parsable leaf in
      depth-first, listing order, and null exactly when no leaf parses. */
  lemma {:induction false} FirstParsableIsFirstLeaf(node: FileNode)
    ensures FirstParsable(node) == FirstParsed(Leaves(node))
    ensures FirstParsable(node).None? <==> forall k :: 0 <= k < |Leaves(node)| ==> Leaves(node)[k].header.None?
    decreases node, 1
  {
    match node
    case Leaf(f) =>
    case Dir(children) =>
      FirstParsableInIsFirstLeaf(children);
    NoneIffNoParsed(Leaves(node));
  }

  lemma {:induction false} FirstParsableInIsFirstLeaf(nodes: seq<FileNode>)
    ensures FirstParsableIn(nodes) == FirstParsed(LeavesAll(nodes))
    decreases nodes, 0
  {
    if nodes != [] {
      LeavesAllCons(nodes);
      FirstParsableIsFirstLeaf(nodes[0]);
      FirstParsableInIsFirstLeaf(nodes[1..]);
      FirstParsedAppend(Leaves(nodes[0]), LeavesAll(nodes[1..]));
    }
  }

  lemma {:induction false} NoneIffNoParsed(files: seq<DicomFile>)
    ensures FirstParsed(files).None? <==> forall k :: 0 <= k < |files| ==> files[k].header.None?
    decreases |files|
  {
    if files != [] {
      NoneIffNoParsed(files[1..]);
      assert forall k :: 1 <= k < |files| ==> files[k] == files[1..][k - 1];
    }
  }
}

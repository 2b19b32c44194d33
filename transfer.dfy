/** DCMSystem.sendInstances: the walk over a study directory that rewrites and
    sends every file that parses, remaps its Series Instance UID through the
    study's UIDMap, numbers it, adds it to the KOS and tallies the outcome. */
module Transfer {
  import opened Text
  import opened Ids
  import opened Remap
  import opened DicomFiles

  /** A rewritten instance as sent to the peer or added to the KOS. */
  datatype Instance = Instance(studyUid: string, seriesUid: string, sopUid: string, number: nat)

  /** Everything the walk changes: the UID draws, the UIDMap, the instance
      counter, the SendResult tallies, what the peer received and the KOS. */
  datatype WalkState = WalkState(
    ids: IdState,
    table: map<string, string>,
    instance: nat,
    success: nat,
    failure: nat,
    sent: seq<Instance>,
    kos: seq<Instance>)

  /** The file gets a SOP Instance UID, a series UID and an instance number. */
  predicate Numbered(f: DicomFile) { f.header.Some? && f.delivery != UpdateFails }

  /** The file counts as a success: it parsed, was sent and was added to the KOS. */
  predicate Succeeds(f: DicomFile) { f.header.Some? && (f.delivery == Delivered || f.delivery == CloseFails) }

  /** The file counts no failure: it succeeded and closing it did not throw. */
  predicate Clean(f: DicomFile) { f.header.Some? && f.delivery == Delivered }

  /** The leaf branch of sendInstances for one file. */
  function Step(f: DicomFile, root: string, studyUid: string, st: WalkState): WalkState
  {
    if !Numbered(f) then st.(failure := st.failure + 1)
    else
      var sop := UidString(root, st.ids.uids);
      var lk := GetOrCreate(st.table, f.header.value.seriesUid, root, st.ids.uids + 1);
      var inst := Instance(studyUid, lk.uid, sop, st.instance + 1);
      var drawn := st.(ids := st.ids.(uids := lk.nextUid), table := lk.table, instance := st.instance + 1);
      if f.delivery == SendFails then drawn.(failure := st.failure + 1)
      else if f.delivery == KosAddFails then drawn.(sent := st.sent + [inst], failure := st.failure + 1)
      else
        var done := drawn.(sent := st.sent + [inst], kos := st.kos + [inst], success := st.success + 1);
        if f.delivery == CloseFails then done.(failure := st.failure + 1) else done
  }

  /** sendInstances on a node: a file is one step, a directory walks its
      children in listing order. */
  function Walk(node: FileNode, root: string, studyUid: string, st: WalkState): WalkState
    decreases node, 1
  {
    match node
    case Leaf(f) => Step(f, root, studyUid, st)
    case Dir(children) => WalkAll(children, root, studyUid, st)
  }

  function WalkAll(nodes: seq<FileNode>, root: string, studyUid: string, st: WalkState): WalkState
    decreases nodes, 0
  {
    if nodes == [] then st
    else Walk(nodes[|nodes| - 1], root, studyUid, WalkAll(nodes[..|nodes| - 1], root, studyUid, st))
  }

  /** The steps for a flat sequence of files, in order. */
  function StepAll(files: seq<DicomFile>, root: string, studyUid: string, st: WalkState): WalkState
  {
    if files == [] then st
    else Step(files[|files| - 1], root, studyUid, StepAll(files[..|files| - 1], root, studyUid, st))
  }

  function CountSucceeded(files: seq<DicomFile>): nat
  {
    if files == [] then 0
    else CountSucceeded(files[..|files| - 1]) + (if Succeeds(files[|files| - 1]) then 1 else 0)
  }

  function CountClean(files: seq<DicomFile>): nat
  {
    if files == [] then 0
    else CountClean(files[..|files| - 1]) + (if Clean(files[|files| - 1]) then 1 else 0)
  }

  function CountNumbered(files: seq<DicomFile>): nat
  {
    if files == [] then 0
    else CountNumbered(files[..|files| - 1]) + (if Numbered(files[|files| - 1]) then 1 else 0)
  }

  /** Every file in files parsed, was sent, was added to the KOS and closed. */
  ghost predicate AllClean(files: seq<DicomFile>)
  {
    forall i :: 0 <= i < |files| ==> Clean(files[i])
  }

  /** The files that count no failure are among those that count a success,
      and they are all the files exactly when every file is clean, i.e. when no
      failure was tallied. */
  lemma {:induction false} CountCleanAll(files: seq<DicomFile>)
    ensures CountClean(files) <= CountSucceeded(files) <= |files|
    ensures CountClean(files) == |files| <==> AllClean(files)
    decreases |files|
  {
    if files != [] {
      var init := files[..|files| - 1];
      CountCleanAll(init);
      if AllClean(files) {
        assert forall i :: 0 <= i < |init| ==> init[i] == files[i];
      }
      if CountClean(files) == |files| {
        assert Clean(files[|files| - 1]);
        assert forall i :: 0 <= i < |init| ==> init[i] == files[i];
      }
    }
  }

  lemma {:induction false} StepAllAppend(a: seq<DicomFile>, b: seq<DicomFile>, root: string, studyUid: string, st: WalkState)
    ensures StepAll(a + b, root, studyUid, st) == StepAll(b, root, studyUid, StepAll(a, root, studyUid, st))
    decreases |b|
  {
    if b == [] {
      assert a + b == a;
    } else {
      assert (a + b)[..|a + b| - 1] == a + b[..|b| - 1];
      StepAllAppend(a, b[..|b| - 1], root, studyUid, st);
    }
  }

  /** Walking the tree is stepping through its leaves in depth-first, listing order. */
  lemma {:induction false} WalkIsStepAll(node: FileNode, root: string, studyUid: string, st: WalkState)
    ensures Walk(node, root, studyUid, st) == StepAll(Leaves(node), root, studyUid, st)
    decreases node, 1
  {
    match node
    case Leaf(f) =>
      assert [f][..0] == [];
    case Dir(children) =>
      WalkAllIsStepAll(children, root, studyUid, st);
  }

  lemma {:induction false} WalkAllIsStepAll(nodes: seq<FileNode>, root: string, studyUid: string, st: WalkState)
    ensures WalkAll(nodes, root, studyUid, st) == StepAll(LeavesAll(nodes), root, studyUid, st)
    decreases nodes, 0
  {
    if nodes != [] {
      var init, last := nodes[..|nodes| - 1], nodes[|nodes| - 1];
      WalkAllIsStepAll(init, root, studyUid, st);
      var mid := WalkAll(init, root, studyUid, st);
      WalkIsStepAll(last, root, studyUid, mid);
      StepAllAppend(LeavesAll(init), Leaves(last), root, studyUid, st);
    }
  }

  /** Every file that succeeds increments success, and every file that is not
      clean increments failure, so a file whose close() throws counts in both;
      every file that parsed and was rewritten consumes one instance number, even
      when its send fails; UIDs are only drawn, and the UIDMap only grows. */
  lemma {:induction false} StepAllTally(files: seq<DicomFile>, root: string, studyUid: string, st: WalkState)
    ensures var r := StepAll(files, root, studyUid, st);
      && r.success == st.success + CountSucceeded(files)
      && r.failure + CountClean(files) == st.failure + |files|
      && r.instance == st.instance + CountNumbered(files)
      && r.ids == st.ids.(uids := r.ids.uids)
      && r.ids.uids >= st.ids.uids + CountNumbered(files)
      && Extends(st.table, r.table)
    decreases |files|
  {
    if files != [] {
      StepAllTally(files[..|files| - 1], root, studyUid, st);
    }
  }

  lemma ExtendsKeepsValues(a: map<string, string>, b: map<string, string>, v: string)
    requires Extends(a, b) && v in a.Values
    ensures v in b.Values
  {
    var k :| k in a && a[k] == v;
    assert b[k] == v;
  }

  /** Everything sent carries the study's remapped UID and a remapped series
      UID, and the instance numbers run strictly upwards from 1 to at most n. */
  ghost predicate SentCoherent(sent: seq<Instance>, table: map<string, string>, studyUid: string, n: nat)
  {
    && (forall i :: 0 <= i < |sent| ==>
          sent[i].studyUid == studyUid && sent[i].seriesUid in table.Values && 1 <= sent[i].number <= n)
    && (forall i, j :: 0 <= i < j < |sent| ==> sent[i].number < sent[j].number)
  }

  /** What the walk keeps true of what it produced: SentCoherent, the KOS only
      holds instances the peer received, and distinct original UIDs keep distinct
      replacements drawn from the UID source. */
  ghost predicate Coherent(st: WalkState, root: string, studyUid: string)
  {
    && SentCoherent(st.sent, st.table, studyUid, st.instance)
    && (forall i :: 0 <= i < |st.kos| ==> st.kos[i] in st.sent)
    && Injective(st.table) && DrawnBelow(st.table, root, st.ids.uids)
  }

  lemma SentCoherentGrows(sent: seq<Instance>, inst: Instance, a: map<string, string>, b: map<string, string>,
                          studyUid: string, n: nat)
    requires SentCoherent(sent, a, studyUid, n) && Extends(a, b)
    requires inst.studyUid == studyUid && inst.seriesUid in b.Values && inst.number == n + 1
    ensures SentCoherent(sent, b, studyUid, n + 1)
    ensures SentCoherent(sent + [inst], b, studyUid, n + 1)
  {
    forall i | 0 <= i < |sent|
      ensures sent[i].seriesUid in b.Values
    {
      ExtendsKeepsValues(a, b, sent[i].seriesUid);
    }
  }

  lemma DrawnBelowRaise(table: map<string, string>, root: string, a: nat, b: nat)
    requires DrawnBelow(table, root, a) && a <= b
    ensures DrawnBelow(table, root, b)
  {
  }

  /** Drawing a numbered instance's series UID keeps the UIDMap injective and
      drawn from the source, and what is sent with it coherent. */
  lemma SeriesDrawCoherent(st: WalkState, series: string, root: string, studyUid: string, lk: Lookup, inst: Instance)
    requires Coherent(st, root, studyUid)
    requires lk == GetOrCreate(st.table, series, root, st.ids.uids + 1)
    requires inst.studyUid == studyUid && inst.seriesUid == lk.uid && inst.number == st.instance + 1
    ensures Injective(lk.table) && DrawnBelow(lk.table, root, lk.nextUid)
    ensures SentCoherent(st.sent, lk.table, studyUid, st.instance + 1)
    ensures SentCoherent(st.sent + [inst], lk.table, studyUid, st.instance + 1)
  {
    DrawnBelowRaise(st.table, root, st.ids.uids, st.ids.uids + 1);
    GetOrCreateKeepsInjective(st.table, series, root, st.ids.uids + 1);
    assert lk.uid in lk.table.Values;
    SentCoherentGrows(st.sent, inst, st.table, lk.table, studyUid, st.instance);
  }

  lemma StepKeepsCoherent(f: DicomFile, root: string, studyUid: string, st: WalkState)
    requires Coherent(st, root, studyUid)
    ensures Coherent(Step(f, root, studyUid, st), root, studyUid)
  {
    if Numbered(f) {
      var lk := GetOrCreate(st.table, f.header.value.seriesUid, root, st.ids.uids + 1);
      var inst := Instance(studyUid, lk.uid, UidString(root, st.ids.uids), st.instance + 1);
      SeriesDrawCoherent(st, f.header.value.seriesUid, root, studyUid, lk, inst);
      KosWithin(st.kos, st.sent, inst);
      var drawn := st.(ids := st.ids.(uids := lk.nextUid), table := lk.table, instance := st.instance + 1);
      if f.delivery == SendFails {
        assert Step(f, root, studyUid, st) == drawn.(failure := st.failure + 1);
      } else if f.delivery == KosAddFails {
        assert Step(f, root, studyUid, st) == drawn.(sent := st.sent + [inst], failure := st.failure + 1);
      } else {
        var done := drawn.(sent := st.sent + [inst], kos := st.kos + [inst], success := st.success + 1);
        assert Step(f, root, studyUid, st) == if f.delivery == CloseFails then done.(failure := st.failure + 1) else done;
      }
    }
  }

  /** Sending an instance keeps the KOS within what was sent, whether or not
      the instance is added to the KOS too. */
  lemma KosWithin(kos: seq<Instance>, sent: seq<Instance>, inst: Instance)
    requires forall i :: 0 <= i < |kos| ==> kos[i] in sent
    ensures forall i :: 0 <= i < |kos| ==> kos[i] in sent + [inst]
    ensures forall i :: 0 <= i < |kos + [inst]| ==> (kos + [inst])[i] in sent + [inst]
  {
    forall i | 0 <= i < |kos + [inst]|
      ensures (kos + [inst])[i] in sent + [inst]
    {
      if i < |kos| {
        assert (kos + [inst])[i] == kos[i];
      }
    }
  }

  lemma {:induction false} StepAllKeepsCoherent(files: seq<DicomFile>, root: string, studyUid: string, st: WalkState)
    requires Coherent(st, root, studyUid)
    ensures Coherent(StepAll(files, root, studyUid, st), root, studyUid)
    decreases |files|
  {
    if files != [] {
      StepAllKeepsCoherent(files[..|files| - 1], root, studyUid, st);
      StepKeepsCoherent(files[|files| - 1], root, studyUid, StepAll(files[..|files| - 1], root, studyUid, st));
    }
  }

  /** sendInstances over a whole study tree: success grows by the number of
      leaves sent and added to the KOS, failure by the number of leaves that are
      not clean, the instance counter by the number of files numbered; only UIDs
      are drawn, at least one per numbered file, and the UIDMap only grows. */
  lemma WalkTally(node: FileNode, root: string, studyUid: string, st: WalkState)
    ensures var r := Walk(node, root, studyUid, st);
      && r.success == st.success + CountSucceeded(Leaves(node))
      && r.failure + CountClean(Leaves(node)) == st.failure + |Leaves(node)|
      && r.instance == st.instance + CountNumbered(Leaves(node))
      && r.ids == st.ids.(uids := r.ids.uids)
      && r.ids.uids >= st.ids.uids + CountNumbered(Leaves(node))
      && Extends(st.table, r.table)
  {
    WalkIsStepAll(node, root, studyUid, st);
    StepAllTally(Leaves(node), root, studyUid, st);
  }

  /** Everything sendInstances sends or adds to the KOS is coherent with the
      study's UIDMap, and the UIDMap stays injective. */
  lemma WalkKeepsCoherent(node: FileNode, root: string, studyUid: string, st: WalkState)
    requires Coherent(st, root, studyUid)
    ensures Coherent(Walk(node, root, studyUid, st), root, studyUid)
  {
    WalkIsStepAll(node, root, studyUid, st);
    StepAllKeepsCoherent(Leaves(node), root, studyUid, st);
  }

  /** DCMSystem.InstanceNumber: a counter reset per study and bumped per instance. */
  class InstanceNumber {
    var value: nat

    constructor ()
      ensures value == 0
    {
      value := 0;
    }

    method Reset()
      modifies this
      ensures value == 0
    {
      value := 0;
    }

    method GetNext() returns (n: nat)
      modifies this
      ensures n == old(value) + 1 && value == n
    {
      value := value + 1;
      n := value;
    }
  }

  /** DCMSystem.SendResult. */
  class SendResult {
    var success: nat
    var failure: nat

    constructor ()
      ensures success == 0 && failure == 0
    {
      success, failure := 0, 0;
    }
  }

  /** The DICOM peer behind DicomSender: what it has received. */
  class DicomSender {
    var received: seq<Instance>

    constructor ()
      ensures received == []
    {
      received := [];
    }

    /** DicomSender.send; ok is false where the real call throws. */
    method Send(inst: Instance, delivery: Delivery) returns (ok: bool)
      modifies this
      ensures ok == (delivery != SendFails)
      ensures received == if ok then old(received) + [inst] else old(received)
    {
      ok := delivery != SendFails;
      if ok {
        received := received + [inst];
      }
    }
  }

  /** The KOS being built for the study: the instances added to it. */
  class Kos {
    var entries: seq<Instance>

    constructor ()
      ensures entries == []
    {
      entries := [];
    }

    /** KOS.add; ok is false where the real call throws. */
    method Add(inst: Instance, delivery: Delivery) returns (ok: bool)
      modifies this
      ensures ok == (delivery != KosAddFails)
      ensures entries == if ok then old(entries) + [inst] else old(entries)
    {
      ok := delivery != KosAddFails;
      if ok {
        entries := entries + [inst];
      }
    }
  }

  ghost function Snapshot(ids: IdSource, uidMap: UidMap, counter: InstanceNumber, result: SendResult,
                          sender: DicomSender, kos: Kos): WalkState
    reads ids, uidMap, counter, result, sender, kos
  {
    WalkState(ids.state, uidMap.table, counter.value, result.success, result.failure, sender.received, kos.entries)
  }

  /** The leaf branch of sendInstances. */
  method SendFile(f: DicomFile, studyUid: string, ids: IdSource, uidMap: UidMap, counter: InstanceNumber,
                  result: SendResult, sender: DicomSender, kos: Kos)
    modifies ids, uidMap, counter, result, sender, kos
    ensures Snapshot(ids, uidMap, counter, result, sender, kos) ==
            Step(f, ids.root, studyUid, old(Snapshot(ids, uidMap, counter, result, sender, kos)))
  {
    if !Numbered(f) {
      result.failure := result.failure + 1;
      return;
    }
    var sop := ids.NextUid();
    var series := uidMap.GetUid(f.header.value.seriesUid, ids);
    var n := counter.GetNext();
    var inst := Instance(studyUid, series, sop, n);
    var sent := sender.Send(inst, f.delivery);
    if !sent {
      result.failure := result.failure + 1;
      return;
    }
    var added := kos.Add(inst, f.delivery);
    if !added {
      result.failure := result.failure + 1;
      return;
    }
    result.success := result.success + 1;
    if f.delivery == CloseFails {
      result.failure := result.failure + 1;
    }
  }

  /** sendInstances: walk the tree, sending everything that parses. */
  method SendInstances(node: FileNode, studyUid: string, ids: IdSource, uidMap: UidMap, counter: InstanceNumber,
                       result: SendResult, sender: DicomSender, kos: Kos)
    modifies ids, uidMap, counter, result, sender, kos
    ensures Snapshot(ids, uidMap, counter, result, sender, kos) ==
            Walk(node, ids.root, studyUid, old(Snapshot(ids, uidMap, counter, result, sender, kos)))
    decreases node
  {
    match node
    case Leaf(f) =>
      SendFile(f, studyUid, ids, uidMap, counter, result, sender, kos);
    case Dir(children) =>
      ghost var start := Snapshot(ids, uidMap, counter, result, sender, kos);
      var i := 0;
      while i < |children|
        invariant 0 <= i <= |children|
        invariant Snapshot(ids, uidMap, counter, result, sender, kos) == WalkAll(children[..i], ids.root, studyUid, start)
      {
        SendInstances(children[i], studyUid, ids, uidMap, counter, result, sender, kos);
        assert children[..i + 1][..i] == children[..i];
        i := i + 1;
      }
      assert children[..i] == children;
  }
}

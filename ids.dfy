/** The identifier sources the core draws from: Configuration.getUID, getSeqInt,
    getAccessionNumber and getUUID. Configuration itself is not part of this
    model; IdSource stands in for its counters, and the rendering below only
    serves to make distinct draws yield distinct values. */
module Ids {
  import opened Decimal

  /** How many values of each kind have been drawn so far. */
  datatype IdState = IdState(uids: nat, seqInts: nat, accessions: nat, uuids: nat)

  /** The n-th UID drawn under a UID root. */
  function UidString(root: string, n: nat): string
  {
    root + "." + NatToString(n + 1)
  }

  function AccessionString(n: nat): string
  {
    NatToString(n + 1)
  }

  function UuidString(n: nat): string
  {
    "urn:uuid:" + NatToString(n + 1)
  }

  /** The draws for the transform parameters of one XDS.b submission: a UUID,
      a document id taken from the accession numbers, and four UIDs. */
  function SubmissionDraws(s: IdState): IdState
  {
    s.(uuids := s.uuids + 1, accessions := s.accessions + 1, uids := s.uids + 4)
  }

  /** Two different draws never yield the same UID. */
  lemma UidStringInjective(root: string, a: nat, b: nat)
    requires UidString(root, a) == UidString(root, b)
    ensures a == b
  {
    assert NatToString(a + 1) == UidString(root, a)[|root| + 1..];
    assert NatToString(b + 1) == UidString(root, b)[|root| + 1..];
    NatToStringInjective(a + 1, b + 1);
  }

  class IdSource {
    const root: string
    var state: IdState

    constructor (root: string)
      ensures this.root == root && state == IdState(0, 0, 0, 0)
    {
      this.root := root;
      state := IdState(0, 0, 0, 0);
    }

    method NextUid() returns (uid: string)
      modifies this
      ensures uid == UidString(root, old(state.uids))
      ensures state == old(state).(uids := old(state.uids) + 1)
    {
      uid := UidString(root, state.uids);
      state := state.(uids := state.uids + 1);
    }

    method NextSeqInt() returns (n: int)
      modifies this
      ensures n == old(state.seqInts) + 1
      ensures state == old(state).(seqInts := old(state.seqInts) + 1)
    {
      state := state.(seqInts := state.seqInts + 1);
      n := state.seqInts;
    }

    method NextAccessionNumber() returns (a: string)
      modifies this
      ensures a == AccessionString(old(state.accessions))
      ensures state == old(state).(accessions := old(state.accessions) + 1)
    {
      a := AccessionString(state.accessions);
      state := state.(accessions := state.accessions + 1);
    }

    method NextUuid() returns (u: string)
      modifies this
      ensures u == UuidString(old(state.uuids))
      ensures state == old(state).(uuids := old(state.uuids) + 1)
    {
      u := UuidString(state.uuids);
      state := state.(uuids := state.uuids + 1);
    }

    /** The identifiers of an XDS.b submission, in the order its parameter
        array draws them: the UUID, the document id, then four UIDs. */
    method NextSubmissionIds() returns (uuid: string, documentId: string, uids: seq<string>)
      modifies this
      ensures uuid == UuidString(old(state.uuids)) && documentId == AccessionString(old(state.accessions))
      ensures |uids| == 4 && forall k :: 0 <= k < 4 ==> uids[k] == UidString(root, old(state.uids) + k)
      ensures state == SubmissionDraws(old(state))
    {
      uuid := NextUuid();
      documentId := NextAccessionNumber();
      var uid1 := NextUid();
      var uid2 := NextUid();
      var uid3 := NextUid();
      var uid4 := NextUid();
      uids := [uid1, uid2, uid3, uid4];
    }
  }
}

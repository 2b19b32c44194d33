/** DCMSystem: the imaging target. For each registration it processes every
    enabled study bound to it: it draws the order identifiers, sends the
    accepted HL7 order and report profiles, rewrites and sends the study's DICOM
    files, logs one DICOM event, and handles the KOS when the study has a
    metadata folder. */
module DcmSystems {
  import opened Text
  import opened Ids
  import opened Orders
  import opened Audit
  import opened Registrations
  import opened Remap
  import opened DicomFiles
  import opened Transfer

  /** A configured study: the target system it is bound to, its procedure codes,
      its directory tree, and whether "<directory>-metadata" exists. */
  datatype Study = Study(
    id: string,
    systemId: string,
    enabled: bool,
    procedureCode: string,
    localProcedureCode: string,
    tree: FileNode,
    hasMetadata: bool)

  /** The outcomes of the calls this class makes into code outside the model,
      for one study: HL7Message.toStatus of each profile's response; kos.save,
      None when it succeeds and Some(message) when it throws; whether the
      configured repository id names a repository; and the event
      Repository.submitDocumentXDSb logs, None when it returns silently. */
  datatype StudyReplies = StudyReplies(
    rad2: Status,
    rad4: Status,
    rad28: Status,
    kosSave: Option<string>,
    repositoryFound: bool,
    xdsb: Option<(Status, string)>)

  /** What processing studies leaves behind: the events appended to the log, the
      identifier draws, and the instance counter. */
  datatype Run = Run(events: seq<Event>, ids: IdState, instance: nat)

  function Rank(k: EventKind): nat
  {
    match k
    case Hl7Kind => 0
    case DicomKind => 1
    case SoapKind => 2
  }

  /** HL7 events come before DICOM events, which come before SOAP events. */
  predicate KindOrdered(events: seq<Event>)
  {
    forall i, j :: 0 <= i < j < |events| ==> Rank(events[i].kind) <= Rank(events[j].kind)
  }

  /** The study ids of the DICOM transfer events, in log order. */
  function DicomStudyIds(events: seq<Event>): seq<string>
  {
    if events == [] then []
    else
      var e := events[|events| - 1];
      DicomStudyIds(events[..|events| - 1])
        + (if e.kind == DicomKind && e.detail.InstancesTransferred? then [e.detail.studyId] else [])
  }

  lemma {:induction false} DicomStudyIdsAppend(a: seq<Event>, b: seq<Event>)
    ensures DicomStudyIds(a + b) == DicomStudyIds(a) + DicomStudyIds(b)
    decreases |b|
  {
    if b == [] {
      assert a + b == a;
    } else {
      assert (a + b)[..|a + b| - 1] == a + b[..|b| - 1];
      DicomStudyIdsAppend(a, b[..|b| - 1]);
    }
  }

  lemma {:induction false} NoDicomStudyIds(events: seq<Event>)
    requires forall i :: 0 <= i < |events| ==> events[i].kind != DicomKind
    ensures DicomStudyIds(events) == []
    decreases |events|
  {
    if events != [] {
      NoDicomStudyIds(events[..|events| - 1]);
    }
  }

  /** Events around a single DICOM event name just that event's study. */
  lemma OneDicomStudyId(a: seq<Event>, e: Event, b: seq<Event>)
    requires forall i :: 0 <= i < |a| ==> a[i].kind != DicomKind
    requires forall i :: 0 <= i < |b| ==> b[i].kind != DicomKind
    requires e.kind == DicomKind && e.detail.InstancesTransferred?
    ensures DicomStudyIds(a + [e] + b) == [e.detail.studyId]
  {
    NoDicomStudyIds(a);
    NoDicomStudyIds(b);
    DicomStudyIdsAppend(a + [e], b);
    DicomStudyIdsAppend(a, [e]);
    assert [e][..0] == [];
  }

  class DcmSystem {
    const id: string
    const enabled: bool
    const dcmUrl: string
    const repositoryId: string
    const institutionName: string
    const retrieveAet: string
    const acceptsRad4: bool
    const acceptsRad2: bool
    const acceptsRad28: bool
    const sendsKos: bool

    /** The id and the enabled flag are parsed by the EHRSystem superclass; the
        rest are this element's attributes, trimmed, with every flag on unless
        its trimmed value is exactly "no". */
    constructor (id: string, enabled: bool, attrs: map<string, string>)
      ensures this.id == id && this.enabled == enabled
      ensures dcmUrl == Trim(Attribute(attrs, "dcmURL"))
      ensures repositoryId == Trim(Attribute(attrs, "repositoryID"))
      ensures institutionName == Trim(Attribute(attrs, "institutionName"))
      ensures retrieveAet == Trim(Attribute(attrs, "retrieveAET"))
      ensures acceptsRad4 == FlagAttribute(Attribute(attrs, "acceptsRAD4"))
      ensures acceptsRad2 == FlagAttribute(Attribute(attrs, "acceptsRAD2"))
      ensures acceptsRad28 == FlagAttribute(Attribute(attrs, "acceptsRAD28"))
      ensures sendsKos == FlagAttribute(Attribute(attrs, "sendsKOS"))
    {
      this.id := id;
      this.enabled := enabled;
      dcmUrl := Trim(Attribute(attrs, "dcmURL"));
      repositoryId := Trim(Attribute(attrs, "repositoryID"));
      institutionName := Trim(Attribute(attrs, "institutionName"));
      retrieveAet := Trim(Attribute(attrs, "retrieveAET"));
      acceptsRad4 := FlagAttribute(Attribute(attrs, "acceptsRAD4"));
      acceptsRad2 := FlagAttribute(Attribute(attrs, "acceptsRAD2"));
      acceptsRad28 := FlagAttribute(Attribute(attrs, "acceptsRAD28"));
      sendsKos := FlagAttribute(Attribute(attrs, "sendsKOS"));
    }

    predicate Accepts(p: Profile)
    {
      match p
      case Rad2 => acceptsRad2
      case Rad4 => acceptsRad4
      case Rad28 => acceptsRad28
    }

    /** The profiles this system is sent, in sending order. */
    function AcceptedProfiles(): seq<Profile>
    {
      (if acceptsRad2 then [Rad2] else []) + (if acceptsRad4 then [Rad4] else [])
        + (if acceptsRad28 then [Rad28] else [])
    }

    /** A study is handed to processStudy when it is enabled and bound to this system. */
    predicate Selected(s: Study)
    {
      s.enabled && s.systemId == id
    }

    /** processStudy does its work: the system is enabled and a leaf parses. */
    predicate Processes(s: Study)
    {
      enabled && FirstParsable(s.tree).Some?
    }

    /** The event sendRAD2, sendRAD4 or sendRAD28 logs. */
    function OrderEvent(p: Profile, status: Status, reg: Registration, ids: OrderIds, modality: string,
                        studyUid: string): Event
    {
      Event(status, Hl7Kind, Hl7Sent(id, reg.globalId, Hl7Order(p, ids, modality, if p == Rad4 then Some(studyUid) else None)))
    }

    function ReplyFor(p: Profile, replies: StudyReplies): Status
    {
      match p
      case Rad2 => replies.rad2
      case Rad4 => replies.rad4
      case Rad28 => replies.rad28
    }

    function Hl7Events(profiles: seq<Profile>, replies: StudyReplies, reg: Registration, ids: OrderIds,
                       modality: string, studyUid: string): seq<Event>
    {
      if profiles == [] then []
      else
        Hl7Events(profiles[..|profiles| - 1], replies, reg, ids, modality, studyUid)
          + [OrderEvent(profiles[|profiles| - 1], ReplyFor(profiles[|profiles| - 1], replies), reg, ids, modality, studyUid)]
    }

    /** The events sendKOS logs. */
    function KosEvents(study: Study, replies: StudyReplies): seq<Event>
    {
      match replies.kosSave
      case Some(message) => [Event(Error, SoapKind, KosResult(study.id, id, repositoryId, KosSaveFailed(message)))]
      case None =>
        if !sendsKos then []
        else if !replies.repositoryFound then [Event(Error, SoapKind, KosResult(study.id, id, repositoryId, RepositoryMissing))]
        else match replies.xdsb
          case None => []
          case Some(outcome) => [Event(outcome.0, SoapKind, XdsbSubmitted(outcome.1))]
    }

    /** sendKOS reaches Repository.submitDocumentXDSb: the KOS was saved, this
        system sends KOS objects, and the repository exists. */
    predicate SubmitsKos(replies: StudyReplies)
    {
      replies.kosSave.None? && sendsKos && replies.repositoryFound
    }

    /** The identifiers sendKOS draws: those of the submission's transform
        parameters, drawn before anything in submitDocumentXDSb can return. */
    function KosDraws(replies: StudyReplies, ids: IdState): IdState
    {
      if SubmitsKos(replies) then SubmissionDraws(ids) else ids
    }

    /** The DICOM event processStudy logs once the instances are sent. */
    function DicomEvent(studyId: string, walked: WalkState): Event
    {
      Event(if walked.failure == 0 then Ok else Error, DicomKind,
            InstancesTransferred(studyId, id, walked.success, walked.failure))
    }

    /** The order ids processStudy derives from the accession number and the
        sequence number it draws. */
    function StudyOrderIds(study: Study, ids: IdState): OrderIds
    {
      OrderIdsFor(ids.seqInts + 1, AccessionString(ids.accessions), study.procedureCode, study.localProcedureCode)
    }

    /** The study UID lookup in the study's fresh UIDMap, after the accession
        number and sequence number are drawn. */
    function StudyLookup(study: Study, root: string, ids: IdState): Lookup
      requires Processes(study)
    {
      GetOrCreate(map[], FirstParsable(study.tree).value.studyUid, root, ids.uids)
    }

    /** The state sendInstances starts from: the draws so far, the UIDMap holding
        the study UID, the instance counter reset, and nothing sent. */
    function StudyStart(study: Study, root: string, ids: IdState): WalkState
      requires Processes(study)
    {
      var lookup := StudyLookup(study, root, ids);
      WalkState(ids.(accessions := ids.accessions + 1, seqInts := ids.seqInts + 1, uids := lookup.nextUid),
                lookup.table, 0, 0, 0, [], [])
    }

    function StudyWalk(study: Study, root: string, ids: IdState): WalkState
      requires Processes(study)
    {
      Walk(study.tree, root, StudyLookup(study, root, ids).uid, StudyStart(study, root, ids))
    }

    function StudyHl7(reg: Registration, study: Study, replies: StudyReplies, root: string, ids: IdState): seq<Event>
      requires Processes(study)
    {
      Hl7Events(AcceptedProfiles(), replies, reg, StudyOrderIds(study, ids), FirstParsable(study.tree).value.modality,
                StudyLookup(study, root, ids).uid)
    }

    function StudySoap(study: Study, replies: StudyReplies): seq<Event>
    {
      if study.hasMetadata then KosEvents(study, replies) else []
    }

    /** processStudy, from the identifier draws and the instance counter before it. */
    function StudyRun(reg: Registration, study: Study, replies: StudyReplies, root: string,
                      ids: IdState, instance: nat): Run
    {
      if !Processes(study) then Run([], ids, instance)
      else
        var walked := StudyWalk(study, root, ids);
        Run(StudyHl7(reg, study, replies, root, ids) + [DicomEvent(study.id, walked)] + StudySoap(study, replies),
            if study.hasMetadata then KosDraws(replies, walked.ids) else walked.ids, walked.instance)
    }

    /** processRegistration's loop over the configured studies, in array order. */
    function StudiesRun(reg: Registration, studies: seq<Study>, replies: seq<StudyReplies>, root: string,
                        ids: IdState, instance: nat): Run
      requires |replies| == |studies|
    {
      if studies == [] then Run([], ids, instance)
      else
        var k := |studies| - 1;
        var before := StudiesRun(reg, studies[..k], replies[..k], root, ids, instance);
        if !Selected(studies[k]) then before
        else
          var r := StudyRun(reg, studies[k], replies[k], root, before.ids, before.instance);
          Run(before.events + r.events, r.ids, r.instance)
    }

    /** The ids of the studies that get a DICOM event, in array order. */
    function ProcessedStudyIds(studies: seq<Study>): seq<string>
    {
      if studies == [] then []
      else
        var s := studies[|studies| - 1];
        ProcessedStudyIds(studies[..|studies| - 1]) + (if Selected(s) && Processes(s) then [s.id] else [])
    }

    /** sendRAD2, sendRAD4 and sendRAD28: when the system accepts the profile,
        send it and log its status. */
    method SendOrder(p: Profile, replies: StudyReplies, reg: Registration, ids: OrderIds, modality: string,
                     studyUid: string, log: EventLog)
      modifies log
      ensures log.events == old(log.events)
        + (if Accepts(p) then [OrderEvent(p, ReplyFor(p, replies), reg, ids, modality, studyUid)] else [])
    {
      if Accepts(p) {
        log.Append(OrderEvent(p, ReplyFor(p, replies), reg, ids, modality, studyUid));
      }
    }

    /** sendKOSEvent: a SOAP event about the KOS. Every live call reports a failure. */
    method SendKosEvent(studyId: string, reason: KosFailure, log: EventLog)
      modifies log
      ensures log.events == old(log.events) + [Event(Error, SoapKind, KosResult(studyId, id, repositoryId, reason))]
    {
      log.Append(Event(Error, SoapKind, KosResult(studyId, id, repositoryId, reason)));
    }

    /** sendKOS: save the KOS; when the system sends KOS objects, hand it to the
        configured repository, whose submitDocumentXDSb draws the identifiers of
        its transform parameters and logs its own event. */
    method SendKos(study: Study, replies: StudyReplies, ids: IdSource, log: EventLog)
      modifies ids, log
      ensures log.events == old(log.events) + KosEvents(study, replies)
      ensures ids.state == KosDraws(replies, old(ids.state))
    {
      if replies.kosSave.Some? {
        SendKosEvent(study.id, KosSaveFailed(replies.kosSave.value), log);
        return;
      }
      if sendsKos {
        if !replies.repositoryFound {
          SendKosEvent(study.id, RepositoryMissing, log);
          return;
        }
        var uuid, documentId, uids := ids.NextSubmissionIds();
        if replies.xdsb.Some? {
          log.Append(Event(replies.xdsb.value.0, SoapKind, XdsbSubmitted(replies.xdsb.value.1)));
        }
      }
    }

    /** The DICOM part of processStudy: reset the instance counter, send the
        study's instances with a fresh SendResult, sender and KOS, and log the
        outcome. */
    method TransferInstances(study: Study, studyUid: string, ids: IdSource, uidMap: UidMap,
                             counter: InstanceNumber, log: EventLog)
      modifies ids, uidMap, counter, log
      ensures var w := Walk(study.tree, ids.root, studyUid, WalkState(old(ids.state), old(uidMap.table), 0, 0, 0, [], []));
        ids.state == w.ids && uidMap.table == w.table && counter.value == w.instance
        && log.events == old(log.events) + [DicomEvent(study.id, w)]
    {
      var kos := new Kos();
      counter.Reset();
      var result := new SendResult();
      var sender := new DicomSender();
      SendInstances(study.tree, studyUid, ids, uidMap, counter, result, sender, kos);
      log.Append(Event(if result.failure == 0 then Ok else Error, DicomKind,
                       InstancesTransferred(study.id, id, result.success, result.failure)));
    }

    /** The three order sends of processStudy, in profile order. */
    method SendOrders(replies: StudyReplies, reg: Registration, ids: OrderIds, modality: string, studyUid: string,
                      log: EventLog)
      modifies log
      ensures log.events == old(log.events) + Hl7Events(AcceptedProfiles(), replies, reg, ids, modality, studyUid)
    {
      SendOrder(Rad2, replies, reg, ids, modality, studyUid, log);
      SendOrder(Rad4, replies, reg, ids, modality, studyUid, log);
      SendOrder(Rad28, replies, reg, ids, modality, studyUid, log);
      Hl7EventsOfAccepted(replies, reg, ids, modality, studyUid);
    }

    /** The draws processStudy makes before sending anything: an accession
        number, then a sequence number for the order ids, then the study UID
        through a fresh UIDMap. */
    method DrawStudyIds(study: Study, ids: IdSource) returns (orderIds: OrderIds, studyUid: string, uidMap: UidMap)
      requires Processes(study)
      modifies ids
      ensures fresh(uidMap)
      ensures orderIds == StudyOrderIds(study, old(ids.state))
      ensures studyUid == StudyLookup(study, ids.root, old(ids.state)).uid
      ensures ids.state == StudyStart(study, ids.root, old(ids.state)).ids
      ensures uidMap.table == StudyStart(study, ids.root, old(ids.state)).table
    {
      var accession := ids.NextAccessionNumber();
      var seqInt := ids.NextSeqInt();
      orderIds := OrderIdsFor(seqInt, accession, study.procedureCode, study.localProcedureCode);
      uidMap := new UidMap();
      studyUid := uidMap.GetUid(FirstParsable(study.tree).value.studyUid, ids);
    }

    /** processStudy. */
    method ProcessStudy(reg: Registration, study: Study, replies: StudyReplies, ids: IdSource,
                        counter: InstanceNumber, log: EventLog)
      modifies ids, counter, log
      ensures var r := StudyRun(reg, study, replies, ids.root, old(ids.state), old(counter.value));
        log.events == old(log.events) + r.events && ids.state == r.ids && counter.value == r.instance
    {
      if !enabled {
        return;
      }
      var header := FirstParsable(study.tree);
      if header.None? {
        return;
      }
      ghost var ids0, log0 := ids.state, log.events;
      var modality := header.value.modality;
      var orderIds, studyUid, uidMap := DrawStudyIds(study, ids);

      SendOrders(replies, reg, orderIds, modality, studyUid, log);
      assert log.events == log0 + StudyHl7(reg, study, replies, ids.root, ids0);

      TransferInstances(study, studyUid, ids, uidMap, counter, log);
      assert log.events == log0 + StudyHl7(reg, study, replies, ids.root, ids0)
        + [DicomEvent(study.id, StudyWalk(study, ids.root, ids0))];

      if !study.hasMetadata {
        return;
      }
      SendKos(study, replies, ids, log);
    }

    lemma Hl7EventsOfAccepted(replies: StudyReplies, reg: Registration, ids: OrderIds, modality: string, studyUid: string)
      ensures Hl7Events(AcceptedProfiles(), replies, reg, ids, modality, studyUid) ==
        (if acceptsRad2 then [OrderEvent(Rad2, replies.rad2, reg, ids, modality, studyUid)] else [])
        + (if acceptsRad4 then [OrderEvent(Rad4, replies.rad4, reg, ids, modality, studyUid)] else [])
        + (if acceptsRad28 then [OrderEvent(Rad28, replies.rad28, reg, ids, modality, studyUid)] else [])
    {
      var a: seq<Profile> := if acceptsRad2 then [Rad2] else [];
      var b := a + (if acceptsRad4 then [Rad4] else []);
      var c := b + (if acceptsRad28 then [Rad28] else []);
      var ea := if acceptsRad2 then [OrderEvent(Rad2, replies.rad2, reg, ids, modality, studyUid)] else [];
      var eb := ea + (if acceptsRad4 then [OrderEvent(Rad4, replies.rad4, reg, ids, modality, studyUid)] else []);
      var ec := eb + (if acceptsRad28 then [OrderEvent(Rad28, replies.rad28, reg, ids, modality, studyUid)] else []);
      if acceptsRad2 {
        assert a[..0] == [];
      }
      assert Hl7Events(a, replies, reg, ids, modality, studyUid) == ea;
      if acceptsRad4 {
        assert b[..|b| - 1] == a;
      } else {
        assert b == a;
      }
      assert Hl7Events(b, replies, reg, ids, modality, studyUid) == eb;
      if acceptsRad28 {
        assert c[..|c| - 1] == b;
      } else {
        assert c == b;
      }
      assert Hl7Events(c, replies, reg, ids, modality, studyUid) == ec;
    }

    /** One iteration of processRegistration's loop: study i is processed when
        it is enabled and bound to this system. */
    method ProcessNext(reg: Registration, studies: seq<Study>, replies: seq<StudyReplies>, i: nat,
                       ghost ids0: IdState, ghost instance0: nat, ghost log0: seq<Event>,
                       ids: IdSource, counter: InstanceNumber, log: EventLog)
      requires |replies| == |studies| && i < |studies|
      requires var r := StudiesRun(reg, studies[..i], replies[..i], ids.root, ids0, instance0);
        log.events == log0 + r.events && ids.state == r.ids && counter.value == r.instance
      modifies ids, counter, log
      ensures var r := StudiesRun(reg, studies[..i + 1], replies[..i + 1], ids.root, ids0, instance0);
        log.events == log0 + r.events && ids.state == r.ids && counter.value == r.instance
    {
      StudiesRunSnoc(reg, studies, replies, ids.root, ids0, instance0, i);
      ghost var before := StudiesRun(reg, studies[..i], replies[..i], ids.root, ids0, instance0);
      if Selected(studies[i]) {
        ProcessStudy(reg, studies[i], replies[i], ids, counter, log);
        assert log0 + before.events + StudyRun(reg, studies[i], replies[i], ids.root, before.ids, before.instance).events
          == log0 + (before.events + StudyRun(reg, studies[i], replies[i], ids.root, before.ids, before.instance).events);
      }
    }

    /** processRegistration, after the inherited HL7 handling: processStudy for
        every enabled study bound to this system, in array order. */
    method ProcessRegistration(reg: Registration, studies: seq<Study>, replies: seq<StudyReplies>,
                               ids: IdSource, counter: InstanceNumber, log: EventLog)
      requires |replies| == |studies|
      modifies ids, counter, log
      ensures var r := StudiesRun(reg, studies, replies, ids.root, old(ids.state), old(counter.value));
        log.events == old(log.events) + r.events && ids.state == r.ids && counter.value == r.instance
    {
      var i := 0;
      while i < |studies|
        invariant 0 <= i <= |studies|
        invariant var r := StudiesRun(reg, studies[..i], replies[..i], ids.root, old(ids.state), old(counter.value));
          log.events == old(log.events) + r.events && ids.state == r.ids && counter.value == r.instance
      {
        ProcessNext(reg, studies, replies, i, old(ids.state), old(counter.value), old(log.events), ids, counter, log);
        i := i + 1;
      }
      assert studies[..i] == studies && replies[..i] == replies;
    }

    /** One more study of the configured list: unchanged unless it is selected,
        then that study's run appended. */
    lemma StudiesRunSnoc(reg: Registration, studies: seq<Study>, replies: seq<StudyReplies>, root: string,
                         ids: IdState, instance: nat, i: nat)
      requires |replies| == |studies| && i < |studies|
      ensures var before := StudiesRun(reg, studies[..i], replies[..i], root, ids, instance);
        var r := StudyRun(reg, studies[i], replies[i], root, before.ids, before.instance);
        StudiesRun(reg, studies[..i + 1], replies[..i + 1], root, ids, instance) ==
          if Selected(studies[i]) then Run(before.events + r.events, r.ids, r.instance) else before
    {
      assert studies[..i + 1][..i] == studies[..i] && replies[..i + 1][..i] == replies[..i];
    }

    lemma {:induction false} Hl7EventsShape(profiles: seq<Profile>, replies: StudyReplies, reg: Registration, ids: OrderIds,
                                            modality: string, studyUid: string)
      ensures var events := Hl7Events(profiles, replies, reg, ids, modality, studyUid);
        |events| == |profiles| &&
        forall i :: 0 <= i < |profiles| ==> events[i] == OrderEvent(profiles[i], ReplyFor(profiles[i], replies), reg, ids, modality, studyUid)
      decreases |profiles|
    {
      if profiles != [] {
        Hl7EventsShape(profiles[..|profiles| - 1], replies, reg, ids, modality, studyUid);
      }
    }

    /** processStudy changes nothing when the system is disabled or no leaf of
        the study parses. */
    lemma StudySkipped(reg: Registration, study: Study, replies: StudyReplies, root: string, ids: IdState, instance: nat)
      requires !Processes(study)
      ensures StudyRun(reg, study, replies, root, ids, instance) == Run([], ids, instance)
    {
    }

    /** A processed study first logs one HL7 event per accepted profile, in the
        order RAD-2, RAD-4, RAD-28, each with the status of its own reply and all
        carrying the order ids derived from one sequence number and accession
        number; RAD-4 alone carries the remapped study UID, which is the first
        UID drawn. */
    lemma StudyHl7Events(reg: Registration, study: Study, replies: StudyReplies, root: string, ids: IdState, instance: nat)
      requires Processes(study)
      ensures var r := StudyRun(reg, study, replies, root, ids, instance);
        var k := |AcceptedProfiles()|;
        && k < |r.events|
        && forall i :: 0 <= i < k ==>
             && r.events[i].kind == Hl7Kind && r.events[i].status == ReplyFor(AcceptedProfiles()[i], replies)
             && r.events[i].detail.Hl7Sent?
             && r.events[i].detail.order.profile == AcceptedProfiles()[i]
             && r.events[i].detail.order.ids == OrderIdsFor(ids.seqInts + 1, AccessionString(ids.accessions),
                                                            study.procedureCode, study.localProcedureCode)
             && r.events[i].detail.order.zdsStudyUid ==
                  (if AcceptedProfiles()[i] == Rad4 then Some(UidString(root, ids.uids)) else None)
    {
      var hl7 := StudyHl7(reg, study, replies, root, ids);
      Hl7EventsShape(AcceptedProfiles(), replies, reg, StudyOrderIds(study, ids), FirstParsable(study.tree).value.modality,
                     StudyLookup(study, root, ids).uid);
      var events := StudyRun(reg, study, replies, root, ids, instance).events;
      assert forall i :: 0 <= i < |hl7| ==> events[i] == hl7[i];
    }

    /** After the HL7 events a processed study logs exactly one DICOM event:
        success counts the leaves sent and added to the KOS, failure counts the
        leaves that are not clean (a leaf whose close() throws counts in both),
        and its status is Ok exactly when every leaf is clean. */
    lemma StudyDicomEvent(reg: Registration, study: Study, replies: StudyReplies, root: string, ids: IdState, instance: nat)
      requires Processes(study)
      ensures var r := StudyRun(reg, study, replies, root, ids, instance);
        var leaves := Leaves(study.tree);
        var k := |AcceptedProfiles()|;
        && k < |r.events|
        && r.events[k].kind == DicomKind && r.events[k].detail.InstancesTransferred?
        && r.events[k].detail.studyId == study.id
        && r.events[k].detail.success == CountSucceeded(leaves)
        && r.events[k].detail.failure + CountClean(leaves) == |leaves|
        && CountClean(leaves) <= r.events[k].detail.success <= |leaves|
        && (r.events[k].status == Ok <==> AllClean(leaves))
    {
      var hl7 := StudyHl7(reg, study, replies, root, ids);
      Hl7EventsShape(AcceptedProfiles(), replies, reg, StudyOrderIds(study, ids), FirstParsable(study.tree).value.modality,
                     StudyLookup(study, root, ids).uid);
      var events := StudyRun(reg, study, replies, root, ids, instance).events;
      assert events[|hl7|] == DicomEvent(study.id, StudyWalk(study, root, ids));
      WalkTally(study.tree, root, StudyLookup(study, root, ids).uid, StudyStart(study, root, ids));
      CountCleanAll(Leaves(study.tree));
    }

    /** What a processed study draws: one accession number and one sequence
        number for its orders, one UID for the study and at least one per
        numbered leaf, and, when it submits its KOS, a UUID, one more accession
        number and four more UIDs. The instance counter, reset for the study,
        ends at the number of numbered leaves. */
    lemma StudyDraws(reg: Registration, study: Study, replies: StudyReplies, root: string, ids: IdState, instance: nat)
      requires Processes(study)
      ensures var r := StudyRun(reg, study, replies, root, ids, instance);
        var numbered := CountNumbered(Leaves(study.tree));
        var kos := study.hasMetadata && SubmitsKos(replies);
        && r.instance == numbered
        && r.ids.seqInts == ids.seqInts + 1
        && r.ids.accessions == ids.accessions + (if kos then 2 else 1)
        && r.ids.uuids == ids.uuids + (if kos then 1 else 0)
        && r.ids.uids >= ids.uids + 1 + numbered + (if kos then 4 else 0)
    {
      WalkTally(study.tree, root, StudyLookup(study, root, ids).uid, StudyStart(study, root, ids));
    }

    /** One fresh UIDMap per processed study serves the study UID and every
        series UID: at the end it still maps the original study UID to the UID
        every sent instance carries, it stays injective, and everything sent or
        added to the KOS is coherent with it. */
    lemma StudyUidMap(study: Study, root: string, ids: IdState)
      requires Processes(study)
      ensures var studyUid := StudyLookup(study, root, ids).uid;
        var walked := StudyWalk(study, root, ids);
        var original := FirstParsable(study.tree).value.studyUid;
        && original in walked.table && walked.table[original] == studyUid
        && Coherent(walked, root, studyUid)
    {
      var lookup := StudyLookup(study, root, ids);
      GetOrCreateKeepsInjective(map[], FirstParsable(study.tree).value.studyUid, root, ids.uids);
      WalkKeepsCoherent(study.tree, root, lookup.uid, StudyStart(study, root, ids));
      WalkTally(study.tree, root, lookup.uid, StudyStart(study, root, ids));
    }

    lemma KosEventsFacts(study: Study, replies: StudyReplies)
      ensures var soap := StudySoap(study, replies);
        && (!study.hasMetadata ==> soap == [])
        && forall i :: 0 <= i < |soap| ==>
             && soap[i].kind == SoapKind
             && (soap[i].detail.KosResult? ==> soap[i].status == Error)
             && (soap[i].detail.XdsbSubmitted? ==> sendsKos)
    {
    }

    /** After its DICOM event a processed study logs only SOAP events: none when
        it has no metadata folder, every KOS failure as an error, and the KOS
        submission only when the system sends KOS objects. So a study's events
        run HL7, then DICOM, then SOAP. */
    lemma StudySoapEvents(reg: Registration, study: Study, replies: StudyReplies, root: string, ids: IdState, instance: nat)
      requires Processes(study)
      ensures var r := StudyRun(reg, study, replies, root, ids, instance);
        var k := |AcceptedProfiles()|;
        && k < |r.events|
        && (!study.hasMetadata ==> |r.events| == k + 1)
        && (forall i :: k < i < |r.events| ==>
              && r.events[i].kind == SoapKind
              && (r.events[i].detail.KosResult? ==> r.events[i].status == Error)
              && (r.events[i].detail.XdsbSubmitted? ==> sendsKos))
        && KindOrdered(r.events)
    {
      var hl7 := StudyHl7(reg, study, replies, root, ids);
      var soap := StudySoap(study, replies);
      Hl7EventsShape(AcceptedProfiles(), replies, reg, StudyOrderIds(study, ids), FirstParsable(study.tree).value.modality,
                     StudyLookup(study, root, ids).uid);
      KosEventsFacts(study, replies);
      var events := StudyRun(reg, study, replies, root, ids, instance).events;
      var k := |hl7|;
      assert forall i :: k < i < |events| ==> events[i] == soap[i - k - 1];
      assert forall i :: 0 <= i < |events| ==> Rank(events[i].kind) == (if i < k then 0 else if i == k then 1 else 2);
    }

    /** The DICOM events a processed study contributes: exactly its own id, once. */
    lemma StudyDicomIds(reg: Registration, study: Study, replies: StudyReplies, root: string, ids: IdState, instance: nat)
      ensures DicomStudyIds(StudyRun(reg, study, replies, root, ids, instance).events) ==
        (if Processes(study) then [study.id] else [])
    {
      if Processes(study) {
        var hl7 := StudyHl7(reg, study, replies, root, ids);
        Hl7EventsShape(AcceptedProfiles(), replies, reg, StudyOrderIds(study, ids), FirstParsable(study.tree).value.modality,
                       StudyLookup(study, root, ids).uid);
        KosEventsFacts(study, replies);
        OneDicomStudyId(hl7, DicomEvent(study.id, StudyWalk(study, root, ids)), StudySoap(study, replies));
      }
    }

    /** Over a whole registration, the DICOM events name, in log order, exactly
        the enabled studies bound to this system that it processes, each once,
        in the order they are configured. */
    lemma {:induction false} StudiesDicomIds(reg: Registration, studies: seq<Study>, replies: seq<StudyReplies>,
                                             root: string, ids: IdState, instance: nat)
      requires |replies| == |studies|
      ensures DicomStudyIds(StudiesRun(reg, studies, replies, root, ids, instance).events) == ProcessedStudyIds(studies)
      decreases |studies|
    {
      if studies != [] {
        var k := |studies| - 1;
        StudiesDicomIds(reg, studies[..k], replies[..k], root, ids, instance);
        var before := StudiesRun(reg, studies[..k], replies[..k], root, ids, instance);
        if Selected(studies[k]) {
          StudyDicomIds(reg, studies[k], replies[k], root, before.ids, before.instance);
          DicomStudyIdsAppend(before.events, StudyRun(reg, studies[k], replies[k], root, before.ids, before.instance).events);
        }
      }
    }
  }
}

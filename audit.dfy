/** The event log every target appends to (RegSysEvent and the configuration's
    event log). An event is its status, its type and what its text reports;
    the HTML rendering of the text is not modelled. */
module Audit {
  import opened Orders

  /** RegSysEvent.STATUS_OK / STATUS_ERROR. */
  datatype Status = Ok | Error

  /** RegSysEvent.TYPE_HL7 / TYPE_DICOM / TYPE_SOAP. */
  datatype EventKind = Hl7Kind | DicomKind | SoapKind

  /** Why the KOS could not be handled: kos.save threw with a message, or the
      configured repository id names no repository. */
  datatype KosFailure = KosSaveFailed(message: string) | RepositoryMissing

  datatype Detail =
    | Hl7Sent(systemId: string, globalId: string, order: Hl7Order)
    | InstancesTransferred(studyId: string, systemId: string, success: nat, failure: nat)
    | KosResult(studyId: string, systemId: string, repositoryId: string, reason: KosFailure)
      /** The event Repository.submitDocumentXDSb logs for a KOS submission. */
    | XdsbSubmitted(response: string)
    | DocSetProcessed(docSetId: string, pdfMessage: string, response: string)
    | DocSetFailed(docSetId: string, message: string)

  datatype Event = Event(status: Status, kind: EventKind, detail: Detail)

  /** The append-only event log. */
  class EventLog {
    var events: seq<Event>

    constructor ()
      ensures events == []
    {
      events := [];
    }

    method Append(e: Event)
      modifies this
      ensures events == old(events) + [e]
    {
      events := events + [e];
    }
  }
}

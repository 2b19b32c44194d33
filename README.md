# Geneva2 DCM system and repository, modelled in Dafny

Geneva2 is a test-data generator for IHE demonstrations. A registration
(a synthetic patient) is handed to every configured target system. This
project models two of those targets.

- **DCMSystem** is the imaging target. For each enabled study bound to it, it:
  - finds the first parsable DICOM file under the study directory;
  - draws an accession number and a sequence number, and derives the HL7
    order ids from them;
  - replaces the study UID through a fresh per-study UID map;
  - sends the RAD-2, RAD-4 and RAD-28 messages the system accepts;
  - walks the directory tree, rewriting and sending every file, numbering
    the instances and replacing every series UID through the same map;
  - logs one DICOM event with the success and failure counts;
  - when a `-metadata` folder exists, saves the KOS (key object selection)
    and submits it to the configured repository.
- **Repository** is the document target. For each enabled document set
  bound to it, it:
  - applies the sex filter;
  - builds the transform parameters, drawing a UUID, a document id and
    four UIDs;
  - renders the PDF and/or CDA attachment and the XDS.b metadata;
  - submits the result over SOAP when that is switched on;
  - logs one SOAP event whose status comes from `isOK` on the response text.

Everything outside these two classes becomes a parameter of the model:

- the file system and the DICOM parser, as a `FileNode` tree whose leaves
  say whether they parse and how far their delivery gets;
- the HL7 replies, the KOS save, the repository lookup and the XDS.b
  submission, as `StudyReplies`;
- for each document set, the files it has, where an exception is thrown,
  and the submit response, as `DocSetEnv`;
- the configuration's identifier counters, as the `IdSource` class.

The event log is an `EventLog` object. `UIDMap`, `InstanceNumber`,
`SendResult`, the DICOM sender and the KOS are classes whose fields the
methods update. Each state-changing method is proved equal to a function
of the old state: `Walk`, `StudyRun`, `StudiesRun`, `DocSetRun` and
`DocSetsRun`. The lemmas state what those functions guarantee.

Modules, one per file: `Text` (trim, ASCII case, `indexOf`, attributes),
`Decimal` (int rendering and parsing), `Ids`, `Registrations`, `Orders`,
`Audit` (events and the log), `Remap` (UIDMap), `DicomFiles` (the study
tree, `getDicomObject`), `Transfer` (`sendInstances` and its helper
classes), `DcmSystems` and `Repositories`.

## Model

| member | source | states |
|---|---|---|
| DcmSystems.DcmSystem.constructor | source/java/org/rsna/geneva/elements/DCMSystem.java:46-56 | Every string attribute is trimmed. Every flag is on unless its trimmed value is exactly "no". |
| Text.FlagOffWhenPaddedNo | source/java/org/rsna/geneva/elements/DCMSystem.java:52-55 | "no" with whitespace on either side switches a flag off. |
| Text.FlagOffOnlyWhenPaddedNo | source/java/org/rsna/geneva/elements/DCMSystem.java:52-55 | Only such a value switches a flag off. An absent attribute, "No" or "yes" leave it on. |
| Text.TrimPadded | source/java/org/rsna/geneva/elements/DCMSystem.java:48-51 | Trimming a value padded with chars up to U+0020 gives back the value. |
| Text.TrimIsSlice | source/java/org/rsna/geneva/elements/DCMSystem.java:48-51 | What trim keeps is a slice of the input between two runs of trimmable chars. |
| DcmSystems.DcmSystem.ProcessRegistration | source/java/org/rsna/geneva/elements/DCMSystem.java:70-80 | The log, the identifier draws and the instance counter end as `StudiesRun` over the studies in array order. Only enabled studies bound to this system are processed. |
| DcmSystems.DcmSystem.StudiesDicomIds | source/java/org/rsna/geneva/elements/DCMSystem.java:70-80 | The DICOM events of a registration name exactly the selected studies that have a parsable file, each once, in configuration order. |
| DcmSystems.DcmSystem.ProcessStudy | source/java/org/rsna/geneva/elements/DCMSystem.java:82-166 | The log, the draws and the instance counter end as `StudyRun` of the old state, including the identifiers a KOS submission draws. |
| DcmSystems.DcmSystem.StudySkipped | source/java/org/rsna/geneva/elements/DCMSystem.java:84-90 | A disabled system, or a study with no parsable file, logs nothing and draws nothing. |
| DcmSystems.DcmSystem.DrawStudyIds | source/java/org/rsna/geneva/elements/DCMSystem.java:94-122 | The accession number is drawn before the sequence number. Then the study UID comes from a fresh UID map. |
| Orders.OrderIdsIdentifySeqInt | source/java/org/rsna/geneva/elements/DCMSystem.java:97-111 | The filler order number is the accession number. RPID, SPSID and PN each determine the sequence number they were built from. |
| DcmSystems.DcmSystem.StudyHl7Events | source/java/org/rsna/geneva/elements/DCMSystem.java:124-130 | A processed study first logs one HL7 event per accepted profile, in RAD-2, RAD-4, RAD-28 order. Each event carries that profile's reply status and the study's order ids. Only RAD-4 carries the replaced study UID. |
| DcmSystems.DcmSystem.SendOrders | source/java/org/rsna/geneva/elements/DCMSystem.java:124-130 | The three sends append exactly the events of the accepted profiles, in order. |
| DcmSystems.DcmSystem.Hl7EventsOfAccepted | source/java/org/rsna/geneva/elements/DCMSystem.java:124-130 | The HL7 events of the accepted profiles are the RAD-2, RAD-4 and RAD-28 events, each present exactly when its flag is on. |
| DcmSystems.DcmSystem.SendOrder | source/java/org/rsna/geneva/elements/DCMSystem.java:168-283 | A profile is sent and logged with its reply status exactly when the system accepts it. |
| Orders.UniversalServiceIdComponents | source/java/org/rsna/geneva/elements/DCMSystem.java:216-219 | Splitting the universal service id at its first "^" gives back the procedure code. The local code comes back exactly when it is non-empty. |
| DcmSystems.DcmSystem.TransferInstances | source/java/org/rsna/geneva/elements/DCMSystem.java:137-156 | Resets the instance counter, walks the tree with a fresh result, sender and KOS, and logs one DICOM event about that walk. |
| DcmSystems.DcmSystem.StudyDicomEvent | source/java/org/rsna/geneva/elements/DCMSystem.java:137-156 | Right after the HL7 events comes one DICOM event. Success counts the leaves sent and added to the KOS. Failure counts the leaves that are not clean, so a leaf whose close() throws counts in both. The status is OK exactly when every leaf is clean. |
| DcmSystems.DcmSystem.StudyDraws | source/java/org/rsna/geneva/elements/DCMSystem.java:94-165 | A processed study draws one sequence number and one accession number for its orders, and at least one UID for the study and one per numbered leaf. When it submits its KOS it also draws a UUID, one more accession number and four more UIDs. The counter ends at the number of numbered leaves. |
| DcmSystems.DcmSystem.StudyDicomIds | source/java/org/rsna/geneva/elements/DCMSystem.java:137-156 | A processed study contributes exactly one DICOM event, naming its own id. |
| DcmSystems.DcmSystem.StudyUidMap | source/java/org/rsna/geneva/elements/DCMSystem.java:119-122 | The study's map still sends the original study UID to the UID every sent instance carries. The map stays injective. Every series UID sent is one of its values. |
| DcmSystems.DcmSystem.StudySoapEvents | source/java/org/rsna/geneva/elements/DCMSystem.java:158-165 | Without a metadata folder, nothing follows the DICOM event. Otherwise only SOAP events follow, so a study's events run HL7, then DICOM, then SOAP. |
| DcmSystems.DcmSystem.SendKos | source/java/org/rsna/geneva/elements/DCMSystem.java:568-611 | A failed save logs an error. When KOS sending is on, a missing repository logs an error. Otherwise the submission draws its UUID, document id and four UIDs, and its own event is appended. |
| Ids.IdSource.NextSubmissionIds | source/java/org/rsna/geneva/elements/Repository.java:451-477 | Draws the UUID, then the document id, then four UIDs, as the parameter array of submitDocumentXDSb does. |
| DcmSystems.DcmSystem.SendKosEvent | source/java/org/rsna/geneva/elements/DCMSystem.java:613-626 | Appends one SOAP error event naming the study, this system and its repository. |
| DcmSystems.DcmSystem.KosEventsFacts | source/java/org/rsna/geneva/elements/DCMSystem.java:568-626 | Every KOS event is SOAP. Every KOS failure is an error. An XDS.b event appears only when the system sends KOS objects. |
| Transfer.SendInstances | source/java/org/rsna/geneva/elements/DCMSystem.java:481-566 | The ids, UID map, counter, result, sender and KOS end as `Walk` of their old values. Directories are visited in listing order, depth first. |
| Transfer.SendFile | source/java/org/rsna/geneva/elements/DCMSystem.java:506-564 | One leaf is one `Step`. An unparsable file counts a failure and draws nothing. Otherwise the SOP UID is drawn, then the series UID is mapped, then the instance is numbered, sent and added to the KOS. Success is counted only when both the send and the KOS add succeed. A close() that throws after that adds a failure as well. |
| Transfer.WalkIsStepAll | source/java/org/rsna/geneva/elements/DCMSystem.java:497-505 | Walking the tree is stepping through its leaves in depth-first order. |
| Transfer.WalkTally | source/java/org/rsna/geneva/elements/DCMSystem.java:481-566 | Success grows by the number of leaves sent and added to the KOS. Failure grows by the number of leaves that are not clean. The counter grows by the number of numbered leaves. Only UIDs are drawn, at least one per numbered leaf, and the map only grows. |
| Transfer.CountCleanAll | source/java/org/rsna/geneva/elements/DCMSystem.java:146-156 | The clean leaves are among the successful ones. They are all the leaves exactly when every leaf is clean, that is when no failure was counted. |
| Transfer.WalkKeepsCoherent | source/java/org/rsna/geneva/elements/DCMSystem.java:532-551 | Every sent instance carries the study UID and a series UID from the map. Instance numbers strictly increase, starting at 1. The KOS holds only sent instances. The map stays injective over drawn UIDs. |
| Transfer.StepKeepsCoherent | source/java/org/rsna/geneva/elements/DCMSystem.java:506-564 | One leaf keeps the coherence invariant. |
| Transfer.InstanceNumber.Reset | source/java/org/rsna/geneva/elements/DCMSystem.java:671-673 | The counter goes back to 0. |
| Transfer.InstanceNumber.GetNext | source/java/org/rsna/geneva/elements/DCMSystem.java:674-677 | Returns the old value plus one, which is also the new value. |
| Remap.GetOrCreate | source/java/org/rsna/geneva/elements/DCMSystem.java:659-666 | The original maps to the returned UID. Old entries stay. One key is added at most. A UID is drawn only on a miss. |
| Remap.UidMap.GetUid | source/java/org/rsna/geneva/elements/DCMSystem.java:659-666 | The table and the UID source change exactly as `GetOrCreate` says. |
| Remap.GetOrCreateIdempotent | source/java/org/rsna/geneva/elements/DCMSystem.java:659-666 | A second lookup of the same UID returns the same replacement and changes nothing. |
| Remap.GetOrCreateKeepsInjective | source/java/org/rsna/geneva/elements/DCMSystem.java:651-667 | Drawing fresh UIDs keeps distinct originals on distinct replacements. |
| DicomFiles.FirstParsableIsFirstLeaf | source/java/org/rsna/geneva/elements/DCMSystem.java:630-644 | getDicomObject returns the first parsable leaf in depth-first listing order. It returns null exactly when no leaf parses. |
| DicomFiles.NoneIffNoParsed | source/java/org/rsna/geneva/elements/DCMSystem.java:630-644 | The first parsed header is absent exactly when no file parses. |
| Repositories.Repository.constructor | source/java/org/rsna/geneva/elements/Repository.java:75-88 | Sets the flags, the trimmed authorities with their configuration fallback, the SOAP version default and the parsed delay. |
| Repositories.Repository.OrDefault | source/java/org/rsna/geneva/elements/Repository.java:90-100 | The element's own authority wins unless it is empty. The result is empty only when both are. |
| Repositories.Repository.DefaultSoapVersion | source/java/org/rsna/geneva/elements/Repository.java:84-85 | An empty version becomes "SOAP_1_2". A configured version is kept. |
| Repositories.Repository.DelayValue | source/java/org/rsna/geneva/elements/Repository.java:86-87 | The delay is a 32-bit int. It is 0 when parseInt throws. |
| Repositories.Repository.DelayRoundTrip | source/java/org/rsna/geneva/elements/Repository.java:86-87 | Any 32-bit delay written in decimal is read back exactly. |
| Repositories.Repository.ProcessRegistration | source/java/org/rsna/geneva/elements/Repository.java:119-131 | The delay happens exactly when there is a document set and the delay is positive. The log and the draws end as `DocSetsRun` over the selected document sets in array order. |
| Repositories.Repository.DocSetsEventIds | source/java/org/rsna/geneva/elements/Repository.java:119-131 | The docset events of a registration name exactly the selected document sets that pass the sex filter and do not return silently, each once, in order. |
| Repositories.BlankSexAccepted | source/java/org/rsna/geneva/elements/Repository.java:138-141 | A blank registrant sex passes every document set. |
| Repositories.SexFilterFirstLetter | source/java/org/rsna/geneva/elements/Repository.java:138-141 | Otherwise a set passes exactly when its sex is "BOTH" or starts with the upper-cased first non-blank char of the registrant's sex. |
| Repositories.Slashes | source/java/org/rsna/geneva/elements/Repository.java:178 | Every backslash of the path becomes "/". Nothing else changes. |
| Repositories.InterleaveAt | source/java/org/rsna/geneva/elements/Repository.java:187-214 | Each name sits at an even index with its value right after it. |
| Repositories.Repository.BuildParams | source/java/org/rsna/geneva/elements/Repository.java:184-214 | A fresh array of the 26 name/value pairs with "pdf" last. Draws one UUID, then the document id, then four UIDs. |
| Repositories.Repository.PrepareAttachment | source/java/org/rsna/geneva/elements/Repository.java:215-293 | The PDF sets the message, the MIME type and the last parameter. A CDA replaces the attachment. A rendering exception stops with its message. The other parameters are untouched. |
| Repositories.Repository.ComposeResponse | source/java/org/rsna/geneva/elements/Repository.java:365-387 | The response text is "transmission completed", or lists every error value after its 1-based number between the fixed head and tail. |
| Repositories.ErrorItemsLists | source/java/org/rsna/geneva/elements/Repository.java:376-386 | For every k, the items of the first k values, then " (k+1)", then the value at k, begin the whole list. So each value follows its 1-based number, in list order. |
| Repositories.ErrorItemsExtend | source/java/org/rsna/geneva/elements/Repository.java:376-386 | The items of a prefix of the values begin the items of all the values. |
| Repositories.Repository.ProcessDocSet | source/java/org/rsna/geneva/elements/Repository.java:133-438 | The log and the draws end as `DocSetRun` of the old state. |
| Repositories.Repository.SubmitDocSet | source/java/org/rsna/geneva/elements/Repository.java:295-414 | A missing metadata transform returns silently. A rendering or submission exception logs an error. Otherwise one event is logged with the PDF message and the response text. |
| Repositories.Repository.FateEventsFacts | source/java/org/rsna/geneva/elements/Repository.java:404-437 | At most one SOAP event per document set. Exceptions are errors. A processed set's status is `toStatus` of its response. |
| Repositories.Repository.DocSetEvents | source/java/org/rsna/geneva/elements/Repository.java:133-438 | A filtered set logs and draws nothing. A passing set logs exactly one event unless it returns silently. It draws its ids unless no temporary directory could be made. With SOAP off the response is "transmission disabled", which is an error. |
| Repositories.IsOkIff | source/java/org/rsna/geneva/elements/Repository.java:622-624 | isOK holds exactly when the lower-cased response contains `status="success"`. |
| Repositories.MarkerMakesOk | source/java/org/rsna/geneva/elements/Repository.java:622-628 | The marker in any letter case, anywhere in the response, makes the status OK. |
| Repositories.NoQuoteNotOk | source/java/org/rsna/geneva/elements/Repository.java:622-628 | A response without a double quote is an error. |
| Repositories.DisabledIsError | source/java/org/rsna/geneva/elements/Repository.java:323 | "transmission disabled" has status ERROR. |
| Repositories.ResponseTextIsError | source/java/org/rsna/geneva/elements/Repository.java:404-412 | A response text built from the submit result is an error unless one of its error values holds a double quote. |
| Text.IndexFrom | source/java/org/rsna/geneva/elements/Repository.java:622-624 | indexOf returns the first occurrence at or after the start, or -1 exactly when there is none. |

## Left out

- HL7 message content is left out: MSH, PID, PV1, ORC, OBR, OBX and ZDS segments and their fields. Each order is modelled by its profile, its order ids, its modality and, for RAD-4, the study UID. `HL7Message.toStatus` of the reply is a parameter.
- These configuration draws are not modelled: message control ids, set ids, patient visit and location, and the physician names. They have no effect on the modelled state.
- The configuration's UID, sequence, accession and UUID counters are modelled by `IdSource` as counters. Their string formats are stand-ins that keep distinct draws distinct. `Configuration` is not part of this model.
- DICOM tag rewriting (`setPatientName` and the others) is left out. A leaf whose parse or tag setters throw is modelled as failing before the SOP UID draw (`UpdateFails`). A setter that throws after that draw is not modelled.
- The DICOM sender, the KOS and its `save`, `B_Source.submit` and `Repository.submitDocumentXDSb` are outcomes given as parameters. Their internals, the network and the files they write are not modelled. The one exception is the identifier draws of `submitDocumentXDSb`, which happen before any of its checks and are modelled.
- The KOS constructor's own identifier draws are not modelled.
- The study date, the study time and the registration's local id are not modelled. They only feed tag values.
- DcmSystems.DcmSystem.ProcessRegistration: `super.processRegistration`, the inherited HL7 handling of `EHRSystem` that runs before the study loop, is not part of this model (`EHRSystem` is not part of this model). The model starts at the study loop, so it does not state that those events and draws come first.
- `InstanceNumber` is a static counter in the source. The model passes it as an object. `Reset` is called once per study, as the source does.
- In `processDocSet`, the attachment and its MIME type are computed but the submission uses `payloadFileName`, the CDA path. The model computes them the same way and does not use them further.
- In `processDocSet`, the XSL transforms, FOP rendering, Base64 encoding, the metadata loading and the temp-file contents are outcomes. The PDF page count and Base64 text are parameters, and an exception is a stage plus a message.
- `FileUtil.deleteAll(temp)` is assumed not to throw. The stack-trace text of the catch block is part of the fault message parameter.
- `Thread.sleep` is modelled only as the `slept` result of `Repository.ProcessRegistration`.
- `sendKOSEvent(true, …)` is only reachable from commented-out code, so every live KOS event is an error.
- `getXML`, `appendDataRows`, `appendTableRow`, `getType` and `createNewElement` render configuration for display and are not modelled.
- `toUpperCase` and `toLowerCase` are modelled on ASCII letters only. Non-ASCII case mapping is left out.
- Repositories.Repository.DelayValue: `Integer.parseInt` also accepts non-ASCII decimal digits (Arabic-Indic, fullwidth and the other Unicode digit ranges). The model reads only ASCII digits, so such a delay becomes 0 here instead of its value. `Decimal.ParseInt` is ASCII-only for the same reason.
- The Java `int` counters cannot overflow in the model: sequence numbers and counts are unbounded.
- `getTempDir` is synchronized. Concurrency is not modelled.

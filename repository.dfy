/** Repository: the document target. For each registration it processes every
    enabled document set bound to it: the registrant's sex must match the set,
    the transform parameters are built, a PDF and/or a CDA are produced, the
    XDS.b metadata is rendered, the submission is sent, and one SOAP event is
    logged. */
module Repositories {
  import opened Text
  import opened Decimal
  import opened Ids
  import opened Audit
  import opened Registrations

  /** A configured document set. */
  datatype DocSet = DocSet(
    id: string,
    repositoryId: string,
    enabled: bool,
    sex: string,
    directory: string,
    date: string,
    institutionName: string,
    title: string)

  /** The result of B_Source.submit as processDocSet inspects it: a null
      response, a null error list, a null error sequence, or the error values. */
  datatype SubmitResponse = NullResponse | NullErrorList | NullErrors | ErrorList(values: seq<string>)

  /** The step of processDocSet at which an exception is thrown. */
  datatype Stage = TempDir | PdfRendering | CdaRendering | DocEntryRendering | SubmissionSetRendering | Submission

  datatype Fault = Fault(stage: Stage, message: string)

  /** What processDocSet finds outside the model for one document set: which
      source files and transforms exist, what the PDF renderer and the
      submission return, where an exception is thrown if anywhere (with the
      text the catch block reports), and the configuration's date and time. */
  datatype DocSetEnv = DocSetEnv(
    hasPdfSource: bool,
    hasCdaSource: bool,
    docEntryXsl: bool,
    submissionSetXsl: bool,
    pdfPages: int,
    pdfBase64: string,
    response: SubmitResponse,
    fault: Option<Fault>,
    today: string,
    now: string)

  datatype Attachment = NoAttachment | PdfFile | CdaFile

  /** How processing one document set ends: rejected by the sex filter, a
      missing metadata transform (a silent return), an exception, or the
      normal end with the PDF message and the response text. */
  datatype Fate = Filtered | Dropped | Aborted(message: string) | Logged(pdfMessage: string, response: string)

  datatype DocRun = DocRun(events: seq<Event>, ids: IdState)

  const Marker: string := "status=\"success\""

  /** isOK: the lower-cased response contains status="success". */
  predicate IsOk(response: string)
  {
    IndexOf(Lower(response), Marker) != -1
  }

  /** toStatus. */
  function ToStatus(response: string): Status
  {
    if IsOk(response) then Ok else Error
  }

  /** isOK holds exactly when the marker occurs in the lower-cased response. */
  lemma IsOkIff(response: string)
    ensures IsOk(response) <==> exists i: nat :: OccursAt(Lower(response), Marker, i)
  {
    var low := Lower(response);
    if exists i: nat :: OccursAt(low, Marker, i) {
      var i: nat :| OccursAt(low, Marker, i);
      assert 0 <= i <= |low|;
    }
  }

  predicate NoQuote(s: string)
  {
    forall k :: 0 <= k < |s| ==> s[k] != '"'
  }

  /** A response with no double quote in it is never OK. */
  lemma NoQuoteNotOk(response: string)
    requires NoQuote(response)
    ensures ToStatus(response) == Error
  {
    assert Marker[7] == '"';
  }

  /** The marker matches whatever its letters' case: a response carrying it
      anywhere is OK. */
  lemma MarkerMakesOk(p: string, m: string, q: string)
    requires Lower(m) == Marker
    ensures ToStatus(p + m + q) == Ok
  {
    var s := p + m + q;
    assert Lower(s)[|p|..|p| + |Marker|] == Lower(m);
    assert OccursAt(Lower(s), Marker, |p|);
  }

  /** The " (k)value" items of an error list, numbered from 1. */
  function ErrorItems(values: seq<string>): string
  {
    if values == [] then ""
    else ErrorItems(values[..|values| - 1]) + " (" + NatToString(|values|) + ")" + values[|values| - 1]
  }

  /** The response text of a submission that went through. */
  function SubmitResponseText(response: SubmitResponse): string
  {
    match response
    case ErrorList(values) => "XDS.b transmission encountered errors:" + ErrorItems(values) + " (End of XDS.b xmit errors)"
    case _ => "transmission completed"
  }

  lemma {:induction false} ErrorItemsNoQuote(values: seq<string>)
    requires forall i :: 0 <= i < |values| ==> NoQuote(values[i])
    ensures NoQuote(ErrorItems(values))
    decreases |values|
  {
    if values != [] {
      ErrorItemsNoQuote(values[..|values| - 1]);
      var d := NatToString(|values|);
      assert forall k :: 0 <= k < |d| ==> IsDigit(d[k]);
    }
  }

  lemma NoQuoteConcat(a: string, b: string)
    requires NoQuote(a) && NoQuote(b)
    ensures NoQuote(a + b)
  {
  }

  /** The text processDocSet logs when SOAP transmission is off is an error. */
  lemma DisabledIsError()
    ensures ToStatus("transmission disabled") == Error
  {
    NoQuoteNotOk("transmission disabled");
  }

  /** No text built from a submit response whose error values hold no double
      quote is OK: every such docset event is logged as an error. */
  lemma ResponseTextIsError(response: SubmitResponse)
    requires response.ErrorList? ==> forall i :: 0 <= i < |response.values| ==> NoQuote(response.values[i])
    ensures ToStatus(SubmitResponseText(response)) == Error
  {
    var t := SubmitResponseText(response);
    if response.ErrorList? {
      ErrorItemsNoQuote(response.values);
      var head, tail := "XDS.b transmission encountered errors:", " (End of XDS.b xmit errors)";
      assert NoQuote(head) && NoQuote(tail);
      NoQuoteConcat(head, ErrorItems(response.values));
      NoQuoteConcat(head + ErrorItems(response.values), tail);
    } else {
      assert NoQuote("transmission completed");
    }
    NoQuoteNotOk(t);
  }

  /** The items of a prefix of the values begin the items of all of them. */
  lemma {:induction false} ErrorItemsExtend(values: seq<string>, n: nat)
    requires n <= |values|
    ensures ErrorItems(values[..n]) <= ErrorItems(values)
    decreases |values| - n
  {
    if n == |values| {
      assert values[..n] == values;
    } else {
      ErrorItemsExtend(values, n + 1);
      assert values[..n + 1][..n] == values[..n];
      var a, b := ErrorItems(values[..n]), ErrorItems(values[..n + 1]);
      assert a <= b;
      PrefixTrans(a, b, ErrorItems(values));
    }
  }

  lemma PrefixTrans(a: string, b: string, c: string)
    requires a <= b && b <= c
    ensures a <= c
  {
    assert forall k :: 0 <= k < |a| ==> a[k] == b[k] == c[k];
  }

  /** The error items list every value, in order, right after its 1-based
      number: the items of the values before the k-th are followed by " (k+1)"
      and the k-th value. */
  lemma ErrorItemsLists(values: seq<string>, k: nat)
    requires k < |values|
    ensures ErrorItems(values[..k]) + " (" + NatToString(k + 1) + ")" + values[k] <= ErrorItems(values)
  {
    assert values[..k + 1][..k] == values[..k];
    ErrorItemsExtend(values, k + 1);
  }

  /** The sex filter of processDocSet. */
  predicate AcceptsSex(docSex: string, regSex: string)
  {
    var r := Trim(Upper(regSex));
    docSex == "BOTH" || |r| == 0 || (|docSex| > 0 && docSex[0] == r[0])
  }

  lemma UpperKeepsTrimmable(s: string)
    ensures |Upper(s)| == |s|
    ensures forall k :: 0 <= k < |s| ==> (IsTrimmable(Upper(s)[k]) <==> IsTrimmable(s[k]))
  {
  }

  /** A registrant's sex that is blank passes every document set. */
  lemma BlankSexAccepted(docSex: string, regSex: string)
    requires AllTrimmable(regSex)
    ensures AcceptsSex(docSex, regSex)
  {
    UpperKeepsTrimmable(regSex);
    TrimBlank(Upper(regSex));
  }

  /** Otherwise only the first non-blank character of the registrant's sex
      matters, whatever its case: it must be the first character of the set's
      sex, unless that is "BOTH". */
  lemma SexFilterFirstLetter(docSex: string, p: string, c: char, rest: string)
    requires AllTrimmable(p) && !IsTrimmable(c)
    ensures AcceptsSex(docSex, p + [c] + rest) <==>
            docSex == "BOTH" || (|docSex| > 0 && docSex[0] == UpperChar(c))
  {
    var s := p + [c] + rest;
    var u := Upper(s);
    UpperKeepsTrimmable(s);
    assert s[|p|] == c;
    assert u[|p|] == UpperChar(c);
    assert forall k :: 0 <= k < |p| ==> s[k] == p[k];
    TrimStartsAt(u, |p|);
  }

  /** String.replaceAll("\\\\", "/"): every backslash becomes a slash. */
  function Slashes(s: string): (r: string)
    ensures |r| == |s|
    ensures forall k :: 0 <= k < |s| ==> r[k] != '\\' && (s[k] != '\\' ==> r[k] == s[k])
    ensures forall k :: 0 <= k < |s| && s[k] == '\\' ==> r[k] == '/'
  {
    seq(|s|, k requires 0 <= k < |s| => if s[k] == '\\' then '/' else s[k])
  }

  /** The transform parameter names, in order; "pdf" must be last. */
  function ParamNames(): seq<string>
  {
    ["path", "patient-name", "full-name", "given-name", "family-name", "patient-id",
     "assigning-authority", "assigning-authority-OID", "institution-name", "document-id",
     "title", "date", "time", "street", "city", "state", "zip", "country", "sex", "birth-date",
     "uuid", "uid1", "uid2", "uid3", "uid4", "pdf"]
  }

  /** The name/value array: each name followed by its value. */
  function Interleave(names: seq<string>, values: seq<string>): (r: seq<string>)
    requires |names| == |values|
  {
    if names == [] then []
    else Interleave(names[..|names| - 1], values[..|values| - 1]) + [names[|names| - 1], values[|values| - 1]]
  }

  /** Names sit at the even positions and each value right after its name. */
  lemma {:induction false} InterleaveAt(names: seq<string>, values: seq<string>)
    requires |names| == |values|
    ensures |Interleave(names, values)| == 2 * |names|
    ensures forall i :: 0 <= i < |names| ==>
      Interleave(names, values)[2 * i] == names[i] && Interleave(names, values)[2 * i + 1] == values[i]
    decreases |names|
  {
    if names != [] {
      InterleaveAt(names[..|names| - 1], values[..|values| - 1]);
    }
  }

  function PdfMessage(pages: int): string
  {
    "PDF (" + IntToString(pages) + " page" + (if pages != 1 then "s" else "") + ") created.<br>"
  }

  predicate FaultAt(env: DocSetEnv, stage: Stage)
  {
    env.fault.Some? && env.fault.value.stage == stage
  }

  class Repository {
    const id: string
    const enabled: bool
    const globalAssigningAuthority: string
    const globalAssigningAuthorityOid: string
    const soapUrl: string
    const sendsSoap: bool
    const soapVersion: string
    const docsetDelay: int

    /** getGlobalAssigningAuthority and getGlobalAssigningAuthorityOID: the
        element's own value unless it is empty, else the configuration's. */
    static function OrDefault(own: string, fallback: string): (r: string)
      ensures r == own || r == fallback
      ensures own != "" ==> r == own
      ensures r == "" ==> own == "" && fallback == ""
    {
      if own != "" then own else fallback
    }

    /** The id comes from the Product superclass; the configuration's default
        authorities are parameters. */
    constructor (id: string, attrs: map<string, string>, defaultAuthority: string, defaultAuthorityOid: string)
      ensures this.id == id
      ensures enabled == FlagAttribute(Attribute(attrs, "enabled"))
      ensures globalAssigningAuthority == OrDefault(Trim(Attribute(attrs, "globalAssigningAuthority")), defaultAuthority)
      ensures globalAssigningAuthorityOid == OrDefault(Trim(Attribute(attrs, "globalAssigningAuthorityOID")), defaultAuthorityOid)
      ensures soapUrl == Trim(Attribute(attrs, "soapURL"))
      ensures sendsSoap == FlagAttribute(Attribute(attrs, "sendsSOAP"))
      ensures soapVersion == DefaultSoapVersion(Trim(Attribute(attrs, "soapVersion")))
      ensures docsetDelay == DelayValue(Trim(Attribute(attrs, "docsetDelay")))
    {
      this.id := id;
      enabled := FlagAttribute(Attribute(attrs, "enabled"));
      globalAssigningAuthority := OrDefault(Trim(Attribute(attrs, "globalAssigningAuthority")), defaultAuthority);
      globalAssigningAuthorityOid := OrDefault(Trim(Attribute(attrs, "globalAssigningAuthorityOID")), defaultAuthorityOid);
      soapUrl := Trim(Attribute(attrs, "soapURL"));
      sendsSoap := FlagAttribute(Attribute(attrs, "sendsSOAP"));
      soapVersion := DefaultSoapVersion(Trim(Attribute(attrs, "soapVersion")));
      docsetDelay := DelayValue(Trim(Attribute(attrs, "docsetDelay")));
    }

    /** The SOAP version, "SOAP_1_2" when none is configured. */
    static function DefaultSoapVersion(v: string): (r: string)
      ensures r != ""
      ensures v == "" ==> r == "SOAP_1_2"
      ensures v != "" ==> r == v
    {
      if v == "" then "SOAP_1_2" else v
    }

    /** docsetDelay: the parsed int, 0 when Integer.parseInt throws. */
    static function DelayValue(v: string): (r: int)
      ensures MinInt <= r <= MaxInt
      ensures ParseInt(v).None? ==> r == 0
    {
      match ParseInt(v)
      case Some(n) => n
      case None => 0
    }

    /** A configured delay written in decimal is read back exactly. */
    static lemma DelayRoundTrip(n: int)
      requires MinInt <= n <= MaxInt
      ensures DelayValue(IntToString(n)) == n
    {
      ParseIntToString(n);
    }

    /** processRegistration hands a document set to processDocSet when it is
        enabled and bound to this repository. */
    predicate Selected(d: DocSet)
    {
      d.enabled && d.repositoryId == id
    }

    /** The parameter values, drawing the uuid, the document id and four UIDs. */
    function ParamValues(reg: Registration, d: DocSet, path: string, date: string, now: string,
                         root: string, ids: IdState): seq<string>
    {
      [path, reg.name, reg.fullName, reg.givenName, reg.familyName, reg.globalId,
       globalAssigningAuthority, globalAssigningAuthorityOid, d.institutionName, AccessionString(ids.accessions),
       d.title, date, now, reg.street, reg.city, reg.state, reg.zip, reg.country, reg.sex, reg.birthdate,
       UuidString(ids.uuids), UidString(root, ids.uids), UidString(root, ids.uids + 1),
       UidString(root, ids.uids + 2), UidString(root, ids.uids + 3), ""]
    }

    /** The date parameter: today's date when the configured one holds a "*". */
    function DocDate(d: DocSet, env: DocSetEnv): string
    {
      if IndexOf(d.date, "*") != -1 then env.today else d.date
    }

    /** How processDocSet ends for one document set. */
    function DocSetFate(reg: Registration, d: DocSet, env: DocSetEnv): Fate
    {
      if !AcceptsSex(d.sex, reg.sex) then Filtered
      else if FaultAt(env, TempDir) then Aborted(env.fault.value.message)
      else if RenderingFault(env) then Aborted(env.fault.value.message)
      else MetadataFate(env, if env.hasPdfSource then PdfMessage(env.pdfPages) else "")
    }

    /** The PDF or the CDA step throws. */
    static predicate RenderingFault(env: DocSetEnv)
    {
      (env.hasPdfSource && FaultAt(env, PdfRendering)) || (env.hasCdaSource && FaultAt(env, CdaRendering))
    }

    /** How processDocSet ends once the PDF and the CDA are produced. */
    function MetadataFate(env: DocSetEnv, pdfMessage: string): Fate
    {
      if !env.docEntryXsl then Dropped
      else if FaultAt(env, DocEntryRendering) then Aborted(env.fault.value.message)
      else if !env.submissionSetXsl then Dropped
      else if FaultAt(env, SubmissionSetRendering) then Aborted(env.fault.value.message)
      else if sendsSoap && FaultAt(env, Submission) then Aborted(env.fault.value.message)
      else Logged(pdfMessage, if sendsSoap then SubmitResponseText(env.response) else "transmission disabled")
    }

    /** The events a fate logs. */
    function FateEvents(d: DocSet, fate: Fate): seq<Event>
    {
      match fate
      case Filtered => []
      case Dropped => []
      case Aborted(message) => [Event(Error, SoapKind, DocSetFailed(d.id, message))]
      case Logged(pdfMessage, response) => [Event(ToStatus(response), SoapKind, DocSetProcessed(d.id, pdfMessage, response))]
    }

    /** processDocSet: its events, and the identifiers it draws once it has a
        temporary directory. */
    function DocSetRun(reg: Registration, d: DocSet, env: DocSetEnv, ids: IdState): DocRun
    {
      var fate := DocSetFate(reg, d, env);
      var draws := fate != Filtered && !FaultAt(env, TempDir);
      DocRun(FateEvents(d, fate),
             if draws then SubmissionDraws(ids) else ids)
    }

    /** processRegistration's loop over the configured document sets. */
    function DocSetsRun(reg: Registration, docSets: seq<DocSet>, envs: seq<DocSetEnv>, ids: IdState): DocRun
      requires |envs| == |docSets|
    {
      if docSets == [] then DocRun([], ids)
      else
        var k := |docSets| - 1;
        var before := DocSetsRun(reg, docSets[..k], envs[..k], ids);
        if !Selected(docSets[k]) then before
        else
          var r := DocSetRun(reg, docSets[k], envs[k], before.ids);
          DocRun(before.events + r.events, r.ids)
    }

    /** The ids of the document sets that log an event, in order. */
    function LoggedDocSetIds(reg: Registration, docSets: seq<DocSet>, envs: seq<DocSetEnv>): seq<string>
      requires |envs| == |docSets|
    {
      if docSets == [] then []
      else
        var k := |docSets| - 1;
        var fate := DocSetFate(reg, docSets[k], envs[k]);
        LoggedDocSetIds(reg, docSets[..k], envs[..k])
          + (if Selected(docSets[k]) && fate != Filtered && fate != Dropped then [docSets[k].id] else [])
    }

    /** The document set a docset event reports on. */
    static function EventDocSetIds(events: seq<Event>): seq<string>
    {
      if events == [] then []
      else
        var e := events[|events| - 1];
        EventDocSetIds(events[..|events| - 1])
          + (if e.detail.DocSetProcessed? || e.detail.DocSetFailed? then [e.detail.docSetId] else [])
    }

    /** Build the transform parameters; the uuid is drawn first, then the
        document id, then the four UIDs. */
    method BuildParams(reg: Registration, d: DocSet, path: string, date: string, now: string, ids: IdSource)
      returns (params: array<string>)
      modifies ids
      ensures fresh(params)
      ensures params[..] == Interleave(ParamNames(), ParamValues(reg, d, path, date, now, ids.root, old(ids.state)))
      ensures ids.state == SubmissionDraws(old(ids.state))
    {
      ghost var ids0 := ids.state;
      var uuid, documentId, uids := ids.NextSubmissionIds();
      var values := [path, reg.name, reg.fullName, reg.givenName, reg.familyName, reg.globalId,
                     globalAssigningAuthority, globalAssigningAuthorityOid, d.institutionName, documentId,
                     d.title, date, now, reg.street, reg.city, reg.state, reg.zip, reg.country, reg.sex, reg.birthdate,
                     uuid, uids[0], uids[1], uids[2], uids[3], ""];
      assert values == ParamValues(reg, d, path, date, now, ids.root, ids0);
      var flat := Interleave(ParamNames(), values);
      params := new string[|flat|](i requires 0 <= i < |flat| => flat[i]);
      assert params[..] == flat;
    }

    /** The PDF and CDA steps of processDocSet: the attachment and its MIME
        type, the PDF message, and the PDF patched into the last parameter. */
    method PrepareAttachment(env: DocSetEnv, params: array<string>)
      returns (failure: Option<string>, attachment: Attachment, mimeType: string, pdfMessage: string)
      requires params.Length > 0
      modifies params
      ensures params[..params.Length - 1] == old(params[..params.Length - 1])
      ensures params[params.Length - 1] ==
        if env.hasPdfSource && !FaultAt(env, PdfRendering) then env.pdfBase64 else old(params[params.Length - 1])
      ensures failure == if RenderingFault(env) then Some(env.fault.value.message) else None
      ensures failure.None? ==>
        && attachment == (if env.hasCdaSource then CdaFile else if env.hasPdfSource then PdfFile else NoAttachment)
        && (mimeType == "application/pdf" <==> attachment == PdfFile)
        && (mimeType == "application/pdf" || mimeType == "text/xml")
        && pdfMessage == (if env.hasPdfSource then PdfMessage(env.pdfPages) else "")
    {
      attachment, mimeType, pdfMessage := NoAttachment, "text/xml", "";
      if env.hasPdfSource {
        if FaultAt(env, PdfRendering) {
          return Some(env.fault.value.message), attachment, mimeType, pdfMessage;
        }
        pdfMessage := PdfMessage(env.pdfPages);
        params[params.Length - 1] := env.pdfBase64;
        attachment, mimeType := PdfFile, "application/pdf";
      }
      if env.hasCdaSource {
        if FaultAt(env, CdaRendering) {
          return Some(env.fault.value.message), attachment, mimeType, pdfMessage;
        }
        attachment, mimeType := CdaFile, "text/xml";
      }
      failure := None;
    }

    /** The response text processDocSet builds from the submit result. */
    static method ComposeResponse(response: SubmitResponse) returns (text: string)
      ensures text == SubmitResponseText(response)
    {
      text := "transmission completed";
      if response.ErrorList? {
        var values := response.values;
        text := "XDS.b transmission encountered errors:";
        var ix := 1;
        while ix <= |values|
          invariant 1 <= ix <= |values| + 1
          invariant text == "XDS.b transmission encountered errors:" + ErrorItems(values[..ix - 1])
        {
          assert values[..ix][..ix - 1] == values[..ix - 1];
          text := text + " (" + NatToString(ix) + ")" + values[ix - 1];
          ix := ix + 1;
        }
        assert values[..ix - 1] == values;
        text := text + " (End of XDS.b xmit errors)";
      }
    }

    /** processDocSet. */
    method ProcessDocSet(reg: Registration, d: DocSet, env: DocSetEnv, ids: IdSource, log: EventLog)
      modifies ids, log
      ensures var r := DocSetRun(reg, d, env, old(ids.state));
        log.events == old(log.events) + r.events && ids.state == r.ids
    {
      if !AcceptsSex(d.sex, reg.sex) {
        return;
      }
      if FaultAt(env, TempDir) {
        log.Append(Event(Error, SoapKind, DocSetFailed(d.id, env.fault.value.message)));
        return;
      }
      var path := Slashes(d.directory);
      var date := DocDate(d, env);
      var params := BuildParams(reg, d, path, date, env.now, ids);
      var failure, attachment, mimeType, pdfMessage := PrepareAttachment(env, params);
      if failure.Some? {
        log.Append(Event(Error, SoapKind, DocSetFailed(d.id, failure.value)));
        return;
      }
      SubmitDocSet(d, env, pdfMessage, log);
    }

    /** The metadata and submission steps of processDocSet, and its event. */
    method SubmitDocSet(d: DocSet, env: DocSetEnv, pdfMessage: string, log: EventLog)
      modifies log
      ensures log.events == old(log.events) + FateEvents(d, MetadataFate(env, pdfMessage))
    {
      if !env.docEntryXsl {
        return;
      }
      if FaultAt(env, DocEntryRendering) {
        log.Append(Event(Error, SoapKind, DocSetFailed(d.id, env.fault.value.message)));
        return;
      }
      if !env.submissionSetXsl {
        return;
      }
      if FaultAt(env, SubmissionSetRendering) {
        log.Append(Event(Error, SoapKind, DocSetFailed(d.id, env.fault.value.message)));
        return;
      }
      var responseText := "transmission disabled";
      if sendsSoap {
        if FaultAt(env, Submission) {
          log.Append(Event(Error, SoapKind, DocSetFailed(d.id, env.fault.value.message)));
          return;
        }
        responseText := ComposeResponse(env.response);
      }
      log.Append(Event(ToStatus(responseText), SoapKind, DocSetProcessed(d.id, pdfMessage, responseText)));
    }

    /** processRegistration: the delay happens when there is a document set and
        a positive delay; then processDocSet runs for every enabled document set
        bound to this repository, in array order. */
    method ProcessRegistration(reg: Registration, docSets: seq<DocSet>, envs: seq<DocSetEnv>, ids: IdSource, log: EventLog)
      returns (slept: bool)
      requires |envs| == |docSets|
      modifies ids, log
      ensures slept <==> |docSets| > 0 && docsetDelay > 0
      ensures var r := DocSetsRun(reg, docSets, envs, old(ids.state));
        log.events == old(log.events) + r.events && ids.state == r.ids
    {
      slept := |docSets| > 0 && docsetDelay > 0;
      var i := 0;
      while i < |docSets|
        invariant 0 <= i <= |docSets|
        invariant var r := DocSetsRun(reg, docSets[..i], envs[..i], old(ids.state));
          log.events == old(log.events) + r.events && ids.state == r.ids
      {
        assert docSets[..i + 1][..i] == docSets[..i] && envs[..i + 1][..i] == envs[..i];
        if docSets[i].enabled && docSets[i].repositoryId == id {
          ProcessDocSet(reg, docSets[i], envs[i], ids, log);
        }
        i := i + 1;
      }
      assert docSets[..i] == docSets && envs[..i] == envs;
    }

    /** A fate logs at most one event, a SOAP one; nothing for a filtered or
        silently dropped document set; an error for every exception; and
        otherwise the status of its response. */
    lemma FateEventsFacts(d: DocSet, fate: Fate)
      ensures var events := FateEvents(d, fate);
        && (|events| == 1 <==> !fate.Filtered? && !fate.Dropped?) && |events| <= 1
        && (forall i :: 0 <= i < |events| ==> events[i].kind == SoapKind)
        && (forall i :: 0 <= i < |events| && events[i].detail.DocSetFailed? ==>
              events[i].status == Error && events[i].detail.docSetId == d.id)
        && (forall i :: 0 <= i < |events| && events[i].detail.DocSetProcessed? ==>
              events[i].status == ToStatus(events[i].detail.response) && events[i].detail.docSetId == d.id)
    {
    }

    /** A document set the sex filter rejects logs nothing and draws nothing; one
        that passes logs exactly one event unless a metadata transform is
        missing, and draws its identifiers unless no temporary directory could
        be made. With SOAP transmission off, a processed document set is logged
        as "transmission disabled", which is an error. */
    lemma DocSetEvents(reg: Registration, d: DocSet, env: DocSetEnv, ids: IdState)
      ensures var r := DocSetRun(reg, d, env, ids);
        var fate := DocSetFate(reg, d, env);
        && (!AcceptsSex(d.sex, reg.sex) ==> r == DocRun([], ids))
        && (AcceptsSex(d.sex, reg.sex) ==> (|r.events| == 1 <==> !fate.Dropped?) && |r.events| <= 1)
        && (AcceptsSex(d.sex, reg.sex) && !FaultAt(env, TempDir) ==>
              r.ids == ids.(uuids := ids.uuids + 1, accessions := ids.accessions + 1, uids := ids.uids + 4))
        && (AcceptsSex(d.sex, reg.sex) && FaultAt(env, TempDir) ==> r.ids == ids)
        && (!sendsSoap && fate.Logged? ==> fate.response == "transmission disabled" && r.events[0].status == Error)
    {
      var fate := DocSetFate(reg, d, env);
      FateEventsFacts(d, fate);
      if !sendsSoap && fate.Logged? {
        DisabledIsError();
      }
    }

    lemma {:induction false} EventDocSetIdsAppend(a: seq<Event>, b: seq<Event>)
      ensures EventDocSetIds(a + b) == EventDocSetIds(a) + EventDocSetIds(b)
      decreases |b|
    {
      if b == [] {
        assert a + b == a;
      } else {
        assert (a + b)[..|a + b| - 1] == a + b[..|b| - 1];
        EventDocSetIdsAppend(a, b[..|b| - 1]);
      }
    }

    /** Over a registration, the docset events name, in log order, exactly the
        enabled document sets bound to this repository that pass the sex filter
        and do not return silently, each once. */
    lemma {:induction false} DocSetsEventIds(reg: Registration, docSets: seq<DocSet>, envs: seq<DocSetEnv>, ids: IdState)
      requires |envs| == |docSets|
      ensures EventDocSetIds(DocSetsRun(reg, docSets, envs, ids).events) == LoggedDocSetIds(reg, docSets, envs)
      decreases |docSets|
    {
      if docSets != [] {
        var k := |docSets| - 1;
        DocSetsEventIds(reg, docSets[..k], envs[..k], ids);
        var before := DocSetsRun(reg, docSets[..k], envs[..k], ids);
        if Selected(docSets[k]) {
          var r := DocSetRun(reg, docSets[k], envs[k], before.ids);
          EventDocSetIdsAppend(before.events, r.events);
          if |r.events| == 1 {
            assert r.events[..0] == [];
          }
        }
      }
    }
  }
}

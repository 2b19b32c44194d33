/** The HL7 order identifiers DCMSystem derives for one study: the IHE Radiology
    profiles it sends (RAD-2 placer order, RAD-4 procedure scheduled, RAD-28
    structured report), the ids drawn from one sequence number, and the OBR
    universal service identifier. */
module Orders {
  import opened Text
  import opened Decimal

  datatype Profile = Rad2 | Rad4 | Rad28

  datatype OrderIds = OrderIds(
    requestedProcedureId: string,
    scheduledProcedureStepId: string,
    placerOrderNumber: string,
    fillerOrderNumber: string,
    accessionNumber: string,
    universalServiceId: string)

  /** What the core puts into one order/report message; the segments themselves
      are built by the HL7 library. Only RAD-4 carries the study UID (ZDS). */
  datatype Hl7Order = Hl7Order(profile: Profile, ids: OrderIds, modality: string, zdsStudyUid: Option<string>)

  /** The procedure code, then "^" and the local code when there is one. */
  function UniversalServiceId(procedureCode: string, localProcedureCode: string): string
  {
    procedureCode + (if localProcedureCode == "" then "" else "^") + localProcedureCode
  }

  /** The ids derived from one sequence number; the filler order number is the
      accession number. */
  function OrderIdsFor(seqInt: int, accession: string, procedureCode: string, localProcedureCode: string): OrderIds
  {
    var n := IntToString(seqInt);
    OrderIds("RPID" + n, "SPSID" + n, "PN" + n, accession, accession,
             UniversalServiceId(procedureCode, localProcedureCode))
  }

  /** HL7 component split at the first "^": the first component, and what
      follows the separator if there is one. */
  function SplitAtCaret(s: string): (string, Option<string>)
  {
    if s == [] then ([], None)
    else if s[0] == '^' then ([], Some(s[1..]))
    else
      var (head, tail) := SplitAtCaret(s[1..]);
      ([s[0]] + head, tail)
  }

  lemma {:induction false} SplitAtCaretPrefix(p: string, rest: string)
    requires forall k :: 0 <= k < |p| ==> p[k] != '^'
    ensures SplitAtCaret(p + rest) == (p + SplitAtCaret(rest).0, SplitAtCaret(rest).1)
    decreases |p|
  {
    if p == [] {
      assert p + rest == rest;
      assert p + SplitAtCaret(rest).0 == SplitAtCaret(rest).0;
    } else {
      var s := p + rest;
      assert s[0] == p[0] && s[0] != '^';
      assert s[1..] == p[1..] + rest;
      SplitAtCaretPrefix(p[1..], rest);
      assert SplitAtCaret(s) == ([s[0]] + SplitAtCaret(s[1..]).0, SplitAtCaret(s[1..]).1);
      assert [p[0]] + (p[1..] + SplitAtCaret(rest).0) == p + SplitAtCaret(rest).0;
    }
  }

  /** A receiver splitting the universal service id at its first "^" gets the
      procedure code back, and the local code exactly when it is non-empty. */
  lemma UniversalServiceIdComponents(procedureCode: string, localProcedureCode: string)
    requires forall k :: 0 <= k < |procedureCode| ==> procedureCode[k] != '^'
    ensures SplitAtCaret(UniversalServiceId(procedureCode, localProcedureCode)) ==
      (procedureCode, if localProcedureCode == "" then None else Some(localProcedureCode))
  {
    var rest := (if localProcedureCode == "" then "" else "^") + localProcedureCode;
    assert UniversalServiceId(procedureCode, localProcedureCode) == procedureCode + rest;
    SplitAtCaretPrefix(procedureCode, rest);
    if localProcedureCode != "" {
      assert rest[0] == '^' && rest[1..] == localProcedureCode;
      assert SplitAtCaret(rest) == ([], Some(localProcedureCode));
      assert procedureCode + [] == procedureCode;
    } else {
      assert rest == [];
      assert procedureCode + [] == procedureCode;
    }
  }

  /** Each of the requested procedure id, the scheduled procedure step id and the
      placer order number identifies the sequence number it was derived from,
      and the filler order number is the accession number. */
  lemma OrderIdsIdentifySeqInt(a: int, b: int, accession: string, procedureCode: string, localProcedureCode: string)
    ensures OrderIdsFor(a, accession, procedureCode, localProcedureCode).fillerOrderNumber == accession
    ensures OrderIdsFor(a, accession, procedureCode, localProcedureCode).accessionNumber == accession
    ensures (OrderIdsFor(a, accession, procedureCode, localProcedureCode).requestedProcedureId ==
             OrderIdsFor(b, accession, procedureCode, localProcedureCode).requestedProcedureId) <==> a == b
    ensures (OrderIdsFor(a, accession, procedureCode, localProcedureCode).scheduledProcedureStepId ==
             OrderIdsFor(b, accession, procedureCode, localProcedureCode).scheduledProcedureStepId) <==> a == b
    ensures (OrderIdsFor(a, accession, procedureCode, localProcedureCode).placerOrderNumber ==
             OrderIdsFor(b, accession, procedureCode, localProcedureCode).placerOrderNumber) <==> a == b
  {
    var x, y := IntToString(a), IntToString(b);
    if ("RPID" + x) == ("RPID" + y) {
      assert x == ("RPID" + x)[4..] && y == ("RPID" + y)[4..];
      IntToStringInjective(a, b);
    }
    if ("SPSID" + x) == ("SPSID" + y) {
      assert x == ("SPSID" + x)[5..] && y == ("SPSID" + y)[5..];
      IntToStringInjective(a, b);
    }
    if ("PN" + x) == ("PN" + y) {
      assert x == ("PN" + x)[2..] && y == ("PN" + y)[2..];
      IntToStringInjective(a, b);
    }
  }
}

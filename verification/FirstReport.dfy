/** The first draft of a report, built from the evidence and the attribution, as the report
    validator sees it. */
module FirstReport {
  import opened Basics
  import opened References
  import opened Schema
  import opened Report
  import opened ReportProofs
  import A = Attribution

  // ---- the items a draft is made of; fields that no rule reads are arbitrary ----

  predicate CarriesEvidence(j: Json, e: A.Evidence) {
    && At(j, EvidenceId) == Str(e.id)
    && At(j, QualityStatus) == Str(if e.verified then "verified" else "limited")
  }

  function LevelText(level: A.Level): string {
    match level case Confirmed => "confirmed" case Probable => "probable" case ToVerify => "to_verify"
  }

  predicate CarriesConclusion(j: Json, x: A.Conclusion) {
    && At(j, ConclusionId) == Str(x.id) && At(j, Status) == Str(LevelText(x.level))
    && At(j, EvidenceIdList) == Arr(Texts(x.evidenceIds)) && At(j, VerificationNeeded) == Bool(x.verificationNeeded)
  }

  predicate CarryAll(evs: seq<Json>, cs: seq<Json>, evidence: seq<A.Evidence>, conclusions: seq<A.Conclusion>) {
    && |evs| == |evidence| && (forall i :: 0 <= i < |evs| ==> CarriesEvidence(evs[i], evidence[i]))
    && |cs| == |conclusions| && (forall i :: 0 <= i < |cs| ==> CarriesConclusion(cs[i], conclusions[i]))
  }

  // ---- parsing keeps what the rules read ----

  lemma {:induction false} ParseEach(c: Coercions, shape: Shape, items: seq<Json>, i: nat)
    requires ParseAll(c, shape, items).Some? && i < |items|
    ensures Parse(c, shape, items[i]) == Some(ParseAll(c, shape, items).value[i])
  {
    if i < |items| - 1 { ParseEach(c, shape, items[..|items| - 1], i); }
  }

  lemma EvidenceKept(c: Coercions, m: Models, j: Json, e: A.Evidence, d: Json)
    requires Good(m) && CarriesEvidence(j, e) && Parse(c, Record(m.evidence), j) == Some(d)
    ensures EvidenceRefOf(d) == EvidenceRef(e.id, e.verified)
  {
    TextField(c, m.evidence, j, d, Req(EvidenceId, Text));
    TextField(c, m.evidence, j, d, Req(QualityStatus, OneOf(m.qualities)));
    QualitiesDiffer();
  }

  lemma QualitiesDiffer()
    ensures "verified" != "limited" && "confirmed" != "probable" && "confirmed" != "to_verify"
  {
    assert "verified"[0] != "limited"[0] && "confirmed"[0] != "probable"[0] && "confirmed"[0] != "to_verify"[0];
  }

  lemma ConclusionKept(c: Coercions, m: Models, j: Json, x: A.Conclusion, d: Json)
    requires Lawful(c) && Good(m) && CarriesConclusion(j, x) && Parse(c, Record(m.conclusion), j) == Some(d)
    ensures ConclusionRefOf(d) == A.RefOf(x)
  {
    ConclusionDumped(c, m.conclusion, m.statuses, j, d);
    DumpedRef(c, j, x, d);
  }

  lemma DumpedRef(c: Coercions, j: Json, x: A.Conclusion, d: Json)
    requires Lawful(c) && CarriesConclusion(j, x) && Dumped(c, j, d)
    ensures ConclusionRefOf(d) == A.RefOf(x)
  {
    TextsParse(c, x.evidenceIds);
    TextListInverts(x.evidenceIds);
    assert c.flag(Bool(x.verificationNeeded)) == Some(x.verificationNeeded);
    QualitiesDiffer();
  }

  lemma EvidenceRefsKept(c: Coercions, m: Models, items: seq<Json>, evidence: seq<A.Evidence>)
    requires Good(m) && ParseAll(c, Record(m.evidence), items).Some? && |items| == |evidence|
    requires forall i :: 0 <= i < |items| ==> CarriesEvidence(items[i], evidence[i])
    ensures EvidenceRefs(ParseAll(c, Record(m.evidence), items).value) == A.EvidenceRefsOf(evidence)
  {
    var out := ParseAll(c, Record(m.evidence), items).value;
    forall i | 0 <= i < |items| ensures EvidenceRefOf(out[i]) == EvidenceRef(evidence[i].id, evidence[i].verified) {
      ParseEach(c, Record(m.evidence), items, i);
      EvidenceKept(c, m, items[i], evidence[i], out[i]);
    }
  }

  lemma ConclusionRefsKept(c: Coercions, m: Models, items: seq<Json>, conclusions: seq<A.Conclusion>)
    requires Lawful(c) && Good(m) && ParseAll(c, Record(m.conclusion), items).Some? && |items| == |conclusions|
    requires forall i :: 0 <= i < |items| ==> CarriesConclusion(items[i], conclusions[i])
    ensures ConclusionRefs(ParseAll(c, Record(m.conclusion), items).value) == A.ConclusionRefsOf(conclusions)
  {
    var out := ParseAll(c, Record(m.conclusion), items).value;
    forall i | 0 <= i < |items| ensures ConclusionRefOf(out[i]) == A.RefOf(conclusions[i]) {
      ParseEach(c, Record(m.conclusion), items, i);
      ConclusionKept(c, m, items[i], conclusions[i], out[i]);
    }
  }

  lemma ListFieldParses(c: Coercions, f: Field, item: Shape, atLeast: nat, obj: map<Key, Json>)
    requires f.shape == Many(item, atLeast) && f.name in obj && obj[f.name].Arr? && FieldValue(c, f, obj).Some?
    ensures ParseAll(c, item, obj[f.name].items).Some?
    ensures FieldValue(c, f, obj) == Some(Arr(ParseAll(c, item, obj[f.name].items).value))
  {
  }

  /** The parsed items of a list field. */
  function ParsedItems(c: Coercions, fields: seq<Field>, values: Json): seq<Json>
    requires values.Arr? && ParseAll(c, Record(fields), values.items).Some?
  {
    ParseAll(c, Record(fields), values.items).value
  }

  lemma ListsParse(c: Coercions, m: Models, payload: Json)
    requires payload.Obj? && ListsOk(c, m, payload.fields)
    requires At(payload, EvidenceList).Arr? && At(payload, AttributionConclusions).Arr?
    ensures ParseAll(c, Record(m.evidence), At(payload, EvidenceList).items).Some?
    ensures ParseAll(c, Record(m.conclusion), At(payload, AttributionConclusions).items).Some?
    ensures FieldValue(c, ListField(m, EvidenceList), payload.fields)
         == Some(Arr(ParsedItems(c, m.evidence, At(payload, EvidenceList))))
    ensures FieldValue(c, ListField(m, AttributionConclusions), payload.fields)
         == Some(Arr(ParsedItems(c, m.conclusion, At(payload, AttributionConclusions))))
  {
    assert IsList(EvidenceList) && IsList(AttributionConclusions);
    ListFieldParses(c, ListField(m, EvidenceList), Record(m.evidence), 1, payload.fields);
    ListFieldParses(c, ListField(m, AttributionConclusions), Record(m.conclusion), 1, payload.fields);
  }

  lemma ParsedReferencesOk(c: Coercions, m: Models, evs: Json, cs: Json,
                           results: A.Results, reports: seq<A.QualityReport>)
    requires Lawful(c) && Good(m) && evs.Arr? && cs.Arr?
    requires ParseAll(c, Record(m.evidence), evs.items).Some? && ParseAll(c, Record(m.conclusion), cs.items).Some?
    requires var evidence := A.EvidenceOf(results, reports);
               CarryAll(evs.items, cs.items, evidence, A.Attributed(evidence))
    ensures ReferencesOk(EvidenceRefs(ParsedItems(c, m.evidence, evs)),
                           ConclusionRefs(ParsedItems(c, m.conclusion, cs)))
  {
    var evidence := A.EvidenceOf(results, reports);
    EvidenceRefsKept(c, m, evs.items, evidence);
    ConclusionRefsKept(c, m, cs.items, A.Attributed(evidence));
    A.FirstReportReferencesOk(results, reports);
  }

  /** The first draft, whatever the results, the quality reports and the texts in it: it
      validates exactly when its header and its lists parse, so never fails by its ids, its
      citations or a confirmed conclusion. */
  lemma FirstDraftIff(c: Coercions, m: Models, payload: Json, results: A.Results, reports: seq<A.QualityReport>)
    requires Lawful(c) && Good(m) && payload.Obj?
    requires At(payload, EvidenceList).Arr? && At(payload, AttributionConclusions).Arr?
    requires var evidence := A.EvidenceOf(results, reports);
      CarryAll(At(payload, EvidenceList).items, At(payload, AttributionConclusions).items,
               evidence, A.Attributed(evidence))
    ensures Validate(c, m, payload).Some? <==> HeaderOk(c, m, payload) && ListsOk(c, m, payload.fields)
  {
    if ListsOk(c, m, payload.fields) {
      var evs, cs := At(payload, EvidenceList), At(payload, AttributionConclusions);
      ListsParse(c, m, payload);
      ParsedReferencesOk(c, m, evs, cs, results, reports);
      ValidateIff(c, m, payload, Arr(ParsedItems(c, m.evidence, evs)), Arr(ParsedItems(c, m.conclusion, cs)));
    }
  }
}

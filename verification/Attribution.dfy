/** From metric results to evidence and conclusions: build_evidence and
    determine_attribution, and why a first report passes the cross-reference rules. */
module Attribution {
  import opened Basics
  import opened Decimal
  import opened References
  import opened Ranking

  // ---- ids: f"{prefix}{n:03d}" ----

  function Padded(n: nat): string {
    var s := Digits(n);
    if |s| == 1 then "00" + s else if |s| == 2 then "0" + s else s
  }

  lemma {:induction false} LeadingZero(s: string)
    ensures Value("0" + s) == Value(s)
  {
    if s == "" {
      assert ("0" + s)[..0] == "";
    } else {
      LeadingZero(s[..|s| - 1]);
      assert ("0" + s)[..|s|] == "0" + s[..|s| - 1];
    }
  }

  /** Padded ids name their number, beyond 999 too. */
  lemma PaddedInjective(prefix: string, n: nat, m: nat)
    ensures prefix + Padded(n) == prefix + Padded(m) ==> n == m
  {
    ValueOfPadded(n);
    ValueOfPadded(m);
    assert (prefix + Padded(n))[|prefix|..] == Padded(n) && (prefix + Padded(m))[|prefix|..] == Padded(m);
  }

  lemma ValueOfPadded(n: nat)
    ensures Value(Padded(n)) == n
  {
    var s := Digits(n);
    ValueOfDigits(n);
    LeadingZero(s);
    LeadingZero("0" + s);
    assert "0" + ("0" + s) == "00" + s;
  }

  // ---- data ----

  datatype QualityReport = QualityReport(
    fileId: string, usable: bool, metricField: Option<string>, missing: map<string, int>,
    duplicates: int, sampleWarning: bool, hasTimeField: bool, hasTimeMin: bool, hasTimeMax: bool)

  datatype Comparison = Comparison(fileId: string, change: Option<real>, rate: Option<real>)
  datatype DimensionItem = DimensionItem(change: Option<real>, rate: Option<real>)
  datatype ChangeGroup = ChangeGroup(fileId: string, items: seq<DimensionItem>)
  datatype Risk = Risk(fileId: string, severity: string)
  datatype Metric = Metric(fileId: string, scopeStatus: string)

  datatype Results = Results(
    comparisons: seq<Comparison>, changes: seq<ChangeGroup>, risks: seq<Risk>, metrics: seq<Metric>)

  datatype Kind = ComparisonKind | DimensionChange | InventoryRisk | MetricKind

  datatype Evidence = Evidence(id: string, kind: Kind, fileId: string, verified: bool, change: Option<real>,
                               rate: Option<real>, severity: string)

  datatype Level = Confirmed | Probable | ToVerify
  datatype Impact = High | Medium | Low

  datatype Conclusion = Conclusion(id: string, level: Level, confidence: real, impact: Impact,
                                   evidenceIds: seq<string>, verificationNeeded: bool)

  // ---- build_evidence ----

  function FindReport(reports: seq<QualityReport>, fileId: string): Option<QualityReport> {
    if reports == [] then None
    else if reports[0].fileId == fileId then Some(reports[0])
    else FindReport(reports[1..], fileId)
  }

  /** evidence_quality gives "verified". */
  predicate Verified(reports: seq<QualityReport>, fileId: string, scopeStatus: Option<string>) {
    && (scopeStatus.Some? ==> scopeStatus.value == "verified")
    && match FindReport(reports, fileId)
       case None => false
       case Some(r) =>
         var metricMissing :=
           if r.metricField.Some? && r.metricField.value != "" && r.metricField.value in r.missing then
             r.missing[r.metricField.value]
           else 0;
         r.usable && metricMissing <= 0 && r.duplicates <= 0 && !r.sampleWarning
         && r.hasTimeField && r.hasTimeMin && r.hasTimeMax
  }

  function EvidenceId(n: nat): string { "ev_" + Padded(n) }

  function ConclusionId(n: nat): string { "c_" + Padded(n) }

  /** Evidence is numbered by position. */
  function Numbered(items: seq<Evidence>): (r: seq<Evidence>)
    ensures |r| == |items| && forall i :: 0 <= i < |r| ==> r[i] == items[i].(id := EvidenceId(i + 1))
  {
    seq(|items|, i requires 0 <= i < |items| => items[i].(id := EvidenceId(i + 1)))
  }

  function OfComparison(reports: seq<QualityReport>, x: Comparison): Evidence {
    Evidence("", ComparisonKind, x.fileId, Verified(reports, x.fileId, None), x.change, x.rate, "")
  }

  function OfItem(reports: seq<QualityReport>, fileId: string, x: DimensionItem): Evidence {
    Evidence("", DimensionChange, fileId, Verified(reports, fileId, None), x.change, x.rate, "")
  }

  function OfRisk(reports: seq<QualityReport>, x: Risk): Evidence {
    Evidence("", InventoryRisk, x.fileId, Verified(reports, x.fileId, None), None, None, x.severity)
  }

  function OfMetric(reports: seq<QualityReport>, x: Metric): Evidence {
    Evidence("", MetricKind, x.fileId, Verified(reports, x.fileId, Some(x.scopeStatus)), None, None, "")
  }

  function ItemDraft(reports: seq<QualityReport>, fileId: string): DimensionItem -> Evidence {
    (x: DimensionItem) => OfItem(reports, fileId, x)
  }

  function ComparisonDraft(reports: seq<QualityReport>): Comparison -> Evidence {
    (x: Comparison) => OfComparison(reports, x)
  }

  function RiskDraft(reports: seq<QualityReport>): Risk -> Evidence { (x: Risk) => OfRisk(reports, x) }

  function MetricDraft(reports: seq<QualityReport>): Metric -> Evidence { (x: Metric) => OfMetric(reports, x) }

  /** At most five items of each group. */
  function OfChanges(reports: seq<QualityReport>, groups: seq<ChangeGroup>): seq<Evidence> {
    if groups == [] then []
    else
      var last := groups[|groups| - 1];
      OfChanges(reports, groups[..|groups| - 1]) + Map(First(last.items, 5), ItemDraft(reports, last.fileId))
  }

  function EvidenceOf(results: Results, reports: seq<QualityReport>): seq<Evidence> {
    var found := Map(results.comparisons, ComparisonDraft(reports))
               + OfChanges(reports, results.changes)
               + Map(First(results.risks, 20), RiskDraft(reports));
    Numbered(if found == [] then Map(First(results.metrics, 5), MetricDraft(reports)) else found)
  }

  /** The loop shared by the sections: each item is numbered as it is appended. */
  method AppendEach<T>(evidence: seq<Evidence>, ghost before: seq<Evidence>, xs: seq<T>, draft: T -> Evidence)
    returns (out: seq<Evidence>)
    requires evidence == Numbered(before)
    ensures out == Numbered(before + Map(xs, draft))
  {
    out := evidence;
    for i := 0 to |xs|
      invariant out == Numbered(before + Map(xs[..i], draft))
    {
      var item := draft(xs[i]);
      assert before + Map(xs[..i + 1], draft) == before + Map(xs[..i], draft) + [item];
      out := out + [item.(id := EvidenceId(|out| + 1))];
    }
    assert xs[..|xs|] == xs;
  }

  method AppendChanges(evidence: seq<Evidence>, ghost before: seq<Evidence>,
                       groups: seq<ChangeGroup>, reports: seq<QualityReport>)
    returns (out: seq<Evidence>)
    requires evidence == Numbered(before)
    ensures out == Numbered(before + OfChanges(reports, groups))
  {
    out := evidence;
    for i := 0 to |groups|
      invariant out == Numbered(before + OfChanges(reports, groups[..i]))
    {
      out := AppendEach(out, before + OfChanges(reports, groups[..i]),
                        First(groups[i].items, 5), ItemDraft(reports, groups[i].fileId));
      OneMoreGroup(before, reports, groups, i);
    }
    assert groups[..|groups|] == groups;
  }

  lemma OneMoreGroup(before: seq<Evidence>, reports: seq<QualityReport>, groups: seq<ChangeGroup>, i: nat)
    requires i < |groups|
    ensures before + OfChanges(reports, groups[..i + 1]) ==
            before + OfChanges(reports, groups[..i])
             + Map(First(groups[i].items, 5), ItemDraft(reports, groups[i].fileId))
  {
    assert groups[..i + 1][..i] == groups[..i];
  }

  method BuildEvidence(results: Results, reports: seq<QualityReport>) returns (evidence: seq<Evidence>)
    ensures evidence == EvidenceOf(results, reports) && EvidenceRight(results, reports, evidence)
  {
    EvidenceIsRight(results, reports);
    var ofComparison := ComparisonDraft(reports);
    var ofRisk := RiskDraft(reports);
    evidence := AppendEach([], [], results.comparisons, ofComparison);
    ghost var first := Map(results.comparisons, ofComparison);
    assert [] + first == first;
    evidence := AppendChanges(evidence, first, results.changes, reports);
    evidence := AppendEach(evidence, first + OfChanges(reports, results.changes), First(results.risks, 20), ofRisk);
    if evidence == [] {
      var ofMetric := MetricDraft(reports);
      evidence := AppendEach([], [], First(results.metrics, 5), ofMetric);
      assert [] + Map(First(results.metrics, 5), ofMetric) == Map(First(results.metrics, 5), ofMetric);
    }
  }

  // ---- determine_attribution ----

  function ImpactOf(rate: Option<real>): Impact {
    var size := Abs(rate.GetOr(0.0));
    if size >= 0.2 then High else if size >= 0.05 then Medium else Low
  }

  /** A conclusion on one piece of evidence; attribution_level sets its first three fields. */
  function Draft(e: Evidence, confidence: real, impact: Impact): Conclusion {
    if e.verified then Conclusion("", Confirmed, confidence, impact, [e.id], false)
    else Conclusion("", Probable, if confidence <= 0.7 then confidence else 0.7, impact, [e.id], true)
  }

  function OnComparison(e: Evidence): Conclusion { Draft(e, 0.98, ImpactOf(e.rate)) }

  function OnDecline(e: Evidence): Conclusion { Draft(e, 0.95, ImpactOf(e.rate)) }

  function OnRisk(e: Evidence): Conclusion { Draft(e, 0.9, if e.severity == "high" then High else Medium) }

  function Fallback(evidence: seq<Evidence>): Conclusion {
    Conclusion("", ToVerify, 0.45, Medium, Map(First(evidence, 3), (e: Evidence) => e.id), true)
  }

  predicate Declining(e: Evidence) { e.kind == DimensionChange && e.change.GetOr(0.0) < 0.0 }

  function Size(e: Evidence): real { Abs(e.change.GetOr(0.0)) }

  function Comparisons(evidence: seq<Evidence>): seq<Evidence> {
    First(Where(evidence, (e: Evidence) => e.kind == ComparisonKind), 1)
  }

  /** The three largest declines. */
  function Declines(evidence: seq<Evidence>): seq<Evidence> { First(SortDesc(Where(evidence, Declining), Size), 3) }

  function Risks(evidence: seq<Evidence>): seq<Evidence> {
    First(Where(evidence, (e: Evidence) => e.kind == InventoryRisk), 5)
  }

  function Drafts(evidence: seq<Evidence>): seq<Conclusion> {
    var found := Map(Comparisons(evidence), OnComparison) + Map(Declines(evidence), OnDecline)
                + Map(Risks(evidence), OnRisk);
    if found == [] then [Fallback(evidence)] else found
  }

  function NumberedConclusions(items: seq<Conclusion>): (r: seq<Conclusion>)
    ensures |r| == |items| && forall i :: 0 <= i < |r| ==> r[i] == items[i].(id := ConclusionId(i + 1))
  {
    seq(|items|, i requires 0 <= i < |items| => items[i].(id := ConclusionId(i + 1)))
  }

  function Attributed(evidence: seq<Evidence>): seq<Conclusion> { NumberedConclusions(Drafts(evidence)) }

  method Conclude(conclusions: seq<Conclusion>, ghost before: seq<Conclusion>, items: seq<Evidence>,
                  draft: Evidence -> Conclusion)
    returns (out: seq<Conclusion>)
    requires conclusions == NumberedConclusions(before)
    ensures out == NumberedConclusions(before + Map(items, draft))
  {
    out := conclusions;
    for i := 0 to |items|
      invariant out == NumberedConclusions(before + Map(items[..i], draft))
    {
      var item := draft(items[i]);
      assert before + Map(items[..i + 1], draft) == before + Map(items[..i], draft) + [item];
      out := out + [item.(id := ConclusionId(|out| + 1))];
    }
    assert items[..|items|] == items;
  }

  method DetermineAttribution(evidence: seq<Evidence>) returns (conclusions: seq<Conclusion>)
    ensures conclusions == Attributed(evidence) && ConclusionsRight(evidence, conclusions)
  {
    conclusions := ConcludeOnEach(evidence);
    ConclusionsAreRight(evidence);
  }

  method ConcludeOnEach(evidence: seq<Evidence>) returns (conclusions: seq<Conclusion>)
    ensures conclusions == Attributed(evidence)
  {
    ghost var first := Map(Comparisons(evidence), OnComparison);
    ghost var second := first + Map(Declines(evidence), OnDecline);
    conclusions := Conclude([], [], Comparisons(evidence), OnComparison);
    assert [] + first == first;
    conclusions := Conclude(conclusions, first, Declines(evidence), OnDecline);
    conclusions := Conclude(conclusions, second, Risks(evidence), OnRisk);
    if conclusions == [] {
      conclusions := [Fallback(evidence).(id := ConclusionId(1))];
    }
  }

  // ---- a first report passes the cross-reference rules ----

  function EvidenceRefsOf(evidence: seq<Evidence>): (r: seq<EvidenceRef>)
    ensures |r| == |evidence| && forall i :: 0 <= i < |r| ==> r[i] == EvidenceRef(evidence[i].id, evidence[i].verified)
  {
    seq(|evidence|, i requires 0 <= i < |evidence| => EvidenceRef(evidence[i].id, evidence[i].verified))
  }

  function RefOf(c: Conclusion): ConclusionRef {
    ConclusionRef(c.id, c.level == Confirmed, c.evidenceIds, c.verificationNeeded)
  }

  function ConclusionRefsOf(conclusions: seq<Conclusion>): (r: seq<ConclusionRef>)
    ensures |r| == |conclusions| && forall i :: 0 <= i < |r| ==> r[i] == RefOf(conclusions[i])
  {
    seq(|conclusions|, i requires 0 <= i < |conclusions| => RefOf(conclusions[i]))
  }

  lemma SelectIn(evidence: seq<Evidence>, p: Evidence -> bool)
    ensures forall e :: e in Where(evidence, p) <==> e in evidence && p(e)
  {
    forall e ensures e in Where(evidence, p) <==> e in evidence && p(e) { WhereIn(evidence, p, e); }
  }

  lemma DeclinesIn(evidence: seq<Evidence>)
    ensures forall e :: e in Declines(evidence) ==> e in evidence && Declining(e)
    ensures forall d, e :: d in Declines(evidence) && e in evidence && Declining(e) && e !in Declines(evidence)
              ==> Size(d) >= Size(e)
    ensures |Declines(evidence)| == Min(3, |Where(evidence, Declining)|)
  {
    SelectIn(evidence, Declining);
    TopDominates(Where(evidence, Declining), Size, 3);
  }

  /** A draft stands on one piece of the evidence, or is the fallback. */
  predicate Grounded(evidence: seq<Evidence>, c: Conclusion) {
    || (exists e :: e in evidence && c.evidenceIds == [e.id]
          && (c.level == Confirmed ==> e.verified && !c.verificationNeeded))
    || (c.level == ToVerify && forall id :: id in c.evidenceIds ==> exists e :: e in evidence && e.id == id)
  }

  lemma DraftGrounded(evidence: seq<Evidence>, e: Evidence, confidence: real, impact: Impact)
    requires e in evidence
    ensures Grounded(evidence, Draft(e, confidence, impact))
  {
  }

  lemma DraftsGrounded(evidence: seq<Evidence>)
    ensures forall c :: c in Drafts(evidence) ==> Grounded(evidence, c)
  {
    SelectIn(evidence, (e: Evidence) => e.kind == ComparisonKind);
    SelectIn(evidence, (e: Evidence) => e.kind == InventoryRisk);
    DeclinesIn(evidence);
    var cs, ds, rs := Comparisons(evidence), Declines(evidence), Risks(evidence);
    forall c | c in Drafts(evidence) ensures Grounded(evidence, c) {
      if c in Map(cs, OnComparison) {
        var i :| 0 <= i < |cs| && c == OnComparison(cs[i]);
        DraftGrounded(evidence, cs[i], 0.98, ImpactOf(cs[i].rate));
      } else if c in Map(ds, OnDecline) {
        var i :| 0 <= i < |ds| && c == OnDecline(ds[i]);
        assert ds[i] in ds;
        DraftGrounded(evidence, ds[i], 0.95, ImpactOf(ds[i].rate));
      } else if c in Map(rs, OnRisk) {
        var i :| 0 <= i < |rs| && c == OnRisk(rs[i]);
        DraftGrounded(evidence, rs[i], 0.9, if rs[i].severity == "high" then High else Medium);
      } else {
        FallbackGrounded(evidence);
      }
    }
  }

  lemma FallbackGrounded(evidence: seq<Evidence>)
    ensures Grounded(evidence, Fallback(evidence))
  {
  }

  predicate NumberedIds(evidence: seq<Evidence>) {
    forall i :: 0 <= i < |evidence| ==> evidence[i].id == EvidenceId(i + 1)
  }

  lemma KnownId(evidence: seq<Evidence>, e: Evidence)
    requires e in evidence
    ensures e.id in EvidenceIds(EvidenceRefsOf(evidence))
  {
  }

  lemma SameEvidence(evidence: seq<Evidence>, e: Evidence, ref: EvidenceRef)
    requires NumberedIds(evidence) && e in evidence && ref in EvidenceRefsOf(evidence) && ref.id == e.id
    ensures ref.verified == e.verified
  {
    var i :| 0 <= i < |evidence| && evidence[i] == e;
    var j :| 0 <= j < |evidence| && EvidenceRefsOf(evidence)[j] == ref;
    SameNumber(evidence, i, j);
  }

  lemma SameNumber(evidence: seq<Evidence>, i: nat, j: nat)
    requires NumberedIds(evidence) && i < |evidence| && j < |evidence| && evidence[i].id == evidence[j].id
    ensures i == j
  {
    PaddedInjective("ev_", i + 1, j + 1);
  }

  lemma GroundedCitesWell(evidence: seq<Evidence>, c: Conclusion)
    requires NumberedIds(evidence) && Grounded(evidence, c)
    ensures CitesWell(EvidenceRefsOf(evidence), RefOf(c))
  {
    var refs := EvidenceRefsOf(evidence);
    forall id | id in c.evidenceIds ensures id in EvidenceIds(refs) {
      var e :| e in evidence && e.id == id;
      KnownId(evidence, e);
    }
    if c.level == Confirmed {
      var e :| e in evidence && c.evidenceIds == [e.id] && e.verified;
      forall ref | ref in refs && ref.id in c.evidenceIds ensures ref.verified { SameEvidence(evidence, e, ref); }
    }
  }

  lemma PaddedDistinct(ids: seq<string>, prefix: string)
    requires forall i :: 0 <= i < |ids| ==> ids[i] == prefix + Padded(i + 1)
    ensures Distinct(ids)
  {
    forall i, j | 0 <= i < j < |ids| ensures ids[i] != ids[j] { PaddedInjective(prefix, i + 1, j + 1); }
  }

  /** For any results and quality reports, and any number of items, the evidence and the
      attribution satisfy validate_references at the first attempt; there is a conclusion. */
  lemma FirstReportReferencesOk(results: Results, reports: seq<QualityReport>)
    ensures var evidence := EvidenceOf(results, reports);
      ReferencesOk(EvidenceRefsOf(evidence), ConclusionRefsOf(Attributed(evidence))) && Attributed(evidence) != []
  {
    var evidence := EvidenceOf(results, reports);
    assert NumberedIds(evidence);
    NumberedReferencesOk(evidence);
  }

  lemma NumberedReferencesOk(evidence: seq<Evidence>)
    requires NumberedIds(evidence)
    ensures ReferencesOk(EvidenceRefsOf(evidence), ConclusionRefsOf(Attributed(evidence)))
  {
    var conclusions := Attributed(evidence);
    var refs, crefs := EvidenceRefsOf(evidence), ConclusionRefsOf(conclusions);
    PaddedDistinct(EvidenceIds(refs), "ev_");
    PaddedDistinct(ConclusionIds(crefs), "c_");
    DraftsGrounded(evidence);
    forall ref | ref in crefs ensures CitesWell(refs, ref) {
      var i :| 0 <= i < |conclusions| && ref == RefOf(conclusions[i]);
      assert Drafts(evidence)[i] in Drafts(evidence);
      GroundedCitesWell(evidence, conclusions[i]);
    }
  }

  predicate Cites(conclusions: seq<Conclusion>, e: Evidence) {
    exists i :: 0 <= i < |conclusions| && conclusions[i].evidenceIds == [e.id]
  }

  lemma DeclineCited(evidence: seq<Evidence>, d: Evidence)
    requires d in Declines(evidence)
    ensures Cites(Attributed(evidence), d)
  {
    var ds := Declines(evidence);
    var k :| 0 <= k < |ds| && ds[k] == d;
    var at := |Comparisons(evidence)| + k;
    assert Drafts(evidence)[at] == OnDecline(d);
    assert Attributed(evidence)[at].evidenceIds == [d.id];
  }

  /** A declining dimension value goes without a conclusion only when three that fell at
      least as far have one. */
  lemma LargestDeclinesCited(evidence: seq<Evidence>, e: Evidence)
    requires e in evidence && Declining(e)
    ensures Cites(Attributed(evidence), e)
         || (|Declines(evidence)| == 3
              && forall d :: d in Declines(evidence) ==> Cites(Attributed(evidence), d) && Size(d) >= Size(e))
  {
    forall d | d in Declines(evidence) ensures Cites(Attributed(evidence), d) { DeclineCited(evidence, d); }
    LeftOutIsSmaller(evidence, e);
  }

  lemma LeftOutIsSmaller(evidence: seq<Evidence>, e: Evidence)
    requires e in evidence && Declining(e)
    ensures e in Declines(evidence)
         || (|Declines(evidence)| == 3 && forall d :: d in Declines(evidence) ==> Size(d) >= Size(e))
  {
    DeclinesIn(evidence);
    SelectIn(evidence, Declining);
    if |Where(evidence, Declining)| < 3 { AllTaken(Where(evidence, Declining), e); }
  }

  lemma AllTaken(xs: seq<Evidence>, e: Evidence)
    requires e in xs && |xs| < 3
    ensures e in First(SortDesc(xs, Size), 3)
  {
    SortDescending(xs, Size);
    SortMultiset(xs, Size);
    SameMultisetIn(SortDesc(xs, Size), xs, e);
  }

  // ---- what the evidence is about ----

  /** The report of a file, the first one that names it, raises no doubt about its numbers. */
  predicate Trusted(reports: seq<QualityReport>, fileId: string) {
    exists k :: 0 <= k < |reports| && reports[k].fileId == fileId && Clean(reports[k])
      && forall j :: 0 <= j < k ==> reports[j].fileId != fileId
  }

  predicate Clean(r: QualityReport) {
    && r.usable && !r.sampleWarning && r.duplicates <= 0 && r.hasTimeField && r.hasTimeMin && r.hasTimeMax
    && (r.metricField.Some? && r.metricField.value != "" && r.metricField.value in r.missing ==>
          r.missing[r.metricField.value] <= 0)
  }

  lemma {:induction false} VerifiedIff(reports: seq<QualityReport>, fileId: string, scopeStatus: Option<string>)
    ensures Verified(reports, fileId, scopeStatus) <==>
            Trusted(reports, fileId) && (scopeStatus == None || scopeStatus == Some("verified"))
  {
    if reports != [] && reports[0].fileId != fileId {
      VerifiedIff(reports[1..], fileId, scopeStatus);
      TrustedLater(reports, fileId);
    } else if reports != [] {
      assert Clean(reports[0]) ==> Trusted(reports, fileId);
    }
  }

  lemma TrustedLater(reports: seq<QualityReport>, fileId: string)
    requires reports != [] && reports[0].fileId != fileId
    ensures Trusted(reports, fileId) <==> Trusted(reports[1..], fileId)
  {
    var rest := reports[1..];
    if Trusted(rest, fileId) {
      var k :| 0 <= k < |rest| && rest[k].fileId == fileId && Clean(rest[k])
        && forall j :: 0 <= j < k ==> rest[j].fileId != fileId;
      assert reports[k + 1] == rest[k] && forall j :: 1 <= j < k + 1 ==> reports[j] == rest[j - 1];
    }
    if Trusted(reports, fileId) {
      var k :| 0 <= k < |reports| && reports[k].fileId == fileId && Clean(reports[k])
        && forall j :: 0 <= j < k ==> reports[j].fileId != fileId;
      assert rest[k - 1] == reports[k] && forall j :: 0 <= j < k - 1 ==> rest[j] == reports[j + 1];
    }
  }

  predicate OnComparisonOf(reports: seq<QualityReport>, x: Comparison, e: Evidence) {
    e.kind == ComparisonKind && e.fileId == x.fileId && e.change == x.change && e.rate == x.rate
    && (e.verified <==> Trusted(reports, x.fileId))
  }

  predicate OnItemOf(reports: seq<QualityReport>, fileId: string, x: DimensionItem, e: Evidence) {
    e.kind == DimensionChange && e.fileId == fileId && e.change == x.change && e.rate == x.rate
    && (e.verified <==> Trusted(reports, fileId))
  }

  predicate OnRiskOf(reports: seq<QualityReport>, x: Risk, e: Evidence) {
    e.kind == InventoryRisk && e.fileId == x.fileId && e.severity == x.severity
    && (e.verified <==> Trusted(reports, x.fileId))
  }

  predicate OnMetricOf(reports: seq<QualityReport>, x: Metric, e: Evidence) {
    e.kind == MetricKind && e.fileId == x.fileId
    && (e.verified <==> Trusted(reports, x.fileId) && x.scopeStatus == "verified")
  }

  /** How many items the first groups contribute: at most five each. */
  function ItemsBefore(groups: seq<ChangeGroup>, i: nat): nat
    requires i <= |groups|
  {
    if i == 0 then 0 else ItemsBefore(groups, i - 1) + Min(5, |groups[i - 1].items|)
  }

  predicate OnGroups(reports: seq<QualityReport>, groups: seq<ChangeGroup>, evidence: seq<Evidence>) {
    && |evidence| == ItemsBefore(groups, |groups|)
    && forall i, k :: 0 <= i < |groups| && 0 <= k < Min(5, |groups[i].items|) ==>
         OnGroupItem(reports, groups, evidence, i, k)
  }

  /** The k-th item of the i-th group has its evidence at its place. */
  predicate OnGroupItem(reports: seq<QualityReport>, groups: seq<ChangeGroup>, evidence: seq<Evidence>, i: nat, k: nat)
    requires i < |groups| && k < |groups[i].items|
  {
    var at := ItemsBefore(groups, i) + k;
    at < |evidence| && OnItemOf(reports, groups[i].fileId, groups[i].items[k], evidence[at])
  }

  predicate OnComparisons(reports: seq<QualityReport>, xs: seq<Comparison>, evidence: seq<Evidence>) {
    |evidence| == |xs| && forall i :: 0 <= i < |xs| ==> OnComparisonOf(reports, xs[i], evidence[i])
  }

  predicate OnRisks(reports: seq<QualityReport>, xs: seq<Risk>, evidence: seq<Evidence>) {
    |evidence| == Min(20, |xs|) && forall i :: 0 <= i < |evidence| ==> OnRiskOf(reports, xs[i], evidence[i])
  }

  /** The evidence in order: every comparison, up to five items of each group of changes, up
      to 20 risks; or else up to five metrics; numbered from ev_001. */
  ghost predicate EvidenceRight(results: Results, reports: seq<QualityReport>, evidence: seq<Evidence>) {
    && (forall i :: 0 <= i < |evidence| ==> evidence[i].id == "ev_" + Padded(i + 1))
    && SectionsRight(results, reports, evidence)
  }

  predicate SectionsRight(results: Results, reports: seq<QualityReport>, evidence: seq<Evidence>) {
    var n, g := |results.comparisons|, ItemsBefore(results.changes, |results.changes|);
    var m := Min(20, |results.risks|);
    if n + g + m > 0 then
      && |evidence| == n + g + m
      && OnComparisons(reports, results.comparisons, evidence[..n])
      && OnGroups(reports, results.changes, evidence[n..n + g])
      && OnRisks(reports, results.risks, evidence[n + g..])
    else
      && |evidence| == Min(5, |results.metrics|)
      && forall i :: 0 <= i < |evidence| ==> OnMetricOf(reports, results.metrics[i], evidence[i])
  }

  lemma {:induction false} ItemsBeforePrefix(groups: seq<ChangeGroup>, n: nat, i: nat)
    requires i <= n <= |groups|
    ensures ItemsBefore(groups[..n], i) == ItemsBefore(groups, i)
  {
    if i > 0 { ItemsBeforePrefix(groups, n, i - 1); }
  }

  lemma {:induction false} ItemsGrow(groups: seq<ChangeGroup>, i: nat, j: nat)
    requires i <= j <= |groups|
    ensures ItemsBefore(groups, i) <= ItemsBefore(groups, j)
  {
    if i < j { ItemsGrow(groups, i, j - 1); }
  }

  lemma {:induction false} GroupsRight(reports: seq<QualityReport>, groups: seq<ChangeGroup>)
    ensures OnGroups(reports, groups, OfChanges(reports, groups))
  {
    if groups != [] {
      var n := |groups| - 1;
      var init, last := groups[..n], groups[n];
      var was, added := OfChanges(reports, init), Map(First(last.items, 5), ItemDraft(reports, last.fileId));
      GroupsRight(reports, init);
      ItemsBeforePrefix(groups, n, n);
      assert OfChanges(reports, groups) == was + added;
      forall i, k | 0 <= i < |groups| && 0 <= k < Min(5, |groups[i].items|)
        ensures OnGroupItem(reports, groups, was + added, i, k)
      {
        ItemsBeforePrefix(groups, n, Min(i, n));
        if i < n {
          ItemsGrow(init, i + 1, n);
          assert init[i] == groups[i] && OnGroupItem(reports, init, was, i, k);
        } else {
          VerifiedIff(reports, last.fileId, None);
          assert added[k] == OfItem(reports, last.fileId, last.items[k]);
        }
      }
    }
  }

  lemma OneComparison(reports: seq<QualityReport>, x: Comparison, id: string)
    ensures OnComparisonOf(reports, x, OfComparison(reports, x).(id := id))
  {
    VerifiedIff(reports, x.fileId, None);
  }

  lemma OneRisk(reports: seq<QualityReport>, x: Risk, id: string)
    ensures OnRiskOf(reports, x, OfRisk(reports, x).(id := id))
  {
    VerifiedIff(reports, x.fileId, None);
  }

  lemma OneMetric(reports: seq<QualityReport>, x: Metric, id: string)
    ensures OnMetricOf(reports, x, OfMetric(reports, x).(id := id))
  {
    VerifiedIff(reports, x.fileId, Some(x.scopeStatus));
  }

  /** Numbering changes nothing but the ids. */
  lemma NumberedPart(found: seq<Evidence>, a: nat, part: seq<Evidence>)
    requires a + |part| <= |found| && found[a..a + |part|] == part
    ensures |Numbered(found)[a..a + |part|]| == |part|
    ensures forall i :: 0 <= i < |part| ==>
              Numbered(found)[a..a + |part|][i] == part[i].(id := EvidenceId(a + i + 1))
  {
    forall i | 0 <= i < |part|
      ensures Numbered(found)[a..a + |part|][i] == part[i].(id := EvidenceId(a + i + 1))
    {
      assert found[a..a + |part|][i] == found[a + i];
    }
  }

  lemma ComparisonsRight(reports: seq<QualityReport>, xs: seq<Comparison>, found: seq<Evidence>)
    requires |xs| <= |found| && found[..|xs|] == Map(xs, ComparisonDraft(reports))
    ensures OnComparisons(reports, xs, Numbered(found)[..|xs|])
  {
    var part := Map(xs, ComparisonDraft(reports));
    assert found[0..|xs|] == found[..|xs|];
    NumberedPart(found, 0, part);
    forall i | 0 <= i < |xs| ensures OnComparisonOf(reports, xs[i], Numbered(found)[..|xs|][i]) {
      assert Numbered(found)[0..|xs|][i] == part[i].(id := EvidenceId(0 + i + 1));
      OneComparison(reports, xs[i], EvidenceId(i + 1));
    }
  }

  lemma RisksRight(reports: seq<QualityReport>, xs: seq<Risk>, found: seq<Evidence>, a: nat)
    requires a <= |found| && found[a..] == Map(First(xs, 20), RiskDraft(reports))
    ensures OnRisks(reports, xs, Numbered(found)[a..])
  {
    var part := Map(First(xs, 20), RiskDraft(reports));
    assert found[a..a + |part|] == found[a..];
    NumberedPart(found, a, part);
    forall i | 0 <= i < |part| ensures OnRiskOf(reports, xs[i], Numbered(found)[a..][i]) {
      assert Numbered(found)[a..a + |part|][i] == part[i].(id := EvidenceId(a + i + 1));
      OneRisk(reports, xs[i], EvidenceId(a + i + 1));
    }
  }

  lemma FoundRight(results: Results, reports: seq<QualityReport>, cs: seq<Evidence>, gs: seq<Evidence>,
                   rs: seq<Evidence>)
    requires cs == Map(results.comparisons, ComparisonDraft(reports))
    requires gs == OfChanges(reports, results.changes)
    requires rs == Map(First(results.risks, 20), RiskDraft(reports))
    requires cs + gs + rs != []
    ensures SectionsRight(results, reports, Numbered(cs + gs + rs))
  {
    var found := cs + gs + rs;
    GroupsRight(reports, results.changes);
    NumberedGroups(reports, results.changes, cs, gs, rs);
    ThreeParts(cs, gs, rs);
    ComparisonsRight(reports, results.comparisons, found);
    RisksRight(reports, results.risks, found, |cs| + |gs|);
    SectionsJoin(results, reports, Numbered(found));
  }

  lemma ThreeParts<T>(a: seq<T>, b: seq<T>, c: seq<T>)
    ensures (a + b + c)[..|a|] == a && (a + b + c)[|a| + |b|..] == c && |a + b + c| == |a| + |b| + |c|
  {
  }

  lemma SectionsJoin(results: Results, reports: seq<QualityReport>, evidence: seq<Evidence>)
    requires var n, g := |results.comparisons|, ItemsBefore(results.changes, |results.changes|);
      && |evidence| == n + g + Min(20, |results.risks|) && evidence != []
      && OnComparisons(reports, results.comparisons, evidence[..n])
      && OnGroups(reports, results.changes, evidence[n..n + g])
      && OnRisks(reports, results.risks, evidence[n + g..])
    ensures SectionsRight(results, reports, evidence)
  {
  }

  lemma EvidenceIsRight(results: Results, reports: seq<QualityReport>)
    ensures EvidenceRight(results, reports, EvidenceOf(results, reports))
  {
    var cs := Map(results.comparisons, ComparisonDraft(reports));
    var gs := OfChanges(reports, results.changes);
    var rs := Map(First(results.risks, 20), RiskDraft(reports));
    if cs + gs + rs != [] {
      FoundRight(results, reports, cs, gs, rs);
    } else {
      GroupsRight(reports, results.changes);
      MetricsRight(reports, results.metrics);
    }
  }

  lemma MetricsRight(reports: seq<QualityReport>, metrics: seq<Metric>)
    ensures var evidence := Numbered(Map(First(metrics, 5), MetricDraft(reports)));
      |evidence| == Min(5, |metrics|)
      && forall i :: 0 <= i < |evidence| ==> OnMetricOf(reports, metrics[i], evidence[i])
  {
    var evidence := Numbered(Map(First(metrics, 5), MetricDraft(reports)));
    forall i | 0 <= i < |evidence| ensures OnMetricOf(reports, metrics[i], evidence[i]) {
      OneMetric(reports, metrics[i], EvidenceId(i + 1));
    }
  }

  lemma NumberedGroups(reports: seq<QualityReport>, groups: seq<ChangeGroup>, cs: seq<Evidence>, gs: seq<Evidence>,
                       rs: seq<Evidence>)
    requires OnGroups(reports, groups, gs)
    ensures OnGroups(reports, groups, Numbered(cs + gs + rs)[|cs|..|cs| + |gs|])
  {
    var part := Numbered(cs + gs + rs)[|cs|..|cs| + |gs|];
    forall i, k | 0 <= i < |groups| && 0 <= k < Min(5, |groups[i].items|)
      ensures OnGroupItem(reports, groups, part, i, k)
    {
      var at := ItemsBefore(groups, i) + k;
      assert OnGroupItem(reports, groups, gs, i, k);
      assert (cs + gs + rs)[|cs| + at] == gs[at];
      assert part[at] == gs[at].(id := EvidenceId(|cs| + at + 1));
    }
  }

  // ---- what is concluded ----

  function KindAt(evidence: seq<Evidence>, kind: Kind): nat -> Option<Evidence> {
    (k: nat) => if k < |evidence| && evidence[k].kind == kind then Some(evidence[k]) else None
  }

  /** The first n pieces of evidence of a kind, in order. */
  ghost predicate FirstOnes(evidence: seq<Evidence>, kind: Kind, n: nat, xs: seq<Evidence>) {
    exists from, all :: Picks(|evidence|, KindAt(evidence, kind), from, all) && xs == First(all, n)
  }

  /** A change for the worse. */
  predicate Fell(e: Evidence) { e.kind == DimensionChange && e.change.Some? && e.change.value < 0.0 }

  /** The changes for the worse, largest first, at most three, and none left out is larger. */
  predicate LargestFalls(evidence: seq<Evidence>, ds: seq<Evidence>) {
    && |ds| <= 3 && multiset(ds) <= multiset(evidence)
    && (forall i :: 0 <= i < |ds| ==> Fell(ds[i]))
    && (forall i, j :: 0 <= i < j < |ds| ==> ds[i].change.value <= ds[j].change.value)
    && (forall e :: e in evidence && Fell(e) ==>
          e in ds || (|ds| == 3 && forall i :: 0 <= i < |ds| ==> ds[i].change.value <= e.change.value))
  }

  /** A conclusion on one piece of evidence: confirmed when that is verified, else probable
      with at most 0.7 and to be verified. */
  predicate ConcludesOn(c: Conclusion, e: Evidence, confidence: real) {
    && c.evidenceIds == [e.id]
    && (e.verified ==> c.level == Confirmed && c.confidence == confidence && !c.verificationNeeded)
    && (!e.verified ==>
          c.level == Probable && c.verificationNeeded
          && c.confidence == if confidence > 0.7 then 0.7 else confidence)
  }

  /** High from a rate of 20 percent up or down, medium from 5. */
  predicate RateImpact(rate: Option<real>, impact: Impact) {
    var r := rate.GetOr(0.0);
    && (impact == High <==> r >= 0.2 || r <= -0.2)
    && (impact == Low <==> -0.05 < r < 0.05)
  }

  predicate Concluded(cs: seq<Evidence>, ds: seq<Evidence>, rs: seq<Evidence>, conclusions: seq<Conclusion>) {
    && |conclusions| == |cs| + |ds| + |rs|
    && (forall i :: 0 <= i < |cs| ==>
          ConcludesOn(conclusions[i], cs[i], 0.98) && RateImpact(cs[i].rate, conclusions[i].impact))
    && (forall i :: 0 <= i < |ds| ==>
          ConcludesOn(conclusions[|cs| + i], ds[i], 0.95) && RateImpact(ds[i].rate, conclusions[|cs| + i].impact))
    && (forall i :: 0 <= i < |rs| ==>
          ConcludesOn(conclusions[|cs| + |ds| + i], rs[i], 0.9)
          && conclusions[|cs| + |ds| + i].impact == if rs[i].severity == "high" then High else Medium)
  }

  /** Nothing to conclude on: one statement that cites the first three pieces of evidence. */
  predicate OnlyDescribes(evidence: seq<Evidence>, conclusions: seq<Conclusion>) {
    && |conclusions| == 1 && conclusions[0].level == ToVerify && conclusions[0].confidence == 0.45
    && conclusions[0].impact == Medium && conclusions[0].verificationNeeded
    && |conclusions[0].evidenceIds| == Min(3, |evidence|)
    && forall i :: 0 <= i < |conclusions[0].evidenceIds| ==> conclusions[0].evidenceIds[i] == evidence[i].id
  }

  /** The conclusions in order: on the first comparison, on the three largest falls, on the
      first five risks; numbered from c_001. */
  ghost predicate ConclusionsRight(evidence: seq<Evidence>, conclusions: seq<Conclusion>) {
    && (forall i :: 0 <= i < |conclusions| ==> conclusions[i].id == "c_" + Padded(i + 1))
    && exists cs, ds, rs ::
         && FirstOnes(evidence, ComparisonKind, 1, cs) && LargestFalls(evidence, ds)
         && FirstOnes(evidence, InventoryRisk, 5, rs) && ConcludedOr(evidence, cs, ds, rs, conclusions)
  }

  predicate ConcludedOr(evidence: seq<Evidence>, cs: seq<Evidence>, ds: seq<Evidence>, rs: seq<Evidence>,
                        conclusions: seq<Conclusion>) {
    if cs == [] && ds == [] && rs == [] then OnlyDescribes(evidence, conclusions)
    else Concluded(cs, ds, rs, conclusions)
  }

  lemma {:induction false} SelectPicks(evidence: seq<Evidence>, kind: Kind) returns (from: seq<nat>)
    ensures Picks(|evidence|, KindAt(evidence, kind), from, Where(evidence, (e: Evidence) => e.kind == kind))
  {
    from := [];
    if evidence != [] {
      var init, n := evidence[..|evidence| - 1], |evidence| - 1;
      var was := Where(init, (e: Evidence) => e.kind == kind);
      from := SelectPicks(init, kind);
      assert forall k: nat :: k < n ==> evidence[k] == init[k];
      PicksSame(n, KindAt(init, kind), KindAt(evidence, kind), from, was);
      PicksMore(n, KindAt(evidence, kind), from, was);
      if evidence[n].kind == kind { from := from + [n]; }
    }
  }

  lemma FirstSelected(evidence: seq<Evidence>, kind: Kind, n: nat)
    ensures FirstOnes(evidence, kind, n, First(Where(evidence, (e: Evidence) => e.kind == kind), n))
  {
    var from := SelectPicks(evidence, kind);
  }

  lemma SelectFewer(evidence: seq<Evidence>, p: Evidence -> bool)
    ensures multiset(Where(evidence, p)) <= multiset(evidence)
  {
    forall e: Evidence ensures multiset(Where(evidence, p))[e] <= multiset(evidence)[e] {
      WhereCounts(evidence, p, e);
    }
  }

  lemma FirstFewer(xs: seq<Evidence>, n: nat)
    ensures multiset(First(xs, n)) <= multiset(xs)
  {
    if n < |xs| { assert xs == xs[..n] + xs[n..]; }
  }

  lemma FallsAreLargest(evidence: seq<Evidence>)
    ensures LargestFalls(evidence, Declines(evidence))
  {
    var all, ds := Where(evidence, Declining), Declines(evidence);
    DeclinesIn(evidence);
    SelectFewer(evidence, Declining);
    SortMultiset(all, Size);
    SortDescending(all, Size);
    FirstFewer(SortDesc(all, Size), 3);
    forall i | 0 <= i < |ds| ensures Fell(ds[i]) { assert ds[i] in ds; }
    forall i, j | 0 <= i < j < |ds| ensures ds[i].change.value <= ds[j].change.value {
      assert ds[i] in ds && ds[j] in ds && Size(ds[i]) >= Size(ds[j]);
    }
    forall e | e in evidence && Fell(e)
      ensures e in ds || (|ds| == 3 && forall i :: 0 <= i < |ds| ==> ds[i].change.value <= e.change.value)
    {
      LeftOutIsSmaller(evidence, e);
      forall i | 0 <= i < |ds| && e !in ds ensures ds[i].change.value <= e.change.value {
        assert ds[i] in ds && Size(ds[i]) >= Size(e) && Declining(ds[i]);
      }
    }
  }

  /** The drafts on each piece, or the fallback. */
  lemma DraftsAre(evidence: seq<Evidence>, cs: seq<Evidence>, ds: seq<Evidence>, rs: seq<Evidence>)
    requires cs == Comparisons(evidence) && ds == Declines(evidence) && rs == Risks(evidence)
    ensures var found := Map(cs, OnComparison) + Map(ds, OnDecline) + Map(rs, OnRisk);
      Attributed(evidence) == NumberedConclusions(if found == [] then [Fallback(evidence)] else found)
  {
  }

  lemma SectionsConclude(evidence: seq<Evidence>, cs: seq<Evidence>, ds: seq<Evidence>, rs: seq<Evidence>)
    requires cs == Comparisons(evidence) && ds == Declines(evidence) && rs == Risks(evidence)
    ensures ConcludedOr(evidence, cs, ds, rs, Attributed(evidence))
  {
    var found := Map(cs, OnComparison) + Map(ds, OnDecline) + Map(rs, OnRisk);
    DraftsAre(evidence, cs, ds, rs);
    assert |found| == |cs| + |ds| + |rs|;
    if found == [] { FallbackDescribes(evidence); } else { DraftsConclude(cs, ds, rs); }
  }

  lemma ConclusionsAreRight(evidence: seq<Evidence>)
    ensures ConclusionsRight(evidence, Attributed(evidence))
  {
    FirstSelected(evidence, ComparisonKind, 1);
    FallsAreLargest(evidence);
    FirstSelected(evidence, InventoryRisk, 5);
    SectionsConclude(evidence, Comparisons(evidence), Declines(evidence), Risks(evidence));
  }

  lemma FallbackDescribes(evidence: seq<Evidence>)
    ensures OnlyDescribes(evidence, NumberedConclusions([Fallback(evidence)]))
  {
  }

  lemma DraftConcludes(e: Evidence, confidence: real, impact: Impact, id: string)
    ensures var c := Draft(e, confidence, impact).(id := id); ConcludesOn(c, e, confidence) && c.impact == impact
  {
  }

  lemma ImpactIs(rate: Option<real>)
    ensures RateImpact(rate, ImpactOf(rate))
  {
  }

  /** The i-th conclusion is the i-th draft under its number. */
  lemma DraftAt(a: seq<Conclusion>, b: seq<Conclusion>, c: seq<Conclusion>)
    ensures var all := NumberedConclusions(a + b + c);
      && |all| == |a| + |b| + |c|
      && (forall i :: 0 <= i < |a| ==> all[i] == a[i].(id := ConclusionId(i + 1)))
      && (forall i :: 0 <= i < |b| ==> all[|a| + i] == b[i].(id := ConclusionId(|a| + i + 1)))
      && (forall i :: 0 <= i < |c| ==> all[|a| + |b| + i] == c[i].(id := ConclusionId(|a| + |b| + i + 1)))
  {
  }

  lemma ComparisonsConclude(conclusions: seq<Conclusion>, cs: seq<Evidence>)
    requires |cs| <= |conclusions|
    requires forall i :: 0 <= i < |cs| ==> conclusions[i] == OnComparison(cs[i]).(id := ConclusionId(i + 1))
    ensures forall i :: 0 <= i < |cs| ==>
              ConcludesOn(conclusions[i], cs[i], 0.98) && RateImpact(cs[i].rate, conclusions[i].impact)
  {
    forall i | 0 <= i < |cs|
      ensures ConcludesOn(conclusions[i], cs[i], 0.98) && RateImpact(cs[i].rate, conclusions[i].impact)
    {
      DraftConcludes(cs[i], 0.98, ImpactOf(cs[i].rate), ConclusionId(i + 1));
      ImpactIs(cs[i].rate);
    }
  }

  lemma DeclinesConclude(conclusions: seq<Conclusion>, at: nat, ds: seq<Evidence>)
    requires at + |ds| <= |conclusions|
    requires forall i :: 0 <= i < |ds| ==> conclusions[at + i] == OnDecline(ds[i]).(id := ConclusionId(at + i + 1))
    ensures forall i :: 0 <= i < |ds| ==>
              ConcludesOn(conclusions[at + i], ds[i], 0.95) && RateImpact(ds[i].rate, conclusions[at + i].impact)
  {
    forall i | 0 <= i < |ds|
      ensures ConcludesOn(conclusions[at + i], ds[i], 0.95) && RateImpact(ds[i].rate, conclusions[at + i].impact)
    {
      DraftConcludes(ds[i], 0.95, ImpactOf(ds[i].rate), ConclusionId(at + i + 1));
      ImpactIs(ds[i].rate);
    }
  }

  lemma RisksConclude(conclusions: seq<Conclusion>, at: nat, rs: seq<Evidence>)
    requires at + |rs| <= |conclusions|
    requires forall i :: 0 <= i < |rs| ==> conclusions[at + i] == OnRisk(rs[i]).(id := ConclusionId(at + i + 1))
    ensures forall i :: 0 <= i < |rs| ==>
              ConcludesOn(conclusions[at + i], rs[i], 0.9)
              && conclusions[at + i].impact == if rs[i].severity == "high" then High else Medium
  {
    forall i | 0 <= i < |rs|
      ensures ConcludesOn(conclusions[at + i], rs[i], 0.9)
           && conclusions[at + i].impact == if rs[i].severity == "high" then High else Medium
    {
      DraftConcludes(rs[i], 0.9, if rs[i].severity == "high" then High else Medium, ConclusionId(at + i + 1));
    }
  }

  lemma DraftsConclude(cs: seq<Evidence>, ds: seq<Evidence>, rs: seq<Evidence>)
    ensures Concluded(cs, ds, rs, NumberedConclusions(Map(cs, OnComparison) + Map(ds, OnDecline) + Map(rs, OnRisk)))
  {
    var conclusions := NumberedConclusions(Map(cs, OnComparison) + Map(ds, OnDecline) + Map(rs, OnRisk));
    DraftAt(Map(cs, OnComparison), Map(ds, OnDecline), Map(rs, OnRisk));
    ComparisonsConclude(conclusions, cs);
    DeclinesConclude(conclusions, |cs|, ds);
    RisksConclude(conclusions, |cs| + |ds|, rs);
  }
}

/** The cross-reference rules of a report, on the ids and flags they read. */
module References {
  import opened Basics

  datatype EvidenceRef = EvidenceRef(id: string, verified: bool)

  datatype ConclusionRef = ConclusionRef(id: string, confirmed: bool,
                                         evidenceIds: seq<string>, verificationNeeded: bool)

  function EvidenceIds(evidence: seq<EvidenceRef>): (r: seq<string>)
    ensures |r| == |evidence| && forall i :: 0 <= i < |r| ==> r[i] == evidence[i].id
  {
    seq(|evidence|, i requires 0 <= i < |evidence| => evidence[i].id)
  }

  function ConclusionIds(conclusions: seq<ConclusionRef>): (r: seq<string>)
    ensures |r| == |conclusions| && forall i :: 0 <= i < |r| ==> r[i] == conclusions[i].id
  {
    seq(|conclusions|, i requires 0 <= i < |conclusions| => conclusions[i].id)
  }

  predicate CitesWell(evidence: seq<EvidenceRef>, conclusion: ConclusionRef) {
    && (forall id :: id in conclusion.evidenceIds ==> id in EvidenceIds(evidence))
    && (conclusion.confirmed ==>
          && conclusion.evidenceIds != []
          && !conclusion.verificationNeeded
          && forall e :: e in evidence && e.id in conclusion.evidenceIds ==> e.verified)
  }

  /** ReportIR.validate_references */
  predicate ReferencesOk(evidence: seq<EvidenceRef>, conclusions: seq<ConclusionRef>) {
    && Distinct(EvidenceIds(evidence))
    && Distinct(ConclusionIds(conclusions))
    && forall conclusion :: conclusion in conclusions ==> CitesWell(evidence, conclusion)
  }
}

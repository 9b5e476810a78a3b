/** The loops of report_validator.py, each computing the repair that Report specifies. */
module ReportValidator {
  import opened Basics
  import opened Schema
  import opened Report
  import opened ReportProofs
  import opened RepairContract

  lemma PrefixStep<T>(xs: seq<T>, i: nat)
    requires i < |xs|
    ensures xs[..i + 1] != [] && xs[..i + 1][..|xs[..i + 1]| - 1] == xs[..i] && xs[..i + 1][|xs[..i + 1]| - 1] == xs[i]
  {
  }

  lemma IdSetSnoc(id: Json -> string, items: seq<Json>, item: Json)
    ensures IdSet(id, items + [item]) == IdSet(id, items) + {id(item)}
  {
    var both := items + [item];
    assert both[|items|] == item && forall i :: 0 <= i < |items| ==> both[i] == items[i];
  }

  lemma RawIdsSnoc(id: Json -> string, values: seq<Json>, raw: Json)
    ensures RawIds(id, values + [raw]) == RawIds(id, values) + if raw.Obj? then {id(raw)} else {}
  {
    var both := values + [raw];
    assert both[|values|] == raw && forall i :: 0 <= i < |values| ==> both[i] == values[i];
  }

  method ValidatedItems(c: Coercions, shape: Shape, values: Json) returns (output: seq<Json>)
    ensures output == Kept(c, shape, Items(values)) && KeepsParsed(c, shape, Items(values), output)
  {
    KeptIsExact(c, shape, Items(values));
    output := [];
    var items := Items(values);
    for i := 0 to |items|
      invariant output == Kept(c, shape, items[..i])
    {
      PrefixStep(items, i);
      match Parse(c, shape, items[i])
      case Some(d) => output := output + [d];
      case None =>
    }
    assert items[..|items|] == items;
  }

  method UniqueValidatedItems(c: Coercions, shape: Shape, values: Json, field: Key) returns (output: seq<Json>)
    ensures output == FirstOfEach(IdOf(c, field), Kept(c, shape, Items(values)))
    ensures KeepsFirst(c, shape, IdOf(c, field), Items(values), output)
  {
    FirstIsExact(c, shape, IdOf(c, field), Items(values));
    var items := ValidatedItems(c, shape, values);
    output := FirstOccurrences(IdOf(c, field), items);
  }

  method FirstOccurrences(id: Json -> string, items: seq<Json>) returns (output: seq<Json>)
    ensures output == FirstOfEach(id, items)
  {
    output := [];
    var seen: set<string> := {};
    for i := 0 to |items|
      invariant output == FirstOfEach(id, items[..i])
      invariant seen == IdSet(id, output)
    {
      PrefixStep(items, i);
      var identity := id(items[i]);
      if identity == "" || identity in seen { continue; }
      seen := seen + {identity};
      IdSetSnoc(id, output, items[i]);
      output := output + [items[i]];
    }
    assert items[..|items|] == items;
  }

  /** The three assignments that weaken a conclusion. */
  method Weaken(c: Coercions, raw: Json, fields: map<Key, Json>, status: string, cap: real)
      returns (out: map<Key, Json>)
    ensures out == fields + Weakened(c, raw, status, cap)
  {
    out := fields[Status := Str(status)];
    out := out[VerificationNeeded := Bool(true)];
    out := out[Confidence := Num(AtMost(cap, SafeConfidence(c, At(raw, Confidence))))];
  }

  /** The assignments to one copied conclusion. */
  method RewriteConclusion(c: Coercions, raw: Json, quality: map<string, string>) returns (item: Json)
    requires raw.Obj?
    ensures item == Rewritten(c, raw, quality) && RewritesTo(c, raw, quality, item)
  {
    RewritingIsExact(c, raw, quality);
    var evidenceIds := Cited(c, raw, quality);
    var fields := raw.fields[EvidenceIdList := Arr(Texts(evidenceIds))];
    if evidenceIds == [] {
      fields := Weaken(c, raw, fields, "to_verify", 0.49);
    } else if At(raw, Status) == Str("confirmed")
              && (Limited(evidenceIds, quality) || Truthy(At(raw, VerificationNeeded))) {
      fields := Weaken(c, raw, fields, "probable", 0.7);
    }
    item := Obj(fields);
  }

  method SettleConclusion(c: Coercions, m: Models, raw: Json, quality: map<string, string>) returns (out: Option<Json>)
    requires raw.Obj?
    ensures out == Settle(c, m, quality)(raw)
  {
    var item := RewriteConclusion(c, raw, quality);
    out := Parse(c, Record(m.conclusion), item);
  }

  method RepairConclusions(c: Coercions, m: Models, values: Json, quality: map<string, string>)
      returns (output: seq<Json>)
    ensures output == RepairedConclusions(IdOf(c, ConclusionId), Settle(c, m, quality), Items(values))
    ensures ConcludesExactly(c, m, quality, Items(values), output)
  {
    ConclusionsAreExact(c, m, quality, Items(values));
    output := [];
    var seen: set<string> := {};
    var raws, identity := Items(values), IdOf(c, ConclusionId);
    ghost var settle := Settle(c, m, quality);
    for i := 0 to |raws|
      invariant output == RepairedConclusions(identity, settle, raws[..i])
      invariant forall id :: id != "" ==> (id in seen <==> id in RawIds(identity, raws[..i]))
    {
      var raw := raws[i];
      NextConclusion(identity, settle, raws, i, seen);
      if !raw.Obj? { continue; }
      var id := identity(raw);
      if id == "" || id in seen { continue; }
      seen := seen + {id};
      var settled := SettleConclusion(c, m, raw, quality);
      if settled.Some? { output := output + [settled.value]; }
    }
    assert raws[..|raws|] == raws;
  }

  /** One more raw value. */
  lemma NextConclusion(id: Json -> string, settle: Json -> Option<Json>, raws: seq<Json>, i: nat, seen: set<string>)
    requires i < |raws| && forall x :: x != "" ==> (x in seen <==> x in RawIds(id, raws[..i]))
    ensures var raw, was := raws[i], RepairedConclusions(id, settle, raws[..i]);
      && RawIds(id, raws[..i + 1]) == RawIds(id, raws[..i]) + (if raw.Obj? then {id(raw)} else {})
      && RepairedConclusions(id, settle, raws[..i + 1]) ==
         if raw.Obj? && id(raw) != "" && id(raw) !in seen && settle(raw).Some? then was + [settle(raw).value] else was
  {
    PrefixStep(raws, i);
    assert raws[..i + 1] == raws[..i] + [raws[i]];
    RawIdsSnoc(id, raws[..i], raws[i]);
  }

  /** Assigning the eight lists is merging them. */
  lemma EightUpdates(fields: map<Key, Json>, lists: map<Key, Json>)
    requires forall key :: key in lists <==> IsList(key)
    ensures fields[KeyMetrics := At(Obj(lists), KeyMetrics)][EvidenceList := At(Obj(lists), EvidenceList)]
            [AttributionConclusions := At(Obj(lists), AttributionConclusions)]
            [MissingData := At(Obj(lists), MissingData)]
            [NextActions := At(Obj(lists), NextActions)][Visualizations := At(Obj(lists), Visualizations)]
            [SourceFiles := At(Obj(lists), SourceFiles)][GeneratedFiles := At(Obj(lists), GeneratedFiles)]
         == fields + lists
  {
  }

  /** `validated_items(...)`, or its unique form. */
  method RepairItems(c: Coercions, m: Models, payload: Json, list: Key) returns (output: seq<Json>)
    requires IsList(list) && !list.AttributionConclusions?
    ensures output == RepairedItems(c, m, payload, list)
  {
    match Identity(list) {
      case Some(field) => output := UniqueValidatedItems(c, ItemShape(m, list), At(payload, list), field);
      case None => output := ValidatedItems(c, ItemShape(m, list), At(payload, list));
    }
  }

  /** `repaired[list] = ...` */
  method AssignList(c: Coercions, m: Models, payload: Json, fields: map<Key, Json>, list: Key)
      returns (out: map<Key, Json>)
    requires IsList(list) && !list.AttributionConclusions?
    ensures out == fields[list := At(Obj(RepairedLists(c, m, payload)), list)]
  {
    var output := RepairItems(c, m, payload, list);
    out := fields[list := Arr(output)];
  }

  lemma ConclusionsAre(c: Coercions, m: Models, payload: Json, evidence: Json)
    requires evidence == At(Obj(RepairedLists(c, m, payload)), EvidenceList)
    ensures At(Obj(RepairedLists(c, m, payload)), AttributionConclusions) ==
            Arr(RepairedConclusions(IdOf(c, ConclusionId), Settle(c, m, QualityOf(Items(evidence))),
                                    Items(At(payload, AttributionConclusions))))
  {
    assert IsList(EvidenceList) && IsList(AttributionConclusions);
    assert evidence == Arr(RepairedList(c, m, payload, EvidenceList));
    EvidenceListIs(c, m, payload);
  }

  method AssignConclusions(c: Coercions, m: Models, payload: Json, fields: map<Key, Json>) returns (out: map<Key, Json>)
    requires EvidenceList in fields && fields[EvidenceList] == At(Obj(RepairedLists(c, m, payload)), EvidenceList)
    ensures out == fields[AttributionConclusions := At(Obj(RepairedLists(c, m, payload)), AttributionConclusions)]
  {
    var quality := QualityOf(Items(fields[EvidenceList]));
    var conclusions := RepairConclusions(c, m, At(payload, AttributionConclusions), quality);
    ConclusionsAre(c, m, payload, fields[EvidenceList]);
    out := fields[AttributionConclusions := Arr(conclusions)];
  }

  method Repair(c: Coercions, m: Models, payload: Json, errors: Json) returns (repaired: Json)
    requires payload.Obj?
    ensures repaired == Repaired(c, m, payload, errors)
    ensures Lawful(c) && Good(m) ==> RepairsExactly(c, m, payload, errors, repaired)
  {
    if Lawful(c) && Good(m) { RepairIsExact(c, m, payload, errors); }
    var fields := payload.fields;
    fields := AssignList(c, m, payload, fields, KeyMetrics);
    fields := AssignList(c, m, payload, fields, EvidenceList);
    fields := AssignConclusions(c, m, payload, fields);
    fields := AssignList(c, m, payload, fields, MissingData);
    fields := AssignList(c, m, payload, fields, NextActions);
    fields := AssignList(c, m, payload, fields, Visualizations);
    fields := AssignList(c, m, payload, fields, SourceFiles);
    fields := AssignList(c, m, payload, fields, GeneratedFiles);
    EightUpdates(payload.fields, RepairedLists(c, m, payload));
    assert fields == payload.fields + RepairedLists(c, m, payload);
    fields := fields[RepairContext := ContextOf(errors)];
    repaired := Obj(fields);
  }
}

/** Repair is sound (only an empty required list or a bad header is left to fail),
    idempotent on every list, and never strengthens a conclusion. */
module ReportProofs {
  import opened Basics
  import opened References
  import opened Schema
  import opened Report

  /** An item the schema leaves as it is. */
  predicate Fixed(c: Coercions, shape: Shape, item: Json) { Parse(c, shape, item) == Some(item) }

  lemma {:induction false} KeptFixed(c: Coercions, shape: Shape, values: seq<Json>)
    requires Lawful(c) && WellFormed(shape)
    ensures forall d :: d in Kept(c, shape, values) ==> Fixed(c, shape, d)
  {
    if values != [] {
      KeptFixed(c, shape, values[..|values| - 1]);
      if Parse(c, shape, values[|values| - 1]).Some? { ParseStable(c, shape, values[|values| - 1]); }
    }
  }

  lemma {:induction false} FixedKept(c: Coercions, shape: Shape, items: seq<Json>)
    requires forall d :: d in items ==> Fixed(c, shape, d)
    ensures Kept(c, shape, items) == items
    ensures ParseAll(c, shape, items) == Some(items)
  {
    if items != [] {
      FixedKept(c, shape, items[..|items| - 1]);
      assert Fixed(c, shape, items[|items| - 1]);
      assert items == items[..|items| - 1] + [items[|items| - 1]];
    }
  }

  /** Non-empty, pairwise different identities. */
  predicate Identified(id: Json -> string, items: seq<Json>) {
    && (forall i :: 0 <= i < |items| ==> id(items[i]) != "")
    && (forall i, j :: 0 <= i < j < |items| ==> id(items[i]) != id(items[j]))
  }

  lemma {:induction false} FirstOfEachIdentified(id: Json -> string, items: seq<Json>)
    ensures Identified(id, FirstOfEach(id, items))
    ensures forall d :: d in FirstOfEach(id, items) ==> d in items
  {
    if items != [] { FirstOfEachIdentified(id, items[..|items| - 1]); }
  }

  lemma NewId(id: Json -> string, init: seq<Json>, last: Json)
    requires Identified(id, init + [last])
    ensures Identified(id, init) && id(last) != "" && id(last) !in IdSet(id, init) && id(last) !in RawIds(id, init)
  {
    var items := init + [last];
    assert items[|init|] == last && forall i :: 0 <= i < |init| ==> items[i] == init[i];
  }

  lemma {:induction false} IdentifiedFirstOfEach(id: Json -> string, items: seq<Json>)
    requires Identified(id, items)
    ensures FirstOfEach(id, items) == items
  {
    if items != [] {
      var init, last := items[..|items| - 1], items[|items| - 1];
      assert items == init + [last];
      NewId(id, init, last);
      IdentifiedFirstOfEach(id, init);
    }
  }

  /** One field of a parsed record. */
  lemma ParsedField(c: Coercions, fields: seq<Field>, j: Json, d: Json, f: Field)
    requires WellFormedFields(fields) && f in fields && Parse(c, Record(fields), j) == Some(d)
    ensures j.Obj? && d.Obj? && f.name in d.fields && FieldValue(c, f, j.fields) == Some(At(d, f.name))
  {
    ParseFieldsIff(c, fields, j.fields);
  }

  // ---- conclusions ----

  lemma {:induction false} KnownIdsFixed(c: Coercions, ids: seq<string>, quality: map<string, string>)
    requires Lawful(c) && Distinct(ids) && forall id :: id in ids ==> id in quality
    ensures KnownIds(c, Texts(ids), quality) == ids
  {
    if ids != [] {
      var init, last := ids[..|ids| - 1], ids[|ids| - 1];
      KnownIdsFixed(c, init, quality);
      assert Texts(ids)[..|ids| - 1] == Texts(init);
      assert ids == init + [last] && last in ids && last !in init;
      assert c.text(Str(last)) == last;
    }
  }

  lemma {:induction false} TextsParse(c: Coercions, ids: seq<string>)
    ensures ParseAll(c, Text, Texts(ids)) == Some(Texts(ids))
  {
    if ids != [] {
      TextsParse(c, ids[..|ids| - 1]);
      assert Texts(ids)[..|ids| - 1] == Texts(ids[..|ids| - 1]);
      assert Texts(ids) == Texts(ids[..|ids| - 1]) + [Str(ids[|ids| - 1])];
    }
  }

  lemma TextListInverts(ids: seq<string>)
    ensures TextList(Texts(ids)) == ids
  {
  }

  lemma SafeConfidenceBounds(c: Coercions, value: Json)
    requires Lawful(c)
    ensures 0.0 <= SafeConfidence(c, value) <= 1.0
    ensures value.Num? && 0.0 <= value.r <= 1.0 ==> SafeConfidence(c, value) == value.r
    ensures c.number(value).Some? && 0.0 <= c.number(value).value <= 1.0
            ==> SafeConfidence(c, value) == c.number(value).value
  {
  }

  /** What a repaired conclusion satisfies. */
  ghost predicate Settled(c: Coercions, m: Models, d: Json, quality: map<string, string>) {
    && d.Obj?
    && Fixed(c, Record(m.conclusion), d)
    && Rewritten(c, d, quality) == d
    && IdText(c, d, ConclusionId) == ConclusionRefOf(d).id
    && SupportedBy(ConclusionRefOf(d), quality)
  }

  predicate SupportedBy(ref: ConclusionRef, quality: map<string, string>) {
    && (forall id :: id in ref.evidenceIds ==> id in quality)
    && (ref.confirmed ==>
          && ref.evidenceIds != [] && !ref.verificationNeeded
          && forall id :: id in ref.evidenceIds ==> quality[id] == "verified")
  }

  /** How a parsed conclusion reads. */
  ghost predicate Dumped(c: Coercions, item: Json, d: Json) {
    && item.Obj? && d.Obj?
    && EvidenceIdList in d.fields && Status in d.fields && VerificationNeeded in d.fields && Confidence in d.fields
    && At(d, ConclusionId) == At(item, ConclusionId) && At(d, ConclusionId).Str?
    && At(d, Status) == At(item, Status)
    && (At(item, EvidenceIdList).Arr? && ParseAll(c, Text, At(item, EvidenceIdList).items).Some? ==>
          At(d, EvidenceIdList) == Arr(ParseAll(c, Text, At(item, EvidenceIdList).items).value))
    && c.flag(At(item, VerificationNeeded)) == Some(At(d, VerificationNeeded) == Bool(true))
    && At(d, VerificationNeeded).Bool?
    && c.number(At(item, Confidence)).Some? && 0.0 <= c.number(At(item, Confidence)).value <= 1.0
    && At(d, Confidence) == Num(c.number(At(item, Confidence)).value)
  }

  lemma CitationField(c: Coercions, obj: map<Key, Json>)
    requires EvidenceIdList in obj && obj[EvidenceIdList].Arr? && ParseAll(c, Text, obj[EvidenceIdList].items).Some?
    ensures FieldValue(c, ListOf(EvidenceIdList, Text), obj)
         == Some(Arr(ParseAll(c, Text, obj[EvidenceIdList].items).value))
  {
  }

  lemma TextField(c: Coercions, fields: seq<Field>, item: Json, d: Json, f: Field)
    requires WellFormedFields(fields) && f in fields && Parse(c, Record(fields), item) == Some(d)
    requires f.default.None? && (f.shape.Text? || f.shape.OneOf?)
    ensures item.Obj? && d.Obj? && f.name in d.fields && At(d, f.name) == At(item, f.name) && At(d, f.name).Str?
  {
    ParsedField(c, fields, item, d, f);
  }

  lemma ConfidenceField(c: Coercions, fields: seq<Field>, item: Json, d: Json)
    requires WellFormedFields(fields) && Req(Confidence, UNIT_INTERVAL) in fields
             && Parse(c, Record(fields), item) == Some(d)
    ensures d.Obj? && Confidence in d.fields
    ensures c.number(At(item, Confidence)).Some? && 0.0 <= c.number(At(item, Confidence)).value <= 1.0
    ensures At(d, Confidence) == Num(c.number(At(item, Confidence)).value)
  {
    ParsedField(c, fields, item, d, Req(Confidence, UNIT_INTERVAL));
  }

  lemma FlagField(c: Coercions, fields: seq<Field>, item: Json, d: Json)
    requires WellFormedFields(fields) && Req(VerificationNeeded, Flag) in fields
             && Parse(c, Record(fields), item) == Some(d)
    ensures d.Obj? && VerificationNeeded in d.fields && At(d, VerificationNeeded).Bool?
    ensures c.flag(At(item, VerificationNeeded)) == Some(At(d, VerificationNeeded) == Bool(true))
  {
    ParsedField(c, fields, item, d, Req(VerificationNeeded, Flag));
  }

  lemma CitationsField(c: Coercions, fields: seq<Field>, item: Json, d: Json)
    requires WellFormedFields(fields) && ListOf(EvidenceIdList, Text) in fields
             && Parse(c, Record(fields), item) == Some(d)
    ensures d.Obj? && EvidenceIdList in d.fields
    ensures At(item, EvidenceIdList).Arr? && ParseAll(c, Text, At(item, EvidenceIdList).items).Some? ==>
              At(d, EvidenceIdList) == Arr(ParseAll(c, Text, At(item, EvidenceIdList).items).value)
  {
    ParsedField(c, fields, item, d, ListOf(EvidenceIdList, Text));
    if At(item, EvidenceIdList).Arr? && ParseAll(c, Text, At(item, EvidenceIdList).items).Some? {
      CitationField(c, item.fields);
    }
  }

  lemma ConclusionDumped(c: Coercions, fields: seq<Field>, statuses: seq<string>, item: Json, d: Json)
    requires ConclusionModel(fields, statuses) && Parse(c, Record(fields), item) == Some(d)
    ensures Dumped(c, item, d)
  {
    TextField(c, fields, item, d, Req(ConclusionId, Text));
    TextField(c, fields, item, d, Req(Status, OneOf(statuses)));
    ConfidenceField(c, fields, item, d);
    CitationsField(c, fields, item, d);
    FlagField(c, fields, item, d);
  }

  /** The rewriting by its three cases. */
  lemma RewrittenReads(c: Coercions, raw: Json, quality: map<string, string>)
    requires raw.Obj?
    ensures var item, ids := Rewritten(c, raw, quality), Cited(c, raw, quality);
      && item.Obj? && At(item, EvidenceIdList) == Arr(Texts(ids)) && At(item, ConclusionId) == At(raw, ConclusionId)
      && (ids == [] ==>
            At(item, Status) == Str("to_verify") && At(item, VerificationNeeded) == Bool(true)
            && At(item, Confidence) == Num(AtMost(0.49, SafeConfidence(c, At(raw, Confidence)))))
      && (ids != [] && Overstated(c, raw, quality) ==>
            At(item, Status) == Str("probable") && At(item, VerificationNeeded) == Bool(true)
            && At(item, Confidence) == Num(AtMost(0.7, SafeConfidence(c, At(raw, Confidence)))))
      && (ids != [] && !Overstated(c, raw, quality) ==>
            At(item, Status) == At(raw, Status) && At(item, VerificationNeeded) == At(raw, VerificationNeeded)
            && At(item, Confidence) == At(raw, Confidence))
  {
  }

  /** A parsed rewriting keeps the citations. */
  lemma RewrittenCited(c: Coercions, raw: Json, quality: map<string, string>, d: Json)
    requires Lawful(c) && raw.Obj? && Dumped(c, Rewritten(c, raw, quality), d)
    ensures At(d, EvidenceIdList) == Arr(Texts(Cited(c, raw, quality)))
    ensures Cited(c, d, quality) == Cited(c, raw, quality) == ConclusionRefOf(d).evidenceIds
  {
    RewrittenReads(c, raw, quality);
    var ids := Cited(c, raw, quality);
    KnownIdsFixed(c, ids, quality);
    TextsParse(c, ids);
    TextListInverts(ids);
  }

  /** When rewriting leaves a conclusion as it is. */
  lemma RewrittenSame(c: Coercions, d: Json, quality: map<string, string>)
    requires d.Obj? && EvidenceIdList in d.fields && Status in d.fields
             && VerificationNeeded in d.fields && Confidence in d.fields
    requires At(d, EvidenceIdList) == Arr(Texts(Cited(c, d, quality)))
    requires Cited(c, d, quality) == [] ==>
               At(d, Status) == Str("to_verify") && At(d, VerificationNeeded) == Bool(true)
               && At(d, Confidence) == Num(AtMost(0.49, SafeConfidence(c, At(d, Confidence))))
    requires Cited(c, d, quality) != [] ==> !Overstated(c, d, quality)
    ensures Rewritten(c, d, quality) == d
  {
  }

  /** Rewriting a repaired conclusion again changes nothing. */
  lemma RewrittenAgain(c: Coercions, raw: Json, quality: map<string, string>, d: Json)
    requires Lawful(c) && raw.Obj? && Dumped(c, Rewritten(c, raw, quality), d)
    ensures Rewritten(c, d, quality) == d
    ensures At(d, Status) == Str("confirmed") ==>
              Cited(c, d, quality) != [] && !Limited(Cited(c, d, quality), quality)
              && At(d, VerificationNeeded) == Bool(false)
  {
    var item := Rewritten(c, raw, quality);
    RewrittenReads(c, raw, quality);
    RewrittenCited(c, raw, quality, d);
    if Cited(c, raw, quality) == [] {
      NumberKept(c, item, d, Confidence);
      SafeConfidenceBounds(c, At(raw, Confidence));
      SafeConfidenceBounds(c, At(d, Confidence));
    } else if Overstated(c, raw, quality) {
      assert At(d, Status) == Str("probable");
    } else if At(d, Status) == Str("confirmed") {
      assert !Truthy(At(item, VerificationNeeded));
      assert c.flag(At(item, VerificationNeeded)) != Some(true);
    }
    RewrittenSame(c, d, quality);
  }

  lemma NumberKept(c: Coercions, item: Json, d: Json, key: Key)
    requires Lawful(c) && At(item, key).Num? && c.number(At(item, key)).Some?
    requires At(d, key) == Num(c.number(At(item, key)).value)
    ensures At(d, key) == At(item, key)
  {
  }

  /** One repaired conclusion is settled. */
  lemma RewrittenSettled(c: Coercions, m: Models, raw: Json, quality: map<string, string>, d: Json)
    requires Lawful(c) && Good(m) && raw.Obj? && Parse(c, Record(m.conclusion), Rewritten(c, raw, quality)) == Some(d)
    ensures Settled(c, m, d, quality)
    ensures IdText(c, d, ConclusionId) == IdText(c, raw, ConclusionId)
    ensures Dumped(c, Rewritten(c, raw, quality), d)
  {
    ParseStable(c, Record(m.conclusion), Rewritten(c, raw, quality));
    ConclusionDumped(c, m.conclusion, m.statuses, Rewritten(c, raw, quality), d);
    DumpedSettled(c, raw, quality, d);
  }

  lemma DumpedSettled(c: Coercions, raw: Json, quality: map<string, string>, d: Json)
    requires Lawful(c) && raw.Obj? && Dumped(c, Rewritten(c, raw, quality), d)
    ensures Rewritten(c, d, quality) == d && SupportedBy(ConclusionRefOf(d), quality)
    ensures IdText(c, d, ConclusionId) == IdText(c, raw, ConclusionId) == ConclusionRefOf(d).id
  {
    RewrittenReads(c, raw, quality);
    RewrittenCited(c, raw, quality, d);
    RewrittenAgain(c, raw, quality, d);
    assert c.text(Str(At(d, ConclusionId).s)) == At(d, ConclusionId).s;
  }

  /** The value a repaired conclusion came from. */
  lemma {:induction false} RepairedFrom(id: Json -> string, settle: Json -> Option<Json>, values: seq<Json>, d: Json)
    returns (raw: Json)
    requires d in RepairedConclusions(id, settle, values)
    ensures raw in values && settle(raw) == Some(d)
  {
    var init := values[..|values| - 1];
    if d in RepairedConclusions(id, settle, init) {
      raw := RepairedFrom(id, settle, init, d);
    } else {
      raw := values[|values| - 1];
    }
  }

  predicate KeepsIds(id: Json -> string, settle: Json -> Option<Json>, values: seq<Json>) {
    forall raw :: raw in values && settle(raw).Some? ==> id(settle(raw).value) == id(raw)
  }

  lemma {:induction false} ConclusionsIdentified(id: Json -> string, settle: Json -> Option<Json>, values: seq<Json>)
    requires KeepsIds(id, settle, values)
    ensures Identified(id, RepairedConclusions(id, settle, values))
    ensures forall d :: d in RepairedConclusions(id, settle, values) ==> id(d) in RawIds(id, values)
  {
    if values != [] {
      var init, raw := values[..|values| - 1], values[|values| - 1];
      assert KeepsIds(id, settle, init);
      ConclusionsIdentified(id, settle, init);
      assert forall x :: x in RawIds(id, init) ==> x in RawIds(id, values) by { RawIdsGrow(id, values); }
      if raw.Obj? { assert id(values[|values| - 1]) in RawIds(id, values); }
    }
  }

  lemma RawIdsGrow(id: Json -> string, values: seq<Json>)
    requires values != []
    ensures RawIds(id, values[..|values| - 1]) <= RawIds(id, values)
  {
  }

  lemma ConclusionsSettled(c: Coercions, m: Models, values: seq<Json>, quality: map<string, string>)
    requires Lawful(c) && Good(m)
    ensures var once := RepairedConclusions(IdOf(c, ConclusionId), Settle(c, m, quality), values);
      (forall d :: d in once ==> Settled(c, m, d, quality)) && Identified(IdOf(c, ConclusionId), once)
  {
    var id, settle := IdOf(c, ConclusionId), Settle(c, m, quality);
    forall d | d in RepairedConclusions(id, settle, values) ensures Settled(c, m, d, quality) {
      var raw := RepairedFrom(id, settle, values, d);
      RewrittenSettled(c, m, raw, quality, d);
    }
    forall raw | raw in values && settle(raw).Some? ensures id(settle(raw).value) == id(raw) {
      RewrittenSettled(c, m, raw, quality, settle(raw).value);
    }
    ConclusionsIdentified(id, settle, values);
  }

  lemma {:induction false} RewrittenKept(id: Json -> string, settle: Json -> Option<Json>, items: seq<Json>)
    requires Identified(id, items)
    requires forall d :: d in items ==> d.Obj? && settle(d) == Some(d)
    ensures RepairedConclusions(id, settle, items) == items
  {
    if items != [] {
      var init, last := items[..|items| - 1], items[|items| - 1];
      assert items == init + [last];
      NewId(id, init, last);
      RewrittenKept(id, settle, init);
      assert last in items;
    }
  }

  /** What a repaired conclusion may say, compared with the value it came from: the same
      id, `confirmed` only if it was, and no more confidence than a confidence in range. */
  predicate NotStronger(c: Coercions, raw: Json, d: Json) {
    && At(d, ConclusionId) == At(raw, ConclusionId)
    && (At(d, Status) == Str("confirmed") ==> At(raw, Status) == Str("confirmed"))
    && var was := c.number(At(raw, Confidence));
       was.Some? && 0.0 <= was.value <= 1.0 ==>
         At(d, Confidence).Num? && At(d, Confidence).r <= was.value
  }

  lemma RepairNeverStrengthens(c: Coercions, m: Models, values: seq<Json>, quality: map<string, string>, d: Json)
    requires Lawful(c) && Good(m) && d in RepairedConclusions(IdOf(c, ConclusionId), Settle(c, m, quality), values)
    ensures exists raw :: raw in values && NotStronger(c, raw, d)
  {
    var raw := RepairedFrom(IdOf(c, ConclusionId), Settle(c, m, quality), values, d);
    RewrittenSettled(c, m, raw, quality, d);
    DumpedNotStronger(c, raw, quality, d);
  }

  lemma DumpedNotStronger(c: Coercions, raw: Json, quality: map<string, string>, d: Json)
    requires Lawful(c) && raw.Obj? && Dumped(c, Rewritten(c, raw, quality), d)
    ensures NotStronger(c, raw, d)
  {
    var item := Rewritten(c, raw, quality);
    RewrittenReads(c, raw, quality);
    SafeConfidenceBounds(c, At(raw, Confidence));
    if At(item, Confidence).Num? { NumberKept(c, item, d, Confidence); }
  }

  // ---- the whole payload ----

  /** The id and quality of a piece of evidence read the same to repair and to validation. */
  predicate Readable(c: Coercions, e: Json) {
    && IdText(c, e, EvidenceId) == EvidenceRefOf(e).id
    && (EvidenceRefOf(e).verified <==> TextOf(At(e, QualityStatus)) == "verified")
  }

  lemma IdReads(c: Coercions, e: Json)
    requires Lawful(c) && At(e, EvidenceId).Str?
    ensures IdText(c, e, EvidenceId) == EvidenceRefOf(e).id
  {
  }

  lemma EvidenceReadable(c: Coercions, fields: seq<Field>, qualities: seq<string>, e: Json)
    requires Lawful(c) && EvidenceModel(fields, qualities) && Fixed(c, Record(fields), e)
    ensures Readable(c, e)
  {
    TextField(c, fields, e, e, Req(EvidenceId, Text));
    TextField(c, fields, e, e, Req(QualityStatus, OneOf(qualities)));
    IdReads(c, e);
  }

  /** The quality map of identified evidence is the lookup by id. */
  lemma {:induction false} QualityOfLookup(c: Coercions, evidence: seq<Json>, id: string)
    requires Identified(IdOf(c, EvidenceId), evidence) && forall e :: e in evidence ==> Readable(c, e)
    ensures id in QualityOf(evidence) <==> exists i :: 0 <= i < |evidence| && EvidenceRefOf(evidence[i]).id == id
    ensures forall i :: 0 <= i < |evidence| && EvidenceRefOf(evidence[i]).id == id ==>
              id in QualityOf(evidence)
              && (QualityOf(evidence)[id] == "verified" <==> EvidenceRefOf(evidence[i]).verified)
  {
    if evidence != [] {
      var init, last := evidence[..|evidence| - 1], evidence[|evidence| - 1];
      QualityOfLookup(c, init, id);
      assert last in evidence && forall i :: 0 <= i < |init| ==> init[i] == evidence[i] && evidence[i] in evidence;
      assert EvidenceRefOf(last).id == TextOf(At(last, EvidenceId));
    }
  }

  lemma ItemWellFormed(m: Models, list: Key)
    requires Good(m) && IsList(list)
    ensures WellFormed(ItemShape(m, list))
  {
  }

  lemma KindItems(c: Coercions, m: Models, payload: Json, list: Key)
    requires Lawful(c) && Good(m) && IsList(list)
    ensures forall d :: d in RepairedItems(c, m, payload, list) ==> Fixed(c, ItemShape(m, list), d)
    ensures Identity(list).Some? ==> Identified(IdOf(c, Identity(list).value), RepairedItems(c, m, payload, list))
  {
    var kept := Kept(c, ItemShape(m, list), Items(At(payload, list)));
    ItemWellFormed(m, list);
    KeptFixed(c, ItemShape(m, list), Items(At(payload, list)));
    if Identity(list).Some? { FirstOfEachIdentified(IdOf(c, Identity(list).value), kept); }
  }

  lemma RepairedItemsAgain(c: Coercions, m: Models, payload: Json, again: Json, list: Key)
    requires Lawful(c) && Good(m) && IsList(list)
    requires At(again, list) == Arr(RepairedItems(c, m, payload, list))
    ensures RepairedItems(c, m, again, list) == RepairedItems(c, m, payload, list)
  {
    var items := RepairedItems(c, m, payload, list);
    KindItems(c, m, payload, list);
    FixedKept(c, ItemShape(m, list), items);
    if Identity(list).Some? { IdentifiedFirstOfEach(IdOf(c, Identity(list).value), items); }
  }

  lemma ConclusionListAgain(c: Coercions, m: Models, payload: Json, once: Json)
    requires Lawful(c) && Good(m)
    requires At(once, AttributionConclusions) == Arr(RepairedList(c, m, payload, AttributionConclusions))
    requires At(once, EvidenceList) == Arr(RepairedItems(c, m, payload, EvidenceList))
    ensures RepairedList(c, m, once, AttributionConclusions) == RepairedList(c, m, payload, AttributionConclusions)
  {
    RepairedItemsAgain(c, m, payload, once, EvidenceList);
    ConclusionsAgain(c, m, Items(At(payload, AttributionConclusions)),
                     QualityOf(RepairedItems(c, m, payload, EvidenceList)));
  }

  lemma OtherListAgain(c: Coercions, m: Models, payload: Json, once: Json, list: Key)
    requires Lawful(c) && Good(m) && IsList(list) && !list.AttributionConclusions?
    requires At(once, list) == Arr(RepairedList(c, m, payload, list))
    ensures RepairedList(c, m, once, list) == RepairedList(c, m, payload, list)
  {
    RepairedItemsAgain(c, m, payload, once, list);
  }

  /** A payload that holds the repaired lists repairs to the same lists. */
  lemma ListAgain(c: Coercions, m: Models, payload: Json, once: Json, list: Key)
    requires Lawful(c) && Good(m) && IsList(list)
    requires At(once, list) == Arr(RepairedList(c, m, payload, list))
    requires At(once, EvidenceList) == Arr(RepairedList(c, m, payload, EvidenceList))
    ensures RepairedList(c, m, once, list) == RepairedList(c, m, payload, list)
  {
    if list.AttributionConclusions? {
      EvidenceListIs(c, m, payload);
      ConclusionListAgain(c, m, payload, once);
    } else {
      OtherListAgain(c, m, payload, once, list);
    }
  }

  /** repair(repair(p)) equals repair(p) on every list. */
  lemma RepairIdempotent(c: Coercions, m: Models, payload: Json, errors: Json, again: Json, list: Key)
    requires Lawful(c) && Good(m) && payload.Obj? && IsList(list)
    ensures var once := Repaired(c, m, payload, errors);
      At(Repaired(c, m, once, again), list) == At(once, list)
  {
    var once := Repaired(c, m, payload, errors);
    assert IsList(EvidenceList);
    ListAgain(c, m, payload, once, list);
  }

  lemma ConclusionsAgain(c: Coercions, m: Models, values: seq<Json>, quality: map<string, string>)
    requires Lawful(c) && Good(m)
    ensures var once := RepairedConclusions(IdOf(c, ConclusionId), Settle(c, m, quality), values);
      RepairedConclusions(IdOf(c, ConclusionId), Settle(c, m, quality), once) == once
  {
    ConclusionsSettled(c, m, values, quality);
    var id, settle := IdOf(c, ConclusionId), Settle(c, m, quality);
    var once := RepairedConclusions(id, settle, values);
    forall d | d in once ensures d.Obj? && settle(d) == Some(d) { assert Settled(c, m, d, quality); }
    RewrittenKept(id, settle, once);
  }

  /** The repaired lists satisfy the cross-reference rules whatever the payload was. */
  lemma RepairedReferencesOk(c: Coercions, m: Models, payload: Json)
    requires Lawful(c) && Good(m) && payload.Obj?
    ensures ReferencesOk(EvidenceRefs(RepairedList(c, m, payload, EvidenceList)),
                         ConclusionRefs(RepairedList(c, m, payload, AttributionConclusions)))
  {
    var evidence := RepairedItems(c, m, payload, EvidenceList);
    var conclusions := RepairedList(c, m, payload, AttributionConclusions);
    var quality := QualityOf(evidence);
    KindItems(c, m, payload, EvidenceList);
    ConclusionsSettled(c, m, Items(At(payload, AttributionConclusions)), quality);
    forall e | e in evidence ensures Readable(c, e) { EvidenceReadable(c, m.evidence, m.qualities, e); }
    forall d | d in conclusions
      ensures IdText(c, d, ConclusionId) == ConclusionRefOf(d).id && SupportedBy(ConclusionRefOf(d), quality)
    {
      assert Settled(c, m, d, quality);
    }
    SettledReferencesOk(c, evidence, conclusions);
  }

  lemma SettledReferencesOk(c: Coercions, evidence: seq<Json>, conclusions: seq<Json>)
    requires Identified(IdOf(c, EvidenceId), evidence) && Identified(IdOf(c, ConclusionId), conclusions)
    requires forall e :: e in evidence ==> Readable(c, e)
    requires forall d :: d in conclusions ==>
               IdText(c, d, ConclusionId) == ConclusionRefOf(d).id
               && SupportedBy(ConclusionRefOf(d), QualityOf(evidence))
    ensures ReferencesOk(EvidenceRefs(evidence), ConclusionRefs(conclusions))
  {
    var refs, crefs := EvidenceRefs(evidence), ConclusionRefs(conclusions);
    assert Distinct(EvidenceIds(refs)) by {
      forall i | 0 <= i < |evidence| ensures IdText(c, evidence[i], EvidenceId) == EvidenceIds(refs)[i] {
        assert evidence[i] in evidence;
      }
    }
    assert Distinct(ConclusionIds(crefs)) by {
      forall i | 0 <= i < |conclusions| ensures IdText(c, conclusions[i], ConclusionId) == ConclusionIds(crefs)[i] {
        assert conclusions[i] in conclusions;
      }
    }
    forall ref | ref in crefs ensures CitesWell(refs, ref) {
      var i :| 0 <= i < |conclusions| && ref == ConclusionRefOf(conclusions[i]);
      assert conclusions[i] in conclusions;
      SupportedCitesWell(c, evidence, ref);
    }
  }

  lemma SupportedCitesWell(c: Coercions, evidence: seq<Json>, ref: ConclusionRef)
    requires Identified(IdOf(c, EvidenceId), evidence) && forall e :: e in evidence ==> Readable(c, e)
    requires SupportedBy(ref, QualityOf(evidence))
    ensures CitesWell(EvidenceRefs(evidence), ref)
  {
    var refs := EvidenceRefs(evidence);
    forall id | id in ref.evidenceIds ensures id in EvidenceIds(refs) {
      QualityOfLookup(c, evidence, id);
      var i :| 0 <= i < |evidence| && EvidenceRefOf(evidence[i]).id == id;
      assert EvidenceIds(refs)[i] == id;
    }
    if ref.confirmed {
      forall e | e in refs && e.id in ref.evidenceIds ensures e.verified {
        var k :| 0 <= k < |evidence| && e == EvidenceRefOf(evidence[k]);
        QualityOfLookup(c, evidence, e.id);
      }
    }
  }

  ghost predicate RequiredNonEmpty(payload: Json) {
    forall list :: Required(list) ==> Items(At(payload, list)) != []
  }

  /** A list is refused only when it is required and empty. */
  predicate OnlyEmptyRefused(c: Coercions, m: Models, out: Json, list: Key)
    requires out.Obj? && IsList(list)
  {
    FieldValue(c, ListField(m, list), out.fields) ==
    if Required(list) && Items(At(out, list)) == [] then None else Some(At(out, list))
  }

  lemma FixedField(c: Coercions, f: Field, item: Shape, atLeast: nat, obj: map<Key, Json>)
    requires f.shape == Many(item, atLeast) && f.name in obj && obj[f.name].Arr?
    requires ParseAll(c, item, obj[f.name].items) == Some(obj[f.name].items)
    ensures FieldValue(c, f, obj) == if |obj[f.name].items| < atLeast then None else Some(obj[f.name])
  {
  }

  lemma RepairedField(c: Coercions, m: Models, payload: Json, out: Json, list: Key)
    requires Lawful(c) && Good(m) && IsList(list) && out.Obj?
    requires At(out, list) == Arr(RepairedList(c, m, payload, list))
    ensures OnlyEmptyRefused(c, m, out, list)
  {
    var items := RepairedList(c, m, payload, list);
    RepairedFixed(c, m, payload, list);
    FixedKept(c, ItemShape(m, list), items);
    FixedField(c, ListField(m, list), ItemShape(m, list), if Required(list) then 1 else 0, out.fields);
  }

  lemma RepairedFixed(c: Coercions, m: Models, payload: Json, list: Key)
    requires Lawful(c) && Good(m) && IsList(list)
    ensures forall d :: d in RepairedList(c, m, payload, list) ==> Fixed(c, ItemShape(m, list), d)
  {
    if list.AttributionConclusions? {
      ConclusionsSettled(c, m, Items(At(payload, list)), QualityOf(RepairedItems(c, m, payload, EvidenceList)));
    } else {
      KindItems(c, m, payload, list);
    }
  }

  lemma RepairedOutside(c: Coercions, m: Models, payload: Json, errors: Json, key: Key)
    requires payload.Obj? && !IsList(key) && !key.RepairContext?
    ensures var out := Repaired(c, m, payload, errors).fields;
      (key in out <==> key in payload.fields) && (key in out ==> out[key] == payload.fields[key])
  {
  }

  lemma HeaderOutside(m: Models, f: Field)
    requires f in HeaderFields(m)
    ensures !IsList(f.name) && !f.name.RepairContext?
  {
  }

  lemma RepairedHeader(c: Coercions, m: Models, payload: Json, errors: Json)
    requires payload.Obj?
    ensures HeaderOk(c, m, Repaired(c, m, payload, errors)) <==> HeaderOk(c, m, payload)
  {
    var out := Repaired(c, m, payload, errors).fields;
    forall f | f in HeaderFields(m)
      ensures (f.name in payload.fields <==> f.name in out) && (f.name in out ==> out[f.name] == payload.fields[f.name])
    {
      HeaderOutside(m, f);
      RepairedOutside(c, m, payload, errors, f.name);
    }
    ParseFieldsLocal(c, HeaderFields(m), payload.fields, out);
  }

  /** Validation reads the header, each list and the two reference tables, and no more. */
  lemma ValidateIff(c: Coercions, m: Models, payload: Json, evidence: Json, conclusions: Json)
    requires payload.Obj?
    requires FieldValue(c, ListField(m, EvidenceList), payload.fields) in {None, Some(evidence)}
    requires FieldValue(c, ListField(m, AttributionConclusions), payload.fields) in {None, Some(conclusions)}
    ensures Validate(c, m, payload).Some? <==>
      && HeaderOk(c, m, payload)
      && ListsOk(c, m, payload.fields)
      && ReferencesOk(EvidenceRefs(Items(evidence)), ConclusionRefs(Items(conclusions)))
  {
  }

  lemma OnlyEmptyListsOk(c: Coercions, m: Models, out: Json)
    requires out.Obj? && forall list :: IsList(list) ==> OnlyEmptyRefused(c, m, out, list)
    ensures ListsOk(c, m, out.fields) <==> RequiredNonEmpty(out)
  {
    forall list | Required(list) ensures OnlyEmptyRefused(c, m, out, list) { assert IsList(list); }
  }

  lemma RepairedListsOk(c: Coercions, m: Models, payload: Json, errors: Json)
    requires Lawful(c) && Good(m) && payload.Obj?
    ensures var out := Repaired(c, m, payload, errors);
      (ListsOk(c, m, out.fields) <==> RequiredNonEmpty(out))
      && OnlyEmptyRefused(c, m, out, EvidenceList) && OnlyEmptyRefused(c, m, out, AttributionConclusions)
  {
    var out := Repaired(c, m, payload, errors);
    forall list | IsList(list) ensures OnlyEmptyRefused(c, m, out, list) {
      RepairedField(c, m, payload, out, list);
    }
    OnlyEmptyListsOk(c, m, out);
  }

  /** After repair, validation succeeds exactly when the header parses and every required
      list still has an item: ids, citations and the confirmed rules never fail it. */
  lemma RepairSound(c: Coercions, m: Models, payload: Json, errors: Json)
    requires Lawful(c) && Good(m) && payload.Obj?
    ensures Validate(c, m, Repaired(c, m, payload, errors)).Some?
            <==> HeaderOk(c, m, payload) && RequiredNonEmpty(Repaired(c, m, payload, errors))
  {
    var out := Repaired(c, m, payload, errors);
    RepairedListsOk(c, m, payload, errors);
    RepairedHeader(c, m, payload, errors);
    ValidateIff(c, m, out, At(out, EvidenceList), At(out, AttributionConclusions));
    assert ReferencesOk(EvidenceRefs(Items(At(out, EvidenceList))),
                        ConclusionRefs(Items(At(out, AttributionConclusions)))) by {
      RepairedReferencesOk(c, m, payload);
    }
  }
}

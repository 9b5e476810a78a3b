/** What the repair of a report does to its lists, said of the raw values alone: which items
    stay and in which order, and exactly when a conclusion is lowered. */
module RepairContract {
  import opened Basics
  import opened Schema
  import opened Report
  import opened ReportProofs

  // ---- validated items ----

  function ParsedAt(c: Coercions, shape: Shape, values: seq<Json>): nat -> Option<Json> {
    (k: nat) => if k < |values| then Parse(c, shape, values[k]) else None
  }

  /** Every value that parses is there, dumped, in order, and nothing else. */
  ghost predicate KeepsParsed(c: Coercions, shape: Shape, values: seq<Json>, out: seq<Json>) {
    exists from :: Picks(|values|, ParsedAt(c, shape, values), from, out)
  }

  lemma {:induction false} KeptParsed(c: Coercions, shape: Shape, values: seq<Json>) returns (from: seq<nat>)
    ensures Picks(|values|, ParsedAt(c, shape, values), from, Kept(c, shape, values))
  {
    from := [];
    if values != [] {
      var init, n := values[..|values| - 1], |values| - 1;
      from := KeptParsed(c, shape, init);
      PicksSame(n, ParsedAt(c, shape, init), ParsedAt(c, shape, values), from, Kept(c, shape, init));
      PicksMore(n, ParsedAt(c, shape, values), from, Kept(c, shape, init));
      if Parse(c, shape, values[n]).Some? { from := from + [n]; }
    }
  }

  lemma KeptIsExact(c: Coercions, shape: Shape, values: seq<Json>)
    ensures KeepsParsed(c, shape, values, Kept(c, shape, values))
  {
    var from := KeptParsed(c, shape, values);
  }

  /** The value parses with that identity. */
  predicate ParsesAs(c: Coercions, shape: Shape, id: Json -> string, value: Json, x: string) {
    Parse(c, shape, value).Some? && id(Parse(c, shape, value).value) == x
  }

  predicate SomeParsesAs(c: Coercions, shape: Shape, id: Json -> string, values: seq<Json>, x: string) {
    exists j :: 0 <= j < |values| && ParsesAs(c, shape, id, values[j], x)
  }

  /** The k-th value, when it parses with an identity that no earlier one has. */
  function FirstAt(c: Coercions, shape: Shape, id: Json -> string, values: seq<Json>): nat -> Option<Json> {
    (k: nat) =>
      if k >= |values| || Parse(c, shape, values[k]).None? then None
      else
        var d := Parse(c, shape, values[k]).value;
        if id(d) == "" || SomeParsesAs(c, shape, id, values[..k], id(d)) then None else Some(d)
  }

  /** Of the values that parse the first of each non-empty identity is there, in order, and
      nothing else. */
  ghost predicate KeepsFirst(c: Coercions, shape: Shape, id: Json -> string, values: seq<Json>, out: seq<Json>) {
    exists from :: Picks(|values|, FirstAt(c, shape, id, values), from, out)
  }

  lemma IdSetMore(id: Json -> string, items: seq<Json>, item: Json)
    ensures IdSet(id, items + [item]) == IdSet(id, items) + {id(item)}
  {
    var both := items + [item];
    assert both[|items|] == item && forall i :: 0 <= i < |items| ==> both[i] == items[i];
  }

  lemma SomeParsesMore(c: Coercions, shape: Shape, id: Json -> string, values: seq<Json>, x: string)
    requires values != []
    ensures SomeParsesAs(c, shape, id, values, x) <==>
            SomeParsesAs(c, shape, id, values[..|values| - 1], x) || ParsesAs(c, shape, id, values[|values| - 1], x)
  {
    var init := values[..|values| - 1];
    assert forall j :: 0 <= j < |init| ==> init[j] == values[j];
  }

  /** The identities of what is kept are those of what parses. */
  lemma {:induction false} IdentitiesKept(c: Coercions, shape: Shape, id: Json -> string, values: seq<Json>, x: string)
    requires x != ""
    ensures x in IdSet(id, FirstOfEach(id, Kept(c, shape, values))) <==> SomeParsesAs(c, shape, id, values, x)
  {
    if values != [] {
      var init, last := values[..|values| - 1], values[|values| - 1];
      IdentitiesKept(c, shape, id, init, x);
      SomeParsesMore(c, shape, id, values, x);
      if Parse(c, shape, last).Some? { IdentityMore(id, Kept(c, shape, init), Parse(c, shape, last).value, x); }
    }
  }

  /** One more item adds its identity. */
  lemma IdentityMore(id: Json -> string, items: seq<Json>, item: Json, x: string)
    requires x != ""
    ensures x in IdSet(id, FirstOfEach(id, items + [item])) <==>
            x in IdSet(id, FirstOfEach(id, items)) || id(item) == x
  {
    assert (items + [item])[..|items|] == items;
    IdSetMore(id, FirstOfEach(id, items), item);
  }

  /** One more value. */
  lemma FirstOfEachMore(c: Coercions, shape: Shape, id: Json -> string, values: seq<Json>)
    requires values != []
    ensures var n := |values| - 1;
      var was, made := FirstOfEach(id, Kept(c, shape, values[..n])), FirstAt(c, shape, id, values)(n);
      FirstOfEach(id, Kept(c, shape, values)) == if made.Some? then was + [made.value] else was
  {
    var n := |values| - 1;
    if Parse(c, shape, values[n]).Some? {
      var d := Parse(c, shape, values[n]).value;
      if id(d) != "" { IdentitiesKept(c, shape, id, values[..n], id(d)); }
    }
  }

  lemma {:induction false} KeptFirst(c: Coercions, shape: Shape, id: Json -> string, values: seq<Json>)
    returns (from: seq<nat>)
    ensures Picks(|values|, FirstAt(c, shape, id, values), from, FirstOfEach(id, Kept(c, shape, values)))
  {
    from := [];
    if values != [] {
      var init, n := values[..|values| - 1], |values| - 1;
      from := KeptFirst(c, shape, id, init);
      FirstAtPrefix(c, shape, id, values);
      PicksSame(n, FirstAt(c, shape, id, init), FirstAt(c, shape, id, values), from,
                FirstOfEach(id, Kept(c, shape, init)));
      PicksMore(n, FirstAt(c, shape, id, values), from, FirstOfEach(id, Kept(c, shape, init)));
      FirstOfEachMore(c, shape, id, values);
      if FirstAt(c, shape, id, values)(n).Some? { from := from + [n]; }
    }
  }

  lemma FirstAtPrefix(c: Coercions, shape: Shape, id: Json -> string, values: seq<Json>)
    requires values != []
    ensures forall k: nat :: k < |values| - 1 ==>
              FirstAt(c, shape, id, values[..|values| - 1])(k) == FirstAt(c, shape, id, values)(k)
  {
    var init := values[..|values| - 1];
    assert forall k: nat :: k < |init| ==> init[k] == values[k] && init[..k] == values[..k];
  }

  lemma FirstIsExact(c: Coercions, shape: Shape, id: Json -> string, values: seq<Json>)
    ensures KeepsFirst(c, shape, id, values, FirstOfEach(id, Kept(c, shape, values)))
  {
    var from := KeptFirst(c, shape, id, values);
  }

  // ---- one conclusion ----

  predicate CitedAt(c: Coercions, cited: seq<Json>, k: nat, id: string) { k < |cited| && c.text(cited[k]) == id }

  ghost predicate Cites(c: Coercions, cited: seq<Json>, id: string) { exists k :: CitedAt(c, cited, k, id) }

  /** The one is cited before the other is. */
  ghost predicate CitedBefore(c: Coercions, cited: seq<Json>, a: string, b: string) {
    exists k :: CitedAt(c, cited, k, a) && forall j: nat :: j <= k ==> !CitedAt(c, cited, j, b)
  }

  /** The known ids that are cited, each once, in the order of their first citations. */
  ghost predicate CitationsOf(c: Coercions, cited: seq<Json>, quality: map<string, string>, ids: seq<string>) {
    && Distinct(ids)
    && (forall id :: id in ids <==> id in quality && Cites(c, cited, id))
    && (forall i, j :: 0 <= i < j < |ids| ==> CitedBefore(c, cited, ids[i], ids[j]))
  }

  /** None of its citations is known. */
  ghost predicate Unsupported(c: Coercions, raw: Json, quality: map<string, string>) {
    forall id :: id in quality ==> !Cites(c, Items(At(raw, EvidenceIdList)), id)
  }

  /** Confirmed, while a known citation is not verified or verification is still asked for. */
  ghost predicate Overclaims(c: Coercions, raw: Json, quality: map<string, string>) {
    && At(raw, Status) == Str("confirmed")
    && (Truthy(At(raw, VerificationNeeded))
        || exists id :: id in quality && quality[id] != "verified" && Cites(c, Items(At(raw, EvidenceIdList)), id))
  }

  predicate SameField(raw: Json, item: Json, key: Key)
    requires raw.Obj? && item.Obj?
  {
    (key in raw.fields <==> key in item.fields) && At(raw, key) == At(item, key)
  }

  /** The confidence within [0, 1], 0 when it is no number, and at most the cap. */
  predicate CappedConfidence(c: Coercions, value: Json, cap: real, r: real) {
    var x := c.pyFloat(if Truthy(value) then value else Num(0.0)).GetOr(0.0);
    var unit := if x < 0.0 then 0.0 else if x > 1.0 then 1.0 else x;
    r == if unit > cap then cap else unit
  }

  predicate LoweredTo(c: Coercions, raw: Json, item: Json, status: string, cap: real) {
    && At(item, Status) == Str(status) && At(item, VerificationNeeded) == Bool(true)
    && At(item, Confidence).Num? && CappedConfidence(c, At(raw, Confidence), cap, At(item, Confidence).r)
  }

  /** What becomes of a raw conclusion before it is parsed: its known citations stay; its
      status, flag and confidence change only when it is unsupported or overclaims; all its
      other fields stay. */
  ghost predicate RewritesTo(c: Coercions, raw: Json, quality: map<string, string>, item: Json) {
    && raw.Obj? && item.Obj?
    && (forall key :: key != EvidenceIdList && key != Status && key != VerificationNeeded && key != Confidence ==>
          SameField(raw, item, key))
    && (exists ids :: CitationsOf(c, Items(At(raw, EvidenceIdList)), quality, ids)
          && At(item, EvidenceIdList) == Arr(Texts(ids)))
    && (if Unsupported(c, raw, quality) then LoweredTo(c, raw, item, "to_verify", 0.49)
        else if Overclaims(c, raw, quality) then LoweredTo(c, raw, item, "probable", 0.7)
        else
          SameField(raw, item, Status) && SameField(raw, item, VerificationNeeded) && SameField(raw, item, Confidence))
  }

  lemma {:induction false} KnownIdsAre(c: Coercions, cited: seq<Json>, quality: map<string, string>)
    ensures CitationsOf(c, cited, quality, KnownIds(c, cited, quality))
  {
    KnownIdsKnown(c, cited, quality);
    if cited != [] {
      var init, n := cited[..|cited| - 1], |cited| - 1;
      KnownIdsAre(c, init, quality);
      MoreCited(c, cited);
      var ids, was, last := KnownIds(c, cited, quality), KnownIds(c, init, quality), c.text(cited[n]);
      assert CitedAt(c, cited, n, last);
      forall i, j | 0 <= i < j < |ids| ensures CitedBefore(c, cited, ids[i], ids[j]) {
        assert ids[i] == was[i];
        if j < |was| {
          assert CitedBefore(c, init, was[i], was[j]);
        } else {
          assert Cites(c, init, was[i]) && !Cites(c, init, last);
          var k :| CitedAt(c, init, k, was[i]);
          assert CitedAt(c, cited, k, was[i]);
        }
      }
    }
  }

  lemma MoreCited(c: Coercions, cited: seq<Json>)
    requires cited != []
    ensures var init, n := cited[..|cited| - 1], |cited| - 1;
      && (forall k: nat, id :: k < n ==> (CitedAt(c, cited, k, id) <==> CitedAt(c, init, k, id)))
      && (forall id :: Cites(c, cited, id) <==> Cites(c, init, id) || id == c.text(cited[n]))
      && (forall a, b :: CitedBefore(c, init, a, b) ==> CitedBefore(c, cited, a, b))
  {
    var init, n := cited[..|cited| - 1], |cited| - 1;
    assert CitedAt(c, cited, n, c.text(cited[n]));
    forall id ensures Cites(c, cited, id) <==> Cites(c, init, id) || id == c.text(cited[n]) {
      if k :| CitedAt(c, init, k, id) { assert CitedAt(c, cited, k, id); }
      if k :| CitedAt(c, cited, k, id) { assert k == n || CitedAt(c, init, k, id); }
    }
    forall a, b | CitedBefore(c, init, a, b) ensures CitedBefore(c, cited, a, b) {
      var k :| CitedAt(c, init, k, a) && forall j: nat :: j <= k ==> !CitedAt(c, init, j, b);
      assert CitedAt(c, cited, k, a);
      assert forall j: nat :: j <= k ==> (CitedAt(c, cited, j, b) <==> CitedAt(c, init, j, b));
    }
  }

  lemma UnsupportedIff(c: Coercions, raw: Json, quality: map<string, string>)
    ensures Unsupported(c, raw, quality) <==> Cited(c, raw, quality) == []
    ensures !Unsupported(c, raw, quality) ==> (Overclaims(c, raw, quality) <==> Overstated(c, raw, quality))
    ensures CitationsOf(c, Items(At(raw, EvidenceIdList)), quality, Cited(c, raw, quality))
  {
    var cited, ids := Items(At(raw, EvidenceIdList)), Cited(c, raw, quality);
    KnownIdsAre(c, cited, quality);
    assert ids != [] ==> ids[0] in ids;
  }

  lemma OtherFieldsStay(c: Coercions, raw: Json, quality: map<string, string>, key: Key)
    requires raw.Obj? && key != EvidenceIdList && key != Status && key != VerificationNeeded && key != Confidence
    ensures SameField(raw, Rewritten(c, raw, quality), key)
  {
    WeakenedKeys(c, raw, "to_verify", 0.49);
    WeakenedKeys(c, raw, "probable", 0.7);
  }

  lemma WeakenedKeys(c: Coercions, raw: Json, status: string, cap: real)
    ensures Weakened(c, raw, status, cap).Keys == {Status, VerificationNeeded, Confidence}
  {
  }

  lemma RewritingIsExact(c: Coercions, raw: Json, quality: map<string, string>)
    requires raw.Obj?
    ensures RewritesTo(c, raw, quality, Rewritten(c, raw, quality))
  {
    var item := Rewritten(c, raw, quality);
    UnsupportedIff(c, raw, quality);
    RewrittenReads(c, raw, quality);
    forall key | key != EvidenceIdList && key != Status && key != VerificationNeeded && key != Confidence
      ensures SameField(raw, item, key)
    {
      OtherFieldsStay(c, raw, quality, key);
    }
  }

  // ---- the list of conclusions ----

  /** The k-th value is an object whose non-empty id no earlier object has. */
  predicate NewAt(c: Coercions, values: seq<Json>, k: nat)
    requires k < |values|
  {
    && values[k].Obj? && IdText(c, values[k], ConclusionId) != ""
    && forall j :: 0 <= j < k && values[j].Obj? ==>
         IdText(c, values[j], ConclusionId) != IdText(c, values[k], ConclusionId)
  }

  /** What a new conclusion comes to: its rewriting, if that parses. */
  ghost predicate ComesTo(c: Coercions, m: Models, raw: Json, quality: map<string, string>, d: Option<Json>) {
    exists item :: RewritesTo(c, raw, quality, item) && Parse(c, Record(m.conclusion), item) == d
  }

  function NewSettled(c: Coercions, m: Models, quality: map<string, string>, values: seq<Json>): nat -> Option<Json> {
    (k: nat) => if k < |values| && NewAt(c, values, k) then Settle(c, m, quality)(values[k]) else None
  }

  /** Each new conclusion comes to an item, or to nothing, and these items are there, in
      order, and nothing else. */
  ghost predicate ConcludesExactly(c: Coercions, m: Models, quality: map<string, string>, values: seq<Json>,
                                   out: seq<Json>) {
    exists made: nat -> Option<Json>, from: seq<nat> ::
      && (forall k: nat :: k < |values| ==>
            if NewAt(c, values, k) then ComesTo(c, m, values[k], quality, made(k)) else made(k) == None)
      && Picks(|values|, made, from, out)
  }

  lemma NewAtIs(c: Coercions, values: seq<Json>)
    requires values != []
    ensures NewAt(c, values, |values| - 1) <==> NewConclusion(IdOf(c, ConclusionId), values)
  {
    var n, id := |values| - 1, IdOf(c, ConclusionId);
    assert forall j :: 0 <= j < n ==> values[..n][j] == values[j];
  }

  lemma NewAtPrefix(c: Coercions, m: Models, quality: map<string, string>, values: seq<Json>)
    requires values != []
    ensures forall k: nat :: k < |values| - 1 ==>
              NewSettled(c, m, quality, values[..|values| - 1])(k) == NewSettled(c, m, quality, values)(k)
  {
    var init := values[..|values| - 1];
    forall k: nat | k < |init|
      ensures NewSettled(c, m, quality, init)(k) == NewSettled(c, m, quality, values)(k)
    {
      assert forall j: nat :: j <= k ==> init[j] == values[j];
      assert NewAt(c, init, k) <==> NewAt(c, values, k);
    }
  }

  lemma {:induction false} ConclusionsPicked(c: Coercions, m: Models, quality: map<string, string>, values: seq<Json>)
    returns (from: seq<nat>)
    ensures Picks(|values|, NewSettled(c, m, quality, values), from,
                  RepairedConclusions(IdOf(c, ConclusionId), Settle(c, m, quality), values))
  {
    from := [];
    if values != [] {
      var init, n := values[..|values| - 1], |values| - 1;
      var made := NewSettled(c, m, quality, values);
      ghost var was := RepairedConclusions(IdOf(c, ConclusionId), Settle(c, m, quality), init);
      from := ConclusionsPicked(c, m, quality, init);
      NewAtPrefix(c, m, quality, values);
      PicksSame(n, NewSettled(c, m, quality, init), made, from, was);
      PicksMore(n, made, from, was);
      NewAtIs(c, values);
      if made(n).Some? { from := from + [n]; }
    }
  }

  lemma ConclusionsAreExact(c: Coercions, m: Models, quality: map<string, string>, values: seq<Json>)
    ensures ConcludesExactly(c, m, quality, values,
                             RepairedConclusions(IdOf(c, ConclusionId), Settle(c, m, quality), values))
  {
    var made := NewSettled(c, m, quality, values);
    var from := ConclusionsPicked(c, m, quality, values);
    forall k: nat | k < |values|
      ensures if NewAt(c, values, k) then ComesTo(c, m, values[k], quality, made(k)) else made(k) == None
    {
      if NewAt(c, values, k) {
        RewritingIsExact(c, values[k], quality);
        assert RewritesTo(c, values[k], quality, Rewritten(c, values[k], quality));
      }
    }
  }

  // ---- the whole payload ----

  predicate HasId(e: Json, id: string) { TextOf(At(e, EvidenceId)) == id }

  /** The table says which ids the evidence has, and which of it is verified. */
  ghost predicate Tabulates(quality: map<string, string>, evidence: seq<Json>) {
    && (forall id :: id in quality <==> exists e :: e in evidence && HasId(e, id))
    && (forall e, id :: e in evidence && HasId(e, id) ==>
          id in quality && (quality[id] == "verified" <==> At(e, QualityStatus) == Str("verified")))
  }

  lemma QualityTabulates(c: Coercions, m: Models, payload: Json)
    requires Lawful(c) && Good(m)
    ensures var evidence := RepairedItems(c, m, payload, EvidenceList); Tabulates(QualityOf(evidence), evidence)
  {
    var evidence := RepairedItems(c, m, payload, EvidenceList);
    KindItems(c, m, payload, EvidenceList);
    forall e | e in evidence ensures Readable(c, e) { EvidenceReadable(c, m.evidence, m.qualities, e); }
    forall id ensures id in QualityOf(evidence) <==> exists e :: e in evidence && HasId(e, id) {
      QualityOfLookup(c, evidence, id);
      if e :| e in evidence && HasId(e, id) {
        var i :| 0 <= i < |evidence| && evidence[i] == e;
        assert EvidenceRefOf(evidence[i]).id == id;
      }
      if id in QualityOf(evidence) {
        var i :| 0 <= i < |evidence| && EvidenceRefOf(evidence[i]).id == id;
        assert evidence[i] in evidence && HasId(evidence[i], id);
      }
    }
    forall e, id | e in evidence && HasId(e, id)
      ensures id in QualityOf(evidence)
           && (QualityOf(evidence)[id] == "verified" <==> At(e, QualityStatus) == Str("verified"))
    {
      QualityOfLookup(c, evidence, id);
      var i :| 0 <= i < |evidence| && evidence[i] == e;
      assert EvidenceRefOf(evidence[i]).id == id;
    }
  }

  /** The conclusions are settled by what the kept evidence says. */
  ghost predicate ConclusionsRepaired(c: Coercions, m: Models, values: seq<Json>, evidence: seq<Json>,
                                      items: seq<Json>) {
    exists quality :: Tabulates(quality, evidence) && ConcludesExactly(c, m, quality, values, items)
  }

  /** What one repaired list holds. */
  ghost predicate ListRepaired(c: Coercions, m: Models, payload: Json, out: Json, list: Key)
    requires IsList(list)
  {
    var values, items := Items(At(payload, list)), Items(At(out, list));
    && At(out, list).Arr?
    && match list
       case EvidenceList => KeepsFirst(c, ItemShape(m, list), IdOf(c, EvidenceId), values, items)
       case Visualizations => KeepsFirst(c, ItemShape(m, list), IdOf(c, ChartId), values, items)
       case SourceFiles => KeepsFirst(c, ItemShape(m, list), IdOf(c, FileId), values, items)
       case AttributionConclusions => ConclusionsRepaired(c, m, values, Items(At(out, EvidenceList)), items)
       case _ => KeepsParsed(c, ItemShape(m, list), values, items)
  }

  /** All that repair changes: the eight lists, and the note of what was repaired. */
  ghost predicate RepairsExactly(c: Coercions, m: Models, payload: Json, errors: Json, out: Json)
    requires payload.Obj?
  {
    && out.Obj?
    && (forall list :: IsList(list) ==> ListRepaired(c, m, payload, out, list))
    && (forall key :: !IsList(key) && key != RepairContext ==> SameField(payload, out, key))
    && At(At(out, RepairContext), Named("validation_errors")) == errors
  }

  lemma ItemsAreRepaired(c: Coercions, m: Models, payload: Json, out: Json, list: Key)
    requires IsList(list) && !list.AttributionConclusions?
    requires At(out, list) == Arr(RepairedItems(c, m, payload, list))
    ensures ListRepaired(c, m, payload, out, list)
  {
    var values := Items(At(payload, list));
    match Identity(list)
    case Some(field) => FirstIsExact(c, ItemShape(m, list), IdOf(c, field), values);
    case None => KeptIsExact(c, ItemShape(m, list), values);
  }

  lemma ConclusionsAreRepaired(c: Coercions, m: Models, payload: Json)
    requires Lawful(c) && Good(m)
    ensures ConclusionsRepaired(c, m, Items(At(payload, AttributionConclusions)),
                                RepairedItems(c, m, payload, EvidenceList),
                                RepairedList(c, m, payload, AttributionConclusions))
  {
    var quality := QualityOf(RepairedItems(c, m, payload, EvidenceList));
    QualityTabulates(c, m, payload);
    ConclusionsAreExact(c, m, quality, Items(At(payload, AttributionConclusions)));
  }

  lemma ListIsRepaired(c: Coercions, m: Models, payload: Json, errors: Json, list: Key)
    requires Lawful(c) && Good(m) && payload.Obj? && IsList(list)
    ensures ListRepaired(c, m, payload, Repaired(c, m, payload, errors), list)
  {
    var out := Repaired(c, m, payload, errors);
    assert IsList(EvidenceList);
    EvidenceListIs(c, m, payload);
    if list.AttributionConclusions? {
      ConclusionsAreRepaired(c, m, payload);
    } else {
      ItemsAreRepaired(c, m, payload, out, list);
    }
  }

  lemma OthersStay(c: Coercions, m: Models, payload: Json, errors: Json, key: Key)
    requires payload.Obj? && !IsList(key) && key != RepairContext
    ensures SameField(payload, Repaired(c, m, payload, errors), key)
  {
    RepairedOutside(c, m, payload, errors, key);
  }

  lemma ErrorsNoted(c: Coercions, m: Models, payload: Json, errors: Json)
    requires payload.Obj?
    ensures At(At(Repaired(c, m, payload, errors), RepairContext), Named("validation_errors")) == errors
  {
    assert "validation_errors" != "strategy" by { assert |"validation_errors"| != |"strategy"|; }
  }

  lemma RepairIsExact(c: Coercions, m: Models, payload: Json, errors: Json)
    requires Lawful(c) && Good(m) && payload.Obj?
    ensures RepairsExactly(c, m, payload, errors, Repaired(c, m, payload, errors))
  {
    var out := Repaired(c, m, payload, errors);
    forall list | IsList(list) ensures ListRepaired(c, m, payload, out, list) {
      ListIsRepaired(c, m, payload, errors, list);
    }
    forall key | !IsList(key) && key != RepairContext ensures SameField(payload, out, key) {
      OthersStay(c, m, payload, errors, key);
    }
    ErrorsNoted(c, m, payload, errors);
  }

  // ---- what is sound stays ----

  /** A conclusion that its citations support: it cites kept evidence, each once, and is
      confirmed only on verified evidence and without asking for verification. */
  ghost predicate Supported(raw: Json, evidence: seq<Json>, ids: seq<string>) {
    && At(raw, EvidenceIdList) == Arr(Texts(ids)) && ids != [] && Distinct(ids)
    && (forall id :: id in ids ==> exists e :: e in evidence && HasId(e, id))
    && (At(raw, Status) == Str("confirmed") ==>
          && !Truthy(At(raw, VerificationNeeded))
          && forall e, id :: e in evidence && id in ids && HasId(e, id) ==> At(e, QualityStatus) == Str("verified"))
  }

  lemma SupportedSame(c: Coercions, m: Models, raw: Json, evidence: seq<Json>, ids: seq<string>,
                      quality: map<string, string>)
    requires Lawful(c) && Good(m) && Tabulates(quality, evidence) && Supported(raw, evidence, ids)
    requires Parse(c, Record(m.conclusion), raw) == Some(raw)
    ensures raw.Obj? && Rewritten(c, raw, quality) == raw
  {
    forall id | id in ids ensures id in quality {
      var e :| e in evidence && HasId(e, id);
    }
    KnownIdsFixed(c, ids, quality);
    ConclusionDumped(c, m.conclusion, m.statuses, raw, raw);
    forall id | id in ids && At(raw, Status) == Str("confirmed") ensures quality[id] == "verified" {
      var e :| e in evidence && HasId(e, id);
    }
    RewrittenSame(c, raw, quality);
  }

  lemma SettledKept(c: Coercions, m: Models, quality: map<string, string>, raws: seq<Json>, k: nat)
    requires k < |raws| && NewAt(c, raws, k) && Settle(c, m, quality)(raws[k]) == Some(raws[k])
    ensures raws[k] in RepairedConclusions(IdOf(c, ConclusionId), Settle(c, m, quality), raws)
  {
    var from := ConclusionsPicked(c, m, quality, raws);
    assert NewSettled(c, m, quality, raws)(k) == Some(raws[k]);
  }

  /** A raw conclusion with a new id that its citations support, and that parses to itself,
      is in the repaired list unchanged, whatever else had to be repaired. */
  lemma SoundConclusionKept(c: Coercions, m: Models, payload: Json, errors: Json, k: nat, ids: seq<string>)
    requires Lawful(c) && Good(m) && payload.Obj? && k < |Items(At(payload, AttributionConclusions))|
    requires var raws, out := Items(At(payload, AttributionConclusions)), Repaired(c, m, payload, errors);
      && NewAt(c, raws, k) && Parse(c, Record(m.conclusion), raws[k]) == Some(raws[k])
      && Supported(raws[k], Items(At(out, EvidenceList)), ids)
    ensures Items(At(payload, AttributionConclusions))[k]
         in Items(At(Repaired(c, m, payload, errors), AttributionConclusions))
  {
    var raws, out := Items(At(payload, AttributionConclusions)), Repaired(c, m, payload, errors);
    var evidence := RepairedItems(c, m, payload, EvidenceList);
    assert IsList(EvidenceList) && IsList(AttributionConclusions);
    EvidenceListIs(c, m, payload);
    QualityTabulates(c, m, payload);
    SupportedSame(c, m, raws[k], evidence, ids, QualityOf(evidence));
    SettledKept(c, m, QualityOf(evidence), raws, k);
  }
}

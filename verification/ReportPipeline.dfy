/** The report half of the graph with the repository's own validator. */
module ReportPipeline {
  import opened Basics
  import opened Schema
  import opened Report
  import opened ReportProofs
  import opened Graph

  function ValidatorOf(c: Coercions, m: Models): Validator {
    Validator((p: Json) => Validate(c, m, p),
              (p: Json, errors: Json) => if p.Obj? then Repaired(c, m, p, errors) else p)
  }

  lemma HeaderWellFormed(m: Models)
    requires WellFormed(m.problem)
    ensures WellFormedFields(HeaderFields(m))
    ensures forall f :: f in HeaderFields(m) ==> !IsList(f.name)
  {
  }

  lemma HeaderStable(c: Coercions, m: Models, payload: Json, lists: map<Key, Json>)
    requires Lawful(c) && Good(m) && payload.Obj? && HeaderOk(c, m, payload)
    requires forall key :: key in lists ==> IsList(key)
    ensures var header := ParseFields(c, HeaderFields(m), payload.fields).value;
      (forall key :: key in header ==> !IsList(key))
      && ParseFields(c, HeaderFields(m), header + lists) == Some(header)
  {
    var fields := HeaderFields(m);
    HeaderWellFormed(m);
    FieldsStable(c, fields, payload.fields, lists);
  }

  lemma FieldsStable(c: Coercions, fields: seq<Field>, obj: map<Key, Json>, lists: map<Key, Json>)
    requires Lawful(c) && WellFormedFields(fields) && ParseFields(c, fields, obj).Some?
    requires forall f :: f in fields ==> f.name !in lists
    ensures var header := ParseFields(c, fields, obj).value;
      (forall key :: key in header ==> exists f :: f in fields && f.name == key)
      && ParseFields(c, fields, header + lists) == Some(header)
  {
    var header := ParseFields(c, fields, obj).value;
    ParseFieldsKeys(c, fields, obj);
    ParseFieldsStable(c, fields, obj, header + lists);
  }

  lemma ListStable(c: Coercions, m: Models, list: Key, obj: map<Key, Json>, back: map<Key, Json>)
    requires Lawful(c) && Good(m) && IsList(list) && FieldValue(c, ListField(m, list), obj).Some?
    requires list in back && back[list] == FieldValue(c, ListField(m, list), obj).value
    ensures FieldValue(c, ListField(m, list), back) == FieldValue(c, ListField(m, list), obj)
  {
    ItemWellFormed(m, list);
    FieldStable(c, ListField(m, list), obj, back);
  }

  predicate SameList(c: Coercions, m: Models, list: Key, obj: map<Key, Json>, back: map<Key, Json>)
    requires IsList(list)
  {
    FieldValue(c, ListField(m, list), back) == FieldValue(c, ListField(m, list), obj)
  }

  lemma SameLists(c: Coercions, m: Models, obj: map<Key, Json>, back: map<Key, Json>)
    requires ListsOk(c, m, obj) && forall list :: IsList(list) ==> SameList(c, m, list, obj, back)
    ensures ListsOk(c, m, back) && ParsedLists(c, m, back) == ParsedLists(c, m, obj)
  {
  }

  lemma ListsStable(c: Coercions, m: Models, obj: map<Key, Json>, header: map<Key, Json>)
    requires Lawful(c) && Good(m) && ListsOk(c, m, obj)
    ensures var lists := ParsedLists(c, m, obj);
      ListsOk(c, m, header + lists) && ParsedLists(c, m, header + lists) == lists
  {
    var lists := ParsedLists(c, m, obj);
    var back := header + lists;
    forall list | IsList(list) ensures SameList(c, m, list, obj, back) {
      assert list in lists && back[list] == lists[list];
      ListStable(c, m, list, obj, back);
    }
    SameLists(c, m, obj, back);
  }

  /** A validated report has its header fields and its lists as they parse, and nothing else. */
  lemma ValidatedIs(c: Coercions, m: Models, payload: Json)
    requires Validate(c, m, payload).Some?
    ensures var out := Validate(c, m, payload).value;
      && payload.Obj? && out.Obj?
      && (forall list :: IsList(list) ==>
            list in out.fields && FieldValue(c, ListField(m, list), payload.fields) == Some(At(out, list)))
      && (forall f :: f in HeaderFields(m) && WellFormedFields(HeaderFields(m)) ==>
            f.name in out.fields && FieldValue(c, f, payload.fields) == Some(At(out, f.name)))
  {
    var header, lists := ParseFields(c, HeaderFields(m), payload.fields).value, ParsedLists(c, m, payload.fields);
    assert Validate(c, m, payload) == Some(Obj(header + lists));
    forall f | f in HeaderFields(m) && WellFormedFields(HeaderFields(m))
      ensures f.name in header + lists && FieldValue(c, f, payload.fields) == Some((header + lists)[f.name])
    {
      ParseFieldsIff(c, HeaderFields(m), payload.fields);
      HeaderOutside(m, f);
    }
  }

  /** Validation is a projection: a validated report validates to itself. */
  lemma ValidateStable(c: Coercions, m: Models, payload: Json)
    requires Lawful(c) && Good(m) && Validate(c, m, payload).Some?
    ensures Validate(c, m, Validate(c, m, payload).value) == Validate(c, m, payload)
  {
    var header, lists := ParseFields(c, HeaderFields(m), payload.fields).value, ParsedLists(c, m, payload.fields);
    assert Validate(c, m, payload) == Some(Obj(header + lists));
    HeaderStable(c, m, payload, lists);
    ListsStable(c, m, payload.fields, header);
  }

  lemma RepairedTruthy(c: Coercions, m: Models, payload: Json, errors: Json)
    requires payload.Obj?
    ensures Truthy(Repaired(c, m, payload, errors))
  {
    assert IsList(KeyMetrics) && At(Repaired(c, m, payload, errors), KeyMetrics) != Null;
  }

  lemma ValidatedTruthy(c: Coercions, m: Models, payload: Json)
    requires Validate(c, m, payload).Some?
    ensures Validate(c, m, payload).value.Obj? && Truthy(Validate(c, m, payload).value)
  {
    assert IsList(KeyMetrics) && KeyMetrics in Validate(c, m, payload).value.fields;
  }

  /** The report validator is one the graph's guarantees hold for. */
  lemma ValidatorProjects(c: Coercions, m: Models)
    requires Lawful(c) && Good(m)
    ensures Projects(ValidatorOf(c, m))
  {
    var v := ValidatorOf(c, m);
    forall p: Json | v.validate(p).Some?
      ensures NonEmptyDict(v.validate(p).value) && v.validate(v.validate(p).value) == v.validate(p)
    {
      ValidateStable(c, m, p);
      ValidatedTruthy(c, m, p);
    }
    forall p: Json, errors | p.Obj? ensures NonEmptyDict(v.repair(p, errors)) { RepairedTruthy(c, m, p, errors); }
  }

  /** A run renders a report exactly when the first draft validates, or its header parses
      and repair leaves every required list an item; otherwise it ends REPORT_INVALID. */
  lemma ReportRenderedIff(c: Coercions, m: Models, o: nat -> Oracle)
    requires Lawful(c) && Good(m)
    ensures var vs := Visits(ValidatorOf(c, m), BuildReportIR, START, o, 0);
      vs[|vs| - 1].node == RenderReport <==>
      || Validate(c, m, Draft(o(0))).Some?
      || (HeaderOk(c, m, Draft(o(0))) && RequiredNonEmpty(Repaired(c, m, Draft(o(0)), o(1).errors)))
  {
    RenderedIff(ValidatorOf(c, m), o);
    RepairSound(c, m, Draft(o(0)), o(1).errors);
  }
}

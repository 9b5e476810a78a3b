/** JSON values and the schemas of the report's items.  Pydantic's parse is modelled
    as a partial function from raw JSON to the JSON of the dumped model; the scalar
    coercions it applies are left arbitrary up to the laws in `Lawful`. */
module Schema {
  import opened Basics

  /** Object keys: a constructor for each key the code treats by name. */
  datatype Key =
    | SchemaVersion | TaskId | ProblemDefinition | KeyMetrics | EvidenceList | AttributionConclusions
    | MissingData | NextActions | Visualizations | SourceFiles | GeneratedFiles | RepairContext
    | EvidenceId | QualityStatus | ConclusionId | Status | Confidence | EvidenceIdList | VerificationNeeded
    | ChartId | Type | Categories | Series | Columns | Rows | Data | FileId
    | Question | Scope | Metric | Baseline | Scenario | Assumptions | MetricId | Label | Value | Unit
    | Formula | BaselineValue | AbsoluteChange | ChangeRate | Title | Description | EvidenceType
    | CurrentValue | ChangeValue | SourceFileIds | ImpactLevel | FieldName | Reason | Impact
    | RequiredAction | ActionId | Priority | OwnerHint | Name | Dimension | FileName | SourceType
    | RowCount | FileType | StorageKey | FileSize | Sha256
    | Named(text: string)

  datatype Json =
    | Null
    | Bool(b: bool)
    | Num(r: real)
    | Str(s: string)
    | Arr(items: seq<Json>)
    | Obj(fields: map<Key, Json>)

  // dict.get, and the reads the callers do on its result

  function At(j: Json, key: Key): Json {
    if j.Obj? && key in j.fields then j.fields[key] else Null
  }

  function TextOf(j: Json): string { if j.Str? then j.s else "" }

  /** `values if isinstance(values, list) else []` */
  function Items(j: Json): seq<Json> { if j.Arr? then j.items else [] }

  /** Python's truth value. */
  predicate Truthy(j: Json) {
    match j
    case Null => false
    case Bool(b) => b
    case Num(r) => r != 0.0
    case Str(s) => s != ""
    case Arr(items) => items != []
    case Obj(fields) => fields != map[]
  }

  function Texts(ids: seq<string>): (r: seq<Json>)
    ensures |r| == |ids| && forall i :: 0 <= i < |r| ==> r[i] == Str(ids[i])
  {
    seq(|ids|, i requires 0 <= i < |ids| => Str(ids[i]))
  }

  /** Lax scalar parsing (`number`, `flag`) and Python's float() and str(). */
  datatype Coercions = Coercions(
    number: Json -> Option<real>,
    flag: Json -> Option<bool>,
    pyFloat: Json -> Option<real>,
    text: Json -> string)

  ghost predicate Lawful(c: Coercions) {
    && (forall r :: c.number(Num(r)) == Some(r) && c.pyFloat(Num(r)) == Some(r))
    && (forall b :: c.flag(Bool(b)) == Some(b))
    && (forall s :: c.text(Str(s)) == s)
    && (forall j :: !Truthy(j) ==> c.flag(j) != Some(true))
    && (forall j :: c.number(j).Some? ==>
          if Truthy(j) then c.pyFloat(j) == c.number(j) else c.number(j).value == 0.0)
  }

  /** The strictest of them: nothing is converted. */
  function Strict(): Coercions {
    Coercions(StrictNumber, (j: Json) => if j.Bool? then Some(j.b) else None, StrictNumber, TextOf)
  }

  function StrictNumber(j: Json): Option<real> { if j.Num? then Some(j.r) else None }

  lemma StrictIsLawful()
    ensures Lawful(Strict())
  {
    var c := Strict();
    forall j ensures !Truthy(j) ==> c.flag(j) != Some(true) { }
    forall j | c.number(j).Some?
      ensures if Truthy(j) then c.pyFloat(j) == c.number(j) else c.number(j).value == 0.0
    {
      assert j.Num?;
    }
  }

  datatype Field = Field(name: Key, shape: Shape, default: Option<Json>)

  datatype Shape =
    | Text
    | Number(low: Option<real>, high: Option<real>)
    | Whole                                   // int with ge=0
    | Flag
    | OneOf(choices: seq<string>)
    | Mapping                                 // dict[str, Any]
    | Maybe(inner: Shape)
    | Many(item: Shape, atLeast: nat)
    | Record(fields: seq<Field>)
    | Chart(fields: seq<Field>)               // a record checked by validate_shape

  predicate InRange(r: real, low: Option<real>, high: Option<real>) {
    (low.Some? ==> low.value <= r) && (high.Some? ==> r <= high.value)
  }

  function Parse(c: Coercions, shape: Shape, j: Json): Option<Json>
    decreases shape, 0
  {
    match shape
    case Text => if j.Str? then Some(j) else None
    case Number(low, high) =>
      (match c.number(j)
       case Some(r) => if InRange(r, low, high) then Some(Num(r)) else None
       case None => None)
    case Whole =>
      (match c.number(j)
       case Some(r) => if 0.0 <= r && r.Floor as real == r then Some(Num(r)) else None
       case None => None)
    case Flag => (match c.flag(j) case Some(b) => Some(Bool(b)) case None => None)
    case OneOf(choices) => if j.Str? && j.s in choices then Some(j) else None
    case Mapping => if j.Obj? then Some(j) else None
    case Maybe(inner) => if j.Null? then Some(Null) else Parse(c, inner, j)
    case Many(item, atLeast) =>
      if !j.Arr? || |j.items| < atLeast then None
      else
        (match ParseAll(c, item, j.items) case Some(out) => Some(Arr(out)) case None => None)
    case Record(fields) =>
      if !j.Obj? then None
      else (match ParseFields(c, fields, j.fields) case Some(m) => Some(Obj(m)) case None => None)
    case Chart(fields) =>
      if !j.Obj? then None
      else
        (match ParseFields(c, fields, j.fields)
         case Some(m) => if ChartOk(Obj(m)) then Some(Obj(m)) else None
         case None => None)
  }

  function ParseAll(c: Coercions, shape: Shape, items: seq<Json>): (r: Option<seq<Json>>)
    ensures r.Some? ==> |r.value| == |items|
    decreases shape, 1 + |items|
  {
    if items == [] then Some([])
    else
      match (ParseAll(c, shape, items[..|items| - 1]), Parse(c, shape, items[|items| - 1]))
      case (Some(init), Some(last)) => Some(init + [last])
      case _ => None
  }

  function FieldValue(c: Coercions, f: Field, obj: map<Key, Json>): Option<Json>
    decreases f, 0
  {
    if f.name in obj then Parse(c, f.shape, obj[f.name]) else f.default
  }

  function ParseFields(c: Coercions, fields: seq<Field>, obj: map<Key, Json>): Option<map<Key, Json>>
    decreases fields, 0
  {
    if fields == [] then Some(map[])
    else
      match (FieldValue(c, fields[0], obj), ParseFields(c, fields[1..], obj))
      case (Some(v), Some(m)) => Some(m[fields[0].name := v])
      case _ => None
  }

  /** Visualization.validate_shape, on the dumped model. */
  predicate ChartOk(j: Json) {
    var categories, series := Items(At(j, Categories)), Items(At(j, Series));
    if At(j, Type) == Str("table") then
      Items(At(j, Columns)) != [] && |Items(At(j, Rows))| <= 500
    else
      && categories != [] && series != [] && |categories| <= 500
      && forall i :: 0 <= i < |series| ==> |Items(At(series[i], Data))| == |categories|
  }

  predicate WellFormed(shape: Shape) {
    match shape
    case Maybe(inner) => WellFormed(inner)
    case Many(item, _) => WellFormed(item)
    case Record(fields) => WellFormedFields(fields)
    case Chart(fields) => WellFormedFields(fields)
    case _ => true
  }

  /** Field names are distinct and every default is a value its own shape keeps. */
  predicate WellFormedFields(fields: seq<Field>) {
    && (forall i, j :: 0 <= i < j < |fields| ==> fields[i].name != fields[j].name)
    && (forall i :: 0 <= i < |fields| ==> WellFormedField(fields[i]))
  }

  predicate WellFormedField(f: Field) { WellFormed(f.shape) && DefaultKept(f) }

  predicate DefaultKept(f: Field) {
    match f.default
    case None => true
    case Some(d) =>
      match f.shape
      case Maybe(_) => d == Null
      case Many(_, atLeast) => atLeast == 0 && d == Arr([])
      case OneOf(choices) => d.Str? && d.s in choices
      case _ => false
  }

  // ---- what a parse keeps ----

  /** Dumping a parsed value and parsing it again gives the same value. */
  lemma {:induction false} ParseStable(c: Coercions, shape: Shape, j: Json)
    requires Lawful(c) && WellFormed(shape) && Parse(c, shape, j).Some?
    ensures Parse(c, shape, Parse(c, shape, j).value) == Parse(c, shape, j)
    decreases shape, 0
  {
    match shape
    case Maybe(inner) => if !j.Null? { ParseStable(c, inner, j); }
    case Many(item, atLeast) => ParseAllStable(c, item, j.items);
    case Record(fields) =>
      var m := ParseFields(c, fields, j.fields).value;
      ParseFieldsStable(c, fields, j.fields, m);
    case Chart(fields) =>
      var m := ParseFields(c, fields, j.fields).value;
      ParseFieldsStable(c, fields, j.fields, m);
    case _ =>
  }

  lemma {:induction false} ParseAllStable(c: Coercions, shape: Shape, items: seq<Json>)
    requires Lawful(c) && WellFormed(shape) && ParseAll(c, shape, items).Some?
    ensures ParseAll(c, shape, ParseAll(c, shape, items).value) == ParseAll(c, shape, items)
    decreases shape, 1 + |items|
  {
    if items != [] {
      var out := ParseAll(c, shape, items).value;
      ParseAllStable(c, shape, items[..|items| - 1]);
      ParseStable(c, shape, items[|items| - 1]);
      assert out[..|out| - 1] == ParseAll(c, shape, items[..|items| - 1]).value;
    }
  }

  lemma {:induction false} ParseFieldsStable(c: Coercions, fields: seq<Field>, obj: map<Key, Json>,
                                             back: map<Key, Json>)
    requires Lawful(c) && WellFormedFields(fields) && ParseFields(c, fields, obj).Some?
    requires var m := ParseFields(c, fields, obj).value; forall k :: k in m ==> k in back && back[k] == m[k]
    ensures ParseFields(c, fields, back) == ParseFields(c, fields, obj)
    ensures ParseFields(c, fields, obj).value.Keys == set f | f in fields :: f.name
    decreases fields, 0
  {
    if fields != [] {
      var f, rest := fields[0], fields[1..];
      var m := ParseFields(c, fields, obj).value;
      var inner := ParseFields(c, rest, obj).value;
      ParseFieldsKeys(c, rest, obj);
      assert forall k :: k in inner ==> k != f.name;
      ParseFieldsStable(c, rest, obj, back);
      assert f.name in back && back[f.name] == m[f.name];
      FieldStable(c, f, obj, back);
      ParseFieldsKeys(c, fields, obj);
    }
  }

  lemma {:induction false} FieldStable(c: Coercions, f: Field, obj: map<Key, Json>, back: map<Key, Json>)
    requires Lawful(c) && WellFormedField(f) && FieldValue(c, f, obj).Some?
    requires f.name in back && back[f.name] == FieldValue(c, f, obj).value
    ensures FieldValue(c, f, back) == FieldValue(c, f, obj)
    decreases f, 0
  {
    if f.name in obj {
      ParseStable(c, f.shape, obj[f.name]);
    } else if f.shape.Many? {
      assert ParseAll(c, f.shape.item, []) == Some([]);
    }
  }

  lemma {:induction false} ParseFieldsKeys(c: Coercions, fields: seq<Field>, obj: map<Key, Json>)
    requires ParseFields(c, fields, obj).Some?
    ensures ParseFields(c, fields, obj).value.Keys == set f | f in fields :: f.name
  {
    if fields != [] {
      ParseFieldsKeys(c, fields[1..], obj);
      assert fields == [fields[0]] + fields[1..];
    }
  }

  /** A record parses exactly when every field does, each into its own value. */
  lemma RestNamedApart(fields: seq<Field>)
    requires WellFormedFields(fields) && fields != []
    ensures forall f :: f in fields[1..] ==> f.name != fields[0].name
    ensures forall f :: f in fields <==> f == fields[0] || f in fields[1..]
  {
    var rest := fields[1..];
    assert fields == [fields[0]] + rest;
    forall f | f in rest ensures f.name != fields[0].name {
      var i :| 0 <= i < |rest| && rest[i] == f;
      assert fields[i + 1] == f;
    }
  }

  lemma {:induction false} ParseFieldsIff(c: Coercions, fields: seq<Field>, obj: map<Key, Json>)
    requires WellFormedFields(fields)
    ensures ParseFields(c, fields, obj).Some? <==> forall f :: f in fields ==> FieldValue(c, f, obj).Some?
    ensures ParseFields(c, fields, obj).Some? ==>
              forall f :: f in fields ==>
                f.name in ParseFields(c, fields, obj).value &&
                ParseFields(c, fields, obj).value[f.name] == FieldValue(c, f, obj).value
  {
    if fields != [] {
      ParseFieldsIff(c, fields[1..], obj);
      RestNamedApart(fields);
    }
  }

  /** A record's parse reads nothing but its own fields. */
  lemma {:induction false} ParseFieldsLocal(c: Coercions, fields: seq<Field>, a: map<Key, Json>, b: map<Key, Json>)
    requires forall f :: f in fields ==> (f.name in a <==> f.name in b)
    requires forall f :: f in fields && f.name in a ==> a[f.name] == b[f.name]
    ensures ParseFields(c, fields, a) == ParseFields(c, fields, b)
  {
    if fields != [] {
      assert fields[0] in fields && forall f :: f in fields[1..] ==> f in fields;
      ParseFieldsLocal(c, fields[1..], a, b);
    }
  }
}

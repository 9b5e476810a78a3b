/** The Report IR: its schema and cross-reference rules, the deterministic repair of a
    payload that failed them, and what that repair guarantees. */
module Report {
  import opened Basics
  import opened References
  import opened Schema

  // ---- schema ----

  function Req(name: Key, shape: Shape): Field { Field(name, shape, None) }

  function Opt(name: Key, shape: Shape): Field { Field(name, Maybe(shape), Some(Null)) }

  function ListOf(name: Key, item: Shape): Field { Field(name, Many(item, 0), Some(Arr([]))) }

  function SomeOf(name: Key, item: Shape): Field { Field(name, Many(item, 1), None) }

  /** The item models a report is made of; ReportModels holds the repository's own. */
  datatype Models = Models(
    problem: Shape, keyMetric: Shape, evidence: seq<Field>, conclusion: seq<Field>, missingData: Shape,
    nextAction: Shape, visualization: Shape, sourceFile: Shape, generatedFile: Shape,
    statuses: seq<string>, qualities: seq<string>)

  function HeaderFields(m: Models): seq<Field> {
    [Field(SchemaVersion, OneOf(["1.0"]), Some(Str("1.0"))), Req(TaskId, Text), Req(ProblemDefinition, m.problem)]
  }

  /** The lists of a report, and those that must not be empty. */
  predicate IsList(key: Key) {
    Required(key) || key.MissingData? || key.Visualizations? || key.GeneratedFiles?
  }

  const LISTS := {KeyMetrics, EvidenceList, AttributionConclusions, NextActions, SourceFiles,
                  MissingData, Visualizations, GeneratedFiles}

  function ListMap(value: Key --> Json): (lists: map<Key, Json>)
    requires forall list :: IsList(list) ==> value.requires(list)
    ensures forall key :: key in lists <==> IsList(key)
    ensures forall list :: IsList(list) ==> lists[list] == value(list)
  {
    assert forall list :: list in LISTS <==> IsList(list);
    map list | list in LISTS :: value(list)
  }

  predicate Required(list: Key) {
    list.KeyMetrics? || list.EvidenceList? || list.AttributionConclusions? || list.NextActions?
    || list.SourceFiles?
  }

  function ItemShape(m: Models, list: Key): Shape
    requires IsList(list)
  {
    match list
    case KeyMetrics => m.keyMetric
    case EvidenceList => Record(m.evidence)
    case AttributionConclusions => Record(m.conclusion)
    case NextActions => m.nextAction
    case SourceFiles => m.sourceFile
    case MissingData => m.missingData
    case Visualizations => m.visualization
    case GeneratedFiles => m.generatedFile
  }

  /** A list field of ReportIR: missing is [] unless it is required. */
  function ListField(m: Models, list: Key): Field
    requires IsList(list)
  {
    if Required(list) then SomeOf(list, ItemShape(m, list)) else ListOf(list, ItemShape(m, list))
  }

  const UNIT_INTERVAL := Number(Some(0.0), Some(1.0))

  predicate EvidenceModel(fields: seq<Field>, qualities: seq<string>) {
    WellFormedFields(fields) && Req(EvidenceId, Text) in fields && Req(QualityStatus, OneOf(qualities)) in fields
  }

  predicate ConclusionModel(fields: seq<Field>, statuses: seq<string>) {
    && WellFormedFields(fields)
    && Req(ConclusionId, Text) in fields && Req(Status, OneOf(statuses)) in fields
    && Req(Confidence, UNIT_INTERVAL) in fields && ListOf(EvidenceIdList, Text) in fields
    && Req(VerificationNeeded, Flag) in fields
  }

  /** All that repair and validation rely on in the item models. */
  predicate Good(m: Models) {
    && EvidenceModel(m.evidence, m.qualities) && ConclusionModel(m.conclusion, m.statuses)
    && WellFormed(m.problem) && WellFormed(m.keyMetric) && WellFormed(m.missingData) && WellFormed(m.nextAction)
    && WellFormed(m.visualization) && WellFormed(m.sourceFile) && WellFormed(m.generatedFile)
  }

  // ---- validation ----

  function EvidenceRefOf(j: Json): EvidenceRef {
    EvidenceRef(TextOf(At(j, EvidenceId)), At(j, QualityStatus) == Str("verified"))
  }

  function TextList(items: seq<Json>): (r: seq<string>)
    ensures |r| == |items| && forall i :: 0 <= i < |r| ==> r[i] == TextOf(items[i])
  {
    seq(|items|, i requires 0 <= i < |items| => TextOf(items[i]))
  }

  function ConclusionRefOf(j: Json): ConclusionRef {
    ConclusionRef(TextOf(At(j, ConclusionId)), At(j, Status) == Str("confirmed"),
                  TextList(Items(At(j, EvidenceIdList))), At(j, VerificationNeeded) == Bool(true))
  }

  function EvidenceRefs(items: seq<Json>): (r: seq<EvidenceRef>)
    ensures |r| == |items| && forall i :: 0 <= i < |r| ==> r[i] == EvidenceRefOf(items[i])
  {
    seq(|items|, i requires 0 <= i < |items| => EvidenceRefOf(items[i]))
  }

  function ConclusionRefs(items: seq<Json>): (r: seq<ConclusionRef>)
    ensures |r| == |items| && forall i :: 0 <= i < |r| ==> r[i] == ConclusionRefOf(items[i])
  {
    seq(|items|, i requires 0 <= i < |items| => ConclusionRefOf(items[i]))
  }

  predicate HeaderOk(c: Coercions, m: Models, payload: Json)
    requires payload.Obj?
  {
    ParseFields(c, HeaderFields(m), payload.fields).Some?
  }

  predicate ListsOk(c: Coercions, m: Models, obj: map<Key, Json>): (ok: bool)
    ensures ok <==> forall list :: IsList(list) ==> FieldValue(c, ListField(m, list), obj).Some?
  {
    forall list :: list in LISTS ==> FieldValue(c, ListField(m, list), obj).Some?
  }

  function ParsedLists(c: Coercions, m: Models, obj: map<Key, Json>): (lists: map<Key, Json>)
    requires ListsOk(c, m, obj)
    ensures forall key :: key in lists <==> IsList(key)
    ensures forall list :: IsList(list) ==> lists[list] == FieldValue(c, ListField(m, list), obj).value
  {
    ListMap(list requires IsList(list) => FieldValue(c, ListField(m, list), obj).value)
  }

  /** ReportValidator.validate followed by model_dump: None is a ValidationError. */
  function Validate(c: Coercions, m: Models, payload: Json): Option<Json> {
    if !payload.Obj? || !HeaderOk(c, m, payload) || !ListsOk(c, m, payload.fields) then None
    else
      var lists := ParsedLists(c, m, payload.fields);
      if ReferencesOk(EvidenceRefs(Items(lists[EvidenceList])), ConclusionRefs(Items(lists[AttributionConclusions])))
      then Some(Obj(ParseFields(c, HeaderFields(m), payload.fields).value + lists))
      else None
  }

  // ---- repair ----

  /** The items that parse, dumped. */
  function Kept(c: Coercions, shape: Shape, values: seq<Json>): seq<Json> {
    if values == [] then []
    else
      var init := Kept(c, shape, values[..|values| - 1]);
      match Parse(c, shape, values[|values| - 1])
      case Some(d) => init + [d]
      case None => init
  }

  /** `str(item.get(field) or "")` */
  function IdText(c: Coercions, item: Json, field: Key): string {
    if Truthy(At(item, field)) then c.text(At(item, field)) else ""
  }

  function IdOf(c: Coercions, field: Key): Json -> string { item => IdText(c, item, field) }

  function IdSet(id: Json -> string, items: seq<Json>): set<string> {
    set i | 0 <= i < |items| :: id(items[i])
  }

  /** The first item of each non-empty identity. */
  function FirstOfEach(id: Json -> string, items: seq<Json>): seq<Json> {
    if items == [] then []
    else
      var init, item := FirstOfEach(id, items[..|items| - 1]), items[|items| - 1];
      if id(item) == "" || id(item) in IdSet(id, init) then init else init + [item]
  }

  function QualityOf(evidence: seq<Json>): map<string, string> {
    if evidence == [] then map[]
    else
      var item := evidence[|evidence| - 1];
      QualityOf(evidence[..|evidence| - 1])[TextOf(At(item, EvidenceId)) := TextOf(At(item, QualityStatus))]
  }

  /** The known ids among the cited values, each once, in first-citation order. */
  function KnownIds(c: Coercions, cited: seq<Json>, quality: map<string, string>): seq<string> {
    if cited == [] then []
    else
      var init, id := KnownIds(c, cited[..|cited| - 1], quality), c.text(cited[|cited| - 1]);
      if id in quality && id !in init then init + [id] else init
  }

  function SafeConfidence(c: Coercions, value: Json): real {
    match c.pyFloat(if Truthy(value) then value else Num(0.0))
    case None => 0.0
    case Some(r) => if r > 1.0 then 1.0 else if r < 0.0 then 0.0 else r
  }

  function AtMost(cap: real, r: real): real { if r <= cap then r else cap }

  predicate Limited(ids: seq<string>, quality: map<string, string>)
    requires forall id :: id in ids ==> id in quality
  {
    exists id :: id in ids && quality[id] != "verified"
  }

  /** The citations a conclusion keeps. */
  function Cited(c: Coercions, raw: Json, quality: map<string, string>): (ids: seq<string>)
    ensures Distinct(ids) && forall id :: id in ids ==> id in quality
  {
    KnownIdsKnown(c, Items(At(raw, EvidenceIdList)), quality);
    KnownIds(c, Items(At(raw, EvidenceIdList)), quality)
  }

  /** Confirmed on limited evidence, or while still asking for verification. */
  predicate Overstated(c: Coercions, raw: Json, quality: map<string, string>) {
    && At(raw, Status) == Str("confirmed")
    && (Limited(Cited(c, raw, quality), quality) || Truthy(At(raw, VerificationNeeded)))
  }

  function Weakened(c: Coercions, raw: Json, status: string, cap: real): map<Key, Json> {
    map[Status := Str(status), VerificationNeeded := Bool(true),
        Confidence := Num(AtMost(cap, SafeConfidence(c, At(raw, Confidence))))]
  }

  /** The rewritten fields of one conclusion, before it is parsed. */
  function Rewritten(c: Coercions, raw: Json, quality: map<string, string>): Json
    requires raw.Obj?
  {
    var ids := Cited(c, raw, quality);
    var item := raw.fields[EvidenceIdList := Arr(Texts(ids))];
    Obj(
      if ids == [] then item + Weakened(c, raw, "to_verify", 0.49)
      else if Overstated(c, raw, quality) then item + Weakened(c, raw, "probable", 0.7)
      else item)
  }

  function RawIds(id: Json -> string, values: seq<Json>): set<string> {
    set i | 0 <= i < |values| && values[i].Obj? :: id(values[i])
  }

  /** Whether the last value is a conclusion whose id was not used before it. */
  predicate NewConclusion(id: Json -> string, values: seq<Json>)
    requires values != []
  {
    var raw := values[|values| - 1];
    raw.Obj? && id(raw) != "" && id(raw) !in RawIds(id, values[..|values| - 1])
  }

  /** One conclusion rewritten and parsed. */
  function Settle(c: Coercions, m: Models, quality: map<string, string>): Json -> Option<Json> {
    (raw: Json) => if raw.Obj? then Parse(c, Record(m.conclusion), Rewritten(c, raw, quality)) else None
  }

  function RepairedConclusions(id: Json -> string, settle: Json -> Option<Json>, values: seq<Json>): seq<Json> {
    if values == [] then []
    else
      var init := RepairedConclusions(id, settle, values[..|values| - 1]);
      if !NewConclusion(id, values) then init
      else
        match settle(values[|values| - 1])
        case Some(d) => init + [d]
        case None => init
  }

  /** The identity by which repair keeps only first occurrences. */
  function Identity(list: Key): Option<Key> {
    match list
    case EvidenceList => Some(EvidenceId)
    case Visualizations => Some(ChartId)
    case SourceFiles => Some(FileId)
    case _ => None
  }

  function RepairedItems(c: Coercions, m: Models, payload: Json, list: Key): seq<Json>
    requires IsList(list)
  {
    var kept := Kept(c, ItemShape(m, list), Items(At(payload, list)));
    match Identity(list)
    case Some(field) => FirstOfEach(IdOf(c, field), kept)
    case None => kept
  }

  /** Conclusions are rewritten against the evidence that was kept. */
  function RepairedList(c: Coercions, m: Models, payload: Json, list: Key): seq<Json>
    requires IsList(list)
  {
    if list.AttributionConclusions? then
      var quality := QualityOf(RepairedItems(c, m, payload, EvidenceList));
      RepairedConclusions(IdOf(c, ConclusionId), Settle(c, m, quality), Items(At(payload, list)))
    else
      RepairedItems(c, m, payload, list)
  }

  lemma EvidenceListIs(c: Coercions, m: Models, payload: Json)
    ensures RepairedList(c, m, payload, EvidenceList) == RepairedItems(c, m, payload, EvidenceList)
  {
  }

  function RepairedLists(c: Coercions, m: Models, payload: Json): (lists: map<Key, Json>)
    ensures forall key :: key in lists <==> IsList(key)
    ensures forall list :: IsList(list) ==> lists[list] == Arr(RepairedList(c, m, payload, list))
  {
    ListMap(list requires IsList(list) => Arr(RepairedList(c, m, payload, list)))
  }

  function ContextOf(errors: Json): Json {
    Obj(map[Named("validation_errors") := errors, Named("strategy") := Str("deterministic_safe_repair")])
  }

  function WithLists(fields: map<Key, Json>, lists: map<Key, Json>, context: Json): map<Key, Json> {
    (fields + lists)[RepairContext := context]
  }

  lemma WithListsReads(fields: map<Key, Json>, lists: map<Key, Json>, context: Json)
    requires forall key :: key in lists <==> IsList(key)
    ensures forall list :: IsList(list) ==> At(Obj(WithLists(fields, lists, context)), list) == lists[list]
  {
  }

  function Repaired(c: Coercions, m: Models, payload: Json, errors: Json): (out: Json)
    requires payload.Obj?
    ensures out.Obj? && forall list :: IsList(list) ==> At(out, list) == Arr(RepairedList(c, m, payload, list))
  {
    var lists := RepairedLists(c, m, payload);
    WithListsReads(payload.fields, lists, ContextOf(errors));
    Obj(WithLists(payload.fields, lists, ContextOf(errors)))
  }

  lemma {:induction false} KnownIdsKnown(c: Coercions, cited: seq<Json>, quality: map<string, string>)
    ensures forall id :: id in KnownIds(c, cited, quality) ==> id in quality
    ensures Distinct(KnownIds(c, cited, quality))
  {
    if cited != [] { KnownIdsKnown(c, cited[..|cited| - 1], quality); }
  }
}

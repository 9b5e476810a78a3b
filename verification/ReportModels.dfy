/** The item models of app/schemas/report.py. */
module ReportModels {
  import opened Basics
  import opened Schema
  import opened Report

  const REAL := Number(None, None)
  const STATUSES := ["confirmed", "probable", "to_verify"]
  const QUALITIES := ["verified", "limited"]
  const LEVEL := OneOf(["high", "medium", "low"])

  const PROBLEM_FIELDS: seq<Field> := [
    Req(Question, Text), Req(Scope, Text), Req(Metric, Text), Req(Baseline, Text),
    Req(Scenario, OneOf(["market_performance", "inventory_anomaly", "general"])),
    ListOf(Assumptions, Text)]

  const KEY_METRIC_FIELDS: seq<Field> := [
    Req(MetricId, Text), Req(Label, Text), Req(Value, REAL), Opt(Unit, Text),
    Req(Formula, Text), Req(Scope, Text), Opt(BaselineValue, REAL),
    Opt(AbsoluteChange, REAL), Opt(ChangeRate, REAL)]

  const EVIDENCE_FIELDS := [
    Req(EvidenceId, Text), Req(Title, Text), Req(Description, Text), Req(EvidenceType, Text),
    Opt(Metric, Text), Opt(CurrentValue, REAL), Opt(BaselineValue, REAL), Opt(ChangeValue, REAL),
    Opt(ChangeRate, REAL), Req(Scope, Text), SomeOf(SourceFileIds, Text), Req(Formula, Text),
    Req(QualityStatus, OneOf(QUALITIES))]

  const CONCLUSION_FIELDS := [
    Req(ConclusionId, Text), Req(Title, Text), Req(Description, Text),
    Req(Status, OneOf(STATUSES)), Req(ImpactLevel, LEVEL),
    Req(Confidence, UNIT_INTERVAL), ListOf(EvidenceIdList, Text),
    Req(VerificationNeeded, Flag)]

  const MISSING_DATA_FIELDS: seq<Field> := [
    Req(FieldName, Text), Req(Reason, Text), Req(Impact, Text), Req(RequiredAction, Text)]

  const NEXT_ACTION_FIELDS: seq<Field> := [
    Req(ActionId, Text), Req(Title, Text), Req(Description, Text), Req(Priority, LEVEL),
    Opt(OwnerHint, Text)]

  const SERIES_FIELDS: seq<Field> := [Req(Name, Text), Req(Data, Many(REAL, 0))]

  const VISUALIZATION_FIELDS := [
    Req(ChartId, Text), Req(Title, Text),
    Req(Type, OneOf(["line", "bar", "stackedBar", "pie", "table"])), Opt(Dimension, Text),
    ListOf(Categories, Text), ListOf(Series, Record(SERIES_FIELDS)), ListOf(Columns, Text), ListOf(Rows, Mapping)]

  const SOURCE_FILE_FIELDS: seq<Field> := [
    Req(FileId, Text), Req(FileName, Text), Req(SourceType, Text), Opt(RowCount, Whole)]

  const GENERATED_FILE_FIELDS: seq<Field> := [
    Req(FileType, OneOf(["html", "md", "json"])), Req(FileName, Text), Req(StorageKey, Text),
    Req(FileSize, Whole), Req(Sha256, Text)]

  const REPORT_MODELS := Models(
    Record(PROBLEM_FIELDS), Record(KEY_METRIC_FIELDS), EVIDENCE_FIELDS, CONCLUSION_FIELDS, Record(MISSING_DATA_FIELDS),
    Record(NEXT_ACTION_FIELDS), Chart(VISUALIZATION_FIELDS), Record(SOURCE_FILE_FIELDS), Record(GENERATED_FILE_FIELDS),
    STATUSES, QUALITIES)

  predicate Scalar(s: Shape) { s.Text? || s.Number? || s.Whole? || s.Flag? || s.OneOf? || s.Mapping? }

  predicate PlainShape(s: Shape) {
    match s
    case Maybe(inner) => Scalar(inner)
    case Many(item, _) => Scalar(item)
    case _ => Scalar(s)
  }

  /** Required, or a nullable or list field with its usual default. */
  predicate Plain(f: Field) {
    && PlainShape(f.shape)
    && (|| f.default.None?
        || (f.shape.Maybe? && f.default == Some(Null))
        || (f.shape.Many? && f.shape.atLeast == 0 && f.default == Some(Arr([]))))
  }

  lemma PlainWellFormed(f: Field)
    requires Plain(f)
    ensures WellFormedField(f)
  {
  }

  lemma PlainFields(fields: seq<Field>)
    requires forall i, j :: 0 <= i < j < |fields| ==> fields[i].name != fields[j].name
    requires forall i :: 0 <= i < |fields| ==> Plain(fields[i])
    ensures WellFormedFields(fields)
  {
    forall i | 0 <= i < |fields| ensures WellFormedField(fields[i]) { PlainWellFormed(fields[i]); }
  }

  lemma VisualizationModel()
    ensures WellFormed(Chart(VISUALIZATION_FIELDS))
  {
    PlainFields(SERIES_FIELDS);
    var fields := VISUALIZATION_FIELDS;
    forall i | 0 <= i < |fields| ensures WellFormedField(fields[i]) {
      if i == 5 { SeriesField(); } else { PlainWellFormed(fields[i]); }
    }
  }

  lemma SeriesField()
    ensures WellFormedField(ListOf(Series, Record(SERIES_FIELDS)))
  {
    PlainFields(SERIES_FIELDS);
  }

  lemma EvidenceMembers()
    ensures EvidenceModel(EVIDENCE_FIELDS, QUALITIES)
  {
    PlainFields(EVIDENCE_FIELDS);
    assert EVIDENCE_FIELDS[0] == Req(EvidenceId, Text) && EVIDENCE_FIELDS[12] == Req(QualityStatus, OneOf(QUALITIES));
  }

  lemma ConclusionFieldsOf()
    ensures Req(ConclusionId, Text) in CONCLUSION_FIELDS && Req(Status, OneOf(STATUSES)) in CONCLUSION_FIELDS
    ensures Req(Confidence, UNIT_INTERVAL) in CONCLUSION_FIELDS && ListOf(EvidenceIdList, Text) in CONCLUSION_FIELDS
    ensures Req(VerificationNeeded, Flag) in CONCLUSION_FIELDS
  {
    var fields := CONCLUSION_FIELDS;
    assert fields[0] in fields && fields[3] in fields && fields[5] in fields
           && fields[6] in fields && fields[7] in fields;
  }

  lemma ConclusionMembers()
    ensures ConclusionModel(CONCLUSION_FIELDS, STATUSES)
  {
    assert WellFormedFields(CONCLUSION_FIELDS) by { PlainFields(CONCLUSION_FIELDS); }
    ConclusionFieldsOf();
  }

  lemma ProblemModel()
    ensures WellFormed(Record(PROBLEM_FIELDS))
  {
    PlainFields(PROBLEM_FIELDS);
  }

  lemma KeyMetricModel()
    ensures WellFormed(Record(KEY_METRIC_FIELDS))
  {
    PlainFields(KEY_METRIC_FIELDS);
  }

  lemma MissingDataModel()
    ensures WellFormed(Record(MISSING_DATA_FIELDS))
  {
    PlainFields(MISSING_DATA_FIELDS);
  }

  lemma NextActionModel()
    ensures WellFormed(Record(NEXT_ACTION_FIELDS))
  {
    PlainFields(NEXT_ACTION_FIELDS);
  }

  lemma SourceFileModel()
    ensures WellFormed(Record(SOURCE_FILE_FIELDS))
  {
    PlainFields(SOURCE_FILE_FIELDS);
  }

  lemma GeneratedFileModel()
    ensures WellFormed(Record(GENERATED_FILE_FIELDS))
  {
    PlainFields(GENERATED_FILE_FIELDS);
  }

  /** They have everything the repair's guarantees rest on. */
  lemma ReportModelsGood()
    ensures Good(REPORT_MODELS)
  {
    EvidenceMembers(); ConclusionMembers();
    ProblemModel(); KeyMetricModel(); MissingDataModel(); NextActionModel(); SourceFileModel(); GeneratedFileModel();
    VisualizationModel();
  }
}

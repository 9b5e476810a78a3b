/** The analysis graph: its edges, what the report nodes do to the graph state, and why
    every run stops.  The validate/build cycle is the only one. */
module Graph {
  import opened Basics
  import opened Schema

  /** The report validator as the nodes use it: validation, None for a ValidationError,
      and the repair of a payload given the errors found in it. */
  datatype Validator = Validator(validate: Json -> Option<Json>, repair: (Json, Json) -> Json)

  predicate NonEmptyDict(j: Json) { j.Obj? && Truthy(j) }

  /** A validated payload is a dict that validates to itself, and repair gives a dict. */
  ghost predicate Projects(v: Validator) {
    && (forall p :: v.validate(p).Some? ==>
          NonEmptyDict(v.validate(p).value) && v.validate(v.validate(p).value) == v.validate(p))
    && (forall p: Json, errors :: p.Obj? ==> NonEmptyDict(v.repair(p, errors)))
  }

  datatype Node =
    | LoadContext | DefineProblem | AskClarification | BuildAnalysisPlan | QueryData | ValidateData
    | AnalyzeWithPandas | BuildEvidence | DetermineAttribution | BuildReportIR | ValidateReport | RenderReport

  /** The part of AgentState that the edges and the report nodes read. */
  datatype GraphState = GraphState(clarify: bool, report: Option<Json>, errors: Option<Json>, valid: bool, retries: nat)

  const START := GraphState(false, None, None, false, 0)

  /** What models, data and the renderer contribute to one node execution. */
  datatype Oracle = Oracle(missingFields: bool, draft: map<Key, Json>, errors: Json, files: seq<Json>)

  datatype NodeResult = Updated(state: GraphState) | Raised(code: string)

  /** The report dict of a first build: never empty, it always has its version. */
  function Draft(o: Oracle): Json { Obj(o.draft[SchemaVersion := Str("1.0")]) }

  /** BuildReportIRNode takes its repair branch. */
  predicate Repairs(g: GraphState) {
    g.retries > 0 && g.report.Some? && NonEmptyDict(g.report.value) && g.errors.Some?
  }

  function WithFiles(report: Json, files: seq<Json>): Json {
    if report.Obj? then Obj(report.fields[GeneratedFiles := Arr(files)]) else report
  }

  function Execute(v: Validator, n: Node, g: GraphState, o: Oracle): NodeResult {
    match n
    case DefineProblem => Updated(g.(clarify := o.missingFields))
    case BuildReportIR =>
      if Repairs(g) then Updated(g.(report := Some(v.repair(g.report.value, g.errors.value)), valid := false))
      else Updated(g.(report := Some(Draft(o)), valid := false))
    case ValidateReport =>
      (match if g.report.Some? then v.validate(g.report.value) else None
       case Some(report) => Updated(g.(report := Some(report), valid := true, errors := None))
       case None =>
         if g.retries >= 1 then Raised("REPORT_INVALID")
         else Updated(g.(valid := false, retries := g.retries + 1, errors := Some(o.errors))))
    case RenderReport =>
      if !g.valid || g.report.None? || v.validate(g.report.value).None? then Raised("REPORT_INVALID")
      else Updated(g.(report := Some(WithFiles(v.validate(g.report.value).value, o.files))))
    case _ => Updated(g)
  }

  /** The edge taken after a node, None for END. */
  function Next(n: Node, g: GraphState): Option<Node> {
    match n
    case LoadContext => Some(DefineProblem)
    case DefineProblem => if g.clarify then Some(AskClarification) else Some(BuildAnalysisPlan)
    case AskClarification => None
    case BuildAnalysisPlan => Some(QueryData)
    case QueryData => Some(ValidateData)
    case ValidateData => Some(AnalyzeWithPandas)
    case AnalyzeWithPandas => Some(BuildEvidence)
    case BuildEvidence => Some(DetermineAttribution)
    case DetermineAttribution => Some(BuildReportIR)
    case BuildReportIR => Some(ValidateReport)
    case ValidateReport => if g.valid then Some(RenderReport) else Some(BuildReportIR)
    case RenderReport => None
  }

  /** At most this many node executions are left, counting this one. */
  function Rank(n: Node, g: GraphState): nat {
    match n
    case LoadContext => 13
    case DefineProblem => 12
    case BuildAnalysisPlan => 11
    case QueryData => 10
    case ValidateData => 9
    case AnalyzeWithPandas => 8
    case BuildEvidence => 7
    case DetermineAttribution => 6
    case BuildReportIR => if g.retries == 0 then 5 else 3
    case ValidateReport => if g.retries == 0 then 4 else 2
    case RenderReport => 1
    case AskClarification => 1
  }

  lemma RankFalls(v: Validator, n: Node, g: GraphState, o: Oracle)
    ensures var r := Execute(v, n, g, o);
      r.Updated? && Next(n, r.state).Some? ==> Rank(Next(n, r.state).value, r.state) < Rank(n, g)
  {
  }

  datatype Visit = Visit(node: Node, before: GraphState)

  /** The node executions of a run, the oracle of the i-th one being o(i). */
  ghost function Visits(v: Validator, n: Node, g: GraphState, o: nat -> Oracle, i: nat): (vs: seq<Visit>)
    ensures 1 <= |vs| <= Rank(n, g) && vs[0] == Visit(n, g)
    decreases Rank(n, g)
  {
    RankFalls(v, n, g, o(i));
    var r := Execute(v, n, g, o(i));
    [Visit(n, g)] +
    if r.Raised? || Next(n, r.state).None? then []
    else Visits(v, Next(n, r.state).value, r.state, o, i + 1)
  }

  /** What holds whenever a node starts. */
  predicate Expected(v: Validator, n: Node, g: GraphState) {
    && g.retries <= 1
    && (g.report.Some? ==> NonEmptyDict(g.report.value))
    && (n == ValidateReport ==> g.report.Some?)
    && (g.retries == 1 ==> n == BuildReportIR || n == ValidateReport || n == RenderReport)
    && (n == BuildReportIR && g.retries == 1 ==> g.report.Some? && g.errors.Some?)
    && (n == RenderReport ==> g.valid && g.report.Some? && v.validate(g.report.value) == Some(g.report.value))
  }

  lemma ExpectedKept(v: Validator, n: Node, g: GraphState, o: Oracle)
    requires Projects(v) && Expected(v, n, g)
    ensures var r := Execute(v, n, g, o);
      r.Updated? && Next(n, r.state).Some? ==> Expected(v, Next(n, r.state).value, r.state)
  {
    assert SchemaVersion in Draft(o).fields;
  }

  lemma {:induction false} VisitsExpected(v: Validator, n: Node, g: GraphState, o: nat -> Oracle, i: nat)
    requires Projects(v) && Expected(v, n, g)
    ensures var vs := Visits(v, n, g, o, i);
      && (forall visit :: visit in vs ==> Expected(v, visit.node, visit.before))
      && (forall j, k :: 0 <= j < k < |vs| ==> Rank(vs[k].node, vs[k].before) < Rank(vs[j].node, vs[j].before))
    decreases Rank(n, g)
  {
    ExpectedKept(v, n, g, o(i));
    RankFalls(v, n, g, o(i));
    var r := Execute(v, n, g, o(i));
    if r.Updated? && Next(n, r.state).Some? {
      var rest := Visits(v, Next(n, r.state).value, r.state, o, i + 1);
      VisitsExpected(v, Next(n, r.state).value, r.state, o, i + 1);
      var vs := Visits(v, n, g, o, i);
      assert vs == [Visit(n, g)] + rest;
      forall j, k | 0 <= j < k < |vs| ensures Rank(vs[k].node, vs[k].before) < Rank(vs[j].node, vs[j].before) {
        assert vs[k] == rest[k - 1] && (j > 0 ==> vs[j] == rest[j - 1]);
        assert Rank(rest[k - 1].node, rest[k - 1].before) <= Rank(rest[0].node, rest[0].before);
      }
    }
  }

  lemma SecondBuildRepairs(v: Validator, g: GraphState, g': GraphState)
    requires Expected(v, BuildReportIR, g) && Expected(v, BuildReportIR, g')
    requires Rank(BuildReportIR, g') < Rank(BuildReportIR, g)
    ensures !Repairs(g) && Repairs(g')
  {
  }

  /** Only a report that validates to itself is rendered. */
  predicate RendersValid(v: Validator, visit: Visit) {
    visit.node == RenderReport ==>
      visit.before.report.Some? && v.validate(visit.before.report.value) == visit.before.report
  }

  /** A whole run, whatever the models, the data and the renderer do: at most 13 node
      executions; a report is built at most twice, first from scratch and then by repair;
      and what reaches render_report is a report that validates to itself. */
  lemma RunStops(v: Validator, o: nat -> Oracle)
    requires Projects(v)
    ensures var vs := Visits(v, LoadContext, START, o, 0);
      && |vs| <= 13
      && (forall j, k :: 0 <= j < k < |vs| && vs[j].node == BuildReportIR && vs[k].node == BuildReportIR ==>
            !Repairs(vs[j].before) && Repairs(vs[k].before))
      && (forall visit :: visit in vs ==> RendersValid(v, visit))
  {
    VisitsExpected(v, LoadContext, START, o, 0);
    var vs := Visits(v, LoadContext, START, o, 0);
    forall j, k | 0 <= j < k < |vs| && vs[j].node == BuildReportIR && vs[k].node == BuildReportIR
      ensures !Repairs(vs[j].before) && Repairs(vs[k].before)
    {
      assert vs[j] in vs && vs[k] in vs;
      SecondBuildRepairs(v, vs[j].before, vs[k].before);
    }
    forall visit | visit in vs ensures RendersValid(v, visit) { assert Expected(v, visit.node, visit.before); }
  }

  /** A failed validation after a repair ends the run; a successful one renders. */
  lemma ValidateEnds(v: Validator, g: GraphState, o: nat -> Oracle, i: nat)
    requires g.report.Some? && (g.retries >= 1 || v.validate(g.report.value).Some?)
    ensures var vs := Visits(v, ValidateReport, g, o, i);
      vs[|vs| - 1].node == RenderReport <==> v.validate(g.report.value).Some?
  {
  }

  /** From the first build on, a run gets to render_report exactly when the draft or its
      repair validates. */
  lemma RenderedIff(v: Validator, o: nat -> Oracle)
    ensures var vs := Visits(v, BuildReportIR, START, o, 0);
      vs[|vs| - 1].node == RenderReport <==>
      v.validate(Draft(o(0))).Some? || v.validate(v.repair(Draft(o(0)), o(1).errors)).Some?
  {
    var draft, errors := Draft(o(0)), o(1).errors;
    var g1 := START.(report := Some(draft));
    var vs := Visits(v, BuildReportIR, START, o, 0);
    var tail := Visits(v, ValidateReport, g1, o, 1);
    assert vs == [Visit(BuildReportIR, START)] + tail;
    if v.validate(draft).Some? {
      ValidateEnds(v, g1, o, 1);
    } else {
      var g2 := g1.(retries := 1, errors := Some(errors));
      var g3 := g2.(report := Some(v.repair(draft, errors)));
      assert Repairs(g2) by { assert SchemaVersion in draft.fields; }
      assert tail == [Visit(ValidateReport, g1), Visit(BuildReportIR, g2)] + Visits(v, ValidateReport, g3, o, 3);
      ValidateEnds(v, g3, o, 3);
    }
  }

  // ---- the order of the nodes ----

  function NodesOf(visits: seq<Visit>): (nodes: seq<Node>)
    ensures |nodes| == |visits| && forall i :: 0 <= i < |nodes| ==> nodes[i] == visits[i].node
  {
    Map(visits, (visit: Visit) => visit.node)
  }

  const ASKING := [LoadContext, DefineProblem, AskClarification]

  const ANALYSIS := [LoadContext, DefineProblem, BuildAnalysisPlan, QueryData, ValidateData, AnalyzeWithPandas,
                     BuildEvidence, DetermineAttribution]

  const BUILDING := [BuildReportIR, ValidateReport]

  /** The payload of the second build. */
  function RepairedDraft(v: Validator, draft: Oracle, errors: Json): Json { v.repair(Draft(draft), errors) }

  /** The nodes a run visits: the question, when fields are missing; else the analysis, and one
      build that validates, or a second one, which is rendered when it validates. */
  ghost predicate NodesInOrder(v: Validator, o: nat -> Oracle, nodes: seq<Node>) {
    if o(1).missingFields then nodes == ASKING
    else if v.validate(Draft(o(8))).Some? then nodes == ANALYSIS + (BUILDING + [RenderReport])
    else if v.validate(RepairedDraft(v, o(8), o(9).errors)).Some? then
      nodes == ANALYSIS + (BUILDING + (BUILDING + [RenderReport]))
    else nodes == ANALYSIS + (BUILDING + BUILDING)
  }

  /** One more node. */
  lemma VisitsFrom(v: Validator, n: Node, g: GraphState, o: nat -> Oracle, i: nat)
    ensures var r := Execute(v, n, g, o(i));
      NodesOf(Visits(v, n, g, o, i)) ==
      [n] + if r.Raised? || Next(n, r.state).None? then []
            else NodesOf(Visits(v, Next(n, r.state).value, r.state, o, i + 1))
  {
  }

  lemma PlainNode(v: Validator, n: Node, g: GraphState, o: nat -> Oracle, i: nat, next: Node)
    requires Execute(v, n, g, o(i)) == Updated(g) && Next(n, g) == Some(next)
    ensures NodesOf(Visits(v, n, g, o, i)) == [n] + NodesOf(Visits(v, next, g, o, i + 1))
  {
    VisitsFrom(v, n, g, o, i);
  }

  lemma FirstBuild(v: Validator, o: nat -> Oracle)
    requires Projects(v) && v.validate(Draft(o(8))).Some?
    ensures NodesOf(Visits(v, BuildReportIR, START, o, 8)) == BUILDING + [RenderReport]
  {
    var g1 := START.(report := Some(Draft(o(8))));
    VisitsFrom(v, BuildReportIR, START, o, 8);
    VisitsFrom(v, ValidateReport, g1, o, 9);
    VisitsFrom(v, RenderReport, g1.(report := v.validate(Draft(o(8))), valid := true), o, 10);
  }

  lemma BuildsAgain(v: Validator, o: nat -> Oracle)
    requires v.validate(Draft(o(8))).None?
    ensures NodesOf(Visits(v, BuildReportIR, START, o, 8)) ==
            BUILDING + NodesOf(Visits(v, BuildReportIR,
                                      GraphState(false, Some(Draft(o(8))), Some(o(9).errors), false, 1), o, 10))
  {
    var g1 := START.(report := Some(Draft(o(8))));
    VisitsFrom(v, BuildReportIR, START, o, 8);
    VisitsFrom(v, ValidateReport, g1, o, 9);
  }

  lemma BuildsTwice(v: Validator, o: nat -> Oracle)
    requires Projects(v)
    ensures NodesOf(Visits(v, BuildReportIR, START, o, 8)) ==
            if v.validate(Draft(o(8))).Some? then BUILDING + [RenderReport]
            else if v.validate(RepairedDraft(v, o(8), o(9).errors)).Some? then BUILDING + (BUILDING + [RenderReport])
            else BUILDING + BUILDING
  {
    if v.validate(Draft(o(8))).Some? {
      FirstBuild(v, o);
    } else {
      BuildsAgain(v, o);
      SecondBuild(v, o, GraphState(false, Some(Draft(o(8))), Some(o(9).errors), false, 1));
    }
  }

  lemma SecondBuild(v: Validator, o: nat -> Oracle, g: GraphState)
    requires Projects(v) && g == GraphState(false, Some(Draft(o(8))), Some(o(9).errors), false, 1)
    ensures NodesOf(Visits(v, BuildReportIR, g, o, 10)) ==
            if v.validate(RepairedDraft(v, o(8), o(9).errors)).Some? then BUILDING + [RenderReport] else BUILDING
  {
    assert SchemaVersion in Draft(o(8)).fields;
    var repaired := RepairedDraft(v, o(8), o(9).errors);
    var g1 := g.(report := Some(repaired));
    VisitsFrom(v, BuildReportIR, g, o, 10);
    VisitsFrom(v, ValidateReport, g1, o, 11);
    if v.validate(repaired).Some? {
      VisitsFrom(v, RenderReport, g1.(report := v.validate(repaired), valid := true, errors := None), o, 12);
    }
  }

  /** Each node between the question and the report leads to the next one. */
  predicate Chained(f: (Node, nat) -> seq<Node>) {
    && f(LoadContext, 0) == [LoadContext] + f(DefineProblem, 1)
    && f(DefineProblem, 1) == [DefineProblem] + f(BuildAnalysisPlan, 2)
    && f(BuildAnalysisPlan, 2) == [BuildAnalysisPlan] + f(QueryData, 3)
    && f(QueryData, 3) == [QueryData] + f(ValidateData, 4)
    && f(ValidateData, 4) == [ValidateData] + f(AnalyzeWithPandas, 5)
    && f(AnalyzeWithPandas, 5) == [AnalyzeWithPandas] + f(BuildEvidence, 6)
    && f(BuildEvidence, 6) == [BuildEvidence] + f(DetermineAttribution, 7)
    && f(DetermineAttribution, 7) == [DetermineAttribution] + f(BuildReportIR, 8)
  }

  lemma ChainedInOrder(f: (Node, nat) -> seq<Node>)
    requires Chained(f)
    ensures f(LoadContext, 0) == ANALYSIS + f(BuildReportIR, 8)
  {
  }

  ghost predicate NodesFrom(f: (Node, nat) -> seq<Node>, v: Validator, o: nat -> Oracle) {
    forall n, i {:trigger Visits(v, n, START, o, i)} :: f(n, i) == NodesOf(Visits(v, n, START, o, i))
  }

  lemma Linked(f: (Node, nat) -> seq<Node>, v: Validator, o: nat -> Oracle, n: Node, i: nat, next: Node)
    requires NodesFrom(f, v, o) && Execute(v, n, START, o(i)) == Updated(START) && Next(n, START) == Some(next)
    ensures f(n, i) == [n] + f(next, i + 1)
  {
    PlainNode(v, n, START, o, i, next);
  }

  lemma NodesChained(f: (Node, nat) -> seq<Node>, v: Validator, o: nat -> Oracle)
    requires NodesFrom(f, v, o) && !o(1).missingFields
    ensures Chained(f)
  {
    Linked(f, v, o, LoadContext, 0, DefineProblem);
    Linked(f, v, o, DefineProblem, 1, BuildAnalysisPlan);
    Linked(f, v, o, BuildAnalysisPlan, 2, QueryData);
    Linked(f, v, o, QueryData, 3, ValidateData);
    Linked(f, v, o, ValidateData, 4, AnalyzeWithPandas);
    Linked(f, v, o, AnalyzeWithPandas, 5, BuildEvidence);
    Linked(f, v, o, BuildEvidence, 6, DetermineAttribution);
    Linked(f, v, o, DetermineAttribution, 7, BuildReportIR);
  }

  lemma AnalysisInOrder(v: Validator, o: nat -> Oracle)
    requires !o(1).missingFields
    ensures NodesOf(Visits(v, LoadContext, START, o, 0)) == ANALYSIS + NodesOf(Visits(v, BuildReportIR, START, o, 8))
  {
    ghost var f := (n: Node, i: nat) => NodesOf(Visits(v, n, START, o, i));
    NodesChained(f, v, o);
    ChainedInOrder(f);
  }

  lemma AsksInOrder(v: Validator, o: nat -> Oracle)
    requires o(1).missingFields
    ensures NodesOf(Visits(v, LoadContext, START, o, 0)) == ASKING
  {
    PlainNode(v, LoadContext, START, o, 0, DefineProblem);
    VisitsFrom(v, DefineProblem, START, o, 1);
    VisitsFrom(v, AskClarification, START.(clarify := true), o, 2);
  }

  /** Every run visits its nodes in exactly that order. */
  lemma RunInOrder(v: Validator, o: nat -> Oracle)
    requires Projects(v)
    ensures NodesInOrder(v, o, NodesOf(Visits(v, LoadContext, START, o, 0)))
  {
    if o(1).missingFields {
      AsksInOrder(v, o);
    } else {
      AnalysisInOrder(v, o);
      BuildsTwice(v, o);
    }
  }
}

/** `main()` from the dispatcher's reply onwards: decode, build the
    evaluation crew, and either report "no work" or evaluate every task and
    hand the joined results to the reporter. */
module Pipeline {
  import opened Fallible
  import opened Text
  import opened Json
  import opened CrewTypes
  import opened Dispatch
  import opened Construction

  /** The framework's text generation: what an agent answers for a task,
      given the call's position in the run (tasks first, in submission order,
      then the reporter). Every call to the language model after the
      dispatcher's goes through it. The position lets answers differ between
      calls with the same agent and task, as a model's answers may. */
  type Backend = (nat, Agent, Task) -> string

  /** How a run ends: line 148's message, or the final report of lines
      128-146 together with the text the reporter was given. */
  datatype Outcome = NothingToEvaluate | Reported(individualReports: string, finalReport: string)

  /** Line 128 joins the individual results with a blank line. */
  const ReportSeparator: string := "\n\n"

  /** Lines 124 and 128, under an assumption the source does not establish:
      iterating what `kickoff_async()` returns gives one result per task, in
      the order the tasks were submitted, each produced by the task's own
      agent. Elsewhere a kickoff result is used as one output with `.raw`. */
  function Results(crew: Crew, llm: Backend): (rs: seq<string>)
    requires WellBound(crew)
    ensures |rs| == |crew.tasks|
  {
    seq(|crew.tasks|, i requires 0 <= i < |crew.tasks| => llm(i, crew.agents[crew.tasks[i].agent], crew.tasks[i]))
  }

  /** The backend constrains nothing beyond the agent and task it is given:
      for any answers at all, one per task, some backend gives exactly those
      results. */
  lemma AnyAnswersPossible(crew: Crew, answers: seq<string>) returns (llm: Backend)
    requires WellBound(crew)
    requires |answers| == |crew.tasks|
    ensures Results(crew, llm) == answers
  {
    llm := (i: nat, a: Agent, t: Task) => if i < |answers| then answers[i] else "";
  }

  /** The reduction, lines 128-143: join the results with a blank line and
      let the reporter work its one task. Result `i` sits at `Start(i)`, a
      separator follows every result but the last (`n` results, `n - 1`
      separators), the reporter's task carries the joined text verbatim, and
      the final report is the reporter's answer to that task. */
  function Report(results: seq<string>, llm: Backend): (o: Outcome)
    ensures o.Reported?
    ensures o.individualReports == Join(results, ReportSeparator)
    ensures |results| > 0 ==>
              && |o.individualReports| == Start(results, ReportSeparator, |results| - 1) + |results[|results| - 1]|
              && (forall i :: 0 <= i < |results| ==> PartPlaced(o.individualReports, results, ReportSeparator, i))
              && (forall i :: 0 <= i < |results| - 1 ==> SeparatorPlaced(o.individualReports, results, ReportSeparator, i))
    ensures OccursAt(ReportingTask(o.individualReports).description, o.individualReports, |ReportsHeader|)
    ensures o.finalReport == llm(|results|, ReportingAgent, ReportingTask(o.individualReports))
  {
    var reports := Join(results, ReportSeparator);
    var reporting := ReportingCrew(reports);
    var answer := llm(|results|, reporting.agents[reporting.tasks[0].agent], reporting.tasks[0]);
    ReportingTaskCarriesReports(reports);
    JoinLayout(results, ReportSeparator);
    Reported(reports, answer)
  }

  /** Lines 76-148, given the dispatcher's raw reply. `loads` is
      `json.loads` (`None` for a `JSONDecodeError`), `show` is `str()` of a
      non-string value, `llm` is every model call after the dispatcher's. */
  function Run(raw: string, loads: string -> Option<Json>, show: Json -> string, llm: Backend): (r: Result<Outcome, Error>)
    ensures loads(raw).None? ==> r == Success(NothingToEvaluate)
    ensures r.Failure? <==> Decode(raw, loads).Failure? || Build(Decode(raw, loads).value, show).Failure?
    ensures r.Failure? ==>
              r.error == (if Decode(raw, loads).Failure? then Decode(raw, loads).error
                          else Build(Decode(raw, loads).value, show).error)
    ensures r == Success(NothingToEvaluate) <==>
              Decode(raw, loads).Success? && Build(Decode(raw, loads).value, show).Success? &&
              TotalItems(Decode(raw, loads).value) == 0
  {
    match Decode(raw, loads)
    case Failure(e) => Failure(e)
    case Success(groups) =>
      match Build(groups, show)
      case Failure(e) => Failure(e)
      case Success(crew) =>
        if |crew.tasks| == 0 then Success(NothingToEvaluate)
        else Success(Report(Results(crew, llm), llm))
  }

  /** With no work, no model is ever consulted: the outcome is the same
      whatever the backend answers. */
  lemma NoWorkIgnoresBackend(raw: string, loads: string -> Option<Json>, show: Json -> string, llm1: Backend, llm2: Backend)
    requires Run(raw, loads, show, llm1) == Success(NothingToEvaluate)
    ensures Run(raw, loads, show, llm2) == Success(NothingToEvaluate)
  {
  }

  /** A dispatcher reply that decodes to an empty dict, or to a dict whose
      values are all empty, also ends in "no work", even though in the second
      case specialists were built. */
  lemma EmptyGroupsMeanNoWork(raw: string, loads: string -> Option<Json>, show: Json -> string, llm: Backend)
    requires Decode(raw, loads).Success?
    requires forall i :: 0 <= i < |Decode(raw, loads).value| ==> Decode(raw, loads).value[i].items == []
    ensures Run(raw, loads, show, llm) == Success(NothingToEvaluate)
    ensures |Build(Decode(raw, loads).value, show).value.agents| == |Decode(raw, loads).value|
  {
    var groups := Decode(raw, loads).value;
    assert AllEvaluationItems(groups);
    NoItemsNoTasks(groups);
  }

  lemma {:induction false} NoItemsNoTasks(groups: seq<Group>)
    requires forall i :: 0 <= i < |groups| ==> groups[i].items == []
    ensures TotalItems(groups) == 0
    decreases |groups|
  {
    if |groups| > 0 {
      NoItemsNoTasks(groups[..|groups| - 1]);
    }
  }

  /** When there is work, the reporter's input is the join of every task's
      result, one result per item, and the final report is the reporter's
      answer to its one task built from that input. */
  lemma ReporterInput(raw: string, loads: string -> Option<Json>, show: Json -> string, llm: Backend)
    requires Decode(raw, loads).Success? && Build(Decode(raw, loads).value, show).Success?
    requires TotalItems(Decode(raw, loads).value) > 0
    ensures Run(raw, loads, show, llm).Success? && Run(raw, loads, show, llm).value.Reported?
    ensures var groups := Decode(raw, loads).value;
            var crew := Build(groups, show).value;
            var out := Run(raw, loads, show, llm).value;
            && |Results(crew, llm)| == TotalItems(groups) > 0
            && out.individualReports == Join(Results(crew, llm), ReportSeparator)
            && out.finalReport == llm(|Results(crew, llm)|, ReportingAgent, ReportingTask(out.individualReports))
  {
  }

  /** The result the reporter sees for item `j` of group `i` was produced by
      the specialist of that group's category, working on that item's task. */
  lemma ResultFromOwnSpecialist(groups: seq<Group>, show: Json -> string, llm: Backend, i: nat, j: nat)
    requires Build(groups, show).Success?
    requires i < |groups| && j < |groups[i].items|
    ensures var crew := Build(groups, show).value;
            var t := Offset(groups, i) + j;
            && t < |Results(crew, llm)|
            && Results(crew, llm)[t] == llm(t, Specialist(groups[i].category), crew.tasks[t])
            && TaskFor(groups[i].category, groups[i].items[j], i, show) == Success(crew.tasks[t])
  {
    TaskBoundToOwnSpecialist(groups, show, i, j);
    TaskAt(groups, show, i, j);
  }
}

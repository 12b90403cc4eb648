/** The records the evaluator hands to the agent framework: an agent is its
    three prompt strings, a task is its two prompt strings plus the agent it
    is assigned to, and a crew is the agents and tasks run together. */
module CrewTypes {
  import opened Text

  datatype Agent = Agent(role: string, goal: string, backstory: string)

  /** `agent` is the position, in the crew's agent list, of the agent the
      task is assigned to. */
  datatype Task = Task(description: string, expectedOutput: string, agent: nat)

  datatype Crew = Crew(agents: seq<Agent>, tasks: seq<Task>)

  /** Every task of the crew is assigned to one of the crew's own agents. */
  predicate WellBound(c: Crew) {
    forall t :: t in c.tasks ==> t.agent < |c.agents|
  }

  /** Hiring one more agent together with tasks bound to it keeps every task
      bound to an agent of the crew. */
  lemma WellBoundExtend(c: Crew, a: Agent, block: seq<Task>)
    requires WellBound(c)
    requires forall t :: t in block ==> t.agent == |c.agents|
    ensures WellBound(Crew(c.agents + [a], c.tasks + block))
  {
  }

  /** The specialist evaluator built for one category. */
  function Specialist(category: string): Agent {
    Agent(
      "'" + category + "' 부문 전문 평가관",
      "제안서의 '" + category + "' 부문에 해당하는 모든 심사 항목들을 전문적으로 평가",
      "당신은 오직 '" + category + "' 분야의 평가만을 위해 투입된 최고의 전문가입니다.")
  }

  /** The specialist's role, goal and backstory each name its category; the
      role quotes it right after the opening quote. */
  lemma SpecialistNamesCategory(category: string)
    ensures OccursAt(Specialist(category).role, category, 1)
    ensures Embeds(Specialist(category).goal, category)
    ensures Embeds(Specialist(category).backstory, category)
  {
    EmbedsMiddle("'", category, "' 부문 전문 평가관");
    EmbedsMiddle("제안서의 '", category, "' 부문에 해당하는 모든 심사 항목들을 전문적으로 평가");
    EmbedsMiddle("당신은 오직 '", category, "' 분야의 평가만을 위해 투입된 최고의 전문가입니다.");
  }

  /** Different categories get different specialists: the specialist
      identifies the category it was built for. */
  lemma SpecialistInjective(c1: string, c2: string)
    ensures Specialist(c1) == Specialist(c2) <==> c1 == c2
  {
    if Specialist(c1) == Specialist(c2) {
      var role := Specialist(c1).role;
      assert |role| == |c1| + |"' 부문 전문 평가관"| + 1;
      assert |role| == |c2| + |"' 부문 전문 평가관"| + 1;
      assert c1 == role[1..1 + |c1|];
    }
  }

  /** The single reporter that turns the individual evaluations into the
      final report. */
  const ReportingAgent: Agent := Agent(
    "수석 평가 분석가 (Chief Evaluation Analyst)",
    "여러 개의 개별 평가 보고서를 종합하여, 경영진이 의사결정을 내릴 수 있도록 하나의 완성된 최종 보고서를 작성",
    "당신은 여러 부서의 보고를 취합하여 핵심만 요약하고, 전체적인 관점에서 강점과 약점을 분석하여 최종 보고서를 작성하는 데 매우 능숙합니다.")

  const ReportsHeader: string := "아래는 각 분야 전문가들이 작성한 개별 평가 보고서들입니다.\n\n[개별 평가 보고서 목록]\n"

  const ReportsTail: string := "\n\n위 보고서들을 모두 종합하여, 제안서 전체에 대한 최종 평가 보고서를 작성해주세요..."

  /** The reporter's one task, assigned to the only agent of the reporting
      crew. */
  function ReportingTask(individualReports: string): Task {
    Task(ReportsHeader + individualReports + ReportsTail, "하나의 완성된 최종 평가 보고서", 0)
  }

  /** The reporter's task description carries the joined individual reports
      verbatim, right after a fixed header. */
  lemma ReportingTaskCarriesReports(individualReports: string)
    ensures OccursAt(ReportingTask(individualReports).description, individualReports, |ReportsHeader|)
  {
  }

  /** The crew Phase 3 runs: the reporter and its one task. */
  function ReportingCrew(individualReports: string): (c: Crew)
    ensures WellBound(c) && |c.tasks| == 1
  {
    Crew([ReportingAgent], [ReportingTask(individualReports)])
  }
}

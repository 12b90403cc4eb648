/** The run the source's own item list is meant to produce, and the runs
    where the dispatcher's reply gives no work or cannot be used. */
module Scenarios {
  import opened Fallible
  import opened Json
  import opened CrewTypes
  import opened Dispatch
  import opened Construction
  import opened Pipeline

  /** One evaluation item as the dispatcher echoes it back. */
  function Item(category: string, topic: string, criteria: string): Json {
    JObject([("대분류", JString(category)), ("topic", JString(topic)), ("criteria", JString(criteria))])
  }

  /** The grouping the dispatcher is asked for, for the five items of lines
      33-39: two technical, two management, one pricing item. */
  const GroupedReply: Json := JObject([
    ("기술", JArray([
      Item("기술", "시스템 아키텍처", "MSA 기반의 유연하고 확장 가능한 아키텍처인가?"),
      Item("기술", "데이터베이스 암호화", "개인정보보호 및 데이터 암호화 방안이 명시되었는가?")])),
    ("관리", JArray([
      Item("관리", "프로젝트 관리 방안", "WBS 기반의 상세하고 실현 가능한 일정을 제시하였는가?"),
      Item("관리", "투입 인력 계획", "투입 인력의 역할과 경력이 적절한가?")])),
    ("가격", JArray([
      Item("가격", "비용 산정 내역", "제시된 비용이 합리적이고 구체적인 근거를 포함하는가?")]))])

  /** Every item of that shape can be turned into a task. */
  lemma ItemIsUsable(category: string, topic: string, criteria: string)
    ensures IsEvaluationItem(Item(category, topic, criteria))
  {
    var fields := Item(category, topic, criteria).fields;
    assert Get(fields, "topic") == Some(JString(topic));
    assert fields[1..][1..] == [("criteria", JString(criteria))];
    assert Get(fields[1..], "criteria") == Some(JString(criteria));
    assert Get(fields, "criteria") == Some(JString(criteria));
  }

  /** The reply decodes to its three groups, in reply order. */
  lemma GroupedReplyDecodes(raw: string, loads: string -> Option<Json>)
    requires loads(raw) == Some(GroupedReply)
    ensures Decode(raw, loads).Success?
    ensures var groups := Decode(raw, loads).value;
            && |groups| == 3
            && groups[0] == Group("기술", GroupedReply.fields[0].1.elems)
            && groups[1] == Group("관리", GroupedReply.fields[1].1.elems)
            && groups[2] == Group("가격", GroupedReply.fields[2].1.elems)
  {
  }

  /** Every item of every group of the reply is usable, and there are five. */
  lemma {:induction false} GroupedReplyItems(groups: seq<Group>)
    requires |groups| == 3
    requires groups[0] == Group("기술", GroupedReply.fields[0].1.elems)
    requires groups[1] == Group("관리", GroupedReply.fields[1].1.elems)
    requires groups[2] == Group("가격", GroupedReply.fields[2].1.elems)
    ensures AllEvaluationItems(groups)
    ensures TotalItems(groups) == 5
  {
    forall i, j | 0 <= i < 3 && 0 <= j < |groups[i].items|
      ensures IsEvaluationItem(groups[i].items[j])
    {
      var it := groups[i].items[j];
      ItemIsUsable(it.fields[0].1.s, it.fields[1].1.s, it.fields[2].1.s);
    }
    assert TotalItems(groups[..1]) == 2 by {
      assert groups[..1][..0] == [];
    }
    assert TotalItems(groups[..2]) == 4 by {
      assert groups[..2][..1] == groups[..1];
    }
    assert groups[..2] == groups[..3][..2];
  }

  /** Three categories of sizes 2, 2 and 1 give three specialists, five
      tasks and a report. */
  lemma GroupedReplyIsEvaluated(raw: string, loads: string -> Option<Json>, show: Json -> string, llm: Backend)
    requires loads(raw) == Some(GroupedReply)
    ensures Decode(raw, loads).Success? && |Decode(raw, loads).value| == 3
    ensures Build(Decode(raw, loads).value, show).Success?
    ensures |Build(Decode(raw, loads).value, show).value.agents| == 3
    ensures |Build(Decode(raw, loads).value, show).value.tasks| == 5
    ensures Run(raw, loads, show, llm).Success? && Run(raw, loads, show, llm).value.Reported?
  {
    GroupedReplyDecodes(raw, loads);
    GroupedReplyItems(Decode(raw, loads).value);
  }

  /** An empty reply object: no specialists, no tasks, no report. */
  lemma EmptyReplyIsNoWork(raw: string, loads: string -> Option<Json>, show: Json -> string, llm: Backend)
    requires loads(raw) == Some(JObject([]))
    ensures Build(Decode(raw, loads).value, show) == Success(Crew([], []))
    ensures Run(raw, loads, show, llm) == Success(NothingToEvaluate)
  {
  }

  /** Valid JSON that is not an object is not recovered: `.items()` raises. */
  lemma ArrayReplyRaises(raw: string, loads: string -> Option<Json>, show: Json -> string, llm: Backend)
    requires loads(raw) == Some(JArray([]))
    ensures Run(raw, loads, show, llm) == Failure(NotAMapping)
  {
  }

  /** An item without `criteria` is not recovered either: `KeyError`. */
  lemma MissingCriteriaRaises(raw: string, loads: string -> Option<Json>, show: Json -> string, llm: Backend)
    requires loads(raw) == Some(JObject([("기술", JArray([JObject([("topic", JString("시스템 아키텍처"))])]))]))
    ensures Run(raw, loads, show, llm) == Failure(MissingKey("criteria"))
  {
  }
}

/** Phase 2 set-up, lines 91-115: one specialist per category, then one
    evaluation task per item of that category, bound to that specialist. */
module Construction {
  import opened Fallible
  import opened Text
  import opened Json
  import opened Context
  import opened CrewTypes
  import opened Dispatch
  import opened Seqs

  /** An item the loop can turn into a task: a dict holding both `topic`
      and `criteria`. */
  predicate IsEvaluationItem(item: Json) {
    item.JObject? && Get(item.fields, "topic").Some? && Get(item.fields, "criteria").Some?
  }

  const TopicLead: string := "' 부문의 '"
  const CriteriaLead: string := "' 항목을 평가하시오.\n- 심사 기준: "
  const ContextLead: string := "\n- 관련 내용: "
  const ExpectedTail: string := "'에 대한 평가 점수, 요약문, 근거가 포함된 평가 보고서"

  /** The evaluation task's prompt for one item, assigned to `agent`.
      The formatted strings are written as a `Join` of their pieces with no
      separator, so that `PartAt` can place each piece in the prompt. */
  function EvaluationTask(category: string, topic: string, criteria: string, context: string, agent: nat): Task {
    Task(Join(["'", category, TopicLead, topic, CriteriaLead, criteria, ContextLead, context], ""),
         Join(["'", topic, ExpectedTail], ""),
         agent)
  }

  /** The description names the category right after the opening quote, and
      the topic, the criteria and the retrieved context; the expected output
      names the topic right after its opening quote. */
  lemma EvaluationTaskLayout(category: string, topic: string, criteria: string, context: string, agent: nat)
    ensures var t := EvaluationTask(category, topic, criteria, context, agent);
            && OccursAt(t.description, category, 1)
            && Embeds(t.description, topic) && Embeds(t.description, criteria) && Embeds(t.description, context)
            && OccursAt(t.expectedOutput, topic, 1)
  {
    var pieces := ["'", category, TopicLead, topic, CriteriaLead, criteria, ContextLead, context];
    PartAt(pieces, "", 1);
    assert Start(pieces, "", 1) == 1;
    PartAt(pieces, "", 3);
    PartAt(pieces, "", 5);
    PartAt(pieces, "", 7);
    PartAt(["'", topic, ExpectedTail], "", 1);
    assert Start(["'", topic, ExpectedTail], "", 1) == 1;
  }

  /** Lines 108-115 for one item. `item['topic']` is read first (for the
      context lookup), then `item['criteria']`; subscripting a non-dict
      raises `TypeError`, a missing key raises `KeyError`. */
  function TaskFor(category: string, item: Json, agent: nat, show: Json -> string): (r: Result<Task, Error>)
    ensures r.Success? <==> IsEvaluationItem(item)
    ensures !item.JObject? ==> r == Failure(ItemNotMapping(category))
    ensures item.JObject? && Get(item.fields, "topic").None? ==> r == Failure(MissingKey("topic"))
    ensures item.JObject? && Get(item.fields, "topic").Some? && Get(item.fields, "criteria").None? ==>
              r == Failure(MissingKey("criteria"))
    ensures r.Success? ==> r.value.agent == agent
  {
    if !item.JObject? then Failure(ItemNotMapping(category))
    else
      match Get(item.fields, "topic")
      case None => Failure(MissingKey("topic"))
      case Some(topic) =>
        var context := ForTopic(ProposalFile, Str(topic, show));
        match Get(item.fields, "criteria")
        case None => Failure(MissingKey("criteria"))
        case Some(criteria) => Success(EvaluationTask(category, Str(topic, show), Str(criteria, show), context, agent))
  }

  /** Every item of one category can be turned into a task. */
  predicate AllItemsOk(items: seq<Json>) {
    forall j {:trigger IsEvaluationItem(items[j])} :: 0 <= j < |items| ==> IsEvaluationItem(items[j])
  }

  /** The tasks of one category, in item order, all bound to `agent`; the
      first item that cannot be turned into a task raises. */
  function Block(category: string, items: seq<Json>, agent: nat, show: Json -> string): (r: Result<seq<Task>, Error>)
    ensures r.Success? <==> AllItemsOk(items)
    ensures r.Success? ==> |r.value| == |items|
    ensures r.Success? ==> forall t :: t in r.value ==> t.agent == agent
  {
    var steps := seq(|items|, j requires 0 <= j < |items| => TaskFor(category, items[j], agent, show));
    assert forall j :: 0 <= j < |items| ==> steps[j] == TaskFor(category, items[j], agent, show);
    AllOk(steps)
  }

  /** Number of items over all groups. */
  function TotalItems(groups: seq<Group>): nat
    decreases |groups|
  {
    if |groups| == 0 then 0 else TotalItems(groups[..|groups| - 1]) + |groups[|groups| - 1].items|
  }

  /** Position in the task list where the tasks of group `i` begin. */
  function Offset(groups: seq<Group>, i: nat): nat
    requires i <= |groups|
  {
    TotalItems(groups[..i])
  }

  /** Every item of every group can be turned into a task. */
  predicate AllEvaluationItems(groups: seq<Group>) {
    forall i {:trigger AllItemsOk(groups[i].items)} :: 0 <= i < |groups| ==> AllItemsOk(groups[i].items)
  }

  /** Splitting off the last group: all items are usable exactly when those
      of the earlier groups and those of the last group are. */
  lemma AllEvaluationItemsSnoc(groups: seq<Group>)
    requires |groups| > 0
    ensures AllEvaluationItems(groups) <==>
              AllEvaluationItems(groups[..|groups| - 1]) && AllItemsOk(groups[|groups| - 1].items)
    ensures forall i :: 0 <= i < |groups| - 1 ==> groups[..|groups| - 1][i] == groups[i]
  {
  }

  /** Lines 91-115: walk the groups in order; for each, append its specialist,
      then its block of tasks bound to that specialist. */
  function Build(groups: seq<Group>, show: Json -> string): (r: Result<Crew, Error>)
    ensures r.Success? <==> AllEvaluationItems(groups)
    ensures r.Success? ==> |r.value.agents| == |groups|
    ensures r.Success? ==> forall i {:trigger r.value.agents[i]} :: 0 <= i < |groups| ==> r.value.agents[i] == Specialist(groups[i].category)
    ensures r.Success? ==> |r.value.tasks| == TotalItems(groups)
    ensures r.Success? ==> WellBound(r.value)
    decreases |groups|
  {
    if |groups| == 0 then Success(Crew([], []))
    else
      var n := |groups| - 1;
      var prev := Build(groups[..n], show);
      AllEvaluationItemsSnoc(groups);
      if prev.Failure? then Failure(prev.error)
      else
        var block := Block(groups[n].category, groups[n].items, n, show);
        if block.Failure? then Failure(block.error)
        else
          WellBoundExtend(prev.value, Specialist(groups[n].category), block.value);
          Success(Crew(prev.value.agents + [Specialist(groups[n].category)], prev.value.tasks + block.value))
  }

  /** The task built for a usable item names the item's category, topic and
      criteria and the context retrieved for its topic, and is bound to the
      agent it was built for. */
  lemma TaskDescribesItem(category: string, item: Json, agent: nat, show: Json -> string)
    requires IsEvaluationItem(item)
    ensures TaskFor(category, item, agent, show).Success?
    ensures var t := TaskFor(category, item, agent, show).value;
            var topic := Str(Get(item.fields, "topic").value, show);
            var criteria := Str(Get(item.fields, "criteria").value, show);
            && t.agent == agent
            && OccursAt(t.description, category, 1)
            && Embeds(t.description, topic)
            && Embeds(t.description, criteria)
            && Embeds(t.description, ForTopic(ProposalFile, topic))
            && OccursAt(t.expectedOutput, topic, 1)
  {
    var topic := Str(Get(item.fields, "topic").value, show);
    var criteria := Str(Get(item.fields, "criteria").value, show);
    EvaluationTaskLayout(category, topic, criteria, ForTopic(ProposalFile, topic), agent);
  }

  /** Task `j` of a block is the one built from item `j`. */
  lemma BlockTaskAt(category: string, items: seq<Json>, agent: nat, show: Json -> string, j: int)
    requires Block(category, items, agent, show).Success?
    requires 0 <= j < |items|
    ensures TaskFor(category, items[j], agent, show) == Success(Block(category, items, agent, show).value[j])
  {
  }

  /** A block whose items all turn into the tasks `ts`, in order, is `ts`. */
  lemma BlockOfTasks(category: string, items: seq<Json>, agent: nat, show: Json -> string, ts: seq<Task>)
    requires |ts| == |items|
    requires forall k :: 0 <= k < |items| ==> TaskFor(category, items[k], agent, show) == Success(ts[k])
    ensures Block(category, items, agent, show) == Success(ts)
  {
    assert forall k :: 0 <= k < |items| ==> TaskFor(category, items[k], agent, show).Success?;
    assert AllItemsOk(items);
    var b := Block(category, items, agent, show);
    forall k | 0 <= k < |items|
      ensures b.value[k] == ts[k]
    {
      BlockTaskAt(category, items, agent, show, k);
    }
    assert b.value == ts;
  }

  /** A block fails with the error of its first unusable item. */
  lemma BlockFailsAt(category: string, items: seq<Json>, agent: nat, show: Json -> string, j: int)
    requires 0 <= j < |items|
    requires forall k :: 0 <= k < j ==> TaskFor(category, items[k], agent, show).Success?
    requires TaskFor(category, items[j], agent, show).Failure?
    ensures Block(category, items, agent, show) == Failure(TaskFor(category, items[j], agent, show).error)
  {
    var steps := seq(|items|, k requires 0 <= k < |items| => TaskFor(category, items[k], agent, show));
    assert forall k :: 0 <= k < |items| ==> steps[k] == TaskFor(category, items[k], agent, show);
    AllOkFailsAt(steps, j);
  }

  /** Once a prefix of the groups raises, the whole walk raises the same error. */
  lemma {:induction false} BuildFailureExtends(groups: seq<Group>, show: Json -> string, k: nat)
    requires k <= |groups|
    requires Build(groups[..k], show).Failure?
    ensures Build(groups, show) == Build(groups[..k], show)
    decreases |groups| - k
  {
    if k < |groups| {
      assert groups[..k + 1][..k] == groups[..k];
      BuildFailureExtends(groups, show, k + 1);
    } else {
      assert groups[..k] == groups;
    }
  }

  /** The tasks of group `i + 1` begin right after the last task of group `i`. */
  lemma OffsetStep(groups: seq<Group>, i: nat)
    requires i < |groups|
    ensures Offset(groups, i + 1) == Offset(groups, i) + |groups[i].items|
  {
    assert groups[..i + 1][..i] == groups[..i];
  }

  /** The tasks of an earlier group all come before those of a later one. */
  lemma {:induction false} OffsetMonotone(groups: seq<Group>, i: nat, k: nat)
    requires i < k <= |groups|
    ensures Offset(groups, i) + |groups[i].items| <= Offset(groups, k)
    decreases k - i
  {
    OffsetStep(groups, i);
    if i + 1 < k {
      OffsetMonotone(groups, i + 1, k);
    }
  }

  /** A successful walk's tasks are those of the walk over all but the last
      group, followed by the last group's block. */
  lemma {:induction false} BuildLast(groups: seq<Group>, show: Json -> string)
    requires |groups| > 0 && Build(groups, show).Success?
    ensures Build(groups[..|groups| - 1], show).Success?
    ensures Block(groups[|groups| - 1].category, groups[|groups| - 1].items, |groups| - 1, show).Success?
    ensures Build(groups, show).value.tasks ==
              Build(groups[..|groups| - 1], show).value.tasks +
              Block(groups[|groups| - 1].category, groups[|groups| - 1].items, |groups| - 1, show).value
  {
  }

  /** The tasks built for one group, or none when the group raises. */
  function BlockTasks(g: Group, agent: nat, show: Json -> string): seq<Task> {
    var b := Block(g.category, g.items, agent, show);
    if b.Success? then b.value else []
  }

  /** Each group's tasks, in group order, bound to the group's position. */
  function Blocks(groups: seq<Group>, show: Json -> string): (r: seq<seq<Task>>)
    ensures |r| == |groups|
    ensures forall i :: 0 <= i < |groups| ==> r[i] == BlockTasks(groups[i], i, show)
  {
    seq(|groups|, i requires 0 <= i < |groups| => BlockTasks(groups[i], i, show))
  }

  lemma BlocksOfPrefix(groups: seq<Group>, show: Json -> string, k: nat)
    requires k <= |groups|
    ensures Blocks(groups, show)[..k] == Blocks(groups[..k], show)
  {
  }

  /** A successful walk's task list is its groups' blocks laid end to end. */
  lemma {:induction false} BuildIsFlat(groups: seq<Group>, show: Json -> string)
    requires Build(groups, show).Success?
    ensures Build(groups, show).value.tasks == Flat(Blocks(groups, show))
    decreases |groups|
  {
    if |groups| > 0 {
      var n := |groups| - 1;
      var blocks := Blocks(groups, show);
      BuildLast(groups, show);
      BuildIsFlat(groups[..n], show);
      BlocksOfPrefix(groups, show, n);
      assert blocks[n] == Block(groups[n].category, groups[n].items, n, show).value;
    }
  }

  /** A walk that succeeds also succeeds on every prefix of the groups. */
  lemma PrefixBuilds(groups: seq<Group>, show: Json -> string, k: nat)
    requires Build(groups, show).Success?
    requires k <= |groups|
    ensures Build(groups[..k], show).Success?
  {
  }

  /** In a successful walk, block `i` begins at `Offset(i)`. */
  lemma OffsetIsFlatOffset(groups: seq<Group>, show: Json -> string, i: nat)
    requires Build(groups, show).Success?
    requires i <= |groups|
    ensures FlatOffset(Blocks(groups, show), i) == Offset(groups, i)
  {
    PrefixBuilds(groups, show, i);
    BlocksOfPrefix(groups, show, i);
    BuildIsFlat(groups[..i], show);
  }

  /** In a successful walk, block `i` is group `i`'s block, one task per item. */
  lemma BlockOfGroup(groups: seq<Group>, show: Json -> string, i: nat)
    requires Build(groups, show).Success?
    requires i < |groups|
    ensures Block(groups[i].category, groups[i].items, i, show).Success?
    ensures Blocks(groups, show)[i] == Block(groups[i].category, groups[i].items, i, show).value
    ensures |Blocks(groups, show)[i]| == |groups[i].items|
  {
  }

  /** Item `j` of group `i` becomes task `Offset(i) + j`: the task list is
      the groups' blocks laid end to end, in group order and item order. */
  lemma TaskAt(groups: seq<Group>, show: Json -> string, i: nat, j: nat)
    requires Build(groups, show).Success?
    requires i < |groups| && j < |groups[i].items|
    ensures Offset(groups, i) + j < |Build(groups, show).value.tasks|
    ensures TaskFor(groups[i].category, groups[i].items[j], i, show) ==
              Success(Build(groups, show).value.tasks[Offset(groups, i) + j])
  {
    BuildIsFlat(groups, show);
    OffsetIsFlatOffset(groups, show, i);
    BlockOfGroup(groups, show, i);
    FlatAt(Blocks(groups, show), i, j);
    BlockTaskAt(groups[i].category, groups[i].items, i, show, j);
  }

  /** Every task comes from some item: task `t` is item `j` of group `i`. */
  lemma TaskOrigin(groups: seq<Group>, show: Json -> string, t: nat) returns (i: nat, j: nat)
    requires Build(groups, show).Success?
    requires t < |Build(groups, show).value.tasks|
    ensures i < |groups| && j < |groups[i].items| && t == Offset(groups, i) + j
  {
    BuildIsFlat(groups, show);
    i, j := FlatOrigin(Blocks(groups, show), t);
    OffsetIsFlatOffset(groups, show, i);
    BlockOfGroup(groups, show, i);
  }

  /** Fan-out: the task built from item `j` of group `i` is bound to the
      specialist built for that same group's category, and its description
      names that category. With `TaskOrigin`, this covers every task. */
  lemma TaskBoundToOwnSpecialist(groups: seq<Group>, show: Json -> string, i: nat, j: nat)
    requires Build(groups, show).Success?
    requires i < |groups| && j < |groups[i].items|
    ensures var c := Build(groups, show).value;
            var t := Offset(groups, i) + j;
            && t < |c.tasks|
            && c.tasks[t].agent == i
            && c.agents[c.tasks[t].agent] == Specialist(groups[i].category)
            && OccursAt(c.tasks[t].description, groups[i].category, 1)
  {
    TaskAt(groups, show, i, j);
    TaskDescribesItem(groups[i].category, groups[i].items[j], i, show);
  }

  /** Tasks are ordered by group, then by item within a group. */
  lemma TasksInOrder(groups: seq<Group>, i1: nat, j1: nat, i2: nat, j2: nat)
    requires i1 < |groups| && j1 < |groups[i1].items|
    requires i2 < |groups| && j2 < |groups[i2].items|
    requires i1 < i2 || (i1 == i2 && j1 < j2)
    ensures Offset(groups, i1) + j1 < Offset(groups, i2) + j2
  {
    if i1 < i2 {
      OffsetMonotone(groups, i1, i2);
    }
  }

  /** With distinct category keys, as a dict has, no two specialists are
      alike: exactly one agent per key. */
  lemma OneSpecialistPerCategory(groups: seq<Group>, show: Json -> string)
    requires Build(groups, show).Success?
    requires DistinctCategories(groups)
    ensures var agents := Build(groups, show).value.agents;
            forall i, k :: 0 <= i < k < |agents| ==> agents[i] != agents[k]
  {
    forall i, k | 0 <= i < k < |groups|
      ensures Specialist(groups[i].category) != Specialist(groups[k].category)
    {
      SpecialistInjective(groups[i].category, groups[k].category);
    }
  }

  /** `block` holds the tasks of the first `j` items. */
  ghost predicate BuiltSoFar(category: string, items: seq<Json>, agent: nat, show: Json -> string, block: seq<Task>, j: int) {
    0 <= j <= |items| && |block| == j &&
    forall k :: 0 <= k < j ==> TaskFor(category, items[k], agent, show) == Success(block[k])
  }

  /** The inner loop of lines 108-115 as written: append each item's task
      to `tasks`, stopping at the first item that raises. It appends exactly
      the block `Block` describes, or raises the block's error. */
  method AppendTasks(category: string, items: seq<Json>, agent: nat, show: Json -> string, tasks: seq<Task>)
    returns (r: Result<seq<Task>, Error>)
    ensures var b := Block(category, items, agent, show);
            r == if b.Success? then Success(tasks + b.value) else Failure(b.error)
  {
    var acc := tasks;
    ghost var block: seq<Task> := [];
    for j := 0 to |items|
      invariant acc == tasks + block
      invariant BuiltSoFar(category, items, agent, show, block, j)
    {
      var task := TaskFor(category, items[j], agent, show);
      if task.Failure? {
        BlockFailsAt(category, items, agent, show, j);
        return Failure(task.error);
      }
      acc := acc + [task.value];
      block := block + [task.value];
    }
    BlockOfTasks(category, items, agent, show, block);
    return Success(acc);
  }

  /** The construction loop of lines 91-115 as written: for each group, append
      its specialist, then its tasks. It builds exactly what `Build`
      describes, and raises exactly when `Build` does. */
  method BuildCrew(groups: seq<Group>, show: Json -> string) returns (r: Result<Crew, Error>)
    ensures r == Build(groups, show)
  {
    var agents: seq<Agent> := [];
    var tasks: seq<Task> := [];
    for i := 0 to |groups|
      invariant Build(groups[..i], show) == Success(Crew(agents, tasks))
    {
      assert groups[..i + 1][..i] == groups[..i];
      agents := agents + [Specialist(groups[i].category)];
      var appended := AppendTasks(groups[i].category, groups[i].items, i, show, tasks);
      if appended.Failure? {
        BuildFailureExtends(groups, show, i + 1);
        return Failure(appended.error);
      }
      tasks := appended.value;
    }
    assert groups[..|groups|] == groups;
    return Success(Crew(agents, tasks));
  }
}

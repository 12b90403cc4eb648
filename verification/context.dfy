/** The placeholder retrieval step `get_context_for_topic`: a pure string
    function of the document name and the topic. */
module Context {
  import opened Text

  /** The fixed document every evaluation task asks about. */
  const ProposalFile: string := "A사_제안서.pdf"

  /** The canned "retrieved" text for `topic` in `proposalFile`. The logging
      line that precedes it in the source is output only. */
  function ForTopic(proposalFile: string, topic: string): string {
    "'" + proposalFile + "'의 '" + topic + "' 관련 내용입니다. (가상 RAG 결과)"
  }

  /** The context quotes the document name right after the opening quote and
      the topic right after the document name and its particle, around a
      fixed text of 28 characters. */
  lemma ForTopicLayout(proposalFile: string, topic: string)
    ensures OccursAt(ForTopic(proposalFile, topic), proposalFile, 1)
    ensures OccursAt(ForTopic(proposalFile, topic), topic, |proposalFile| + 5)
    ensures |ForTopic(proposalFile, topic)| == |proposalFile| + |topic| + 28
  {
  }

  /** For a fixed document, different topics give different contexts, so the
      context determines the topic it was retrieved for. */
  lemma ForTopicDeterminesTopic(proposalFile: string, t1: string, t2: string)
    ensures ForTopic(proposalFile, t1) == ForTopic(proposalFile, t2) <==> t1 == t2
  {
    if ForTopic(proposalFile, t1) == ForTopic(proposalFile, t2) {
      var r := ForTopic(proposalFile, t1);
      ForTopicLayout(proposalFile, t1);
      ForTopicLayout(proposalFile, t2);
      assert t1 == r[|proposalFile| + 5..|proposalFile| + 5 + |t1|];
    }
  }

  /** For a fixed topic, different documents give different contexts. */
  lemma ForTopicDeterminesFile(f1: string, f2: string, topic: string)
    ensures ForTopic(f1, topic) == ForTopic(f2, topic) <==> f1 == f2
  {
    if ForTopic(f1, topic) == ForTopic(f2, topic) {
      var r := ForTopic(f1, topic);
      ForTopicLayout(f1, topic);
      ForTopicLayout(f2, topic);
      assert f1 == r[1..1 + |f1|];
    }
  }
}

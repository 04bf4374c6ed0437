/** `FYPService.answer`: the guard chain that decides between an answer grounded in
    retrieved documents and a general-knowledge fallback. The vector index, retriever,
    reranker, response synthesizer and language model are outside the model; their
    results are inputs. */
module FypService {
  import opened Outcomes
  import opened DataTypes

  const GeneralKnowledge := "General Knowledge"
  const FallbackConfidence: real := 0.1
  const NoIndexReason := "Database connection failed or empty."
  const NoDocsReason := "No relevant docs found."

  /** The collaborators the service holds or reaches. `reranker` is `None` when the
      cross-encoder failed to load. Each of the first three may raise. */
  datatype Collaborators = Collaborators(
    retrieve: string -> Attempt<seq<Node>>,
    reranker: Option<(seq<Node>, string) -> Attempt<seq<Node>>>,
    synthesize: (string, seq<Node>) -> Attempt<string>,
    complete: string -> string)

  /** A collaborator call, recorded in the order the service makes them. */
  datatype Call = Retrieve(query: string) | Rerank(query: string) | Synthesize(query: string) | Complete(prompt: string)

  /** Which way the answer went; a fallback carries the reason `_fallback` logs. */
  datatype Route = Grounded | Fallback(reason: string)

  datatype Reply = Reply(result: CRAGResult, route: Route, calls: seq<Call>)

  predicate NoDuplicates(s: seq<string>) {
    forall i, j :: 0 <= i < j < |s| ==> s[i] != s[j]
  }

  /** The distinct values of `s` (Python `list(set(s))`; see README for the order). */
  function Distinct(s: seq<string>): (r: seq<string>)
    ensures NoDuplicates(r)
    ensures forall x :: x in r <==> x in s
    ensures |r| <= |s|
  {
    if s == [] then []
    else
      var rest := Distinct(s[..|s| - 1]);
      assert forall x :: x in s <==> x in s[..|s| - 1] || x == s[|s| - 1];
      if s[|s| - 1] in rest then rest else rest + [s[|s| - 1]]
  }

  /** The file name of every node, in order. */
  function FileNames(nodes: seq<Node>): (names: seq<string>)
    ensures |names| == |nodes|
    ensures forall i :: 0 <= i < |nodes| ==> names[i] == FileName(nodes[i])
  {
    seq(|nodes|, i requires 0 <= i < |nodes| => FileName(nodes[i]))
  }

  /** The nodes the synthesizer receives: reranked when a reranker is loaded, the
      retrieved ones unchanged otherwise. */
  function Reranked(c: Collaborators, nodes: seq<Node>, question: string): Attempt<seq<Node>> {
    if c.reranker.None? then Returned(nodes) else c.reranker.value(nodes, question)
  }

  /** `_fallback`: the language model answers the raw question on its own. */
  function FallbackReply(c: Collaborators, question: string, reason: string, before: seq<Call>): (r: Reply)
    ensures r.result.sources == [GeneralKnowledge] && r.result.confidence == FallbackConfidence
    ensures r.result.answer == c.complete(question)
    ensures r.route == Fallback(reason)
    ensures |r.calls| == |before| + 1 && r.calls[..|before|] == before
    ensures r.calls[|before|] == Complete(question)
  {
    Reply(CRAGResult(c.complete(question), [GeneralKnowledge], FallbackConfidence),
          Fallback(reason), before + [Complete(question)])
  }

  /** Steps D and E of `answer`, once the final node list is known. */
  function Generate(c: Collaborators, question: string, nodes: seq<Node>, before: seq<Call>): Reply {
    var calls := before + [Synthesize(question)];
    match c.synthesize(question, nodes)
    case Raised(e) => FallbackReply(c, question, e, calls)
    case Returned(text) =>
      Reply(CRAGResult(text, Distinct(FileNames(nodes)), if nodes != [] then nodes[0].score else 0.0),
            Grounded, calls)
  }

  /** `answer`. `indexAvailable` is whether `model_db.get_index` returned an index.
      `userRole` is accepted and ignored, as in the source. */
  function Answer(c: Collaborators, indexAvailable: bool, question: string, userRole: string): (r: Reply)
    // no index: fallback straight away, without touching the retriever
    ensures !indexAvailable ==> r.route == Fallback(NoIndexReason) && r.calls == [Complete(question)]
    // every fallback has the same shape
    ensures r.route.Fallback? ==>
      && r.result.sources == [GeneralKnowledge]
      && r.result.confidence == FallbackConfidence
      && r.result.answer == c.complete(question)
      && r.calls != [] && r.calls[|r.calls| - 1] == Complete(question)
    ensures indexAvailable && c.retrieve(question) == Returned([]) ==> r.route == Fallback(NoDocsReason)
    // an exception in retrieve, rerank or synthesize becomes a fallback carrying its message
    ensures indexAvailable && c.retrieve(question).Raised? ==> r.route == Fallback(c.retrieve(question).message)
    ensures indexAvailable && c.retrieve(question).Returned? && c.retrieve(question).value != []
            && Reranked(c, c.retrieve(question).value, question).Raised? ==>
              r.route == Fallback(Reranked(c, c.retrieve(question).value, question).message)
    ensures indexAvailable && c.retrieve(question).Returned? && c.retrieve(question).value != []
            && Reranked(c, c.retrieve(question).value, question).Returned?
            && c.synthesize(question, Reranked(c, c.retrieve(question).value, question).value).Raised? ==>
              r.route == Fallback(c.synthesize(question, Reranked(c, c.retrieve(question).value, question).value).message)
    // the grounded path is taken exactly when nothing failed and something was retrieved;
    // no score threshold is applied
    ensures r.route.Grounded? <==>
      && indexAvailable
      && c.retrieve(question).Returned? && c.retrieve(question).value != []
      && Reranked(c, c.retrieve(question).value, question).Returned?
      && c.synthesize(question, Reranked(c, c.retrieve(question).value, question).value).Returned?
    ensures r.route.Grounded? ==>
      var nodes := Reranked(c, c.retrieve(question).value, question).value;
      && r.result.answer == c.synthesize(question, nodes).value
      && NoDuplicates(r.result.sources)
      && (forall name :: name in r.result.sources <==> exists n :: n in nodes && FileName(n) == name)
      && r.result.confidence == (if nodes == [] then 0.0 else nodes[0].score)
      && Complete(question) !in r.calls
    ensures (Retrieve(question) in r.calls) <==> indexAvailable
  {
    if !indexAvailable then FallbackReply(c, question, NoIndexReason, [])
    else
      var afterRetrieve := [Retrieve(question)];
      match c.retrieve(question)
      case Raised(e) => FallbackReply(c, question, e, afterRetrieve)
      case Returned(nodes) =>
        if nodes == [] then FallbackReply(c, question, NoDocsReason, afterRetrieve)
        else if c.reranker.None? then Generate(c, question, nodes, afterRetrieve)
        else
          var afterRerank := afterRetrieve + [Rerank(question)];
          match c.reranker.value(nodes, question)
          case Raised(e) => FallbackReply(c, question, e, afterRerank)
          case Returned(ranked) => Generate(c, question, ranked, afterRerank)
  }

  /** Without a reranker the synthesizer sees exactly what the retriever returned. */
  lemma NoRerankerUsesRetrievedNodes(c: Collaborators, question: string, userRole: string)
    requires c.reranker.None?
    requires c.retrieve(question).Returned? && c.retrieve(question).value != []
    requires c.synthesize(question, c.retrieve(question).value).Returned?
    ensures Answer(c, true, question, userRole).route.Grounded?
    ensures Answer(c, true, question, userRole).result.confidence == c.retrieve(question).value[0].score
  {
  }

  /** The caller's role has no influence on the reply. */
  lemma AnswerIgnoresRole(c: Collaborators, indexAvailable: bool, question: string, role1: string, role2: string)
    ensures Answer(c, indexAvailable, question, role1) == Answer(c, indexAvailable, question, role2)
  {
  }
}

/** The console back end: the CRAG relevance gate in `run_crag`, the general-knowledge
    fallback, the cleaning of a pasted upload path and the guard of the query menu.
    The retriever, the reranker (top_n = 1), the synthesizer and the language model are
    inputs; none of them raises in this model. */
module Backend {
  import opened Outcomes
  import opened Text
  import opened DataTypes

  const RelevanceThreshold: real := 0.5
  const NoIndexMessage := "System Error: Please upload a document first."

  /** The collaborators `run_crag` calls. */
  datatype Pipeline = Pipeline(
    retrieve: string -> seq<Node>,
    rerank: (seq<Node>, string) -> seq<Node>,
    synthesize: (string, seq<Node>) -> string,
    complete: string -> string)

  /** The branch `run_crag` takes, as its console diagnostics report it. */
  datatype Decision = SystemError | DbEmpty | DbIrrelevant | DbGood

  datatype Call = Retrieve(query: string) | Rerank(query: string) | Synthesize(query: string) | Complete(prompt: string)

  datatype CragRun = CragRun(answer: string, decision: Decision, calls: seq<Call>)

  /** The relevance gate on its own: a function of whether an index exists, whether
      retrieval and reranking came back empty, and the best reranked score. */
  function Gate(indexPresent: bool, retrievedEmpty: bool, rerankedEmpty: bool, bestScore: real): (d: Decision)
    ensures d == SystemError <==> !indexPresent
    ensures d == DbEmpty <==> indexPresent && retrievedEmpty
    ensures d == DbGood <==> indexPresent && !retrievedEmpty && !rerankedEmpty && bestScore >= RelevanceThreshold
  {
    if !indexPresent then SystemError
    else if retrievedEmpty then DbEmpty
    else if rerankedEmpty || bestScore < RelevanceThreshold then DbIrrelevant
    else DbGood
  }

  /** A higher best score never turns a grounded decision into a fallback. */
  lemma GateMonotoneInScore(indexPresent: bool, retrievedEmpty: bool, rerankedEmpty: bool, low: real, high: real)
    requires low <= high
    requires Gate(indexPresent, retrievedEmpty, rerankedEmpty, low) == DbGood
    ensures Gate(indexPresent, retrievedEmpty, rerankedEmpty, high) == DbGood
  {
  }

  /** `fallback_to_general_knowledge`: the language model's completion of the query. */
  function FallbackToGeneralKnowledge(p: Pipeline, query: string): (answer: string)
    ensures answer == p.complete(query)
  {
    p.complete(query)
  }

  /** `run_crag` over the module-level `index` (here: whether one is loaded). */
  function RunCrag(p: Pipeline, indexPresent: bool, query: string): (r: CragRun)
    ensures !indexPresent ==> r.answer == NoIndexMessage && r.calls == []
    ensures r.decision == Gate(indexPresent, p.retrieve(query) == [],
                               p.rerank(p.retrieve(query), query) == [],
                               if p.rerank(p.retrieve(query), query) == [] then 0.0
                               else p.rerank(p.retrieve(query), query)[0].score)
    ensures r.decision in {DbEmpty, DbIrrelevant} ==>
              r.answer == p.complete(query) && Synthesize(query) !in r.calls
              && r.calls != [] && r.calls[|r.calls| - 1] == Complete(query)
    ensures r.decision == DbGood ==>
              r.answer == p.synthesize(query, p.rerank(p.retrieve(query), query))
              && Complete(query) !in r.calls
    ensures indexPresent ==> r.calls != [] && r.calls[0] == Retrieve(query)
  {
    if !indexPresent then CragRun(NoIndexMessage, SystemError, [])
    else
      var retrieved := p.retrieve(query);
      if retrieved == [] then
        CragRun(FallbackToGeneralKnowledge(p, query), DbEmpty, [Retrieve(query), Complete(query)])
      else
        var reranked := p.rerank(retrieved, query);
        var tried := [Retrieve(query), Rerank(query)];
        if reranked == [] then
          CragRun(FallbackToGeneralKnowledge(p, query), DbIrrelevant, tried + [Complete(query)])
        else if reranked[0].score < RelevanceThreshold then
          CragRun(FallbackToGeneralKnowledge(p, query), DbIrrelevant, tried + [Complete(query)])
        else
          CragRun(p.synthesize(query, reranked), DbGood, tried + [Synthesize(query)])
  }

  /** A best score of exactly the threshold is good enough. */
  lemma ThresholdIsInclusive(p: Pipeline, query: string)
    requires p.retrieve(query) != [] && p.rerank(p.retrieve(query), query) != []
    requires p.rerank(p.retrieve(query), query)[0].score == RelevanceThreshold
    ensures RunCrag(p, true, query).decision == DbGood
  {
  }

  /** The path `upload_document_console` uploads: the pasted line stripped, then with every
      double quote removed. */
  function CleanPath(raw: string): (path: string)
    ensures '"' !in path
    ensures forall c :: c != '"' ==> (c in path <==> c in Strip(raw))
    ensures multiset(path) == multiset(Strip(raw))['"' := 0]
    ensures '"' !in raw ==> path == Strip(raw)
    ensures AllSpace(raw) ==> path == []
  {
    RemoveAll(Strip(raw), '"')
  }

  /** The console's state: whether the module-level `index` is loaded. */
  class Console {
    var indexPresent: bool

    /** At start-up `index` is whatever `get_index` gave, or `None` if it raised. */
    constructor (loaded: bool)
      ensures indexPresent == loaded
    {
      indexPresent := loaded;
    }

    /** `upload_document_console`. `reloaded` is what `get_index` returns after the upload;
        the result is the path handed to `upload_file`, if any. */
    method UploadDocumentConsole(raw: string, reloaded: bool) returns (uploaded: Option<string>)
      modifies this
      ensures uploaded.None? <==> CleanPath(raw) == []
      ensures uploaded.None? ==> indexPresent == old(indexPresent)
      ensures uploaded.Some? ==> uploaded.value == CleanPath(raw) && indexPresent == reloaded
    {
      var path := RemoveAll(Strip(raw), '"');
      if path != [] {
        uploaded := Some(path);
        indexPresent := reloaded;
      } else {
        uploaded := None;
      }
    }

    /** Menu choice 1: `receive_user_query` strips the typed line, and `run_crag` runs only
        when what remains is non-empty. */
    method QuerySession(p: Pipeline, typed: string) returns (answer: Option<string>)
      ensures answer.None? <==> AllSpace(typed)
      ensures answer.Some? ==> answer.value == RunCrag(p, indexPresent, Strip(typed)).answer
    {
      var query := Strip(typed);
      if query != [] {
        var run := RunCrag(p, indexPresent, query);
        answer := Some(run.answer);
      } else {
        answer := None;
      }
    }
  }
}

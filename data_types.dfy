/** The records exchanged between the service layer and the view model. */
module DataTypes {

  /** `CRAGResult`: an answer, the file names it was grounded in, and a confidence. */
  datatype CRAGResult = CRAGResult(answer: string, sources: seq<string>, confidence: real)

  /** A retrieved chunk with its relevance score (LlamaIndex's `NodeWithScore`): only its
      metadata and score are inspected by the core. */
  datatype Node = Node(metadata: map<string, string>, score: real)

  /** `n.metadata.get('file_name', 'unknown')`. */
  function FileName(n: Node): string {
    if "file_name" in n.metadata then n.metadata["file_name"] else "unknown"
  }
}

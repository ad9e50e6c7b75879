/**
 * The text nodes the retrieval library hands over: a chunk of text, the metadata keys
 * the services read or write, and the similarity score a retriever attaches. A key that
 * the node's metadata dict does not hold is `None` here.
 */
module Nodes {
  import opened Wrappers

  datatype NodeMetadata = NodeMetadata(
    documentId: Option<string> := None,
    fileName: Option<string> := None,
    ingestedAt: Option<string> := None,
    chunkIndex: Option<int> := None,
    pageLabel: Option<string> := None)

  datatype Node = Node(text: string, metadata: NodeMetadata, score: Option<real> := None)
}

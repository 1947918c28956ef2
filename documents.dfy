/** The indexed documents retrieval works over, and the embedding service. */
module Documents {
  import opened Wrappers
  import opened Similarity

  /** The embedding service: None when the call fails (the promise rejects). */
  type Embedder = string -> Option<Vector>

  /** Metadata of a case-record document or of a transcript window. */
  datatype Meta =
    | CaseMeta(source: string, path: string, level: nat, keywords: seq<string>)
    | TranscriptMeta(source: string, turn: nat, keywords: seq<string>)

  /** A document with its embedding. */
  datatype Document = Document(text: string, embedding: Vector, meta: Meta)

  /** One entry of keyHistoryPoints together with the embedding of its point. */
  datatype KeyPoint = KeyPoint(point: string, embedding: Vector)
}

/**
 * Values shared by the synchronisation pass: optional values, LangChain
 * documents with their metadata, and the metadata keys the pass writes.
 */
module Common {

  datatype Option<+T> = None | Some(value: T)

  /** A drive item id as listed by Microsoft Graph. */
  type FileId = string

  /**
   * A drive item's `lastModifiedDateTime`. Python's `item.get` yields None
   * when the listing carries no such field, and None is saved as JSON null.
   */
  type Token = Option<string>

  type Bytes = seq<bv8>

  /** Document metadata; every value the pass writes is a string. */
  type Metadata = map<string, string>

  /** A LangChain `Document`: page content plus metadata. */
  datatype Document = Document(content: string, metadata: Metadata)

  const SourceKey: string := "source"
  const FileIdKey: string := "file_id"
  const UuidKey: string := "uuid"

  /** The file a document or chunk belongs to: its `file_id` metadata, when present. */
  function OwnerOf(d: Document): Option<FileId>
  {
    if FileIdKey in d.metadata then Some(d.metadata[FileIdKey]) else None
  }

  /**
   * The set comprehension at the head of `embed_and_store`: the `file_id` of
   * every chunk that carries one.
   */
  function OwnersOf(docs: seq<Document>): set<FileId>
  {
    set d | d in docs && FileIdKey in d.metadata :: d.metadata[FileIdKey]
  }

  /** The page contents of a sequence of documents, in order. */
  function Contents(docs: seq<Document>): seq<string>
  {
    seq(|docs|, i requires 0 <= i < |docs| => docs[i].content)
  }
}

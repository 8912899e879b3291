/**
 * Turning one listed file into chunks: the extension dispatch and metadata
 * tagging of `load_document`, and the empty-content filter of
 * `chunk_documents`. The format parsers, the audio transcription and the
 * text splitter are foreign code and enter as function parameters.
 */
module Loading {
  import opened Common

  /** Index of the last occurrence of `c` in `s`, or -1 (Python's `str.rfind`). */
  function LastIndexOf(s: string, c: char): (k: int)
    ensures -1 <= k < |s|
    ensures k >= 0 ==> s[k] == c
    ensures forall j :: k < j < |s| ==> s[j] != c
  {
    if |s| == 0 then -1
    else if s[|s| - 1] == c then |s| - 1
    else LastIndexOf(s[..|s| - 1], c)
  }

  /**
   * The extension half of `os.path.splitext` on a POSIX path: from the last
   * dot of the last path component, unless everything before that dot in the
   * component is dots (".bashrc" has no extension).
   */
  function Extension(path: string): (ext: string)
    ensures ext == [] || (ext[0] == '.' && |ext| < |path| && ext == path[|path| - |ext|..])
    ensures forall i :: 0 < i < |ext| ==> ext[i] != '.' && ext[i] != '/'
  {
    var sep := LastIndexOf(path, '/');
    var dot := LastIndexOf(path, '.');
    if dot > sep && exists k :: sep < k < dot && path[k] != '.' then path[dot..] else []
  }

  /** A file name whose stem has a character other than a dot gets the text after its last dot. */
  lemma ExtensionOfName(stem: string, suffix: string, k: nat)
    requires forall i :: 0 <= i < |stem| ==> stem[i] != '/'
    requires k < |stem| && stem[k] != '.'
    requires forall i :: 0 <= i < |suffix| ==> suffix[i] != '.' && suffix[i] != '/'
    ensures Extension(stem + "." + suffix) == "." + suffix
  {
    var path := stem + "." + suffix;
    var dot := LastIndexOf(path, '.');
    assert path[|stem|] == '.';
    assert forall j :: |stem| < j < |path| ==> path[j] == suffix[j - |stem| - 1];
    assert dot == |stem|;
    assert forall j :: 0 <= j < |path| ==> path[j] != '/';
    assert LastIndexOf(path, '/') == -1;
    assert path[k] == stem[k];
    assert path[dot..] == "." + suffix;
  }

  /** ASCII lower-casing of one character. */
  function LowerChar(c: char): char
  {
    if 'A' <= c <= 'Z' then (c as int + 32) as char else c
  }

  /** `str.lower` restricted to ASCII letters. */
  function Lower(s: string): string
  {
    seq(|s|, i requires 0 <= i < |s| => LowerChar(s[i]))
  }

  /** The loaders `load_document` dispatches to. */
  datatype Format = Pdf | Word | PowerPoint | Excel | Csv | Text | Audio

  const SupportedExtensions: set<string> :=
    {".pdf", ".docx", ".pptx", ".xls", ".xlsx", ".csv", ".txt", ".mp3", ".mp4"}

  /** The `if`/`elif` chain of `load_document` on the lower-cased extension. */
  function FormatOf(ext: string): (f: Option<Format>)
    ensures f.Some? <==> ext in SupportedExtensions
    ensures f == Some(Audio) <==> ext == ".mp3" || ext == ".mp4"
    ensures f == Some(Excel) <==> ext == ".xls" || ext == ".xlsx"
  {
    if ext == ".pdf" then Some(Pdf)
    else if ext == ".docx" then Some(Word)
    else if ext == ".pptx" then Some(PowerPoint)
    else if ext == ".xls" || ext == ".xlsx" then Some(Excel)
    else if ext == ".csv" then Some(Csv)
    else if ext == ".txt" then Some(Text)
    else if ext == ".mp3" || ext == ".mp4" then Some(Audio)
    else None
  }

  /**
   * The foreign collaborators of `load_document`: a document loader per
   * format and the Whisper transcription; None stands for an exception.
   */
  datatype Loaders = Loaders(
    parse: (Format, Bytes) -> Option<seq<Document>>,
    transcribe: Bytes -> Option<string>)

  /** The documents a loader returns before tagging; None when the extension is unsupported or a loader raised. */
  function RawDocuments(fileName: string, stream: Bytes, loaders: Loaders): Option<seq<Document>>
  {
    match FormatOf(Lower(Extension(fileName)))
    case None => None
    case Some(Audio) =>
      (match loaders.transcribe(stream)
       case None => None
       case Some(text) => Some([Document(text, map[])]))
    case Some(format) => loaders.parse(format, stream)
  }

  /** One document with `source` and `file_id` attached. */
  function Tag(d: Document, url: string, fileId: FileId): Document
  {
    d.(metadata := d.metadata[SourceKey := url][FileIdKey := fileId])
  }

  /** What `load_document` returns for a file: its tagged documents, or [] on every failure. */
  function LoadedDocuments(fileName: string, stream: Bytes, url: string, fileId: FileId, loaders: Loaders): seq<Document>
  {
    match RawDocuments(fileName, stream, loaders)
    case None => []
    case Some(raw) => seq(|raw|, i requires 0 <= i < |raw| => Tag(raw[i], url, fileId))
  }

  /**
   * `load_document`: dispatch on the extension, call the loader, then tag
   * every document in place with its source URL and file id.
   */
  method LoadDocument(fileName: string, stream: Bytes, url: string, fileId: FileId, loaders: Loaders)
    returns (docs: seq<Document>)
    ensures docs == LoadedDocuments(fileName, stream, url, fileId, loaders)
    ensures FormatOf(Lower(Extension(fileName))).None? ==> docs == []
    ensures forall d :: d in docs ==> SourceKey in d.metadata && d.metadata[SourceKey] == url
    ensures forall d :: d in docs ==> OwnerOf(d) == Some(fileId)
  {
    var ext := Lower(Extension(fileName));
    var format := FormatOf(ext);
    if format.None? {
      return [];
    }
    var raw: seq<Document>;
    if format.value == Audio {
      var text := loaders.transcribe(stream);
      if text.None? {
        return [];
      }
      raw := [Document(text.value, map[])];
    } else {
      var parsed := loaders.parse(format.value, stream);
      if parsed.None? {
        return [];
      }
      raw := parsed.value;
    }
    docs := raw;
    var i := 0;
    while i < |docs|
      invariant 0 <= i <= |docs| == |raw|
      invariant forall j :: 0 <= j < i ==> docs[j] == Tag(raw[j], url, fileId)
      invariant forall j :: i <= j < |docs| ==> docs[j] == raw[j]
    {
      docs := docs[i := Tag(docs[i], url, fileId)];
      i := i + 1;
    }
  }

  /** The pieces one document is split into; each carries a copy of the document's metadata. */
  function Pieces(d: Document, splitText: string -> seq<string>): seq<Document>
  {
    var texts := splitText(d.content);
    seq(|texts|, i requires 0 <= i < |texts| => Document(texts[i], d.metadata))
  }

  /** `split_documents` of the text splitter: the pieces of every document, in order. */
  function SplitDocuments(docs: seq<Document>, splitText: string -> seq<string>): seq<Document>
  {
    if docs == [] then [] else Pieces(docs[0], splitText) + SplitDocuments(docs[1..], splitText)
  }

  /** Every piece carries the metadata of some document it was split from. */
  lemma {:induction false} SplitKeepsMetadata(docs: seq<Document>, splitText: string -> seq<string>, c: Document)
    requires c in SplitDocuments(docs, splitText)
    ensures exists d :: d in docs && c.metadata == d.metadata
  {
    if c in Pieces(docs[0], splitText) {
      assert docs[0] in docs;
    } else {
      SplitKeepsMetadata(docs[1..], splitText, c);
      var d :| d in docs[1..] && c.metadata == d.metadata;
      assert d in docs;
    }
  }

  /** The comprehension of `chunk_documents`: keep the chunks whose page content is not empty, in order. */
  function KeepNonEmpty(chunks: seq<Document>): (kept: seq<Document>)
    ensures forall c :: c in kept <==> c in chunks && c.content != []
    ensures |kept| <= |chunks|
  {
    if chunks == [] then []
    else (if chunks[0].content != [] then [chunks[0]] else []) + KeepNonEmpty(chunks[1..])
  }

  /** The filter keeps every non-empty chunk as often as it occurs, and no empty one. */
  lemma {:induction false} KeepNonEmptyCounts(chunks: seq<Document>, c: Document)
    ensures multiset(KeepNonEmpty(chunks))[c] == if c.content != [] then multiset(chunks)[c] else 0
  {
    if chunks != [] {
      KeepNonEmptyCounts(chunks[1..], c);
      assert chunks == [chunks[0]] + chunks[1..];
      assert multiset(chunks) == multiset([chunks[0]]) + multiset(chunks[1..]);
    }
  }

  /** When no chunk is empty, the filter returns the chunks unchanged, in order. */
  lemma {:induction false} KeepNonEmptyKeepsAll(chunks: seq<Document>)
    requires forall i :: 0 <= i < |chunks| ==> chunks[i].content != []
    ensures KeepNonEmpty(chunks) == chunks
  {
    if chunks != [] {
      KeepNonEmptyKeepsAll(chunks[1..]);
      assert chunks == [chunks[0]] + chunks[1..];
    }
  }

  /** `chunk_documents`: split, then drop empty chunks. */
  function ChunkDocuments(docs: seq<Document>, splitText: string -> seq<string>): seq<Document>
  {
    KeepNonEmpty(SplitDocuments(docs, splitText))
  }

  /**
   * The chunks of a loaded file are non-empty and keep the file's `source` and
   * `file_id` tags, so the store can find them by owner later.
   */
  lemma ChunksOfLoadedFile(fileName: string, stream: Bytes, url: string, fileId: FileId,
                           loaders: Loaders, splitText: string -> seq<string>, c: Document)
    requires c in ChunkDocuments(LoadedDocuments(fileName, stream, url, fileId, loaders), splitText)
    ensures c.content != []
    ensures OwnerOf(c) == Some(fileId)
    ensures SourceKey in c.metadata && c.metadata[SourceKey] == url
  {
    var docs := LoadedDocuments(fileName, stream, url, fileId, loaders);
    SplitKeepsMetadata(docs, splitText, c);
    var d :| d in docs && c.metadata == d.metadata;
  }
}

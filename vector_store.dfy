/** `PaperVectorStore.build_storage` (src/vector_store.py) up to the text
    splitter: which papers are read and which documents are made of them. */
module VectorStore {
  import opened Seqs
  import opened Storage

  /** A document's metadata: `{"id": pid, "title": title}`. */
  datatype DocMetadata = DocMetadata(id: int, title: string)

  /** A LangChain `Document`: page text plus metadata. */
  datatype Document = Document(pageContent: string, metadata: DocMetadata)

  /** `SELECT id, title, abstract FROM papers ORDER BY created_at DESC LIMIT ?`.
      Timestamps increase with insertion order, so newest-first is the reverse
      of the table; a negative LIMIT means no limit in SQLite. */
  function NewestFirst(papers: seq<PaperRecord>, limit: int): (rows: seq<PaperRecord>)
    ensures |rows| == (if limit < 0 || limit >= |papers| then |papers| else limit)
    ensures forall k :: 0 <= k < |rows| ==> rows[k] == papers[|papers| - 1 - k]
  {
    ReversedEach(papers);
    var all := Reversed(papers);
    if limit < 0 || limit >= |all| then all else all[..limit]
  }

  /** At most `limit` papers are read (all of them when `limit` is negative or
      large), in non-increasing `created_at` order, and every paper left out is
      older than every paper read: the selection is the `limit` newest. */
  lemma NewestFirstSelects(papers: seq<PaperRecord>, limit: int)
    requires CreatedInOrder(papers)
    ensures var rows := NewestFirst(papers, limit);
      && |rows| == (if limit < 0 || limit >= |papers| then |papers| else limit)
      && (forall k :: 0 <= k < |rows| ==> rows[k] == papers[|papers| - 1 - k])
      && (forall k, l :: 0 <= k < l < |rows| ==> rows[k].createdAt >= rows[l].createdAt)
      && (forall i, k :: 0 <= i < |papers| - |rows| && 0 <= k < |rows| ==> papers[i].createdAt < rows[k].createdAt)
  {
  }

  /** `abstract or ''`: a NULL or empty abstract contributes nothing. */
  function AbstractOrEmpty(c: Cell): string
  {
    match c
    case Null => ""
    case Text(s) => s
  }

  /** The document for one row: `f"{title}\n\n{abstract or ''}"` with metadata
      `{"id": pid, "title": title}`. */
  function DocumentOf(p: PaperRecord): (d: Document)
    ensures d.metadata == DocMetadata(p.id, Show(p.columns.title))
    ensures AbstractFromDocument(d) == AbstractOrEmpty(p.columns.abstractText)
  {
    var title := Show(p.columns.title);
    Document(title + "\n\n" + AbstractOrEmpty(p.columns.abstractText), DocMetadata(p.id, title))
  }

  /** Reads the abstract back out of a document, using the title in its metadata. */
  function AbstractFromDocument(d: Document): string
  {
    var n := |d.metadata.title| + 2;
    if n <= |d.pageContent| then d.pageContent[n..] else ""
  }

  /** A document carries its paper's id and title, its text starts with the title
      and a blank line, and the abstract (or "" for NULL) is recovered exactly. */
  lemma DocumentRoundTrip(p: PaperRecord)
    requires p.columns.title.Text?
    ensures DocumentOf(p).metadata == DocMetadata(p.id, p.columns.title.text)
    ensures DocumentOf(p).pageContent[..|p.columns.title.text| + 2] == p.columns.title.text + "\n\n"
    ensures AbstractFromDocument(DocumentOf(p)) == AbstractOrEmpty(p.columns.abstractText)
    ensures p.columns.abstractText.Null? ==> DocumentOf(p).pageContent == p.columns.title.text + "\n\n"
  {
    var t := p.columns.title.text;
    var d := DocumentOf(p);
    assert d.pageContent == (t + "\n\n") + AbstractOrEmpty(p.columns.abstractText);
  }

  class PaperVectorStore {
    const papersDb: PapersDB

    constructor (papersDb: PapersDB)
      ensures this.papersDb == papersDb
    {
      this.papersDb := papersDb;
    }

    /** `build_storage(sql_query_limit = 500)` up to the splitter: one document per
        selected paper, in selection order (newest first). */
    method BuildStorage(limit: int := 500) returns (docs: seq<Document>)
      requires papersDb.Valid()
      ensures |docs| == |NewestFirst(papersDb.papers, limit)|
      ensures limit >= 0 ==> |docs| <= limit
      ensures forall k :: 0 <= k < |docs| ==> docs[k] == DocumentOf(NewestFirst(papersDb.papers, limit)[k])
      ensures forall k :: 0 <= k < |docs| ==> docs[k].metadata.id == papersDb.papers[|papersDb.papers| - 1 - k].id
      ensures forall k, l :: 0 <= k < l < |docs| ==> docs[k].metadata.id > docs[l].metadata.id
    {
      var rows := NewestFirst(papersDb.papers, limit);
      NewestFirstSelects(papersDb.papers, limit);
      docs := [];
      var i := 0;
      while i < |rows|
        invariant 0 <= i <= |rows|
        invariant |docs| == i
        invariant forall k :: 0 <= k < i ==> docs[k] == DocumentOf(rows[k])
      {
        docs := docs + [DocumentOf(rows[i])];
        i := i + 1;
      }
    }
  }
}

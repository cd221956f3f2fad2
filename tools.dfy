/** The two tools of src/main.py, `retrieve` and `lookup_by_keyword`: each
    returns a text for the model (`content`) and the raw results (`artifact`). */
module Tools {
  import opened Text
  import opened Storage
  import opened VectorStore

  datatype ToolResult<A> = ToolResult(content: string, artifact: A)

  /** `similarity_search(query, k=3)`. */
  const RetrieveK := 3

  /** One serialized hit: `f"Source: {doc.metadata}\nContent: {doc.page_content}"`,
      with `showMetadata` standing for Python's printing of the metadata dict. */
  function Serialize(doc: Document, showMetadata: DocMetadata -> string): (block: string)
    ensures "Source: " <= block
  {
    "Source: " + showMetadata(doc.metadata) + "\nContent: " + doc.pageContent
  }

  function SerializeAll(docs: seq<Document>, showMetadata: DocMetadata -> string): (blocks: seq<string>)
    ensures |blocks| == |docs|
    ensures forall i :: 0 <= i < |docs| ==> blocks[i] == Serialize(docs[i], showMetadata)
  {
    seq(|docs|, i requires 0 <= i < |docs| => Serialize(docs[i], showMetadata))
  }

  /** `retrieve(query)`. `ranked` is the index's ranking of its chunks for the
      query, best first; the search keeps the first three. The content holds
      each hit's block at its offset, in hit order, with a blank line between
      consecutive blocks and nothing after the last. */
  function Retrieve(ranked: seq<Document>, showMetadata: DocMetadata -> string): (r: ToolResult<seq<Document>>)
    ensures |r.artifact| == if |ranked| < RetrieveK then |ranked| else RetrieveK
    ensures r.artifact == ranked[..|r.artifact|]
    ensures r.content == "" <==> r.artifact == []
    ensures r.artifact != [] ==> "Source: " <= r.content
    ensures JoinedAs(r.content, "\n\n", SerializeAll(r.artifact, showMetadata))
  {
    var hits := if |ranked| <= RetrieveK then ranked else ranked[..RetrieveK];
    var blocks := SerializeAll(hits, showMetadata);
    JoinNonEmpty("\n\n", blocks);
    JoinLayout("\n\n", blocks);
    ToolResult(Join("\n\n", blocks), hits)
  }

  /** A row of `SELECT title, url FROM papers`. */
  datatype TitleUrl = TitleUrl(title: Cell, url: Cell)

  /** `col LIKE '%keyword%'` without wildcard characters in the keyword: an
      ASCII case-insensitive substring test, which NULL never passes. */
  predicate Like(c: Cell, keyword: string)
  {
    c.Text? && Contains(Lower(c.text), Lower(keyword))
  }

  /** The WHERE clause: the keyword in the title OR in the abstract. */
  predicate Matches(p: PaperRecord, keyword: string)
  {
    Like(p.columns.title, keyword) || Like(p.columns.abstractText, keyword)
  }

  /** A paper matches exactly when the lower-cased keyword occurs somewhere in
      its lower-cased title or in its lower-cased abstract; a NULL column never
      matches. */
  lemma MatchesCorrect(p: PaperRecord, keyword: string)
    ensures Matches(p, keyword) ==> OccursIn(p.columns.title, keyword) || OccursIn(p.columns.abstractText, keyword)
    ensures OccursIn(p.columns.title, keyword) || OccursIn(p.columns.abstractText, keyword) ==> Matches(p, keyword)
  {
    LikeCorrect(p.columns.title, keyword);
    LikeCorrect(p.columns.abstractText, keyword);
  }

  /** The lower-cased keyword occurs somewhere in the lower-cased column. */
  ghost predicate OccursIn(c: Cell, keyword: string)
  {
    c.Text? && exists i :: OccursAt(Lower(c.text), Lower(keyword), i)
  }

  lemma LikeCorrect(c: Cell, keyword: string)
    ensures Like(c, keyword) ==> OccursIn(c, keyword)
    ensures OccursIn(c, keyword) ==> Like(c, keyword)
  {
    if c.Text? {
      ContainsCorrect(Lower(c.text), Lower(keyword));
    }
  }

  /** The rows `cursor.fetchall()` returns, in table order. */
  function MatchingRows(papers: seq<PaperRecord>, keyword: string): (rows: seq<TitleUrl>)
    ensures |rows| <= |papers|
    ensures forall row :: row in rows <==>
      exists i :: 0 <= i < |papers| && Matches(papers[i], keyword) && row == TitleUrl(papers[i].columns.title, papers[i].columns.url)
  {
    if papers == [] then []
    else
      var p := papers[0];
      var rest := MatchingRows(papers[1..], keyword);
      assert forall i :: 1 <= i < |papers| ==> papers[i] == papers[1..][i - 1];
      if Matches(p, keyword) then [TitleUrl(p.columns.title, p.columns.url)] + rest else rest
  }

  /** Matching keeps table order: the rows for `a + b` are those for `a` followed
      by those for `b`. */
  lemma {:induction false} MatchingRowsAppend(a: seq<PaperRecord>, b: seq<PaperRecord>, keyword: string)
    ensures MatchingRows(a + b, keyword) == MatchingRows(a, keyword) + MatchingRows(b, keyword)
  {
    if a == [] {
      assert a + b == b;
    } else {
      assert (a + b)[1..] == a[1..] + b;
      MatchingRowsAppend(a[1..], b, keyword);
    }
  }

  /** `f"{title} - {url}"`. */
  function Line(row: TitleUrl): string
  {
    Show(row.title) + " - " + Show(row.url)
  }

  function Lines(rows: seq<TitleUrl>): (lines: seq<string>)
    ensures |lines| == |rows|
    ensures forall i :: 0 <= i < |rows| ==> lines[i] == Line(rows[i])
  {
    seq(|rows|, i requires 0 <= i < |rows| => Line(rows[i]))
  }

  /** `lookup_by_keyword(keyword)`: the matching rows, and one "<title> - <url>"
      line per row at its offset, in row order, with a newline between
      consecutive lines and nothing after the last. No match gives "". */
  function LookupByKeyword(papers: seq<PaperRecord>, keyword: string): (r: ToolResult<seq<TitleUrl>>)
    ensures r.artifact == MatchingRows(papers, keyword)
    ensures r.content == "" <==> r.artifact == []
    ensures r.artifact != [] ==> Line(r.artifact[0]) <= r.content
    ensures JoinedAs(r.content, "\n", Lines(r.artifact))
  {
    var rows := MatchingRows(papers, keyword);
    var lines := Lines(rows);
    assert forall i :: 0 <= i < |lines| ==> |lines[i]| >= 3;
    JoinNonEmpty("\n", lines);
    JoinLayout("\n", lines);
    ToolResult(Join("\n", lines), rows)
  }

  /** The match ignores ASCII case in the keyword. */
  lemma MatchIgnoresKeywordCase(p: PaperRecord, keyword: string)
    ensures Matches(p, keyword) == Matches(p, Lower(keyword))
  {
    LowerIdempotent(keyword);
  }

  /** An empty keyword (`LIKE '%%'`) matches every row, since titles are never NULL. */
  lemma {:induction false} EmptyKeywordMatchesAll(papers: seq<PaperRecord>)
    requires forall i :: 0 <= i < |papers| ==> papers[i].columns.title.Text?
    ensures |MatchingRows(papers, "")| == |papers|
  {
    if papers != [] {
      ContainsEmpty(Lower(papers[0].columns.title.text));
      EmptyKeywordMatchesAll(papers[1..]);
    }
  }

  /** The case-insensitive lookup: "dna" finds a paper whose title starts with
      "DNA", such as "DNA Repair Mechanisms". */
  lemma LowerCaseKeywordFindsTitle(p: PaperRecord)
    requires p.columns.title.Text? && "DNA" <= p.columns.title.text
    ensures Matches(p, "dna")
  {
    var title := p.columns.title.text;
    var hay := Lower(title);
    var kw := Lower("dna");
    assert |kw| == 3 && kw[0] == 'd' && kw[1] == 'n' && kw[2] == 'a';
    assert title[0] == 'D' && title[1] == 'N' && title[2] == 'A';
    assert hay[0] == 'd' && hay[1] == 'n' && hay[2] == 'a';
    assert hay[0..3] == kw;
    assert OccursAt(hay, kw, 0);
    ContainsCorrect(hay, kw);
  }
}

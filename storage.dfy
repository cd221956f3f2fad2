/** The `papers` table of `PapersDB` (src/storage.py), held in memory: the rows
    in insertion (rowid) order, the AUTOINCREMENT counter, and an abstract clock
    standing in for `CURRENT_TIMESTAMP`. */
module Storage {
  import opened Wrappers

  /** A value of the Python dictionary handed to `store_paper`. */
  datatype Value = NoneValue | Str(text: string) | Date(stamp: int)

  type PaperData = map<string, Value>

  /** A TEXT cell of the table: NULL or a string. */
  datatype Cell = Null | Text(text: string)

  /** The five columns `store_paper` writes. */
  datatype Columns = Columns(title: Cell, abstractText: Cell, content: Cell, source: Cell, url: Cell)

  /** One row of `papers`. */
  datatype PaperRecord = PaperRecord(id: int, columns: Columns, createdAt: int)

  /** The tuple `get_paper` returns: `(id, title, abstract, content, source, url)`. */
  datatype PaperRow = PaperRow(id: int, columns: Columns)

  datatype StoreError = NotNullViolation | EngineError

  /** `store_paper` returns the new row id or raises. */
  datatype StoreOutcome = Stored(id: int) | StoreFailed(error: StoreError)

  /** Python's `str(...)` of a fetched cell: `None` prints as "None". */
  function Show(c: Cell): string
  {
    match c
    case Null => "None"
    case Text(s) => s
  }

  predicate IsDate(data: PaperData, key: string)
  {
    key in data && data[key].Date?
  }

  /** The keys `store_paper` reads hold text or `None`. */
  predicate Bindable(data: PaperData)
  {
    !IsDate(data, "title") && !IsDate(data, "summary") && !IsDate(data, "content")
    && !IsDate(data, "source") && !IsDate(data, "url")
  }

  /** `c` is what binding `paper_data.get(key, '')` to a TEXT column stores:
      "" for a missing key, NULL for `None`, the string itself otherwise. */
  predicate BoundAs(data: PaperData, key: string, c: Cell)
  {
    && (key !in data ==> c == Text(""))
    && (key in data ==> (c.Null? <==> data[key].NoneValue?))
    && (key in data && data[key].Str? ==> c == Text(data[key].text))
  }

  /** `paper_data.get(key, '')` bound to a TEXT column. */
  function Column(data: PaperData, key: string): (c: Cell)
    requires !IsDate(data, key)
    ensures BoundAs(data, key, c)
  {
    if key !in data then Text("")
    else match data[key]
      case NoneValue => Null
      case Str(s) => Text(s)
  }

  /** The INSERT's column list: `summary` goes to the abstract column. */
  function ColumnsOf(data: PaperData): (cols: Columns)
    requires Bindable(data)
    ensures BoundAs(data, "title", cols.title) && BoundAs(data, "summary", cols.abstractText)
    ensures BoundAs(data, "content", cols.content) && BoundAs(data, "source", cols.source)
    ensures BoundAs(data, "url", cols.url)
  {
    Columns(Column(data, "title"), Column(data, "summary"), Column(data, "content"),
            Column(data, "source"), Column(data, "url"))
  }

  function RowOf(p: PaperRecord): PaperRow
  {
    PaperRow(p.id, p.columns)
  }

  /** `SELECT ... WHERE id = ?` followed by `fetchone()`. */
  function FindRow(records: seq<PaperRecord>, paperId: int): (r: Option<PaperRow>)
    ensures r.None? <==> forall i :: 0 <= i < |records| ==> records[i].id != paperId
    ensures r.Some? ==> exists i :: 0 <= i < |records| && records[i].id == paperId && r.value == RowOf(records[i])
  {
    if |records| == 0 then None
    else if records[0].id == paperId then Some(RowOf(records[0]))
    else
      var r := FindRow(records[1..], paperId);
      assert forall i :: 1 <= i < |records| ==> records[i] == records[1..][i - 1];
      r
  }

  /** The written columns of each row, in table order. */
  function RecordColumns(records: seq<PaperRecord>): (cols: seq<Columns>)
    ensures |cols| == |records|
  {
    if records == [] then [] else RecordColumns(records[..|records| - 1]) + [records[|records| - 1].columns]
  }

  lemma RecordColumnsAppend(records: seq<PaperRecord>, r: PaperRecord)
    ensures RecordColumns(records + [r]) == RecordColumns(records) + [r.columns]
  {
    assert (records + [r])[..|records|] == records;
  }

  lemma {:induction false} RecordColumnsConcat(a: seq<PaperRecord>, b: seq<PaperRecord>)
    ensures RecordColumns(a + b) == RecordColumns(a) + RecordColumns(b)
    decreases |b|
  {
    if b == [] {
      assert a + b == a;
    } else {
      var init := b[..|b| - 1];
      RecordColumnsConcat(a, init);
      assert a + b == (a + init) + [b[|b| - 1]];
      RecordColumnsAppend(a + init, b[|b| - 1]);
    }
  }

  /** The set of ids in the table. */
  function Ids(records: seq<PaperRecord>): set<int>
  {
    if records == [] then {} else Ids(records[..|records| - 1]) + {records[|records| - 1].id}
  }

  lemma {:induction false} IdsMembers(records: seq<PaperRecord>, x: int)
    ensures x in Ids(records) <==> exists i :: 0 <= i < |records| && records[i].id == x
  {
    if records != [] {
      var n := |records| - 1;
      IdsMembers(records[..n], x);
      assert forall i :: 0 <= i < n ==> records[..n][i] == records[i];
    }
  }

  predicate IncreasingIds(records: seq<PaperRecord>)
  {
    forall i, j :: 0 <= i < j < |records| ==> records[i].id < records[j].id
  }

  /** Distinct ids: the number of ids equals the number of rows. */
  lemma {:induction false} IdsCount(records: seq<PaperRecord>)
    requires IncreasingIds(records)
    ensures |Ids(records)| == |records|
  {
    if records != [] {
      var n := |records| - 1;
      assert IncreasingIds(records[..n]);
      IdsCount(records[..n]);
      IdsMembers(records[..n], records[n].id);
      assert records[n].id !in Ids(records[..n]);
    }
  }

  /** What SQLite keeps true of the table: ids increase in rowid order and never
      exceed the AUTOINCREMENT counter, titles are NOT NULL, and timestamps
      increase and lie before the clock. */
  ghost predicate WellFormedTable(papers: seq<PaperRecord>, lastId: int, clock: int)
  {
    && lastId >= 0
    && IncreasingIds(papers)
    && (forall i :: 0 <= i < |papers| ==>
          1 <= papers[i].id <= lastId && papers[i].createdAt < clock && papers[i].columns.title.Text?)
    && CreatedInOrder(papers)
  }

  /** `created_at` increases with rowid order. */
  predicate CreatedInOrder(papers: seq<PaperRecord>)
  {
    forall i, j :: 0 <= i < j < |papers| ==> papers[i].createdAt < papers[j].createdAt
  }

  class PapersDB {
    /** The rows of `papers`, in insertion order. */
    var papers: seq<PaperRecord>
    /** The AUTOINCREMENT counter (`sqlite_sequence`): the largest id ever assigned. */
    var lastId: int
    /** The abstract timestamp the next insert receives. */
    var clock: int

    ghost predicate Valid()
      reads this
    {
      WellFormedTable(papers, lastId, clock)
    }

    /** A new database file: `setup_tables` creates an empty `papers` table. */
    constructor ()
      ensures Valid()
      ensures papers == [] && lastId == 0
    {
      papers := [];
      lastId := 0;
      clock := 0;
    }

    /** An existing database file: `CREATE TABLE IF NOT EXISTS` leaves its rows
        and its AUTOINCREMENT counter as they were. */
    constructor Open(rows: seq<PaperRecord>, counter: int, now: int)
      requires WellFormedTable(rows, counter, now)
      ensures Valid()
      ensures papers == rows && lastId == counter && clock == now
    {
      papers := rows;
      lastId := counter;
      clock := now;
    }

    /** `get_paper`: the row with that id, or None if no row has it. */
    function GetPaper(paperId: int): (r: Option<PaperRow>)
      reads this
      requires Valid()
      ensures r.None? <==> paperId !in Ids(papers)
      ensures r.None? <==> forall i :: 0 <= i < |papers| ==> papers[i].id != paperId
      ensures paperId < 1 || paperId > lastId ==> r.None?
      ensures r.Some? ==> r.value.id == paperId
      ensures r.Some? ==> exists i :: 0 <= i < |papers| && papers[i].id == paperId && r.value == RowOf(papers[i])
    {
      IdsMembers(papers, paperId);
      FindRow(papers, paperId)
    }

    /** `get_paper_count`: `COUNT(*)`, which is the number of distinct ids stored. */
    function GetPaperCount(): (n: nat)
      reads this
      requires Valid()
      ensures n == |Ids(papers)|
    {
      IdsCount(papers);
      |papers|
    }

    /** `store_paper`. The insert fails when the engine fails (`engineFails`: I/O,
        locking) or when the title column would be NULL; a failed insert leaves
        the table and the counter as they were. Nothing else is checked: the same
        data can be stored any number of times. */
    method StorePaper(data: PaperData, engineFails: bool) returns (r: StoreOutcome)
      requires Valid() && Bindable(data)
      modifies this
      ensures Valid()
      ensures r.StoreFailed? <==> engineFails || ColumnsOf(data).title.Null?
      ensures r.StoreFailed? && engineFails ==> r.error == EngineError
      ensures r.StoreFailed? && !engineFails ==> r.error == NotNullViolation
      ensures r.StoreFailed? ==> papers == old(papers) && lastId == old(lastId) && clock == old(clock)
      ensures r.Stored? ==> r.id > old(lastId) && lastId == r.id
      ensures r.Stored? ==> forall i :: 0 <= i < |old(papers)| ==> old(papers)[i].id < r.id
      ensures r.Stored? ==> papers == old(papers) + [PaperRecord(r.id, ColumnsOf(data), old(clock))]
      ensures r.Stored? ==> GetPaperCount() == old(GetPaperCount()) + 1
      ensures r.Stored? ==> GetPaper(r.id) == Some(PaperRow(r.id, ColumnsOf(data)))
    {
      var cols := ColumnsOf(data);
      if engineFails {
        return StoreFailed(EngineError);
      }
      if cols.title.Null? {
        return StoreFailed(NotNullViolation);
      }
      var id := lastId + 1;
      papers := papers + [PaperRecord(id, cols, clock)];
      lastId := id;
      clock := clock + 1;
      r := Stored(id);
      IdsCount(old(papers));
    }
  }

  /** No uniqueness check other than the id: storing the same dictionary twice
      gives two rows with the same columns under two ids. */
  method StoreSamePaperTwice(db: PapersDB, data: PaperData) returns (first: StoreOutcome, second: StoreOutcome)
    requires db.Valid() && Bindable(data) && ColumnsOf(data).title.Text?
    modifies db
    ensures db.Valid()
    ensures first.Stored? && second.Stored? && first.id < second.id
    ensures db.GetPaperCount() == old(db.GetPaperCount()) + 2
    ensures db.GetPaper(first.id).Some? && db.GetPaper(second.id).Some?
    ensures db.GetPaper(first.id).value.columns == db.GetPaper(second.id).value.columns
  {
    first := db.StorePaper(data, false);
    second := db.StorePaper(data, false);
  }
}

/** `FreeDataCollector` (src/query.py): fetches papers topic by topic from the
    arXiv search, then stores every fetched paper, counting the stores that
    succeed. The search and the store engine's failures are oracles. */
module Ingestion {
  import opened Wrappers
  import opened Storage
  import opened Seqs

  /** One arXiv search result: the fields `fetch_papers` reads. */
  datatype ArxivResult = ArxivResult(title: string, summary: string, pdfUrl: Option<string>, published: int)

  /** `arxiv.Search(...).results()`: the results, or an exception at any point. */
  datatype SearchOutcome = Results(results: seq<ArxivResult>) | SearchFailed

  const MaxResults := 200
  const DefaultTopics: seq<string> := ["machine learning", "biology", "chemistry"]

  /** The dictionary made of one result: `url` is taken from `pdf_url`,
      `published` is the only date, and `content` and `source` are absent. */
  function PaperOf(r: ArxivResult): PaperData
  {
    map["title" := Str(r.title),
        "summary" := Str(r.summary),
        "url" := (match r.pdfUrl case Some(u) => Str(u) case None => NoneValue),
        "published" := Date(r.published)]
  }

  /** `fetch_papers`: one dictionary per result, in result order; a failed
      search gives the empty list instead of raising. */
  function FetchPapers(outcome: SearchOutcome): (papers: seq<PaperData>)
    ensures outcome.SearchFailed? ==> papers == []
    ensures outcome.Results? ==> |papers| == |outcome.results|
    ensures outcome.Results? ==> forall i :: 0 <= i < |papers| ==>
      papers[i] == PaperOf(outcome.results[i])
  {
    match outcome
    case SearchFailed => []
    case Results(rs) => seq(|rs|, i requires 0 <= i < |rs| => PaperOf(rs[i]))
  }

  /** What a fetched paper becomes in the table: title, abstract (from `summary`)
      and url as fetched, `content` and `source` defaulted to "". Its title is
      never NULL, so only an engine failure can stop it being stored. */
  lemma FetchedPaperColumns(r: ArxivResult)
    ensures PaperOf(r).Keys == {"title", "summary", "url", "published"}
    ensures PaperOf(r)["published"].Date?
    ensures PaperOf(r)["url"].NoneValue? <==> r.pdfUrl.None?
    ensures Bindable(PaperOf(r))
    ensures ColumnsOf(PaperOf(r)) ==
      Columns(Text(r.title), Text(r.summary), Text(""), Text(""),
              match r.pdfUrl case Some(u) => Text(u) case None => Null)
  {
  }

  /** `topics`, or the default topics when it is None (an empty list stays empty). */
  function TopicList(topics: Option<seq<string>>): (list: seq<string>)
    ensures topics.None? ==> list == ["machine learning", "biology", "chemistry"]
    ensures topics.Some? ==> list == topics.value
  {
    match topics
    case None => DefaultTopics
    case Some(ts) => ts
  }

  /** All papers of all topics, in topic order. */
  function Collected(search: (string, nat) -> SearchOutcome, topics: seq<string>): seq<PaperData>
  {
    if topics == [] then []
    else FetchPapers(search(topics[0], MaxResults)) + Collected(search, topics[1..])
  }

  /** Accumulation follows topic order: the papers of `a + b` are those of `a`
      followed by those of `b`. */
  lemma {:induction false} CollectedAppend(search: (string, nat) -> SearchOutcome, a: seq<string>, b: seq<string>)
    ensures Collected(search, a + b) == Collected(search, a) + Collected(search, b)
  {
    if a == [] {
      assert a + b == b;
    } else {
      assert (a + b)[1..] == a[1..] + b;
      CollectedAppend(search, a[1..], b);
    }
  }

  /** The papers from topic `t` on: topic `t`'s, then those of the later topics. */
  lemma CollectedFrom(search: (string, nat) -> SearchOutcome, topics: seq<string>, t: nat)
    requires t < |topics|
    ensures Collected(search, topics[t..]) == FetchPapers(search(topics[t], MaxResults)) + Collected(search, topics[t + 1..])
  {
    assert topics[t..][1..] == topics[t + 1..];
  }

  /** The papers of topic `t` sit right after those of all earlier topics, in
      result order, and are followed by those of the later topics. */
  lemma CollectedTopicAt(search: (string, nat) -> SearchOutcome, topics: seq<string>, t: nat)
    requires t < |topics|
    ensures var before := Collected(search, topics[..t]);
      var own := FetchPapers(search(topics[t], MaxResults));
      Collected(search, topics) == before + (own + Collected(search, topics[t + 1..]))
  {
    assert topics[..t] + topics[t..] == topics;
    CollectedAppend(search, topics[..t], topics[t..]);
    CollectedFrom(search, topics, t);
  }

  predicate AllBindable(papers: seq<PaperData>)
  {
    forall i :: 0 <= i < |papers| ==> Bindable(papers[i])
  }

  /** Every collected paper can be bound and has a title. */
  predicate AllTitled(papers: seq<PaperData>)
    requires AllBindable(papers)
  {
    forall i :: 0 <= i < |papers| ==> ColumnsOf(papers[i]).title.Text?
  }

  lemma {:induction false} CollectedWellFormed(search: (string, nat) -> SearchOutcome, topics: seq<string>)
    ensures AllBindable(Collected(search, topics))
    ensures AllTitled(Collected(search, topics))
  {
    if topics != [] {
      CollectedWellFormed(search, topics[1..]);
      var front := FetchPapers(search(topics[0], MaxResults));
      var back := Collected(search, topics[1..]);
      forall i | 0 <= i < |front|
        ensures Bindable(front[i]) && ColumnsOf(front[i]).title.Text?
      {
        FetchedPaperColumns(search(topics[0], MaxResults).results[i]);
      }
      assert forall i :: 0 <= i < |front + back| ==>
        (front + back)[i] == if i < |front| then front[i] else back[i - |front|];
    }
  }

  /** The store attempt for the paper at position `i` succeeds. */
  predicate StoreSucceeds(data: PaperData, engineFails: bool)
    requires Bindable(data)
  {
    !engineFails && ColumnsOf(data).title.Text?
  }

  /** The papers whose store succeeded, in attempt order; `engineFails(i)` says
      whether the engine failed on the `i`-th attempt. */
  function Successful(papers: seq<PaperData>, engineFails: nat -> bool): (ok: seq<PaperData>)
    requires AllBindable(papers)
    ensures |ok| <= |papers|
    ensures AllBindable(ok)
  {
    if papers == [] then []
    else
      var n := |papers| - 1;
      Successful(papers[..n], engineFails) + (if StoreSucceeds(papers[n], engineFails(n)) then [papers[n]] else [])
  }

  /** The table columns of each paper, in order. */
  function ColumnsList(papers: seq<PaperData>): (cols: seq<Columns>)
    requires AllBindable(papers)
    ensures |cols| == |papers|
  {
    if papers == [] then [] else ColumnsList(papers[..|papers| - 1]) + [ColumnsOf(papers[|papers| - 1])]
  }

  lemma SuccessfulStep(papers: seq<PaperData>, j: nat, engineFails: nat -> bool)
    requires j < |papers| && AllBindable(papers)
    ensures AllBindable(papers[..j]) && AllBindable(papers[..j + 1])
    ensures Successful(papers[..j + 1], engineFails) == Successful(papers[..j], engineFails)
      + (if StoreSucceeds(papers[j], engineFails(j)) then [papers[j]] else [])
  {
    assert papers[..j + 1][..j] == papers[..j];
  }

  lemma ColumnsListAppend(papers: seq<PaperData>, p: PaperData)
    requires AllBindable(papers) && Bindable(p)
    ensures AllBindable(papers + [p])
    ensures ColumnsList(papers + [p]) == ColumnsList(papers) + [ColumnsOf(p)]
  {
    assert (papers + [p])[..|papers|] == papers;
  }

  /** One attempt of the store loop: the rows it adds extend the columns of the
      stores that succeeded so far by the attempted paper's, when it succeeded. */
  lemma AttemptStep(papers: seq<PaperData>, j: nat, engineFails: nat -> bool, ok: bool,
                    added: seq<PaperRecord>, newRecords: seq<PaperRecord>)
    requires j < |papers| && AllBindable(papers)
    requires ok == StoreSucceeds(papers[j], engineFails(j))
    requires RecordColumns(newRecords) == if ok then [ColumnsOf(papers[j])] else []
    requires AllBindable(papers[..j])
    requires RecordColumns(added) == ColumnsList(Successful(papers[..j], engineFails))
    ensures AllBindable(papers[..j + 1])
    ensures |Successful(papers[..j + 1], engineFails)| == |Successful(papers[..j], engineFails)| + (if ok then 1 else 0)
    ensures RecordColumns(added + newRecords) == ColumnsList(Successful(papers[..j + 1], engineFails))
  {
    SuccessfulStep(papers, j, engineFails);
    RecordColumnsConcat(added, newRecords);
    if ok {
      ColumnsListAppend(Successful(papers[..j], engineFails), papers[j]);
    }
  }

  /** The number of engine failures among the first `n` attempts. */
  function EngineFailures(n: nat, engineFails: nat -> bool): nat
  {
    if n == 0 then 0 else EngineFailures(n - 1, engineFails) + (if engineFails(n - 1) then 1 else 0)
  }

  /** For papers with a title, the stores that succeed are exactly the attempts
      the engine did not fail: stored + engine failures == fetched. */
  lemma {:induction false} StoredPlusFailedIsFetched(papers: seq<PaperData>, engineFails: nat -> bool)
    requires AllBindable(papers)
    requires forall i :: 0 <= i < |papers| ==> ColumnsOf(papers[i]).title.Text?
    ensures |Successful(papers, engineFails)| + EngineFailures(|papers|, engineFails) == |papers|
  {
    if papers != [] {
      StoredPlusFailedIsFetched(papers[..|papers| - 1], engineFails);
    }
  }

  /** A search for "biology" returning three papers, with the engine failing on
      the second store only, stores two papers. */
  lemma ThreeFetchedOneFails(search: (string, nat) -> SearchOutcome, engineFails: nat -> bool,
                             r0: ArxivResult, r1: ArxivResult, r2: ArxivResult)
    requires search("biology", MaxResults) == Results([r0, r1, r2])
    requires !engineFails(0) && engineFails(1) && !engineFails(2)
    ensures AllBindable(Collected(search, ["biology"]))
    ensures Successful(Collected(search, ["biology"]), engineFails) == [PaperOf(r0), PaperOf(r2)]
  {
    var papers := Collected(search, ["biology"]);
    assert ["biology"][..0] == [];
    assert papers == [PaperOf(r0), PaperOf(r1), PaperOf(r2)];
    FetchedPaperColumns(r0);
    FetchedPaperColumns(r1);
    FetchedPaperColumns(r2);
    var p1 := papers[..1];
    assert p1[..0] == [];
    assert Successful(p1, engineFails) == [PaperOf(r0)];
    var p2 := papers[..2];
    assert p2[..1] == p1;
    assert Successful(p2, engineFails) == [PaperOf(r0)];
  }

  class FreeDataCollector {
    const storage: PapersDB
    /** Number of `time.sleep(4)` cooldowns taken. */
    ghost var cooldowns: nat

    constructor (storage: PapersDB)
      ensures this.storage == storage && cooldowns == 0
    {
      this.storage := storage;
      cooldowns := 0;
    }

    /** `query_data`: fetch every topic in order with one cooldown after each,
        then attempt to store every collected paper exactly once, in order,
        skipping failures; returns how many stores succeeded. */
    method QueryData(topics: Option<seq<string>>, search: (string, nat) -> SearchOutcome, engineFails: nat -> bool)
      returns (stored: nat)
      requires storage.Valid()
      modifies this, storage
      ensures storage.Valid()
      ensures cooldowns == old(cooldowns) + |TopicList(topics)|
      ensures AllBindable(Collected(search, TopicList(topics)))
      ensures stored == |Successful(Collected(search, TopicList(topics)), engineFails)|
      ensures stored <= |Collected(search, TopicList(topics))|
      ensures |storage.papers| == |old(storage.papers)| + stored
      ensures storage.papers[..|old(storage.papers)|] == old(storage.papers)
      ensures RecordColumns(storage.papers[|old(storage.papers)|..]) == ColumnsList(Successful(Collected(search, TopicList(topics)), engineFails))
    {
      var topicList := TopicList(topics);
      var allPapers := FetchAll(topicList, search);
      CollectedWellFormed(search, topicList);
      stored := StoreAll(allPapers, engineFails);
    }

    /** The first loop of `query_data`: every topic's papers appended in topic
        order, with one cooldown per topic, the last one included. */
    method FetchAll(topicList: seq<string>, search: (string, nat) -> SearchOutcome) returns (allPapers: seq<PaperData>)
      modifies this
      ensures allPapers == Collected(search, topicList)
      ensures cooldowns == old(cooldowns) + |topicList|
    {
      allPapers := [];
      var i := 0;
      while i < |topicList|
        invariant 0 <= i <= |topicList|
        invariant allPapers == Collected(search, topicList[..i])
        invariant cooldowns == old(cooldowns) + i
      {
        var papers := FetchPapers(search(topicList[i], MaxResults));
        assert topicList[..i + 1] == topicList[..i] + [topicList[i]];
        CollectedAppend(search, topicList[..i], [topicList[i]]);
        assert Collected(search, [topicList[i]]) == papers + Collected(search, []);
        allPapers := allPapers + papers;
        cooldowns := cooldowns + 1;
        i := i + 1;
      }
      assert topicList[..i] == topicList;
    }

    /** The second loop of `query_data`: one `store_paper` per paper, a failure
        skipped and not counted. */
    method StoreAll(allPapers: seq<PaperData>, engineFails: nat -> bool)
      returns (stored: nat)
      requires storage.Valid() && AllBindable(allPapers)
      modifies storage
      ensures storage.Valid()
      ensures stored == |Successful(allPapers, engineFails)|
      ensures |storage.papers| == |old(storage.papers)| + stored
      ensures storage.papers[..|old(storage.papers)|] == old(storage.papers)
      ensures RecordColumns(storage.papers[|old(storage.papers)|..]) == ColumnsList(Successful(allPapers, engineFails))
    {
      ghost var before := storage.papers;
      ghost var added: seq<PaperRecord> := [];
      stored := 0;
      var j := 0;
      while j < |allPapers|
        invariant 0 <= j <= |allPapers|
        invariant storage.Valid()
        invariant stored == |Successful(allPapers[..j], engineFails)|
        invariant storage.papers == before + added
        invariant RecordColumns(added) == ColumnsList(Successful(allPapers[..j], engineFails))
      {
        var ok, newRecords := StoreOne(allPapers[j], engineFails(j));
        AttemptStep(allPapers, j, engineFails, ok, added, newRecords);
        if ok {
          stored := stored + 1;
        }
        AppendAssoc(before, added, newRecords);
        added := added + newRecords;
        j := j + 1;
      }
      assert allPapers[..j] == allPapers;
      AppendHalves(before, added);
    }

    /** One pass of the store loop's body: `store_paper` inside its `try`;
        `newRecords` is the row it appended, if any. */
    method StoreOne(data: PaperData, fails: bool) returns (ok: bool, ghost newRecords: seq<PaperRecord>)
      requires storage.Valid() && Bindable(data)
      modifies storage
      ensures storage.Valid()
      ensures ok == StoreSucceeds(data, fails)
      ensures storage.papers == old(storage.papers) + newRecords
      ensures RecordColumns(newRecords) == if ok then [ColumnsOf(data)] else []
    {
      var outcome := storage.StorePaper(data, fails);
      ok := outcome.Stored?;
      if ok {
        var record := PaperRecord(outcome.id, ColumnsOf(data), old(storage.clock));
        newRecords := [record];
        RecordColumnsAppend([], record);
        assert [] + [record] == newRecords;
      } else {
        newRecords := [];
      }
    }
  }

}

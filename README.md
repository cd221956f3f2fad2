# rag-agent-vera in Dafny

This project models the question-answering core of rag-agent-vera, a research
assistant that answers questions about scientific papers. It covers four parts.

- **The paper store** (`PapersDB`, src/storage.py) is an SQLite table of papers.
  Ids are assigned by AUTOINCREMENT, `title` is NOT NULL, and
  `created_at` is a timestamp.
- **The ingestion pipeline** (`FreeDataCollector`, src/query.py) fetches arXiv
  results topic by topic, with a cooldown after each topic. It then stores every
  fetched paper and counts the stores that succeed.
- **The index builder** (`PaperVectorStore.build_storage`, src/vector_store.py)
  reads the newest papers and turns each into a `Document`. The model stops
  before the text splitter.
- **The answer graph** (src/main.py) and its HTTP entry point (src/app.py):
  - `user_or_tool` asks the tool-bound chat model for a reply;
  - the router sends a reply with tool calls to the tool node (`retrieve`,
    `lookup_by_keyword`) and ends otherwise;
  - `generate` builds a prompt from the latest tool outputs and the filtered
    conversation, and asks the plain chat model;
  - the `/query` route runs the graph in "values" streaming mode and returns
    the last AI message without tool calls.

Some things are oracles, passed in as function parameters:
- both chat models (`decide`, `answer`: history → reply);
- the tool node's dispatch (`runTool`: call → content);
- the arXiv search (`search`: topic, max results → results or failure);
- store-engine failures (`engineFails`);
- the similarity ranking of the vector index (`ranked`);
- Python's printing of a metadata dictionary (`showMetadata`);
- an exception raised while the graph runs (`fault`).

The table is held in memory:
- `papers` holds the rows in insertion order;
- `lastId` is the AUTOINCREMENT counter;
- `clock` is an abstract, strictly increasing `CURRENT_TIMESTAMP`.

Modules:
- `Storage` (storage.dfy)
- `Ingestion` (query.dfy)
- `VectorStore` (vector_store.dfy)
- `Tools` (tools.dfy)
- `Graph` (graph.dfy)
- `App` (app.dfy)
- helpers: `Text` (join, substring, ASCII case folding), `Seqs` (reversal) and `Wrappers` (Option)

Behaviours of the code that the model keeps:
- A reply without tool calls goes straight to the end; `generate` does not run on that path.
- `retrieve` joins its blocks with a blank line ("\n\n").
- The 4-second cooldown follows every topic, the last one included.
- There is at most one tool round: after `tools`, `generate` always runs and the graph ends.
- `lookup_by_keyword` matches the keyword in the title or in the abstract.

## Model

| member | source | states |
|---|---|---|
| Storage.Column | src/storage.py:46-50 | `get(key, '')`: a missing key gives "", None gives NULL, a string is stored as is |
| Storage.ColumnsOf | src/storage.py:42-50 | each of title, summary, content, source and url is bound that way, and `summary` goes to the abstract column |
| Storage.FindRow | src/storage.py:57-62 | no row is returned exactly when no row has the id; a returned row is a row of the table with that id |
| Storage.IdsMembers | src/storage.py:29 | an id is in the id set exactly when some row carries it |
| Storage.IdsCount | src/storage.py:64-67 | with strictly increasing ids, the number of distinct ids equals the number of rows |
| Storage.PapersDB.constructor | src/storage.py:20-38 | a new database file has an empty `papers` table and a zero AUTOINCREMENT counter |
| Storage.PapersDB.Open | src/storage.py:20-38 | an existing database file keeps its rows and its counter, and the table invariant holds |
| Storage.PapersDB.GetPaper | src/storage.py:55-62 | None exactly when no row has the id (so always for ids outside 1..lastId); otherwise the row with that id, carrying that id |
| Storage.PapersDB.GetPaperCount | src/storage.py:64-67 | `COUNT(*)` equals the number of distinct ids in the table |
| Storage.PapersDB.StorePaper | src/storage.py:40-53 | fails exactly on an engine error or a NULL title, and then changes nothing; otherwise appends one row whose id exceeds every earlier id and the old counter, the count grows by one, and `get_paper` of the new id returns the stored columns; the table invariant is kept |
| Storage.StoreSamePaperTwice | src/storage.py:40-53 | no duplicate check: storing the same dictionary twice gives two rows, with increasing ids and equal columns |
| VectorStore.NewestFirst | src/vector_store.py:38-43 | the query returns `limit` rows (all of them for a negative or large limit), the k-th being the k-th row from the end of the table |
| VectorStore.NewestFirstSelects | src/vector_store.py:38-43 | the query reads `limit` rows (all of them for a negative or large limit), newest first; every row left out is older than every row read |
| VectorStore.DocumentOf | src/vector_store.py:45-47 | the metadata is the paper's id and printed title, and the abstract (or "" for NULL) is read back from the text after the title and a blank line |
| VectorStore.DocumentRoundTrip | src/vector_store.py:45-47 | a document carries its paper's id and title, its text starts with the title and a blank line, and the abstract (or "" for NULL) can be read back from it |
| VectorStore.PaperVectorStore.constructor | src/vector_store.py:28-29 | the store keeps the paper database it is given |
| VectorStore.PaperVectorStore.BuildStorage | src/vector_store.py:36-47 | one document per selected paper, in selection order; at most `limit` of them for a non-negative limit; the k-th is the k-th newest paper; ids strictly decrease |
| Tools.Serialize | src/main.py:49 | every serialized hit starts with "Source: " |
| Tools.SerializeAll | src/main.py:48-51 | one block per document, in order |
| Tools.Retrieve | src/main.py:44-52 | the artifact is the first min(3, n) ranked documents; the content is empty exactly when there are no hits, and otherwise starts with "Source: "; every hit's serialized block sits at its offset, in order, with a blank line between consecutive blocks and nothing after the last |
| Tools.MatchingRows | src/main.py:57-63 | a (title, url) row is returned exactly when some paper matches the keyword in its title or abstract; never more rows than papers |
| Tools.MatchingRowsAppend | src/main.py:57-63 | matching keeps table order |
| Tools.Lines | src/main.py:64 | one "title - url" line per row, in order |
| Tools.LookupByKeyword | src/main.py:54-65 | the artifact is the matching rows; the content is empty exactly when nothing matches; every row's "title - url" line sits at its offset, in order, with a newline between consecutive lines and nothing after the last |
| Tools.MatchesCorrect | src/main.py:60-62 | a paper matches exactly when the lower-cased keyword occurs in its lower-cased title or in its lower-cased abstract |
| Tools.LikeCorrect | src/main.py:60-62 | `LIKE '%k%'` holds exactly for a non-NULL cell in which the keyword occurs, ignoring ASCII case |
| Tools.MatchIgnoresKeywordCase | src/main.py:60-62 | LIKE ignores ASCII case in the keyword |
| Tools.EmptyKeywordMatchesAll | src/main.py:60-62 | an empty keyword matches every row, since titles are never NULL |
| Tools.LowerCaseKeywordFindsTitle | src/main.py:60-62 | "dna" finds a paper whose title starts with "DNA" |
| Text.Join | src/main.py:48-51 | joining no parts gives ""; otherwise the length is the last part's end offset |
| Text.JoinPartAt | src/main.py:48-51 | each part occurs in the join at its offset: the lengths of the earlier parts plus one separator each |
| Text.JoinSeparatorAt | src/main.py:64 | a separator occurs right after each part but the last |
| Text.JoinLayout | src/main.py:97 | the join is laid out part by part: every part and every separator at its offset, and nothing after the last part |
| Text.JoinNonEmpty | src/main.py:48-51 | joining non-empty parts is empty exactly when there are none, and otherwise starts with the first part |
| Text.ContainsCorrect | src/main.py:60-61 | the substring test behind `LIKE '%k%'` holds exactly when the keyword occurs at some offset |
| Graph.Router | src/main.py:122-129 | goes to `tools` exactly when the last message is an AI message with tool calls; any other kind of last message ends the run |
| Graph.QueryOrRespond | src/main.py:74-79 | the node adds one AI message: the tool-bound model's reply to the whole history |
| Graph.ToolNode | src/main.py:82 | one tool message per call of the last AI message, in call order, carrying the call's id and the tool's content |
| Graph.TrailingToolStart | src/main.py:88-94 | every message from the start on is a tool message, and the message before it is not |
| Graph.TrailingToolStartUnique | src/main.py:88-94 | those two properties determine the start |
| Graph.CollectRecentToolMessages | src/main.py:88-94 | the backward scan followed by the reversal yields exactly the trailing run of tool messages, in history order |
| Graph.NonEmptyContents | src/main.py:97 | a string is kept exactly when it is non-empty and is the content of one of the messages; never more parts than messages |
| Graph.NonEmptyContentsAppend | src/main.py:97 | the filter keeps order across concatenation |
| Graph.DocsContent | src/main.py:97 | the context block is empty exactly when every tool output is empty |
| Graph.NoContentIff | src/main.py:97 | nothing is kept exactly when every content is empty |
| Graph.ConversationMessages | src/main.py:109-114 | a message is kept exactly when it is in the history and is human, system, or AI without tool calls |
| Graph.ConversationMessagesAppend | src/main.py:109-114 | the filter keeps history order |
| Graph.ToolsNotInPrompt | src/main.py:109-114 | tool messages never reach the prompt's conversation |
| Graph.Prompt | src/main.py:98-115 | one system message that starts with the instruction, then one message per kept conversation message, none of them a tool message or a tool-calling AI message |
| Graph.PromptShape | src/main.py:98-115 | the prompt is one system message ending with the context block, then the filtered conversation, which holds no tool message and no tool-calling AI message |
| Graph.GenerateNode | src/main.py:85-119 | `generate` adds the plain model's reply to the prompt built from the trailing tool run and the filtered history |
| Graph.Execute | src/main.py:132-146 | the path is `user_or_tool`, or `user_or_tool, tools, generate`; the second exactly when the first reply has tool calls; the streamed states start with the input, each is a strict prefix of the next, and the last ends with an AI message |
| Graph.Run | src/main.py:132-146 | running the nodes gives exactly the path and states of the wiring |
| Graph.TrailingRunAfterToolStep | src/main.py:88-94 | after a tool step the trailing run is exactly the added tool messages |
| Graph.PromptAfterToolRound | src/main.py:85-119 | after one tool round, the context block joins exactly those tool outputs, and the conversation is the filtered history from before the round |
| Graph.GenerateSeesToolOutputs | src/main.py:85-119 | when the model calls tools, `generate` sees the outputs of exactly those calls, joined in call order, and the conversation without the tool-calling turn |
| Ingestion.TopicList | src/query.py:38-39 | None gives the three default topics; a given list, even an empty one, is kept |
| Ingestion.FetchPapers | src/query.py:19-34 | a failed search gives []; otherwise one dictionary per result, in result order |
| Ingestion.FetchedPaperColumns | src/query.py:25-30 | a fetched paper's dictionary has exactly the keys title, summary, url and published; `published` is a date; url is None exactly when the result has no pdf url; it is stored with its title, summary as abstract, pdf url or NULL, and "" for content and source; its title is never NULL |
| Ingestion.CollectedAppend | src/query.py:44-46 | papers accumulate in topic order |
| Ingestion.CollectedTopicAt | src/query.py:44-46 | a topic's papers come right after those of the earlier topics and before those of the later ones |
| Ingestion.CollectedWellFormed | src/query.py:44-46 | every collected paper can be bound and has a title |
| Ingestion.Successful | src/query.py:49-60 | at most as many papers are stored as attempted |
| Ingestion.AttemptStep | src/query.py:50-60 | one attempt adds one to the stored count and its paper's columns to the appended rows exactly when its store succeeds |
| Ingestion.StoredPlusFailedIsFetched | src/query.py:49-63 | for titled papers, successful stores plus engine failures equal the number fetched |
| Ingestion.ThreeFetchedOneFails | src/query.py:36-63 | three results for "biology" with the second store failing: the first and third are stored |
| Ingestion.FreeDataCollector.constructor | src/query.py:16-17 | the collector keeps its store |
| Ingestion.FreeDataCollector.QueryData | src/query.py:36-63 | one cooldown per topic (default topics for None); every collected paper is attempted in order; the count is the number of successful stores; the table grows by exactly those rows, with their columns, in order, and earlier rows stay as they were |
| Ingestion.FreeDataCollector.FetchAll | src/query.py:44-47 | all topics' papers in topic order, with one cooldown per topic |
| Ingestion.FreeDataCollector.StoreAll | src/query.py:49-63 | the stored count and the appended rows match the successful attempts; failures are skipped |
| Ingestion.FreeDataCollector.StoreOne | src/query.py:51-60 | one attempt appends a row with the paper's columns exactly when it succeeds, and nothing otherwise |
| App.Truthy | src/app.py:24 | a body is falsy exactly when it is null, false, 0, "", [] or {} |
| App.HasQuestion | src/app.py:27 | `"question" in json`: a key test on objects, an element test on lists, a substring test on strings, and a TypeError on null, booleans and numbers |
| App.QuestionValue | src/app.py:30 | `json["question"]` yields a value only for an object holding the key |
| App.LastAnswer | src/app.py:43-46 | an answer is the content of some answer step |
| App.LastAnswerSpec | src/app.py:43-46 | the answer comes from an answer step with no answer step after it; there is none exactly when no step is an answer step |
| App.FinalAnswer | src/app.py:33-46 | the loop leaves the content of the last answer step, or None |
| App.OnlyLastCanAnswer | src/app.py:43-46 | when only the last step can be an answer step, it decides the answer |
| App.RunAnswer | src/app.py:36-46 | for one question, the stream's answer is the final message's content exactly when that message has no tool calls; that message is the direct reply, or after a tool round `generate`'s reply |
| App.Query | src/app.py:19-58 | 400 "No JSON data received" exactly for a falsy body; 400 "No 'question' field" exactly when the key test is false; a 500 "Query processing error: …" carrying the message of an unparsable body, of the TypeError raised by the key test or by the lookup, of the invalid-content error for a question that is not a string, or of a fault raised during the run; an answer exactly when the question is a string, the run does not fail, and its final message has no tool calls and non-empty content; a 500 "The graph did not produce a final answer." for a run that ends without one |

## Left out

- The chat models, the embeddings and the Chroma index are oracles or are not modelled. `similarity_search` is the `ranked` parameter. `add_documents` and persistence are not modelled.
- The text splitter (`RecursiveCharacterTextSplitter`) and `add_documents` at src/vector_store.py:49-51 are not modelled.
- `ToolNode`'s dispatch by tool name and argument parsing are the `runTool` oracle. The errors it turns into tool messages are not modelled.
- Tools.Serialize: Python's printing of the metadata dictionary is the `showMetadata` parameter. It is not spelled out.
- Tools.LookupByKeyword: `%` and `_` inside the keyword act as LIKE wildcards in SQLite; the model treats the keyword as literal text. Case folding covers ASCII letters only, as SQLite's default LIKE does.
- VectorStore.NewestFirstSelects: timestamps are strictly increasing in the model. Equal `CURRENT_TIMESTAMP` values within one second, whose order SQLite leaves open, are not modelled.
- Storage.PapersDB.StorePaper: ids are unbounded integers. SQLite's 64-bit rowid limit and the "database or disk is full" error are not modelled.
- Storage.PapersDB.StorePaper: it requires that the five keys it reads hold no date value. `query_data` stores `published` under a key that is not read, so this never arises there.
- Ingestion.FreeDataCollector.QueryData: `time.sleep(4)` is a ghost cooldown counter; the four seconds are not modelled. Logging is left out.
- The module-level bootstrap in src/main.py:27-38 is not part of this model: the ingestion run it starts when the table is empty, and its catch-all logging. The API-key prompts at src/main.py:22-24 and src/vector_store.py:15-17 are I/O and are left out.
- App.Query: a question that is not a JSON string gives a 500 with a fixed stand-in text. LangChain's acceptance of lists of content blocks, and its exact validation message, are not modelled.
- App.Query: JSON numbers are integers; floats are not modelled. The TypeError texts follow Python 3.11.
- App.Query: what `request.json` raises for a body that is not JSON depends on the Flask version; it is the `Unparsable` case with its message as a parameter.
- The `/health` and `/` routes, `print`, `pretty_print` and `traceback` output are not modelled.
- Concurrency, such as a shared SQLite connection across request threads, is not modelled.

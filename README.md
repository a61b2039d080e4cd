# A verified model of the mutual-fund facts RAG pipeline

The repository answers factual questions about mutual-fund schemes. The
answers come from snippets scraped from scheme pages and help guides.
The pipeline has five stages, and this project models each one in Dafny
and proves what it promises.

- **Scraper** (`scripts/scrape_groww_jm_aggressive_hybrid.py`). Once the
  scheme's `mf` object is in hand, it builds the scheme record:
  - money amounts are rendered with a rupee sign and thousands separators;
  - the lock-in is added up in days;
  - the riskometer label goes through a fallback chain;
  - the SID document and the stripped objective are added only when
    present.
- **Offline build** (`scripts/build_vector_store.py`). Scheme and guide
  records become an ordered list of `(text, metadata)` chunks. Each
  scheme gives an overview sentence, then one sentence per attribute
  that has a description, then one per document. Each guide gives one
  sentence per method. `build_index` stores the embedded texts beside a
  document store that is aligned with them row by row.
- **Retrieval and the extractive answer** (`scripts/rag_query.py`). The
  search result row is filtered of its `-1` sentinels, each hit is
  ranked by its search position and copied verbatim from the store, and
  `compose_answer` returns either the top snippet cited to its URL or
  one of two fixed replies.
- **Prompt building** (`scripts/rag_query_gemini.py`). The prompt lists
  the hits that have a URL as numbered snippet blocks, or a fixed text
  when none do, between fixed instructions and the user's question.
  This file's `load_index` and `retrieve` repeat those of
  `scripts/rag_query.py` line for line, so they are modelled once.
- **Test oracle** (`scripts/test_rag.py`). It checks keywords as
  case-insensitive substrings, collecting the missing ones in order. It
  checks the URL as an exact substring, and a test case passes when both
  checks do.

Modules, one per source file, plus three shared modules:

- `Wrappers`: `Option` and `Result`.
- `Text`: the Python `str` operations the code uses, restricted to ASCII
  case mapping: `lower`, `title`, `strip`, `replace`, `join`, `in`,
  decimal digits and `format(n, ",")`.
- `PyJson`: parsed JSON values with Python's truthiness, `dict.get`,
  `or`, iteration and `str()`.
- `Chunking`, `Retrieval`, `Prompt`, `Scraper` and `RagTest`: the five
  source files.

Source constructs and their Dafny form:

- Loops that append to lists become methods with `while` loops. Each such
  method is proved equal to a recursive specification function, and the
  lemmas are stated about that function. This covers:
  - the generators of `build_vector_store.py`;
  - the hit loop of `retrieve`;
  - the block loop of `build_prompt`;
  - the keyword loop of `check_keywords_in_text`;
  - the in-place additions of `build_scheme_payload`.
- Python exceptions become `Err` results.
- The embedding model is a function from text to vector.
- The FAISS search is an oracle that answers with distances and row
  numbers.

Two behaviours of the code are worth knowing, and the model keeps both:

- An attribute chunk, or a document chunk, whose URL is `None` or empty
  is still produced with that URL. Only `compose_answer` and
  `build_prompt` treat a falsy URL as missing.
- The scraper's riskometer, benchmark, taxation and lock-in attributes
  hold neither a `display` nor a `value` key. So the offline build never
  turns them into sentences. `Scraper.EmitsAsScraped` states this, and
  `Scraper.ScrapedRecordChunks` counts the chunks of a scraped record
  accordingly.

## Model

| member | source | states |
|---|---|---|
| Chunking.OverviewChunk | scripts/build_vector_store.py:46-55 | the overview chunk is typed `scheme_overview`, names the scheme, cites the record's `source_url`, and its sentence is exactly "{scheme} is a {category} scheme in the {sub_category} category offered by {fund_house}. Data source: {url}", each field read from the record's metadata with `None` when absent |
| Chunking.AttributeChunk | scripts/build_vector_store.py:60-67 | an attribute yields a chunk exactly when it is emitted: a dict with a truthy `display` or a non-`None` `value`, or any other value that is not `None` (so `""` and `0` still yield one) |
| Chunking.Label | scripts/build_vector_store.py:69 | the label has the field's length and no underscore, agrees with the field (underscores read as spaces) up to case, and is already title-cased |
| Chunking.AttributeChunkShape | scripts/build_vector_store.py:69-87 | an emitted attribute's chunk is typed `scheme_attribute` and names its field and scheme; it cites the dict's own `source_url` key when it has one and the scheme's URL otherwise (always for a non-dict); its sentence is exactly "{scheme} - {label}: {description}. Source: {that url}" |
| Chunking.AttributeChunksShape | scripts/build_vector_store.py:58-87 | the attribute loop yields exactly one chunk per emitted attribute, each an attribute chunk of the scheme with a `url` entry |
| Chunking.LoadAttributes | scripts/build_vector_store.py:58-87 | the attribute loop, with its skip of `None` descriptions, yields exactly the attribute chunks of the specification, in order |
| Chunking.DocumentChunk | scripts/build_vector_store.py:89-97 | a document yields a chunk exactly when it is a dict; the chunk is typed `scheme_document`, names the scheme, and cites the document's `url` key when present and the scheme's URL otherwise; its sentence is exactly "{scheme} has a {type} document at {url}." with the document's own `type` and `url`, so a document without a `url` prints `None` while its chunk cites the scheme page |
| Chunking.DocumentChunksShape | scripts/build_vector_store.py:89-97 | the document loop succeeds exactly when every document is a dict, and then yields one document chunk per document, each naming the scheme and carrying a `url` metadata entry |
| Chunking.LoadDocuments | scripts/build_vector_store.py:89-97 | the document loop yields exactly the document chunks of the specification, or fails on the first non-dict |
| Chunking.LoadScheme | scripts/build_vector_store.py:42-97 | one scheme record yields its overview, attribute and document chunks as specified, or the error the record raises |
| Chunking.SchemeChunksShape | scripts/build_vector_store.py:39-97 | a scheme record yields exactly one overview chunk, placed first and cited to the record's `source_url`, then one attribute chunk per emitted attribute, then one document chunk per document, so 1 + emitted attributes + documents chunks in all; no guide chunk, and every chunk names the scheme and carries a `url` metadata entry |
| Chunking.LoadSchemeChunks | scripts/build_vector_store.py:39-41 | the loop over scheme records concatenates their chunks in record order, failing on the first malformed record |
| Chunking.SchemeCorpusShape | scripts/build_vector_store.py:39-97 | all scheme records together yield one overview chunk per record and no guide chunk |
| Chunking.MethodChunk | scripts/build_vector_store.py:106-116 | a guide method yields a chunk exactly when it is a dict whose `steps` (an empty list when absent) are all strings and which has a `label`; the chunk is typed `guide`, carries the guide key and label, cites the guide's `source_url`, and its sentence is exactly the label, ": ", the steps joined by single spaces, " Source: " and the URL |
| Chunking.MethodChunksShape | scripts/build_vector_store.py:106-116 | a guide record yields exactly one guide chunk per method, each citing the guide's URL and carrying its guide key |
| Chunking.LoadGuide | scripts/build_vector_store.py:102-116 | the method loop of one guide record yields exactly the method chunks of the specification, in order |
| Chunking.LoadGuideChunks | scripts/build_vector_store.py:100-116 | the loop over guide records concatenates their chunks in record order |
| Chunking.GuideCorpusShape | scripts/build_vector_store.py:100-116 | all guide records together yield guide chunks only, each carrying a `url` metadata entry |
| Chunking.Chunks | scripts/build_vector_store.py:119-124 | the corpus is all scheme chunks followed by all guide chunks; it fails with "no chunks" exactly when both are empty, fails exactly when a record is malformed, and is never empty otherwise |
| Chunking.CollectChunks | scripts/build_vector_store.py:119-124 | the list-then-extend construction computes exactly that corpus |
| Chunking.CorpusShape | scripts/build_vector_store.py:119-124 | the corpus holds one overview chunk per scheme record, every chunk carries a `url` metadata entry, and no guide chunk precedes the last scheme chunk |
| Chunking.BuildIndex | scripts/build_vector_store.py:131-140 | the document store is the chunk list itself, and index row k is the embedding of document row k's text, for every k |
| Retrieval.LoadIndex | scripts/rag_query.py:30-37 | loading fails with the error whose text starts "Vector store missing." exactly when the index or the documents file is absent, and otherwise returns the stored documents (scripts/rag_query_gemini.py:44-51 is the same function) |
| Retrieval.CollectHits | scripts/rag_query.py:46-59 | the loop with `continue` on the sentinel produces exactly the hit list of the specification |
| Retrieval.Retrieve | scripts/rag_query.py:40-59 | retrieval fails exactly when the store is missing, and otherwise returns the hits of the oracle's search for the embedded query: at most `top_k` of them, each ranked within 1..`top_k` (scripts/rag_query_gemini.py:54-73 is the same function) |
| Retrieval.HitsSound | scripts/rag_query.py:47-56 | every hit comes from a non-sentinel search position: its rank is that position plus one, its distance is the one found there, and its text and metadata are copied verbatim from the store row found there |
| Retrieval.RanksIncrease | scripts/rag_query.py:47-53 | ranks strictly increase along the hits |
| Retrieval.HitsComplete | scripts/rag_query.py:47-58 | every non-sentinel search position has a hit of the matching rank, so nothing but sentinels is dropped |
| Retrieval.HitsCount | scripts/rag_query.py:45-59 | the number of hits is the number of non-sentinel positions, and so at most the number of positions searched |
| Retrieval.DistancesOrdered | scripts/rag_query.py:47-54 | when the oracle's distances ascend, the hits' distances ascend too |
| Retrieval.RetrievedAligned | scripts/rag_query.py:50-56 | over a store built by `build_index`, the index row matched for each hit is the embedding of that hit's own text |
| Retrieval.EmptyStoreNoHits | scripts/rag_query.py:47-49 | a search over an empty store returns sentinels only, so there are no hits |
| Retrieval.ComposeAnswer | scripts/rag_query.py:62-76 | no hits gives "I could not find a factual snippet for that question."; a top hit without a truthy URL gives "I found information but the source URL is missing."; otherwise the answer is "Answer: " and the top text, then "\n\nSource: " and the URL, with nothing else |
| Retrieval.AnswerUsesTopHit | scripts/rag_query.py:66-76 | the answer depends only on the first hit, not on the question or the other hits |
| Retrieval.CitedAnswerContainsUrl | scripts/rag_query.py:71-76 | a cited answer differs from both fixed replies and contains the top hit's text and its URL |
| Retrieval.AnswerNonEmpty | scripts/rag_query.py:62-76 | every answer is non-empty |
| Prompt.BlockShape | scripts/rag_query_gemini.py:82-84 | a block opens with "Snippet {n} (source: {url}):\n" and ends with the hit's text |
| Prompt.BuildPrompt | scripts/rag_query_gemini.py:76-101 | the block loop with its `continue` and the final assembly produce exactly the specified prompt |
| Prompt.KeptSound | scripts/rag_query_gemini.py:78-81 | the positions that get a block are 1-based, strictly ascending and name hits with a truthy URL |
| Prompt.KeptComplete | scripts/rag_query_gemini.py:78-81 | every hit with a truthy URL gets a block |
| Prompt.BlocksNumbered | scripts/rag_query_gemini.py:78-84 | block i is numbered by the i-th kept position, i.e. the hit's position in the full hit list, and shows that hit's URL and text; there are as many blocks as kept hits |
| Prompt.BlockOfHit | scripts/rag_query_gemini.py:78-84 | the block of every hit with a truthy URL is among the blocks |
| Prompt.BlocksEmpty | scripts/rag_query_gemini.py:79-81 | there are no blocks exactly when no hit has a truthy URL |
| Prompt.ContextIsJoin | scripts/rag_query_gemini.py:85 | when some block survives, the context is the blocks joined with "\n\n", and it starts with a block |
| Prompt.ContextFallback | scripts/rag_query_gemini.py:85 | the context is "No snippets available." exactly when no hit has a truthy URL |
| Prompt.PromptFrame | scripts/rag_query_gemini.py:87-101 | the prompt starts with the fixed instructions, contains the question verbatim and ends with "\nAnswer:" |
| Prompt.PromptHoldsContext | scripts/rag_query_gemini.py:96-101 | everything in the context is in the prompt |
| Prompt.HitsReachPrompt | scripts/rag_query_gemini.py:76-101 | every hit with a truthy URL appears in the prompt as its numbered block |
| Scraper.MoneyRoundTrip | scripts/scrape_groww_jm_aggressive_hybrid.py:55-58 | an amount's display starts with the rupee sign, and reading the display back (minus sign, digits, commas) gives the amount |
| Scraper.NormalizeMoneyShape | scripts/scrape_groww_jm_aggressive_hybrid.py:52-58 | `None` gives `None` for both keys; an integer keeps its value, and its display reads back to it with the digits grouped in threes |
| Text.GroupedRoundTrip | scripts/scrape_groww_jm_aggressive_hybrid.py:57 | removing the commas from a thousands-grouped number gives back its digits, which read back to the number |
| Text.GroupedLeading | scripts/scrape_groww_jm_aggressive_hybrid.py:57 | a grouped amount starts with `0` only when the amount is zero, so the display has no leading zeros |
| Scraper.FormatPercentage | scripts/scrape_groww_jm_aggressive_hybrid.py:72-76 | `None` and `""` give `None` for both keys; anything else fails exactly when `float()` does |
| Scraper.ExtractLockIn | scripts/scrape_groww_jm_aggressive_hybrid.py:79-94 | extraction fails exactly when a truthy `lock_in` is not a dict |
| Scraper.LockInCases | scripts/scrape_groww_jm_aggressive_hybrid.py:84-94 | `applicable` is false, with the fixed ELSS note and no day count, exactly when none of days, months and years is truthy; otherwise it is true and the lock-in is days + 30 * months + 365 * years, a falsy part counting 0 |
| Scraper.LockInYears | scripts/scrape_groww_jm_aggressive_hybrid.py:89-94 | a lock-in of y whole years is 365 * y days |
| Scraper.FirstRiskMatch | scripts/scrape_groww_jm_aggressive_hybrid.py:63 | the search finds the leftmost position where "Risk is " is followed by a letter or space, and reports none only when no position matches |
| Scraper.RiskRun | scripts/scrape_groww_jm_aggressive_hybrid.py:63 | the group is the longest run of letters and spaces at that point: it is a slice of the text, and the character after it is not a letter or space |
| Scraper.ExtractRiskLabel | scripts/scrape_groww_jm_aggressive_hybrid.py:61-69 | a failure is the "riskometer label missing" error exactly when the description is a string, and a type error otherwise |
| Scraper.RiskLabelFromDescription | scripts/scrape_groww_jm_aggressive_hybrid.py:62-65 | when the description matches, the label is the stripped group: letters and inner spaces only, taken from right after the first "Risk is " |
| Scraper.RiskLabelFromNfo | scripts/scrape_groww_jm_aggressive_hybrid.py:66-69 | without a match, a label is found exactly when `nfo_risk` is a non-blank string; it is then the stripped `nfo_risk`, and otherwise the error is "riskometer label missing" |
| Text.Strip | scripts/scrape_groww_jm_aggressive_hybrid.py:65 | the stripped text neither starts nor ends with whitespace, is empty exactly when the text is all whitespace, and is the text with its leading whitespace removed up to a tail that is all whitespace, so only outer whitespace goes |
| Scraper.BuildSchemePayload | scripts/scrape_groww_jm_aggressive_hybrid.py:99-161 | building the literal and then appending the SID document and setting the objective in place computes exactly the specified record |
| Scraper.RecordFields | scripts/scrape_groww_jm_aggressive_hybrid.py:101-148 | the record's seven keys hold the scheme key, name, page URL, fetch time, metadata, attributes and documents |
| Scraper.AttributesCitePage | scripts/scrape_groww_jm_aggressive_hybrid.py:113-146 | the record has eight attributes, and every one of them is a dict whose `source_url` is the page URL |
| Scraper.AttributesEmitted | scripts/scrape_groww_jm_aggressive_hybrid.py:113-146 | the money attributes yield a sentence exactly when the amount is an integer, the exit load exactly when it is not `None`, and the riskometer, benchmark, taxation and lock-in attributes never do |
| Scraper.PayloadShape | scripts/scrape_groww_jm_aggressive_hybrid.py:97-161 | the record is built exactly when the literal evaluates and a truthy description is a string. It is then keyed by `search_id` or else `scheme_code` and cites the page at the top and on every attribute. It lists exactly one SID document iff `sid_url` is truthy, and none otherwise. It carries the stripped objective iff the description is truthy |
| Scraper.ScrapedRecordChunks | scripts/scrape_groww_jm_aggressive_hybrid.py:101-160 | a scraped record is chunked without error into the overview, one sentence per emitted money or exit-load attribute, and one for the SID document when there is one; every chunk cites the page, except the SID sentence, which cites the SID link |
| Scraper.ScrapeThenChunk | scripts/scrape_groww_jm_aggressive_hybrid.py:97-161 | every successful scrape yields a record that the offline build chunks without error, with exactly one overview chunk |
| RagTest.CheckKeywordsInText | scripts/test_rag.py:68-77 | the loop returns exactly the keywords not found, and reports all found exactly when that list is empty |
| RagTest.MissingCounts | scripts/test_rag.py:71-75 | a keyword appears in the missing list as many times as in the keyword list when it is not found, and not at all when it is |
| RagTest.MissingMembers | scripts/test_rag.py:71-75 | a keyword is missing exactly when it is listed and its lower-case form is not in the lower-cased text |
| RagTest.MissingInOrder | scripts/test_rag.py:71-75 | the missing list is a subsequence of the keyword list |
| RagTest.NothingMissing | scripts/test_rag.py:71-77 | nothing is missing exactly when every keyword is found, and an empty keyword list misses nothing |
| RagTest.UrlCheckIsExact | scripts/test_rag.py:80-82 | the URL check is case-sensitive: an exact match is also a caseless one, but "g" is found in "G" only caselessly |
| RagTest.TestPassedIff | scripts/test_rag.py:109 | a test case passes exactly when every keyword is found caselessly and the URL occurs exactly |
| RagTest.RunTestCase | scripts/test_rag.py:92-109 | the verdict is the pass condition applied to the answer composed from the retrieved hits |
| RagTest.CitedAnswerPasses | scripts/test_rag.py:95-109 | a test case passes when its URL is the top hit's non-empty URL and its keywords occur caselessly in the top hit's text |

## Left out

- Reading and writing files, directory globbing, `mkdir` and `write_json` are not modelled. A corpus is the sequence of parsed records in the order the listing gave. `load_index` receives two "file exists" flags and the parsed documents.
- The JSON round trip of `documents.json` is not modelled. The store written by `build_index` is taken to be what `load_index` reads back.
- The SentenceTransformer model and the FAISS index are not modelled. The model is an abstract `embed` function. The search is an oracle whose answer is only required to have matching lengths and in-range or `-1` indices. Distances are opaque reals with no arithmetic done on them.
- Retrieval.Retrieve: requires that the oracle's answer is a valid search over the store with exactly `top_k` positions. FAISS guarantees this, so out-of-range row numbers and short rows are not modelled.
- Retrieval.CollectHits: requires the same valid-search condition.
- Fetching the page, parsing its HTML, locating the Next.js data blob, the Gemini call and the API-key check are not modelled. These are network and environment work.
- The fetch timestamp `datetime.now(...).isoformat()` is not computed. It is a parameter.
- Scraper.FormatPercentage: `float()` and the `.2f` rendering are an oracle parameter, not computed. This is floating-point formatting, so whether the expense ratio yields a sentence is left to that oracle.
- Scraper.NormalizeMoney: covers `None` and integer amounts only. The `int()` truncation of float amounts is floating-point work.
- Scraper.BuildSchemePayload: requires the money amounts to be integers or `None` and the lock-in parts to be whole, falsy or `True`. The float arithmetic that other lock-in parts would take is not modelled.
- Scraper.ExtractLockIn: requires the same whole-number lock-in parts.
- Scraper.ExtractRiskLabel: the regular-expression engine is not modelled in general. Only the one pattern `Risk is ([A-Za-z ]+)` is written out, as a leftmost search with a greedy group.
- Case mapping is not modelled beyond ASCII: `str.lower()` and `str.title()` act on ASCII letters only.
- Python's `str()` of lists and dicts inside chunk sentences is simplified. Strings are quoted with `'` and not escaped, and floats are carried as their printed text.
- JSON objects are lists of key-value pairs read by their first matching key. A list with a repeated key has no counterpart in the source, because `json.loads` builds dicts, and no precondition excludes one.
- Dict key order inside chunk metadata is not modelled: the metadata is a map. The order of the scraper's record keys is kept.
- `app.py` is not part of this model. Its only logic, the top hit's URL or `None`, is `compose_answer`'s top-hit rule.
- The fixed `TEST_CASES` table, the test runner's printing and exit code, the `main` functions and argument parsing are not modelled. The hits a test case retrieves are a parameter of `RagTest.RunTestCase`.

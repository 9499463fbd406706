# Airline Graph-RAG pipeline: a Dafny model of its deterministic core

The airline customer-insights pipeline answers questions about flights,
passengers and feedback. It works in five steps:

1. A language model classifies the question into one of one hundred
   registered intents and extracts its entities as JSON.
2. A template retriever runs the Cypher query registered for that intent
   against a Neo4j graph.
3. An LLM layer merges those rows with vector-search hits.
4. The LLM layer renders the rows as prompt context and lays out the
   prompt.
5. A test harness and a model-comparison harness score the runs.

Around these steps are several small file readers:

- the `key=value` configuration loader, copied verbatim into four scripts;
- the query-file splitter of the batch runner;
- two question-file readers.

This project models the parts of that pipeline that are plain, deterministic
logic over strings, sequences and maps. It then proves what those parts
promise:

- membership and order of the intent registry;
- the error shapes of `run_query`;
- whitelisting of the classifier's reply;
- code-fence stripping;
- order-preserving de-duplication of the merged rows;
- the "no data" context rule and the prompt layout;
- idempotence of query normalisation;
- the pass/fail rule and the summary counts;
- the heuristic scores lying in [0, 1], piece by piece;
- last-wins configuration loading;
- round trips for the configuration, query and question file formats.

Intent resolution is a direct lookup in a fixed map.

The project has these modules, one per source concern:

| module | file | models |
|---|---|---|
| `Wrappers` | wrappers.dfy | `Option` and `Result`; `Somes`, the present values of a sequence of options |
| `SetFacts` | set_facts.dfy | cardinality facts about subsets, and the set of indices whose element satisfies a predicate |
| `Text` | text.dfy | the Python string operations the code uses: ASCII letters and digits, Unicode whitespace and line breaks |
| `Values` | values.dfy | the dynamically typed values of the driver and of JSON, Python truthiness, `dict(pairs)` |
| `CypherText` | cypher_text.dfy | `$name` parameter references and their renaming to `$param` |
| `CypherTemplates` | cypher_templates.dfy | the 100-entry intent-to-Cypher map |
| `Retriever` | base_retrieve.dfy | `Neo4jRetriever` |
| `Preprocessing` | preprocessing.dfy | intent whitelisting and entity extraction in `QueryPreprocessor` |
| `Preprocess` | preprocess.dfy | the code-fence handling of `get_intent_and_entities` |
| `LlmHandler` | llm_handler.dfy | index choice, result merge, context and prompt of `LLMHandler` |
| `QueryComparison` | query_comparison.dfy | `normalize_query` and `compare_queries` |
| `TenQParser` | ten_q_parser.dfy | `parse_ten_q_file` |
| `QueryTestRunner` | test_runner.dfy | `serialize_results`, `run_all_tests`, `generate_summary` |
| `ModelComparison` | model_comparison.dfy | the expected-result table, `compare_with_expected` and `generate_summary` of `ModelComparator` |
| `Evaluation` | evaluation.dfy | `EvaluationMetrics` |
| `Config` | config.dfy | `load_config`, the connection defaults, the index choice of `vector_search` |
| `QueryFile` | query_file.dfy | `parse_queries` |
| `QuestionFile` | question_file.dfy | `load_test_questions` |

Some parts are parameters of the model rather than part of it:

- The language model, the graph driver and the JSON parser are function
  values.
- So are `str()`, `json.dumps` and `round(x, 2)` of values.

Files are read as text whose line endings are already `'\n'`.

## Model

| member | source | states |
|---|---|---|
| Wrappers.Somes | MS3/LLM_layer/test_llm_layer.py:36-52 | keeping only the produced values never lengthens the list and keeps nothing that was not produced |
| Wrappers.SomesAppend | MS2/run_queries.py:22-28 | collecting the produced values of two runs of lines in turn is the concatenation of each run's values, so order is file order |
| Wrappers.SomesOfAll | MS2/run_queries.py:22-28 | when every segment produces a value, the collected list is exactly those values |
| Wrappers.Get | MS3/LLM_layer/llm_handler.py:172 | `d.get(k, default)` is the bound value when the key is present, the default otherwise |
| Values.Or | MS3/LLM_layer/llm_handler.py:176 | `a or b` is one of its operands and is truthy iff either operand is |
| Wrappers.LastIndexOf | MS3/base_retrieve.py:672 | the index of the last field with a key, with no later field of that key |
| Values.ToMapLastWins | MS3/base_retrieve.py:672 | `dict(record)` holds a key iff some field has it, bound to the last such field's value |
| Values.ToMapKeys | MS3/base_retrieve.py:672 | the keys of `dict(record)` are exactly the record's field names |
| CypherText.WordRun | MS3/test_queries.py:111 | the `\w+` run at the start of a text: word characters only, ended by a non-word character or the end |
| CypherText.SubstituteFirst | MS3/test_queries.py:111 | renaming parameters keeps the first character and empties only the empty text |
| CypherText.SubstituteLeavesOnlyParam | MS3/test_queries.py:111 | after renaming, the only parameter referenced is `$param` |
| CypherText.SubstituteIdempotent | MS3/test_queries.py:111 | renaming parameters twice is the same as renaming once |
| CypherText.SubstituteAppend | MS3/test_queries.py:111 | renaming distributes over concatenation when the first text does not end inside a name |
| CypherText.SubstitutePreservesLower | MS3/test_queries.py:109-111 | renaming keeps a lower-case text lower-case |
| CypherText.SubstitutePreservesWord | MS3/test_queries.py:107-111 | renaming keeps a whitespace-free word whitespace-free and non-empty |
| CypherText.ScanRendered | MS3/base_retrieve.py:18-641 | the parameters a rendered template references are exactly its reference pieces, for well-formed pieces |
| CypherTemplates.Intents | MS3/base_retrieve.py:18-641 | the registered intents, one per template, in registration order |
| CypherTemplates.EconomyWorkhorseWellFormed | MS3/base_retrieve.py:470-474 | the economy-workhorse query text holds no stray `$` in its literal parts |
| CypherTemplates.RouteFrequencyWellFormed | MS3/base_retrieve.py:495-498 | the route-frequency query text holds no stray `$` in its literal parts |
| Retriever.ChooseDriver | MS3/base_retrieve.py:643-648 | the given driver wins; the default is used only when none is given |
| Retriever.Lookup | MS3/base_retrieve.py:654-657 | a template is found iff the intent is registered, and it is the first registered with that intent |
| Retriever.AvailableIntents | MS3/base_retrieve.py:677-681 | one key per template, and a key is listed iff lookup finds it |
| Retriever.RunQuery | MS3/base_retrieve.py:650-675 | the outcomes, by case: unknown intent gives the exact "No template found" message; a missing driver gives the "not initialized" message; a raising driver gives "Database Error: " plus its message; otherwise one dictionary per record, in record order, from the registered text and the unchanged entities |
| Retriever.UnknownIntentIff | MS3/base_retrieve.py:654-655 | the result reads as an unknown-intent error exactly when the intent is not registered |
| Retriever.KnownIntentErrors | MS3/base_retrieve.py:657-675 | for a registered intent every error message starts with "Database Error: " |
| Retriever.NoDriverIsDatabaseError | MS3/base_retrieve.py:662 | the missing-driver message is itself a database error message |
| Retriever.UnknownIntentSkipsDriver | MS3/base_retrieve.py:654-655 | for an unknown intent the result depends on neither the driver nor the entities |
| Retriever.RowsFromRecords | MS3/base_retrieve.py:664-672 | rows come back only for a registered intent with a driver, each row holding exactly the record's keys with their last values |
| Retriever.TemplateParams | MS3/base_retrieve.py:657 | the parameters the executed text references are its template's references |
| Retriever.RouteFrequencyParams | MS3/base_retrieve.py:495-498 | looking up `analytics.network.route_frequency` in the registry returns the route-frequency template, which references exactly `origin` and `dest` |
| Retriever.EconomyWorkhorseParams | MS3/base_retrieve.py:470-474 | looking up `analytics.network.economy_workhorse` in the registry returns the economy-workhorse template, which references no parameter |
| Retriever.LookupDistinct | MS3/base_retrieve.py:654-657 | in a registry whose intents are distinct, looking up any template's intent returns that very template |
| Retriever.RegistryLookup | MS3/base_retrieve.py:18-657 | looking up the intent of any registered template returns that template, so no key of the dictionary literal is shadowed |
| CypherTemplates.RegistryDistinct | MS3/base_retrieve.py:18-641 | no two registered templates share an intent key |
| Retriever.RegistrySize | MS3/base_retrieve.py:18-641 | the retriever offers one hundred intents |
| Preprocessing.CleanAnswer | MS3/preprocessing.py:58-61 | the cleaned reply is stripped and holds no `"` or `'` |
| Preprocessing.RemoveCharKeeps | MS3/preprocessing.py:61 | removing one character never introduces another |
| Preprocessing.ClassifyIntent | MS3/preprocessing.py:43-66 | the result is an available intent or "unknown", and it is the cleaned reply exactly when that reply is available |
| Preprocessing.ClassifyQuoted | MS3/preprocessing.py:58-66 | an available intent, quoted and padded with whitespace, is classified as itself |
| Text.SecondPiece | MS3/preprocessing.py:113 | `s.split(p)[1]`, the text between the first and second occurrence of `p` (or to the end), holds no `p` and is shorter than `s` by at least `p` |
| Text.SecondPieceOf | MS3/preprocessing.py:113 | when neither the text before the first separator nor the text after it holds the separator's first character, the second piece is exactly that text |
| Preprocessing.FencedPayload | MS3/preprocessing.py:112-115 | the `split` cut: a reply without a fence is passed on whole; a reply with one yields a piece holding no fence |
| Preprocessing.JsonFenceIsFence | MS3/preprocessing.py:112-114 | a reply holding a JSON fence holds a bare fence |
| Preprocessing.ExtractEntities | MS3/preprocessing.py:110-121 | the parse of the stripped `split` cut of the reply, or an empty dictionary when parsing fails |
| Preprocessing.JsonBlockRoundTrip | MS3/preprocessing.py:112-113 | a fence-free payload wrapped in a JSON code block after fence-free text is recovered exactly, when the text after the block does not open with a backtick |
| Preprocessing.OverlappingClose | MS3/preprocessing.py:112-113 | when the closing fence runs on into another JSON fence, the recovered payload keeps one stray backtick |
| Preprocessing.PlainBlockRoundTrip | MS3/preprocessing.py:114-115 | a payload in a plain code block is recovered exactly when no JSON block appears |
| Preprocess.LeadingBlockPayload | MS3/preprocess.py:58-61 | a reply not opening with a fence is passed on whole; an opening fence is cut with `split` and the piece is stripped |
| Preprocess.BlockBody | MS3/preprocess.py:59-61 | the `split(open)[1].split("```")[0].strip()` cut of a reply opening with `open` is stripped |
| Preprocess.OccursAtStart | MS3/preprocess.py:58-61 | a text that starts with a marker finds it at position 0 |
| Preprocess.GetIntentAndEntities | MS3/preprocess.py:55-71 | no reply gives `None`; otherwise the parse of the leading-block cut of the stripped reply, with `None` for a parse failure |
| Preprocess.LeadingBlockRoundTrip | MS3/preprocess.py:58-59 | a reply that is a JSON block around a fence-free payload hands on its stripped payload, when the text after the block does not open with a backtick |
| Preprocess.AgreesWithPreprocessor | MS3/preprocess.py:58-61 | when the reply opens with "```json", or opens with "```" and holds no "```json" anywhere, the starts-with rule and the contains rule give the same payload |
| Preprocess.AgreesWithoutFence | MS3/preprocess.py:58-61 | with no fence at all, both rules pass the reply on whole |
| Preprocess.PreambleDiverges | MS3/preprocess.py:55-61 | a JSON block after a preamble whose first character is not whitespace is unwrapped by the contains rule, while the reply, once stripped, is parsed whole by the starts-with rule |
| Preprocess.LaterJsonBlockDiverges | MS3/preprocess.py:58-61 | a reply opening with a plain block and holding a JSON block later gives the first block to the starts-with rule and the JSON block to the contains rule |
| LlmHandler.IndexForModel | MS3/LLM_layer/llm_handler.py:48-57 | the index is one of three; MiniLM iff the lower-cased name contains "minilm"; MPNet iff it contains "mpnet" but not "minilm" |
| LlmHandler.IndexIgnoresCase | MS3/LLM_layer/llm_handler.py:48-57 | the choice does not depend on letter case |
| LlmHandler.MakeEntry | MS3/LLM_layer/llm_handler.py:179-195 | a merged entry keeps its source and row, and carries a score iff it came from the embedding side |
| LlmHandler.RowsOf | MS3/LLM_layer/llm_handler.py:172-174 | the rows of a list result, in order; none for any other value |
| Values.PyKey | MS3/LLM_layer/llm_handler.py:176-178 | the set key of an id under Python equality: truthiness and hashability are kept, booleans become 0 and 1, integral floats become integers, other values are their own key |
| Values.PyKeyNumeric | MS3/LLM_layer/llm_handler.py:176-178 | `n == float(n)` and `True == 1`, `False == 0` as set keys |
| LlmHandler.KeyOf | MS3/LLM_layer/llm_handler.py:176-178 | a row's key in `seen_ids` is truthy iff its id is |
| LlmHandler.MergeRows | MS3/LLM_layer/llm_handler.py:174-182 | the merge loop computes exactly the first-occurrence filter, by Python equality of ids, and the keys it has taken |
| LlmHandler.KeptStep | MS3/LLM_layer/llm_handler.py:176-178 | one more row is appended to the kept rows, and its key to the taken keys, exactly when its id is truthy and its key not yet taken; otherwise neither changes |
| LlmHandler.FirstAtIff | MS3/LLM_layer/llm_handler.py:176-178 | a row is kept iff its id is truthy, untaken and not held by an earlier row |
| LlmHandler.TakenStep | MS3/LLM_layer/llm_handler.py:177-178 | one more row adds its id to the taken set exactly when the row is kept |
| LlmHandler.CombineResults | MS3/LLM_layer/llm_handler.py:145-197 | `None`, for the raised exception, exactly when a list item is not a dictionary or a truthy id is unhashable; otherwise the inputs unchanged and the kept baseline rows followed by the kept embedding rows |
| LlmHandler.NumericIdsMerge | MS3/LLM_layer/llm_handler.py:176-190 | an embedding row whose float id equals a baseline row's integer id is dropped |
| LlmHandler.KeptIds | MS3/LLM_layer/llm_handler.py:169-190 | kept rows carry distinct, truthy, previously untaken ids, all recorded as taken |
| LlmHandler.KeptComplete | MS3/LLM_layer/llm_handler.py:177-178 | no eligible row is dropped: each truthy id whose key is untaken is kept |
| LlmHandler.MergedDistinct | MS3/LLM_layer/llm_handler.py:169-195 | no two merged entries share an id under Python equality; every id is truthy; no baseline entry follows an embedding entry |
| LlmHandler.NonListContributesNothing | MS3/LLM_layer/llm_handler.py:173-186 | a results value that is not a list contributes no entry |
| LlmHandler.MatchParts | MS3/LLM_layer/llm_handler.py:224-229 | each semantic match renders as three context lines |
| LlmHandler.NatToString | MS3/LLM_layer/llm_handler.py:223-224 | a match number is written as a non-empty run of digits |
| LlmHandler.MatchesParts | MS3/LLM_layer/llm_handler.py:223-229 | three lines per shown match |
| LlmHandler.ContextParts | MS3/LLM_layer/llm_handler.py:209-229 | for renderable embedding results (the first three items are dictionaries with string text), the structured block appears iff the baseline results are truthy; the semantic block appears iff the embedding results are; at most three matches are shown |
| LlmHandler.FormatContext | MS3/LLM_layer/llm_handler.py:209-231 | `None`, for the raised exception, exactly when truthy embedding results are not a list or one of their first three items is not a dictionary with string text |
| LlmHandler.JoinStartsWithFirst | MS3/LLM_layer/llm_handler.py:231 | the joined context starts with its first line |
| LlmHandler.NoDataIff | MS3/LLM_layer/llm_handler.py:213-231 | for any inputs, the context is the no-data message exactly when both results fields are falsy |
| LlmHandler.PersonaOrDefault | MS3/LLM_layer/llm_handler.py:246-250 | a non-empty persona is used as given; a missing or empty one is replaced by the default |
| LlmHandler.Task | MS3/LLM_layer/llm_handler.py:252-261 | the task section embeds the user's question verbatim between its fixed instructions |
| LlmHandler.PromptLayout | MS3/LLM_layer/llm_handler.py:246-273 | the prompt holds the PERSONA, CONTEXT, TASK and ANSWER sections in order, with the persona, context and question verbatim |
| LlmHandler.Sections | MS3/LLM_layer/llm_handler.py:263-273 | for any headers, persona, context and task text, each header sits where the concatenation puts it, the persona, context and question sit verbatim between them, and the answer header closes the prompt |
| QueryComparison.NormalizeQuery | MS3/test_queries.py:96-113 | falsy input gives ""; otherwise the result is lower-case and stripped |
| QueryComparison.NormWord | MS3/test_queries.py:109-111 | a normalised word is a lower-case word that renaming leaves unchanged |
| QueryComparison.Normalized | MS3/test_queries.py:107-111 | the normal form of a word list is its normalised words joined by single spaces, lower-case and stripped |
| QueryComparison.SubstituteLowerJoin | MS3/test_queries.py:107-111 | lower-casing and renaming act word by word on words joined by single spaces |
| QueryComparison.NormalizeIdempotent | MS3/test_queries.py:96-113 | normalising a normalised query changes nothing |
| QueryComparison.NormalizeIgnoresSpacing | MS3/test_queries.py:107 | queries with the same words normalise alike, whatever their spacing |
| QueryComparison.Clauses | MS3/test_queries.py:127-128 | only the five clause keywords are ever reported |
| QueryComparison.Overlap | MS3/test_queries.py:132-134 | the pattern similarity lies in [0, 1]; it is 1 when the expected patterns are non-empty and all shared; it is 0 when none are shared |
| QueryComparison.Shorten | MS3/test_queries.py:140-141 | a text of at most 200 characters is shown whole; a longer one is its first 200 characters plus three more |
| QueryComparison.CompareQueries | MS3/test_queries.py:116-142 | exact match iff the normal forms are equal; clause match iff the clause sets are equal; the similarity is the rounded overlap |
| QueryComparison.ExactImpliesClauses | MS3/test_queries.py:124-134 | an exact match is a clause match with the pattern overlap at its maximum |
| QueryComparison.LayoutInsensitive | MS3/test_queries.py:103-124 | non-empty queries whose words agree one by one after lower-casing and parameter renaming match exactly, however they are spaced |
| TenQParser.Header | MS3/test_queries.py:44-58 | a header line yields a `Q<digits>` id and a non-empty stripped text |
| TenQParser.HeaderRoundTrip | MS3/test_queries.py:44-58 | a written header (id, dot, spacing, text, padding) reads back as its id and text |
| TenQParser.NonHeader | MS3/test_queries.py:44-46 | a stripped line not starting with `Q` is never a header |
| TenQParser.Flush | MS3/test_queries.py:48-54 | finishing keeps the finished questions and appends the current one, if any, with its query lines joined by line feeds and stripped as expected query |
| TenQParser.Step | MS3/test_queries.py:42-82 | a header finishes the current question and starts a new one; before the first header other lines change nothing; after it, reading turns on at a MATCH/OPTIONAL line and off at a separator, and the stripped line is kept exactly when it is non-empty, not a separator, and reading is on or some line was already kept |
| TenQParser.ParseWritten | MS3/test_queries.py:21-93 | a file written as blocks (header `<id>. <text>`, good query lines, the first opening with MATCH or OPTIONAL, then a separator) parses back to exactly those questions, each expected query being its lines joined by line feeds |
| TenQParser.QueryLinesSteps | MS3/test_queries.py:62-79 | under a header, query lines are kept one by one, in order, and reading is on after the first |
| TenQParser.BlockSteps | MS3/test_queries.py:44-79 | a written block finishes the previous question and leaves its own open with exactly its query lines, reading off after the separator |
| TenQParser.Heads | MS3/test_queries.py:50-54 | one id and text per question, in order |
| TenQParser.StepInvariant | MS3/test_queries.py:42-82 | each line keeps the parser state well formed |
| TenQParser.RunInvariant | MS3/test_queries.py:42-82 | the parser state is well formed after any sequence of lines |
| TenQParser.ParsedQuestionsGood | MS3/test_queries.py:21-93 | every question has a `Q<digits>` id and non-empty stripped text; its expected query is empty or opens with MATCH or OPTIONAL, with stripped non-empty non-separator lines |
| TenQParser.ParsedHeaders | MS3/test_queries.py:21-93 | the questions are exactly the header lines of the file, one each, in file order |
| QueryTestRunner.SerializeValue | MS3/test_queries.py:162-168 | a mapping-like value becomes the one-level dictionary of its items; an attribute object becomes its string; anything else is unchanged |
| QueryTestRunner.SerializeRecord | MS3/test_queries.py:158-171 | a dictionary record keeps its keys with each value serialised; any other record becomes its string |
| QueryTestRunner.SerializeResults | MS3/test_queries.py:145-172 | text is returned unchanged; other non-lists become their string; a list maps record by record to a list of the same length |
| QueryTestRunner.SerializeResultsSerialized | MS3/test_queries.py:145-172 | every result is plain serialised output |
| QueryTestRunner.SerializeIdempotent | MS3/test_queries.py:145-172 | serialising serialised output changes nothing, when `str` of a text is the text |
| QueryTestRunner.Combine | MS3/test_queries.py:213 | the merged parameters hold every key of both maps, parameters winning a clash |
| QueryTestRunner.RunOne | MS3/test_queries.py:182-246 | a record keeps the question's id, text and expected query |
| QueryTestRunner.RunOneSuccess | MS3/test_queries.py:207-240 | a question passes iff processing succeeded, the intent is known, the query ran and reported a query, and that query passes the comparison when an expected one exists |
| QueryTestRunner.SuccessMeansNoError | MS3/test_queries.py:207-245 | a passing question records no error |
| QueryTestRunner.UnknownIntentSkipsRunner | MS3/test_queries.py:207-213 | an unknown intent records "Unknown intent", fails, and never reaches the retriever |
| QueryTestRunner.ResultCount | MS3/test_queries.py:216-225 | the result count is the length of list results, else 0 |
| QueryTestRunner.RunAll | MS3/test_queries.py:175-252 | one record per question, in question order |
| QueryTestRunner.IntentKey | MS3/test_queries.py:265 | a result is filed under its intent, or "unknown" |
| QueryTestRunner.GenerateSummary | MS3/test_queries.py:255-285 | the total is the result count; failed is total minus successful; the rate is 0 for no results; the remaining fields are the per-intent tallies, error count and failed list |
| QueryTestRunner.TallyForNone | MS3/test_queries.py:264-270 | no tally is found for an intent exactly when no tally in the list names it |
| QueryTestRunner.TallyFinds | MS3/test_queries.py:264-270 | tallying a result bumps only its own intent's tally |
| QueryTestRunner.TallySums | MS3/test_queries.py:264-270 | tallying keeps intents distinct and adds one to the total, and one to the successes when it passed |
| QueryTestRunner.ByIntentSums | MS3/test_queries.py:263-270 | the per-intent totals add up to the total, and their successes to the successes |
| QueryTestRunner.ByIntentCounts | MS3/test_queries.py:263-270 | each intent's tally counts exactly the results filed under it, and their successes |
| QueryTestRunner.FailuresCount | MS3/test_queries.py:257-284 | the failed list has total minus successful entries |
| QueryTestRunner.FailuresAreUnsuccessful | MS3/test_queries.py:280-283 | the failed list names exactly the unsuccessful results |
| ModelComparison.ResultItems | MS3/LLM_layer/model_comparison.py:100 | a stored list is iterated item by item |
| ModelComparison.Entry | MS3/LLM_layer/model_comparison.py:101-109 | an entry comes only from a dictionary record, keyed by its stripped question |
| ModelComparison.Entries | MS3/LLM_layer/model_comparison.py:100-109 | one entry per record, in order, unless some record raises |
| ModelComparison.EntriesFail | MS3/LLM_layer/model_comparison.py:100-114 | one raising record makes the whole load fail |
| ModelComparison.LoadExpected | MS3/LLM_layer/model_comparison.py:88-114 | a failed load leaves the table empty, and the empty question is never a key |
| ModelComparison.TableLastWins | MS3/LLM_layer/model_comparison.py:101-109 | the table holds exactly the non-empty questions, each bound to its last entry |
| ModelComparison.LoadedTable | MS3/LLM_layer/model_comparison.py:95-109 | a loaded file's table is keyed by the stripped questions, last entry winning |
| ModelComparison.BadRecordEmptiesTable | MS3/LLM_layer/model_comparison.py:110-114 | a record that is not a dictionary empties the whole table |
| ModelComparison.Number | MS3/LLM_layer/model_comparison.py:145-150 | an integer count is read as its own value |
| ModelComparison.CompareWithExpected | MS3/LLM_layer/model_comparison.py:127-164 | a query whose stripped text has no entry gives the no-expected outcome; the call fails exactly when the entry exists and either the baseline part is not a dictionary (`.get` raises) or the intents are equal and the expected count is not a number (the subtraction raises) |
| ModelComparison.CheckMeaning | MS3/LLM_layer/model_comparison.py:136-152 | the actual count is the baseline list length, else 0; intent match iff equal; count match iff equal; match iff the intents are equal, some row came back, and the expected count is a number within 2 of the actual count |
| ModelComparison.AttemptsOf | MS3/LLM_layer/model_comparison.py:303-306 | one attempt for each stored run that names the model, so at most one per run |
| ModelComparison.AttemptsCover | MS3/LLM_layer/model_comparison.py:303-306 | the model's attempt in every run that names it is collected |
| ModelComparison.AttemptsFrom | MS3/LLM_layer/model_comparison.py:303-306 | every collected attempt is the model's attempt in some run that names it |
| ModelComparison.Timed | MS3/LLM_layer/model_comparison.py:307-308 | one kept attempt per attempt with a response time, and every kept one has a response time |
| ModelComparison.TimedHeld | MS3/LLM_layer/model_comparison.py:307-308 | every attempt with a response time is kept, and every kept attempt is one of the attempts |
| ModelComparison.MinOf | MS3/LLM_layer/model_comparison.py:331 | the least response time is one of them and at most each one |
| ModelComparison.MaxOf | MS3/LLM_layer/model_comparison.py:332 | the greatest response time is one of them and at least each one |
| ModelComparison.CorrectCount | MS3/LLM_layer/model_comparison.py:316 | the number of attempts whose `correct` is truthy, so at most all attempts |
| ModelComparison.WithExpected | MS3/LLM_layer/model_comparison.py:320-321 | the number of attempts whose `has_expected` is truthy, so at most all attempts |
| ModelComparison.GenerateSummary | MS3/LLM_layer/model_comparison.py:277-335 | no stored runs gives the error summary; otherwise the run count, and exactly the models with a timed attempt |
| ModelComparison.AttemptsIff | MS3/LLM_layer/model_comparison.py:291-302 | a model has attempts iff some run names it |
| ModelComparison.SummarisedIff | MS3/LLM_layer/model_comparison.py:295-306 | a model is summarised exactly when one of its attempts was timed |
| ModelComparison.SumBounds | MS3/LLM_layer/model_comparison.py:307-308 | a sum of values within bounds lies within count times the bounds |
| ModelComparison.StatsBounds | MS3/LLM_layer/model_comparison.py:306-333 | least ≤ mean ≤ greatest response time; success rate and accuracy lie in [0, 1] |
| Evaluation.Sentences | MS3/LLM_layer/evaluation.py:56 | the sentences are the non-blank stripped pieces between full stops |
| Evaluation.EvaluateQuantitative | MS3/LLM_layer/evaluation.py:37-67 | word, length and sentence counts of answer and context, and the utilisation ratio |
| Evaluation.Utilisation | MS3/LLM_layer/evaluation.py:62-65 | 0 for a context without words; otherwise the ratio of answer words to context words |
| Evaluation.Keywords | MS3/LLM_layer/evaluation.py:111-120 | keywords are query words longer than three letters that are not stop words |
| Evaluation.Relevance | MS3/LLM_layer/evaluation.py:101-127 | in [0, 1]; 0 for an empty answer or query; otherwise the keyword score of the lower-cased texts |
| Evaluation.KeywordScore | MS3/LLM_layer/evaluation.py:118-127 | in [0, 1]; 0.5 with no keywords; 1 iff every keyword occurs; 0 iff none does |
| Evaluation.SelfRelevance | MS3/LLM_layer/evaluation.py:101-127 | a query scored against itself gets 1 when it has keywords and 0.5 otherwise |
| Evaluation.AllMatched | MS3/LLM_layer/evaluation.py:125-127 | every keyword counted iff every keyword occurs |
| Evaluation.NoneMatched | MS3/LLM_layer/evaluation.py:125-127 | no keyword counted iff none occurs |
| Evaluation.NumberAt | MS3/LLM_layer/evaluation.py:139-140 | a number found at a position ends after it, within the text |
| Evaluation.NumbersAreNumerals | MS3/LLM_layer/evaluation.py:139-140 | everything extracted as a number is a numeral: digits, optionally a dot and more digits |
| Evaluation.WholeNumeral | MS3/LLM_layer/evaluation.py:139-140 | a text that is one run of digits yields exactly itself |
| Evaluation.WholeDecimal | MS3/LLM_layer/evaluation.py:139-140 | a text that is a decimal numeral yields exactly itself |
| Evaluation.Grounding | MS3/LLM_layer/evaluation.py:129-154 | in [0, 1]; 0 for an empty answer or context; 0.7 when the answer has no numbers; 0.3 when only the context lacks them; otherwise the shared fraction |
| Evaluation.Share | MS3/LLM_layer/evaluation.py:151-154 | in [0, 1]; 1 iff every answer number is in the context; 0 iff none is |
| Evaluation.LengthScore | MS3/LLM_layer/evaluation.py:165-177 | 0.3 below 10 words, 0.6 below 30 or above 250, 1 up to 150, 0.8 up to 250, each an iff |
| Evaluation.Completeness | MS3/LLM_layer/evaluation.py:156-177 | in [0, 1]; 0 for an empty answer; otherwise the length score of its word count |
| Evaluation.Clarity | MS3/LLM_layer/evaluation.py:179-208 | in [0, 1]; 0 for an empty answer; 0.2 with no sentence; otherwise 1 less 0.3 for short sentences and 0.2 for error words |
| Evaluation.AverageBelow | MS3/LLM_layer/evaluation.py:198-200 | the mean sentence length is below 5 iff the words are fewer than five per sentence |
| Evaluation.Clamp | MS3/LLM_layer/evaluation.py:251 | the clamped value lies in [0, 1] and equals the input when that already does |
| Evaluation.NoHallucination | MS3/LLM_layer/evaluation.py:210-251 | in [0, 1]; 1 for an empty answer; 1 when a short context meets an admission of missing data; otherwise the clamped hedging and absolute-claim formula |
| Evaluation.Assessment | MS3/LLM_layer/evaluation.py:253-272 | Excellent iff ≥ 0.8, Good iff in [0.6, 0.8), Fair iff in [0.4, 0.6), Poor iff < 0.4 |
| Evaluation.EvaluateQualitative | MS3/LLM_layer/evaluation.py:69-99 | all five scores and the overall in [0, 1]; the overall is their mean; the assessment is the overall's grade |
| Evaluation.EmptyAnswer | MS3/LLM_layer/evaluation.py:107-218 | an empty answer scores 0, 0, 0, 0 and 1, overall 0.2, "Poor" |
| Config.Setting | MS2/run_queries.py:7-10 | a line sets something iff it holds '='; the key holds no '='; key, '=' and value make up the stripped line |
| Config.Settings | MS2/run_queries.py:7-10 | one reading per line, in order |
| Config.LoadConfig | MS2/run_queries.py:4-11 | no loaded key holds '=' |
| Config.LastSetter | MS2/run_queries.py:10 | the last line that sets a key, with no later one |
| Config.LoadedSettings | Create_kg.py:5-12 | a key is loaded iff some line sets it, bound to the value of the last such line |
| Config.IgnoresPlainLine | MS3/embedding_test/create_indices.py:10 | a line without '=' changes nothing |
| Config.LineSetting | MS2/Create_kg.py:10 | `key=value` with a good key and value reads back as that pair, even when the value holds '=' |
| Config.RenderRoundTrip | MS3/embedding_test/test_embedding.py:10-17 | writing distinct settings one per line and loading them gives back exactly those settings |
| Config.ConnectionOf | Create_kg.py:16-19 | each of URI, USERNAME and PASSWORD is the configured value, else its fixed default |
| Config.NoSettingsDefaults | MS2/Create_kg.py:15-18 | a file without '=' connects with all three defaults |
| Config.LastUriWins | MS3/embedding_test/create_indices.py:15-16 | a URI line appended to any file decides the URI |
| Config.SearchIndex | MS3/embedding_test/test_embedding.py:26-36 | "minilm" and "mpnet" select their indexes exactly; every other name selects BGE-M3 |
| QuestionFile.Head5 | MS3/LLM_layer/test_llm_layer.py:44 | the first five characters, a prefix of the line |
| QuestionFile.QuestionOf | MS3/LLM_layer/test_llm_layer.py:37-50 | a blank or Cypher line yields nothing; a question comes only from a line starting with Q with a dot in its first five characters; it is non-empty and does not start with Q |
| QuestionFile.QuestionOfStripped | MS3/LLM_layer/test_llm_layer.py:44-48 | the question is the stripped text after the first dot |
| QuestionFile.Questions | MS3/LLM_layer/test_llm_layer.py:36-52 | at most one question per line, each non-empty and not starting with Q |
| QuestionFile.LoadTestQuestions | MS3/LLM_layer/test_llm_layer.py:18-52 | every returned question is non-empty and does not start with Q |
| QuestionFile.QuestionsAppend | MS3/LLM_layer/test_llm_layer.py:36-52 | the questions of two runs of lines are those of the first followed by those of the second, so they come in file order |
| QuestionFile.QuestionLineYields | MS3/LLM_layer/test_llm_layer.py:44-50 | a written `Q<n>. <text>` line yields exactly its text |
| QuestionFile.QuestionFileRoundTrip | MS3/LLM_layer/test_llm_layer.py:18-52 | a file of written question lines loads back as exactly its questions, in order |
| QuestionFile.CypherLineYieldsNothing | MS3/LLM_layer/test_llm_layer.py:37-41 | a line opening with a Cypher keyword yields no question |
| QueryFile.LineEnd | MS2/run_queries.py:19 | `.*` runs to the next line feed or the end |
| QueryFile.HeaderEnd | MS2/run_queries.py:19 | a header match starts at a '/' and ends after it |
| QueryFile.FirstHeader | MS2/run_queries.py:19 | the first header match at or after a position |
| QueryFile.Segments | MS2/run_queries.py:19 | splitting always gives at least one segment |
| QueryFile.Uncommented | MS2/run_queries.py:24 | no kept line is a comment, and none is added |
| QueryFile.KeepsAll | MS2/run_queries.py:24 | lines without comments are all kept |
| QueryFile.QueryOf | MS2/run_queries.py:24-27 | a segment's query is its non-comment lines joined and stripped, kept only when non-empty |
| QueryFile.ParseQueries | MS2/run_queries.py:13-28 | at most one query per segment, so at most headers plus one, each non-empty and stripped |
| QueryFile.SegmentsOfRender | MS2/run_queries.py:19 | a written file splits into an empty preamble and one segment per query |
| QueryFile.ParseRendered | MS2/run_queries.py:13-28 | a file of written headers and queries parses back to exactly those queries, in order |
| QueryFile.ParsePreamble | MS2/run_queries.py:19-28 | a query before the first header is kept, like any other segment |

## Left out

- Cypher semantics: the templates are opaque text. The model reads only their `$` parameter references.
- The `$`-freedom of literal template text is proved only for the route-frequency and economy-workhorse queries. These are the two whose parameter sets are stated.
- The language model, the graph driver, the JSON parser and `json.dumps` are function parameters. So are `str()` of driver objects and `round(x, 2)`. Their own behaviour is not modelled.
- Network calls, timing and printing are not modelled: the LLM client, `execute_query`, embedding `encode`, wall-clock response times, and the save and print functions.
- UI and ingestion are not modelled: the Streamlit app, plotting, CSV-to-graph loading, index DDL, the batch query loop and the embedding preparation script.
- `run_query` returns one value, but `MS3/LLM_layer/llm_handler.py:76` and `MS3/test_queries.py:216` unpack two. The retriever is modelled as written. The test runner takes a retrieval stage returning results and the actual query, as its caller expects.
- `MS3/test_queries.py:201` calls `processor.process_query`, which `QueryPreprocessor` does not define. The test runner takes the processing stage as a parameter returning intent, entities and parameters, as its caller expects.
- `MS3/app.py` calls `get_query_for_intent`, which the retriever does not define. It is not part of this model.
- The baseline and embedding retrieval calls of `LLMHandler` and `generate_answer` are not modelled. They are LLM and driver calls.
- `ModelComparator.run_single_comparison` and `run_batch_comparison` are not modelled, and neither is `EvaluationMetrics.evaluate_comparison`. They orchestrate timed LLM calls and aggregate over their outputs.
- Floating point is modelled as exact reals. For example, 0.7 + 0.2 − 0.3 is exactly 0.6 here, and `round` and `:.3f` are not modelled.
- Letters, digits and word characters are read as ASCII: `str.lower`, `\w`, `\d` and `\b` follow their ASCII meaning, and Python's Unicode tables for them are not modelled. Whitespace (`str.isspace`, `str.strip`, `str.split()`) and the line boundaries of `str.splitlines` follow Python's full Unicode sets.
- The renderers passed to `format_context` (`str()`, `json.dumps` and the `:.3f` format) are total. A score that `:.3f` cannot format, or a result that `json.dumps` cannot serialise, raises in Python but not in the model.
- Set keys of driver nodes and other objects compare structurally. Python compares them by identity unless their class defines equality, and they are hashable, so the merge treats them like any other hashable id.
- Preprocessing.JsonBlockRoundTrip: the round trip is stated only when the text after the block does not open with a backtick. Otherwise the closing fence and that backtick can form a JSON fence and the cut moves, as Preprocessing.OverlappingClose shows.
- Preprocess.LeadingBlockRoundTrip: the same condition on the text after the block, for the same reason.
- Files are read as text with line endings already translated to `'\n'`. Python's universal newlines do the same.
- `load_test_questions` has an `if len(parts) > 1` test that is always true once a dot has been found. The model has no such branch.
- `parse_ten_q_file` has a branch that does nothing (`pass`) and a pattern that is compiled but never used. The model has neither.
- QueryFile.ParseQueries: states that no kept line of a segment is a `//` comment. It does not restate this for the lines of the final stripped query.
- QueryFile.ParseRendered: the round trip is stated for queries without '/' whose only line breaks are '\n'.
- TenQParser.ParseWritten: the round trip is stated for files without blank or extra lines between blocks, and for query lines that do not begin with `Q`. Such a line could read as a question header. Other files are covered only by ParsedHeaders, ParsedQuestionsGood and the step-by-step contract of Step.
- QuestionFile.QuestionFileRoundTrip: the round trip is stated for question numbers of one to three digits, so the dot falls within the first five characters.
- Config.RenderRoundTrip: the round trip is stated for distinct keys without '=', and for keys and values without line breaks or surrounding whitespace.
- The intents in `compare_with_expected` compare structurally. Python's `==` would also count an intent `1` equal to `1.0` or `True`. That matters only for non-string intents.
- ModelComparison.GenerateSummary: the timestamp field is left out.

# RAG chat backend: corpus extraction, chat-history saving and query orchestration

This project models the parts of the RAG chat backend that are the repository's own logic, and proves properties about them. Retrieval, embeddings, the language model, translation and language detection are all third-party services, so they appear only as parameters.

- **Corpus extraction** (`RagCorpus`, `rag.dfy`). `extract_text` turns dataset records into text units `"Source: <s>\nResponse: <r>"`. The modelled `strip()` removes exactly the characters for which Python's `str.isspace()` holds. `create_chain` refuses an empty corpus and an empty split with `ValueError`s carrying the source's messages, and passes on a failure to build the retrievers. The model also keeps the constants the pipeline is built with: chunk size 1500, overlap 200, the separator list, retriever weights 0.3/0.7, MMR with k = 3, and `gpt-3.5-turbo` at temperature 0.
- **History files** (`HistoryFiles`, `history_files.dfy`). Both `save_chat` handlers build the file name `chat_history_<timestamp>.json` under `chat_histories/`. That naming is modelled once here. A name determines its timestamp and the other way round. So two saves within the same second (the timestamp's resolution) write to the same path.
- **`/api/save_chat` of the app** (`ChatServer`, `chat_server.dfy`). A message from `"user"` becomes a `Q` record with the text in `고객질문(요청)`. Any other message becomes an `A` record with the text in `답변`. Every record of one save carries the dialogue-set id `"B" + timestamp`.
- **Users router** (`UserRoutes`, `user_controller.py`'s model in `user_controller.dfy`):
  - the single-slot chain store and `ChainStart`;
  - the fallbacks of `detect_language` (English) and `translate_to_korean` (the original text);
  - the branching of `use_chain`. A ghost list `prompts` records every chain invocation in order.
  - the field-copying `save_chat`.

Inputs from the environment are parameters:
- the dataset loader (`load`: a path to records, or the error `open`/`json.load` raises);
- the splitter (`split`);
- building the BM25 and FAISS retrievers over the splits (`index`: `Fail` when FAISS or the embeddings service raises);
- the detector and translator (`None` when they raise);
- a chain's `invoke` (a `Failure` when it raises);
- the formatted clock reading (`timestamp`).

A file write is returned as a `Written(path, records)` value.

Two behaviours of `use_chain` (RAG/routers/users/user_controller.py:76-80) are kept as written:
- A non-Korean query's answer is always rewritten into **English**, whatever language the query was in.
- The second invocation happens whenever the detected language is not `ko`, even when translation failed and the chain was asked the untranslated query.

## Model

| member | source | states |
|---|---|---|
| `RagCorpus.TrimStart` | RAG/dependencies/Rag.py:59-60 | the result is the suffix of the input that is left after dropping leading whitespace: everything dropped is whitespace and the result does not start with whitespace |
| `RagCorpus.TrimEnd` | RAG/dependencies/Rag.py:59-60 | the result is the prefix of the input that is left after dropping trailing whitespace: everything dropped is whitespace and the result does not end with whitespace |
| `RagCorpus.Strip` | RAG/dependencies/Rag.py:59-60 | `strip()` returns one contiguous slice of its input, starting after the leading whitespace |
| `RagCorpus.StripSpec` | RAG/dependencies/Rag.py:59-60 | everything `strip()` cuts off is whitespace; neither end of its result is whitespace; the result is empty exactly when the input is all whitespace |
| `RagCorpus.OneOfIsIn` | RAG/dependencies/Rag.py:59-60 | the recursive whitespace test is membership in the list of characters `str.isspace()` accepts |
| `RagCorpus.QualifiesIff` | RAG/dependencies/Rag.py:59-61 | a record is kept iff its `source` and its `response` are both present and each holds a non-whitespace character (a missing key counts as empty) |
| `RagCorpus.Units` | RAG/dependencies/Rag.py:56-64 | extraction yields at most as many text units as there are records |
| `RagCorpus.UnitsPrefix` | RAG/dependencies/Rag.py:57-62 | the units of a leading part of the dataset are a leading part of its units (units are only ever appended) |
| `RagCorpus.UnitAt` | RAG/dependencies/Rag.py:58-62 | every qualifying record yields the unit `"Source: " + strip(source) + "\nResponse: " + strip(response)`, placed after the units of all earlier records, so none is dropped |
| `RagCorpus.UnitSource` | RAG/dependencies/Rag.py:58-62 | every unit is the rendering of one qualifying record, and that record's position matches the unit's position |
| `RagCorpus.UnitsOrdered` | RAG/dependencies/Rag.py:57-62 | an earlier qualifying record's unit comes strictly before a later one's (relative order is kept) |
| `RagCorpus.UnitsEmptyIff` | RAG/dependencies/Rag.py:61-71 | extraction yields nothing exactly when no record qualifies, which is when create_chain raises its first ValueError |
| `RagCorpus.UnitsCount` | RAG/dependencies/Rag.py:58-62 | the number of units equals the number of positions in the dataset whose record qualifies |
| `RagCorpus.ExtractText` | RAG/dependencies/Rag.py:56-64 | the loop returns exactly the unit list of the dataset: one unit per qualifying record, in order, and at most one per record |
| `RagCorpus.CreateChain` | RAG/dependencies/Rag.py:66-103 | a load error propagates; an empty corpus fails with `ValueError("The dataset does not contain any valid Q&A pairs.")` before splitting is reached; an empty split fails with `ValueError("Text splitting did not produce any valid text segments.")` before any index is built; a failure while building the retrievers propagates; otherwise the chain is built over the non-empty split of the extracted units with the fixed splitter and pipeline configuration |
| `HistoryFiles.FileName` | RAG/main.py:102-103 | the file name is `chat_history_`, then the timestamp, then `.json` |
| `HistoryFiles.FileNameRoundTrip` | RAG/main.py:103 | the timestamp can be read back from the file name |
| `HistoryFiles.FileNameInjective` | RAG/routers/users/user_controller.py:93-94 | two saves get the same file name exactly when their timestamps are equal |
| `ChatServer.FormatTurn` | RAG/main.py:110-116 | `QA` is `"Q"` iff the sender is `"user"`, otherwise `"A"`; a user's text goes to the question field and the answer field is empty, and the reverse for other senders; at most one of the two fields is non-empty and together they give back the message text; the record carries the given dialogue-set id |
| `ChatServer.SaveChat` | RAG/main.py:96-124 | the file is written to `chat_histories/chat_history_<timestamp>.json`; it holds one record per message, in order, each the formatting of that message; every record carries the id `"B" + timestamp`; the response names the file |
| `UserRoutes.ChainStore.constructor` | RAG/routers/users/user_controller.py:26 | the store starts empty |
| `UserRoutes.ChainStore.SetChain` | RAG/routers/users/user_controller.py:66 | after `set_chain(c)` the store holds exactly `c` |
| `UserRoutes.ChainStart` | RAG/routers/users/user_controller.py:63-67 | start-up builds from `log.json`; it succeeds exactly when the load succeeds, extraction yields at least one unit (by UnitsEmptyIff: some record qualifies), the split is non-empty and the retrievers are built over it, and then the store holds exactly the chain built; on failure the store is unchanged |
| `UserRoutes.DetectLanguage` | RAG/routers/users/user_controller.py:55-59 | the detector's answer, or `"en"` when the detector raises |
| `UserRoutes.TranslateToKorean` | RAG/routers/users/user_controller.py:42-50 | the text changes only when the detector names a non-Korean language and the translator succeeds, and then it is the translator's output; in every other case, including detector or translator failures, the text comes back unchanged |
| `UserRoutes.UseChain` | RAG/routers/users/user_controller.py:69-85 | the 404 `Chain not found` is returned exactly when the store is empty, and then the chain is never invoked; for `ko` it is invoked exactly once, on the query, and that result is returned; otherwise it is invoked on `translate_to_korean(query)`, then on `"Rewrite the following in English: " + answer`, and the second result is returned; an invocation failure stops the request; a detector failure leads to the two-step branch on the untranslated query; a returned answer is always the result of the last invocation |
| `UserRoutes.SaveChat` | RAG/routers/users/user_controller.py:87-113 | the file is written to `chat_histories/chat_history_<timestamp>.json`; it holds one record per message, in order, copying `대화셋일련번호`, `고객질문` and `상담사답변` unchanged; the response names the file |

## Left out

- Loading the dataset (`open`, `json.load`): this is I/O. The loader is a parameter that returns records or an error.
- Records that are not JSON objects, and a top-level JSON object instead of a list: in the source, `entry.get` on such a record (a string, a number, a list, or a key of a top-level object) raises `AttributeError`. The model types the dataset as a list of records.
- Record fields that hold JSON non-strings: in the source, a `null` or a number under `source` or `response` makes `.strip()` raise. The model types every present field as a string.
- `RecursiveCharacterTextSplitter.split_documents`: it is library code whose algorithm is not shown. It is an uninterpreted parameter, and only its configuration is fixed.
- The BM25 retriever with Kiwi tokenisation, FAISS with OpenAI embeddings, the weighted/MMR `EnsembleRetriever`, prompt rendering, the `ChatOpenAI` call and the output parser: these are library and network code. A chain is represented by its segments and its fixed configuration, and `invoke` on it is an oracle.
- `langdetect.detect` and `GoogleTranslator`: these are external services, so they are fallible oracles. `langdetect` is randomised, but the model gives one text the same verdict on both calls that `use_chain` makes (once directly, once inside `translate_to_korean`).
- The debug `print` calls, the logging, and `datetime.now()`: the formatted timestamp is an input.
- `os.makedirs`, and the actual `json.dump` write: a save returns the path and the list of records it would write.
- `appendData(filename)` in the router's `save_chat`: its source is not part of this model.
- `get_chain_store` and the module-level `chain_store`: FastAPI dependency injection of a global is modelled by passing the `ChainStore` object explicitly.
- The source of `ChainStore` (`domains.users.models`, imported at RAG/routers/users/user_controller.py:10-12) is not part of this model. The Dafny `ChainStore` class is modelled from its uses at RAG/routers/users/user_controller.py:26, 66 and 71, as a single optional slot.
- The generic 500 exception handler, CORS middleware and routing: this is HTTP plumbing. An exception escaping a chain invocation is a `Failure` result.
- Text-to-speech endpoints (gTTS): this is audio synthesis by an external service.
- `mask_personal_info`: it depends on regex word-boundary and Hangul-range semantics, and its call sites are commented out.
- The React client, `asyncio` start-up and `uvicorn`: these are outside the backend's logic.

# DocRAG core, modelled in Dafny

DocRAG answers questions about documents with retrieval-augmented generation. This project
models the deterministic core of its three front ends and proves properties of that model:

- **rag_logic.py** and **app/rag_logic.py**:
  - `QueryCache` is the query-answer cache. Keys are the md5 of the stripped, lower-cased
    question. It counts queries and hits.
  - `CachedRAGChain` wraps the retrieval chain:
    - a stored answer that is not empty is served without calling the chain;
    - otherwise the chain is called, and its answer is cleaned, stored and returned.
  - `clean_answer` is modelled in two parts:
    - a small backtracking matcher over the regular-expression fragment used for the
      `<think>` blocks, the nine verbose phrases and the anchored intro prefixes;
    - direct definitions for the blank-line collapse (`Regex.Collapse`, `Regex.BlankPrefix`)
      and the per-line strip of the multi-line pattern (`Regex.StripLineStartsFrom`).
  - The app variant also chooses the model name.
- **flask_app.py**:
  - the document-set fingerprint: the SHA-256 of the locators, sorted the way Python sorts
    strings and joined with no separator;
  - `FAISS_CACHE` and `preload_faiss`;
  - `build_faiss_for_files` and `build_faiss_for_urls`;
  - `allowed_file` and `get_document_loader`;
  - in `index`: link cleaning and the choice between uploads, links and Pinecone.
- **api.py**:
  - `verify_api_key`;
  - `documents` normalisation;
  - the download loop, which aborts the request at the first document that fails to download;
  - the question loop, which turns every failure into an answer string.

Hashes, URL parsing, `secure_filename`, document loaders, FAISS, Pinecone, the LLM chain,
the network and the claim database are not computed. Each is a parameter of the model: an
uninterpreted function, or an oracle object that records its calls. Every claim rests only on
the logic the repository itself contains.

Modules follow the program:

| module | file | content |
|---|---|---|
| `Text` | text.dfy | `str.isspace`, `strip`, `lower`, `splitlines` |
| `Regex` | regex.dfy | the `re.sub` fragment the cleaners use |
| `QueryCaching` | query_cache.dfy | the `QueryCache` class both rag_logic files define, the wrapped chain, the `Served` relation of one cached call |
| `RagLogic` | rag_logic.dfy | the cleaner and `CachedRAGChain` of rag_logic.py |
| `AppRagLogic` | app_rag_logic.dfy | the same for app/rag_logic.py |
| `Fingerprints` | fingerprint.dfy | string order, sort, join, fingerprint |
| `Http` | http.dfy | `requests.get` as an oracle |
| `FlaskApp` | flask_app.dfy | flask_app.py |
| `Api` | api.dfy | api.py |

Behaviour of the code that the model keeps as written:

- **URL-built indexes are never found again.** The code:
  - it looks an index up under the fingerprint of the URLs;
  - it stores a new index under the fingerprint of the *saved file paths*;
  - so the same URLs are downloaded and built again on the next request
    (`FlaskApp.UrlBuildKeyedBySavedFiles`, `FlaskApp.UrlIndexNotFoundAgain`).
- **The questions are answered one after the other**, not in parallel under a limit.
- **The answer list can be longer than the question list.** A failing `log_claim` adds an
  extra entry (`Api.LogFailureShiftsAnswers`).
- **There is no retrieval-strategy selector.** In flask_app.py every retriever returns the 5
  nearest chunks (flask_app.py:193, 199, 207). api.py hands the store to `create_rag_chain`
  with no `k`, so the number of chunks there is the vector store's default.

## Model

| member | source | states |
|---|---|---|
| Text.LowerStr | rag_logic.py:26 | `lower()` keeps the length and maps every character on its own |
| Text.TrimStart | rag_logic.py:198 | `lstrip` never lengthens the text, and what it keeps starts with a non-space |
| Text.TrimStartShape | rag_logic.py:198 | `lstrip` drops exactly the leading whitespace run: the result is a suffix of the input and what was dropped is all whitespace |
| Text.TrimEnd | rag_logic.py:198 | `rstrip` never lengthens the text, and what it keeps ends with a non-space |
| Text.TrimEndShape | rag_logic.py:198 | `rstrip` drops exactly the trailing whitespace run: the result is a prefix of the input and what was dropped is all whitespace |
| Text.Strip | rag_logic.py:198 | `strip()` returns a stripped text no longer than the input |
| Text.StripShape | rag_logic.py:198 | the result of `strip()` is a contiguous piece of the input that starts where the leading whitespace ends |
| Text.StripIdempotent | rag_logic.py:210 | stripping a stripped answer again changes nothing |
| Text.StripLowerCommute | rag_logic.py:26 | `strip().lower()` equals `lower().strip()` |
| Text.LowerStrIdempotent | rag_logic.py:26 | lower-casing twice equals lower-casing once |
| Text.SpaceRunEnd | rag_logic.py:197 | finds the end of the whitespace run starting at a position |
| Text.LeftStrippedHasNoBlankLine | rag_logic.py:196-197 | a text whose lines all start with a non-space has no blank line |
| Text.StripKeepsLinesLeftStripped | rag_logic.py:197-198 | stripping keeps every line start non-space |
| Text.StripKeepsNoBlankLine | app/rag_logic.py:133-134 | stripping creates no blank line |
| Text.SplitLines | flask_app.py:175 | `splitlines()`: no line holds a boundary; empty exactly for the empty text; the first line runs up to the first boundary |
| Text.SplitLinesBoundary | flask_app.py:175 | a single line ended by `\n`, a lone `\r` or any other line boundary gives that line followed by the lines of the rest; a final boundary opens no further line |
| Text.SplitLinesCrLf | flask_app.py:175 | a single line ended by `\r\n` gives that line followed by the lines of the rest: `\r\n` counts as one boundary |
| Text.SplitLinesLast | flask_app.py:175 | a non-empty text with no boundary is one line, itself |
| Text.StripEmpty | flask_app.py:176 | `link.strip()` is empty exactly when the line is all whitespace |
| Text.StripSingleLine | flask_app.py:176 | stripping a line leaves one line |
| Regex.Match | rag_logic.py:181-189 | a match of a token list consumes at least its minimum length and stays in the text |
| Regex.MatchAt | rag_logic.py:202-204 | a hit names one of the alternatives and ends within the text, no earlier than the alternative's minimum length allows |
| Regex.MatchAtFirst | rag_logic.py:202-204 | a hit is the first alternative, in order, that matches, with that alternative's end; no hit exactly when no alternative matches |
| Regex.MatchAltsFirst | rag_logic.py:202-204 | the same from any alternative on: the hit is the first matching alternative at or after it |
| Regex.Sub | rag_logic.py:177 | `re.sub` with a replacement no longer than any match never lengthens the text |
| Regex.SubAnchored | rag_logic.py:207-208 | a `^`-anchored deletion removes a prefix only |
| Regex.DeleteEach | rag_logic.py:192-193 | deleting each pattern in turn never lengthens the text |
| Regex.DeleteEachAnchored | rag_logic.py:207-208 | deleting each anchored prefix in turn never lengthens the text |
| Regex.DeleteEachAnchoredSuffix | rag_logic.py:207-208 | deleting each anchored prefix in turn leaves a suffix of the text |
| Regex.DeleteAll | rag_logic.py:192-193 | the loop over the verbose patterns computes `DeleteEach` |
| Regex.DeleteAllAnchored | rag_logic.py:207-208 | the loop over the intro patterns computes `DeleteEachAnchored` |
| Regex.AnchoredKeepsLinesLeftStripped | rag_logic.py:207-208 | deleting intro prefixes keeps every line start non-space |
| Regex.AnchoredKeepsNoBlankLine | app/rag_logic.py:140-141 | deleting intro prefixes creates no blank line |
| Regex.Collapse | rag_logic.py:196 | `re.sub(r'\n\s*\n', '\n', ·)` never lengthens the text |
| Regex.CollapseNoBlankLine | rag_logic.py:196 | after the collapse no two newlines are separated by whitespace alone |
| Regex.BlankPrefix | rag_logic.py:196 | the longest blank-line run a match of `\s*\n` takes ends in a newline, and what follows has no newline in its leading whitespace |
| Regex.StripLineStartsFrom | rag_logic.py:197 | `^\s+` under MULTILINE removes the whitespace at every line start, so each line starts with a non-space |
| Regex.StripLineStarts | rag_logic.py:197 | the same for the whole text, never lengthening it |
| QueryCaching.NormalisedIgnoresPadding | rag_logic.py:25-26 | a query and its stripped form get the same cache key |
| QueryCaching.NormalisedIgnoresCase | rag_logic.py:25-26 | a query and its lower-cased form get the same cache key |
| QueryCaching.NormalisedIdempotent | rag_logic.py:25-26 | normalising a normalised query changes nothing |
| QueryCaching.Lookup | rag_logic.py:28-34 | `get` finds a value exactly when the key is in the dictionary |
| QueryCaching.StoredAnswerFound | rag_logic.py:36-38 | after `set(q1, a)`, every query normalised like `q1` finds `a` |
| QueryCaching.StoreLeavesOtherSlots | rag_logic.py:36-38 | `set` leaves every query with another key as it was |
| QueryCaching.QueryCache.constructor | rag_logic.py:20-23 | an empty dictionary and zero counters |
| QueryCaching.QueryCache.Get | rag_logic.py:28-34 | returns the stored value or nothing; leaves the dictionary alone; counts one query, plus one hit when the key is present (an empty stored answer included) |
| QueryCaching.QueryCache.Set | rag_logic.py:36-38 | stores the answer under the query's key; the counters do not move |
| QueryCaching.QueryCache.HitRate | rag_logic.py:40-41 | the rate is in [0, 1]; it is 0 before any query; it is 1 exactly when every query (at least one) was a hit |
| QueryCaching.BaseChain.Invoke | rag_logic.py:127 | one call of the wrapped chain, with its result taken from the oracle and recorded |
| RagLogic.Tidy | rag_logic.py:196-198 | collapse, per-line strip and strip give a stripped text whose lines all start with a non-space, no longer than the input |
| RagLogic.DropIntros | rag_logic.py:200-210 | dropping the intro prefixes and stripping gives a stripped, no longer text that keeps the line shape |
| RagLogic.DropIntrosKeepsLines | rag_logic.py:207-210 | deleting the intro prefixes and stripping keeps every line left-stripped |
| RagLogic.CleanedShape | rag_logic.py:170-210 | the cleaned answer is no longer than the raw one, stripped, with every line starting with a non-space and no blank line; an empty answer comes back as it is |
| RagLogic.CachedRagChain.constructor | rag_logic.py:108-110 | wraps a chain and shares the module cache |
| RagLogic.CachedRagChain.Invoke | rag_logic.py:112-139 | a hit with a non-empty stored answer returns it with input and empty context, and the chain is not called; otherwise the chain is called once; a returned answer is cleaned, stored under the query and returned in place of the raw one; a raise propagates and stores nothing; the counters move as `get` moves them |
| RagLogic.CachedRagChain.AInvoke | rag_logic.py:141-168 | the same as `invoke` |
| RagLogic.CachedRagChain.CleanAnswer | rag_logic.py:170-210 | computes `Cleaned`, step by step as the source applies the substitutions |
| AppRagLogic.ChosenModel | app/rag_logic.py:48 | `model_name or NVIDIA_LLM_MODEL` is never empty; it is the default exactly when no name, an empty name or the default name is given; otherwise it is the given name |
| AppRagLogic.CleanedShape | app/rag_logic.py:127-142 | the cleaned answer is no longer than the raw one, stripped, with no blank line; an empty answer comes back as it is |
| AppRagLogic.CachedRagChain.constructor | app/rag_logic.py:92-93 | wraps a chain and shares the module cache |
| AppRagLogic.CachedRagChain.Invoke | app/rag_logic.py:95-109 | the caching decision of rag_logic.py with this variant's cleaner |
| AppRagLogic.CachedRagChain.AInvoke | app/rag_logic.py:111-125 | the same as `invoke` |
| AppRagLogic.CachedRagChain.CleanAnswer | app/rag_logic.py:127-142 | computes this variant's `Cleaned` |
| Fingerprints.AtMostReflexive | flask_app.py:103 | Python's string order is reflexive |
| Fingerprints.AtMostTotal | flask_app.py:103 | Python's string order is total |
| Fingerprints.AtMostAntisymmetric | flask_app.py:103 | Python's string order is antisymmetric |
| Fingerprints.AtMostTransitive | flask_app.py:103 | Python's string order is transitive |
| Fingerprints.Insert | flask_app.py:103 | inserting into a sorted list keeps it sorted and adds exactly that element |
| Fingerprints.Sort | flask_app.py:103 | `sorted` returns a sorted permutation of its input |
| Fingerprints.SortedUnique | flask_app.py:103 | two sorted lists with the same elements are equal, so `sorted` is determined by the multiset |
| Fingerprints.SortIgnoresOrder | flask_app.py:103 | any reordering sorts to the same list |
| Fingerprints.Join | flask_app.py:103 | `"".join`: empty for no strings; otherwise the result begins with the first string |
| Fingerprints.JoinAppend | flask_app.py:103 | `"".join` of two lists one after the other is the join of the first followed by the join of the second |
| Fingerprints.JoinOne | flask_app.py:103 | `"".join` of one string is that string |
| Fingerprints.FingerprintIgnoresOrder | flask_app.py:103 | every reordering of a document set, duplicates included, has the same fingerprint |
| Fingerprints.FingerprintJoinCollision | flask_app.py:103 | `["ab","c"]` and `["a","bc"]` have the same fingerprint, because the join has no separator |
| Fingerprints.FingerprintOfOne | flask_app.py:114 | one locator is fingerprinted as the digest of the locator itself |
| FlaskApp.AfterLastShape | flask_app.py:65 | `rsplit(sep, 1)[-1]`: a suffix that holds no separator and, when shorter than the input, follows a separator |
| FlaskApp.AfterLastUnique | flask_app.py:65 | the text after the last separator is the only such suffix |
| FlaskApp.AfterLastDotLower | flask_app.py:65-68 | lower-casing before or after taking the extension gives the same extension |
| FlaskApp.PathJoin | flask_app.py:105 | `os.path.join` of a folder and a name: the name itself when it is absolute, else folder, `/`, name |
| FlaskApp.AllowedFileMeans | flask_app.py:63-65 | `allowed_file` holds exactly when some `.` has no `.` after it and the lower-cased rest is an allowed extension |
| FlaskApp.LoaderForMeans | flask_app.py:67-81 | Word, PowerPoint and Excel loaders exactly for their extensions; the PDF loader for everything else |
| FlaskApp.AllowedFileLoader | flask_app.py:63-81 | for an allowed name the gate and the dispatch read the same extension; a `.txt` file goes to the PDF loader |
| FlaskApp.PagesFromLoaded | flask_app.py:85-91 | gathering pages from position `i` on gives the pages of the remaining files |
| FlaskApp.LoadedPagesEmpty | flask_app.py:84-94 | the file build finds no page exactly when every file fails to load or loads nothing |
| FlaskApp.LoadedPagesAppend | flask_app.py:85-91 | the pages of a concatenated file list are the pages of the first part followed by those of the second |
| FlaskApp.LoadedPagesSkipsFailure | flask_app.py:85-91 | a file whose loader raises adds nothing, wherever it stands, and does not stop the files after it |
| FlaskApp.FilesBuild | flask_app.py:83-111 | `(None, None)` exactly when no page loads; otherwise a fresh index keyed by the fingerprint of all the paths given, failed ones included |
| FlaskApp.DownloadName | flask_app.py:126 | the saved name is never empty: the URL path's last segment, or `file_<md5>.dat` when that is empty |
| FlaskApp.Downloaded | flask_app.py:120-135 | no more saved files than links |
| FlaskApp.DownloadedFront | flask_app.py:121-135 | each link contributes on its own; a failed link does not stop those after it |
| FlaskApp.DownloadedMeans | flask_app.py:120-135 | a path is saved exactly when some link answered with status 200 and is saved there |
| FlaskApp.Commit | flask_app.py:109 | a fresh index is reloaded from its directory and cached under its key; nothing else changes |
| FlaskApp.UrlsBuild | flask_app.py:113-139 | a hit exactly when the URLs' fingerprint is cached, returning that entry; nothing exactly on a miss with no page loaded from the saved files; a fresh index keyed by the fingerprint of the saved paths |
| FlaskApp.UrlBuildKeyedBySavedFiles | flask_app.py:113-139 | after a URL build, the same URLs hit the cache exactly when the fingerprints of the URLs and of the saved paths coincide |
| FlaskApp.UrlIndexNotFoundAgain | flask_app.py:113-139 | one URL requested twice is built twice whenever the digest tells the URL from its save path |
| FlaskApp.SavePathUnderUploads | flask_app.py:126-127 | every download is saved under `data/` |
| FlaskApp.PreloadedMeans | flask_app.py:51-58 | after the preload, a name is cached exactly when it was before or its index loads; a failed load affects no other name |
| FlaskApp.PreloadedSingleUrlHit | flask_app.py:51-58 | a preloaded directory named by the digest of a single URL is found by that URL without downloading |
| FlaskApp.NonBlankLines | flask_app.py:176 | every kept link is non-empty and stripped |
| FlaskApp.NonBlankLinesMembers | flask_app.py:176 | a text is kept exactly when it is the non-empty strip of some line |
| FlaskApp.NonBlankLinesSingle | flask_app.py:176 | links cut from single lines are single lines |
| FlaskApp.NonBlankLinesFirst | flask_app.py:176 | a first line that is not blank gives the first link, stripped |
| FlaskApp.CleanLinks | flask_app.py:175-176 | every link is non-empty, stripped and one line |
| FlaskApp.CleanLinksEmpty | flask_app.py:175-176 | there are no links exactly when the text is all whitespace |
| FlaskApp.SavedUploads | flask_app.py:182-188 | no more saved paths than uploads |
| FlaskApp.SavedUploadsEmpty | flask_app.py:182-188 | nothing is saved exactly when no upload name is allowed |
| FlaskApp.ChooseRoute | flask_app.py:180-211 | the upload route exactly when some upload name is allowed; the link route exactly when none is and the text is not all whitespace; otherwise Pinecone |
| FlaskApp.RetrieverFor | flask_app.py:192-193 | a retriever with k = 5 exactly when there is a store |
| FlaskApp.FlaskApp.constructor | flask_app.py:43 | an empty `FAISS_CACHE` |
| FlaskApp.FlaskApp.PreloadFaiss | flask_app.py:51-58 | the cache becomes `Preloaded` of the listing |
| FlaskApp.FlaskApp.BuildFaissForFiles | flask_app.py:83-111 | returns the pair of `FilesBuild` and commits it to the cache |
| FlaskApp.FlaskApp.BuildFaissForUrls | flask_app.py:113-139 | returns the pair of `UrlsBuild`, commits it, requests nothing on a hit and every link once, in order, on a miss |
| FlaskApp.FlaskApp.LoadAll | flask_app.py:84-91 | the loading loop returns the pages of every file that loads, in order, a failing loader adding nothing |
| FlaskApp.FlaskApp.DownloadAll | flask_app.py:120-135 | requests every link once, in order, and returns `Downloaded` |
| FlaskApp.FlaskApp.Retrieve | flask_app.py:178-211 | the retriever of the chosen route; the cache and the requests as that route's build leaves them; uploads that load nothing fall back to nothing |
| FlaskApp.FlaskApp.SaveUploads | flask_app.py:182-189 | the save paths of the allowed uploads, in order |
| Http.Web.Get | flask_app.py:123 | one request, recorded, answered by the network oracle |
| Api.VerifyApiKey | api.py:36-40 | accepted exactly when the key is configured, non-empty and equal to the token; then the token is returned; otherwise 401 "Invalid or missing API key" |
| Api.DocumentUrls | api.py:67-71 | a lone URL becomes a one-element list; a list is taken as it is |
| Api.FetchDocument | api.py:77-89 | a document is refused (400) exactly when the request raises or `raise_for_status` does; loaded only from the PDF loader's pages of the response content; a loader failure crashes |
| Api.Tried | api.py:76-89 | the loop makes no more requests than there are URLs |
| Api.IngestedLoadedIff | api.py:75-89 | ingestion succeeds exactly when every document loads; there is no partial success |
| Api.IngestStopsAtFirstFailure | api.py:75-89 | the first document that does not load decides the outcome, and no later URL is requested |
| Api.TriedAllWhenLoaded | api.py:75-89 | when every document loads, every URL is requested |
| Api.EntryIsError | api.py:108-121 | only an analysis object yields something other than an `Error: ` message |
| Api.AnswersFor | api.py:105-121 | at least one answer per question |
| Api.AnswersLineUp | api.py:105-121 | while logging does not fail, answer `i` is question `i`'s entry, whatever happened to the others |
| Api.LogFailureShiftsAnswers | api.py:108-115 | a failing `log_claim` adds the exception text after the justification, shifting the later answers |
| Api.AnswersOnlyWhenEverythingLoaded | api.py:59-123 | answers come back only for an accepted token, every document loaded, at least one page and a built chain |
| Api.FailedDownloadRejects | api.py:88-89 | the first document that fails to download rejects the request with its 400 detail, whatever the questions |
| Api.AnalysisChain.Invoke | api.py:107 | one chain call, recorded, answered by the oracle |
| Api.ClaimLog.LogClaim | api.py:112 | one `log_claim` call, recorded; it may raise |
| Api.HackRxApi.ProcessClaims | api.py:59-123 | the reply is `Processed` of the state before the call; the URLs are requested up to the first failure, and only for an accepted token; the chain and the log are used only when answers come back |
| Api.HackRxApi.DownloadAll | api.py:75-89 | computes `Ingested` and requests the URLs up to and including the first failure |
| Api.HackRxApi.AnswerAll | api.py:105-121 | computes `AnswersFor`; asks the chain every question in order and logs exactly `LoggedFor` |
| Api.HackRxApi.AnswerOne | api.py:106-121 | one question: one chain call, a log call exactly for an analysis, and `Entries` of the outcome |

## Left out

- I/O is not modelled:
  - writing uploads and downloads to disk, and a write that fails;
  - `os.makedirs`, `os.listdir`, `tempfile`;
  - `print`, `traceback` and the logger.
  - The directory listing of `preload_faiss` is a parameter.
- Hashing (`md5`, `sha256`), `urlparse(link).path`, `secure_filename` and the document
  loaders are uninterpreted functions, because they are library code. The model does not
  exclude an md5 digest containing `/`.
- Text splitting, embeddings, `FAISS.from_documents`, `save_local`, `load_local`, Pinecone and
  the LLM chain are left out as library code.
  - A built store is represented by its pages.
  - A reloaded store is represented by its directory.
  - `save_local` is assumed to succeed. Its exceptions, and those of the `load_local` that
    follows it, would escape `build_faiss_for_files`.
- The chain is an oracle indexed by its call count. The retrieval and prompt inside it are not
  modelled.
- `create_rag_chain` is left out as library code: the prompt, `ChatNVIDIA`, and the
  exception path that returns `None`. In api.py its failure is the `buildsChain` parameter.
- In `index`, everything after the retriever is chosen is not modelled:
  - the `create_rag_chain` call and `invoke`;
  - `log_request`;
  - the session's model and temperature, including the `ValueError` fallback to 0.5;
  - template rendering.
  - flask_app.py imports the top-level `rag_logic`. Its `create_rag_chain` takes no `model_name`
    or `temperature`, so that call would raise through the module as shown.
- app/rag_logic.py's `temperature=0.2` default only reaches the LLM, so it is left out.
- `ainvoke` is modelled as sequential: nothing runs between its lookup and its store. The
  interleavings of concurrent requests over the shared `query_cache` are not modelled.
- `HTTPBearer` answers a missing or malformed `Authorization` header with 403 before
  `verify_api_key` runs. That path is not modelled: the token is always given.
- The process-start checks of api.py are not modelled: `NVIDIA_API_KEY` missing and
  `setup_database`.
- api.py:18 imports `InsuranceAnalysis` from rag_logic, and rag_logic.py does not define it,
  so as written that import fails and api.py does not start. The model assumes the import
  succeeds, and treats the chain's answer as an opaque value:
  - an analysis, which carries its `Justification`;
  - or anything else.
- Api.FetchDocument: the text `str(e)` of a raised `HTTPError` is the parameter `httpError`,
  not requests' message format.
- Api.FetchDocument: statuses below 400 are treated as success, with no special case for
  redirects.
- Text.Lower: only ASCII letters are lower-cased. This affects `lower()` and `IGNORECASE`.
  Other scripts' case mappings are not modelled.
- Regex.Match: only the pattern fragment the cleaners use is modelled: literals, `c?`, `\s*`,
  `.*?`, alternation, `IGNORECASE` and `DOTALL`. It is not a general regular-expression engine.
- The `MAX_CONTENT_LENGTH` limit of 80 MB is enforced by Flask, so it is left out.
- The Pinecone index name comes from the environment, so it is a parameter.

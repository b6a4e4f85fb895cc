# CSV insight cache — a Dafny model

The CSV analyzer takes an uploaded table (CSV, Excel or JSON). It reduces
the table to a short summary and asks a language model for "insights" about
it. It stores the answer in SQLite under a fingerprint of the table's first
rows, so a later upload of the same data is answered from the store.

This project models that core as pure functions over immutable data:

- `InsightStore` (`base.dfy`, `insight_store.dfy`): the `insights_cache`
  table as a `map<string, string>` with a health flag. `Ready` means the
  table exists. `NoTable` means the file opens but `init_db` never ran.
  `Unavailable` means the file cannot be used. `CacheManager` and the
  module-level functions of `database.py` share this one model.
- `Database`, `Utils`, `ClearDb`: what is particular to `database.py`,
  `utils.py` and `clear_db.py`.
- `Config`: the environment-derived settings and `Config.validate`.
- `DataProcessor`: the loader dispatch, the three summary fields, and the
  cache key (head of 3 rows → MD5 → lower-case hex).
- `Analyzer`: normalising model replies and errors to text, and the
  read-through/write-through `analyze_with_caching`. Each result records
  how many times the model was invoked.
- `Api`: start-up, extension extraction, and the status/body decisions of
  the three endpoints.

Some code is foreign: pandas (parsing, `describe`, `to_string`), UTF-8
encoding/decoding, MD5 and the language model. Each one is a function-valued
parameter, so every property holds for every behaviour of that code. The
model covers what the repository's own code decides around them.

The model follows the code in three places where its behaviour is easy to miss:

- An unsupported upload extension answers 500, not 400. The detail is
  `Error processing file: Unsupported file format: <ext>`.
- A lookup of a missing key answers 500, not 404 (see Findings).
- A table with no columns fails in pandas' `describe()`. The code does not
  check for this itself. A table with no numeric column also fails: its
  `describe()` has no `mean`/`std` rows, so `.loc` raises `KeyError`. The
  code does not leave such columns out quietly.

## Model

| member | source | states |
|---|---|---|
| `InsightStore.InitDb` | csv_analyzer/cache/cache_manager.py:13-28 | `CREATE TABLE IF NOT EXISTS`. An existing table keeps its rows. A missing table is created empty. An unusable file makes it raise (`None`). |
| `InsightStore.Save` | csv_analyzer/cache/cache_manager.py:30-47 | Returns `True` exactly when storage works, and then the key maps to the new text. Every other key keeps its entry. On failure it returns `False` and the store is unchanged. |
| `InsightStore.Load` | csv_analyzer/cache/cache_manager.py:49-67 | Returns a value exactly when storage works and the key has a row, and the value is that row's text. Otherwise returns `None`. |
| `InsightStore.GetAll` | csv_analyzer/cache/cache_manager.py:69-85 | Returns one `(key, text)` pair per stored key: the keys are distinct, they cover the store exactly, and each text is the stored one. Returns `[]` when storage fails or the table is missing. |
| `InsightStore.SaveThenLoad` | csv_analyzer/cache/cache_manager.py:30-64 | On a working store, save returns `True` and a following load returns the saved text. |
| `InsightStore.LastWriterWins` | csv_analyzer/cache/cache_manager.py:37-40 | Two saves to one key behave like the second save alone. |
| `InsightStore.SaveLeavesOtherKeys` | csv_analyzer/cache/cache_manager.py:37-40 | A save does not change the lookup result of any other key. |
| `InsightStore.MissIsNone` | csv_analyzer/cache/cache_manager.py:59-64 | Loading a key that has no row gives `None`, not an error. |
| `InsightStore.EmptyTextIsFound` | csv_analyzer/cache/cache_manager.py:59-63 | A stored empty text loads as `""`, not `None`. |
| `InsightStore.BrokenStoreDegrades` | csv_analyzer/cache/cache_manager.py:30-67 | When storage is broken or the table is missing, save is `False` and changes nothing, and load is `None`. |
| `Database.UninitialisedDegrades` | database.py:25-62 | The module functions never create the table. Before the table exists, save is `False` and load is `None`. |
| `Database.InitDbIdempotent` | database.py:8-23 | Running `init_db` again changes nothing. |
| `Database.InitThenRoundTrip` | database.py:25-59 | After `init_db`, save returns `True` and the text reads back. A key never saved reads as `None`. |
| `Utils.SaveInsightsToFile` | utils.py:3-5 | Same result and same store effect as `save_insights_to_db`. |
| `Utils.LoadInsightsFromFile` | utils.py:7-9 | Same result as `load_insights_from_db`, including `None` for a missing key. |
| `Utils.UtilsRoundTrip` | utils.py:3-9 | Saving and then loading through the delegates returns the saved text. |
| `ClearDb.ClearDatabase` | clear_db.py:7-20 | On a working store, every entry is removed. On error the store is unchanged and nothing is raised. Afterwards every load is `None`. |
| `ClearDb.ClearIdempotent` | clear_db.py:14 | Clearing an already cleared store changes nothing. |
| `ClearDb.SameFileAsDatabase` | clear_db.py:5 | Clearing uses the same default file as `database.py`. |
| `Config.ParseFlag` | csv_analyzer/core/config.py:22 | The tracing flag is on exactly when the value equals `true` ignoring letter case. |
| `Config.FromEnv` | csv_analyzer/core/config.py:12-26 | The provider, API key, database file and tracing flag come from the environment. Defaults: `gemini`, no key, `insights_cache.db`, `false`. |
| `Config.InvalidProviderMessage` | csv_analyzer/core/config.py:36 | The invalid-provider message contains the provider's name right after `Invalid LLM_PROVIDER: `. |
| `Config.Validate` | csv_analyzer/core/config.py:33-41 | The message is absent exactly when the flag is true. The config is valid exactly for `ollama`, or for `gemini` with a non-empty key. The provider check comes before the key check. |
| `Config.EmptyEnvironmentDefaults` | csv_analyzer/core/config.py:12-39 | With nothing set: provider `gemini`, file `insights_cache.db`, tracing off, and validation fails with the missing-key message. |
| `Config.KeyMattersOnlyForGemini` | csv_analyzer/core/config.py:35-39 | For any provider other than `gemini`, the API key does not affect validation. |
| `DataProcessor.LoadData` | csv_analyzer/core/data_processor.py:6-18 | `csv` goes to the CSV reader, `xlsx`/`xls` to the Excel reader, and `json` to the JSON reader. Any other extension gives `Unsupported file format: <ext>`. |
| `DataProcessor.UpperCaseExtensionRejected` | csv_analyzer/core/data_processor.py:15-16 | Matching is case-sensitive: `CSV` and `Json` are rejected. |
| `DataProcessor.Head` | csv_analyzer/core/data_processor.py:26 | `head(n)` keeps the columns and a prefix of `min(n, rows)` rows. |
| `DataProcessor.SplitJoin` | csv_analyzer/core/data_processor.py:22 | If there is at least one column name and no name contains `", "`, the `", "`-joined list splits back into the names in order. |
| `DataProcessor.SelectStats` | csv_analyzer/core/data_processor.py:24 | If `count`, `mean` and `std` are all present, returns exactly those rows in that order. Otherwise returns a `KeyError` listing the missing labels. |
| `DataProcessor.GetDatasetInfo` | csv_analyzer/core/data_processor.py:20-32 | Three fields: the joined column names, the rendered count/mean/std rows, and the rendered first 5 rows. Fails exactly when `describe()` fails or lacks one of those rows. |
| `DataProcessor.SummaryShape` | csv_analyzer/core/data_processor.py:20-32 | Of a successful summary: the column field reads back as the column names, the sample has at most 5 rows, and the statistics are the count, mean and std rows. |
| `DataProcessor.HexDigest` | csv_analyzer/core/data_processor.py:38 | `hexdigest()` has two lower-case hex digits per byte. |
| `DataProcessor.ParseHexDigest` | csv_analyzer/core/data_processor.py:38 | The hex spelling of a digest parses back to the digest. |
| `DataProcessor.HexDigestParse` | csv_analyzer/core/data_processor.py:38 | Every even-length lower-case hex string is the spelling of the bytes it parses to. |
| `DataProcessor.GenerateCacheKey` | csv_analyzer/core/data_processor.py:34-38 | The key is 32 lower-case hex characters. It encodes the MD5 of the rendered first 3 rows. |
| `DataProcessor.SameHeadTextSameKey` | csv_analyzer/core/data_processor.py:37-38 | Two tables whose first 3 rows render the same get the same key, whichever loader produced them. |
| `DataProcessor.LaterRowsIgnored` | csv_analyzer/core/data_processor.py:37 | Adding rows after the third does not change the key. |
| `DataProcessor.EqualKeysEqualDigests` | csv_analyzer/core/data_processor.py:38 | Equal keys mean equal MD5 digests. The hex step adds no collisions. |
| `Analyzer.GenerateInsights` | csv_analyzer/core/analyzer.py:26-46 | Uses `.content` when the reply has it, and otherwise `str(reply)`. A raised exception becomes `Error generating insights: <message>`. |
| `Analyzer.ErrorTextNonEmpty` | csv_analyzer/core/analyzer.py:45-46 | Error text starts with the fixed prefix, so it is never empty. |
| `Analyzer.Analyze` | csv_analyzer/core/analyzer.py:56-65 | The model receives exactly `columns`, `stats_summary` and `data_sample`. The result is the node's `insights`. |
| `Analyzer.AnalyzeWithCaching` | csv_analyzer/core/analyzer.py:67-80 | Hit with non-empty text: returns that text, with no generation and no write. Otherwise: exactly one generation, the text is saved under the key and returned whether or not the save succeeded. Other keys are untouched. |
| `Analyzer.SecondCallHits` | csv_analyzer/core/analyzer.py:67-80 | Take a working store and a non-empty first text. A second call with the same key returns the same text, with zero generations and no write, whatever data and model it gets. |
| `Analyzer.EmptyTextRegenerates` | csv_analyzer/core/analyzer.py:70-78 | A generated empty text is not treated as a hit, so the next call generates again. |
| `Analyzer.FailureTextIsCached` | csv_analyzer/core/analyzer.py:45-78 | A model failure's prefixed message is returned and stored, and it counts as a hit afterwards. |
| `Analyzer.OutageAlwaysGenerates` | csv_analyzer/core/analyzer.py:67-80 | With storage broken, every call generates once and leaves the store as it was. |
| `Analyzer.CachedSessionIsFree` | csv_analyzer/core/analyzer.py:70-72 | Once a non-empty text is stored, any series of requests under that key makes no generations and returns that text. |
| `Analyzer.OnlyFirstRequestGenerates` | csv_analyzer/core/analyzer.py:67-80 | Over any series of requests under one key with a working store, the model runs at most once. Every request gets the first text, provided that text is non-empty. |
| `Api.Startup` | csv_analyzer/api/main.py:10-32 | The service starts exactly when the config validates and the store file is usable. Otherwise it fails with `Configuration error: <message>`. The started store has its table. |
| `Api.FileExtension` | csv_analyzer/api/main.py:39 | With no dot, returns `""`. Otherwise returns the dot-free text after the last dot, lower-cased. |
| `Api.FileExtensionExamples` | csv_analyzer/api/main.py:39 | `data.CSV` → `csv`, `notes` → `""`, `a.` → `""`. |
| `Api.ReadContent` | csv_analyzer/api/main.py:45-48 | Only `csv` content is UTF-8 decoded (a decode error fails the upload). Other content reaches the loader as raw bytes. |
| `Api.UploadedTable` | csv_analyzer/api/main.py:38-48 | An upload whose extension has no loader fails with the unsupported-format message. |
| `Api.UploadFile` | csv_analyzer/api/main.py:34-67 | On success: 200 with `{insights, cache_key}`, where the key is `generate_cache_key(df)` (32 lower-case hex characters) and the insights come from `analyze_with_caching`. On any failure: 500 with detail prefixed `Error processing file: `, and the store is unchanged. |
| `Api.UnsupportedUploadIs500` | csv_analyzer/api/main.py:63-67 | An unsupported extension gives 500 with `Error processing file: Unsupported file format: <ext>`. |
| `Api.GetInsightsAsWritten` | csv_analyzer/api/main.py:69-88 | 200 with the stored text and the same key exactly on a non-empty hit. Otherwise 500 with `Error retrieving insights: 404: ...`. It never answers 404. |
| `Api.UnknownKeyAnswers500` | csv_analyzer/api/main.py:72-88 | With `abc123` stored, `zzz999` answers 500 and `abc123` answers 200 with its text. |
| `Api.GetInsights` | csv_analyzer/api/main.py:69-83 | Corrected handler: 200 on a non-empty hit, and 404 with `Insights not found for the provided cache key` exactly otherwise. |
| `Api.CorrectionOnlyChangesMisses` | csv_analyzer/api/main.py:72-88 | The corrected handler matches the written one on hits. On misses it differs only in 404 versus 500. |
| `Api.UploadThenGet` | csv_analyzer/api/main.py:51-83 | With a working store, the key a successful upload returns gets the same non-empty insights back with 200. |
| `Api.HealthCheck` | csv_analyzer/api/main.py:90-93 | Always 200 with `{"status": "healthy"}`. |

## Left out

- pandas parsing, `describe` and `to_string`, UTF-8 and MD5 are function parameters. Only the head truncation, the label selection, the join and the hex spelling are modelled.
- SQLite, connections, `CREATE TABLE` text and the `created_at` timestamps are left out. The store is an in-memory map with a health flag.
- The language-model backends, LangChain/LangGraph plumbing, `tracing_v2_enabled` and the prompt template (`csv_analyzer/models/llm.py`) are left out. The model call is a `Generator` parameter. `get_llm` runs at start-up, and the typo `Config.LLLM_PROVIDER` in its unreachable `else` branch would raise `AttributeError`; neither is modelled.
- Concurrent requests are not modelled. The source has no locking, so only sequential calls are modelled.
- The Streamlit UI, launchers and wrapper scripts are left out, as are the `print` calls that report caught errors.
- The list and search endpoints are left out. Some tests call them, but `csv_analyzer/api/main.py` does not define them.
- `GetAll` returns rows in an order the model leaves open. SQLite's row order is not modelled.
- Api.Startup: the message for an unusable store file is SQLite's `unable to open database file`. Other SQLite error texts are not distinguished.
- Api.FileExtension: lower-cases ASCII letters only. Python's `str.lower()` also maps other Unicode letters, but none of them lower-cases to a letter of `csv`, `xlsx`, `xls` or `json`, so which loader runs is unaffected.
- Config.ParseFlag: the same ASCII restriction applies. No non-ASCII letter lower-cases into `true`.
- DataProcessor.GetDatasetInfo: column names are strings, so the `TypeError` that `", ".join` raises for non-string column labels (for example integer labels from JSON) is not modelled.
- Api.UploadFile: `UploadFile.filename` is assumed present. A missing name would make `'.' in None` raise, and that also becomes a 500.
- Analyzer.Analyze: the summary always has its three fields, so the `KeyError` for a dictionary missing one of them cannot arise.

## Findings

| source | as written | input that shows it | evidently intended | confidence | as-written member | corrected member |
|---|---|---|---|---|---|---|
| csv_analyzer/api/main.py:72-88 | The 404 for a missing or empty entry is raised inside the `try`. `except Exception` catches it (an `HTTPException` is an `Exception`) and re-raises it as 500 `Error retrieving insights: 404: Insights not found for the provided cache key`. | `GET /insights/zzz999` on a store holding only `abc123` | 404 with detail `Insights not found for the provided cache key` | high; not executed | `Api.GetInsightsAsWritten` (shown by `Api.UnknownKeyAnswers500`) | `Api.GetInsights` (used by `Api.UploadThenGet`) |

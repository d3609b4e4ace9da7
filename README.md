# rag_from_scratch core, modelled in Dafny

This project models the sequential logic of the `rag` package of
rag_from_scratch, a small retrieval-augmented generation pipeline, and proves
properties of that model. It covers four pieces:

- **The word-window chunker** (`DocSplitter`, `rag/indexer.py`) lives in
  `indexer.dfy`.
  - A document is split on the single space.
  - Starting `step = chunk_size - chunk_overlap` words apart, a window of at
    most `chunk_size` words is joined back with spaces.
  - The class computes every file's chunks once, at construction, into its
    `chunks` field. `get_file_chunks` is a checked lookup on that field.
- **The retriever** (`Retriever`, `rag/querying.py`) lives in `querying.dfy`.
  - It dispatches on the retrieval-method string.
  - The query is embedded and the whole collection fetched before the
    method is looked at.
  - The keyword path preprocesses the corpus and turns the BM25 back end's
    `(index, score)` pairs into records with 1-based ranks.
  - The effects are recorded in a ghost call log.
- **File selection of the loader** (`Loader.load_files`, `rag/loader.py`)
  lives in `loader.dfy`. For each directory entry it:
  - skips non-files
  - skips excluded suffixes
  - skips excluded names
  - dispatches on the extension to the pdf, text or csv reader, whose
    failure stores `None`
- **LLM client resolution** (`LLM_CLIENTS`, `LLMConfig.__init__`,
  `rag/config.py`) lives in `config.dfy`.
  - The name is lower-cased and stripped, then checked against the
    two-entry table.
  - The table row supplies the model, the base URL and the API key.

Two helper modules support them:

- `pytext.dfy` models the Python string and sequence primitives the code
  relies on, for ASCII text:
  - `str.split(" ")` and `" ".join`
  - `str.split()`
  - `lower()` and `strip()`
  - `endswith`
  - slice clamping, including negative bounds
- `wrappers.dfy` holds `Option`, the exceptions the code raises, and a
  `Result` type carrying them.

The operations the source performs by mutation are imperative Dafny:

- `CutWindows`, `ComputeChunks`, `LoadFiles` and `KeywordBased` are loops.
- `DocSplitter`, `Loader`, `LLMConfig` and `Retriever` are classes.

Each method is proved equal to a specification function: `Windows`,
`ChunkText`, `Loaded`, `Resolve` or `KeywordOutcome`. The properties are then lemmas
about those functions.

Calls into code outside the model are parameters of the operations that use
them:

- `os.path.isfile` and the three readers: `Loader.FileSystem`
- the Snowball stemmer and `bm25s`: `Querying.Lexical`
- the embedding request: the `embed` argument of `Retrieve`
- `os.getenv("OPENAI_API_KEY")`: the `openaiApiKey` argument
- building the `OpenAI` client and calling `models.list()`: the `connect`
  argument of `NewLLMConfig`, which returns the exception raised, if any

The chunk count follows the code. The comment at `tests/indexer.py:45`
gives the count as `ceil((N - overlap) / step)`. The loop over
`range(0, N, step)` gives `ceil(N / step)` chunks instead
(`Indexer.ChunkCount`).

- The two formulas agree for the test's 200 words, size 50 and overlap 10:
  both give 5.
- They differ for 50 words with the same settings: the code gives 2 chunks,
  not 1. The second chunk repeats the last 10 words of the first
  (`Indexer.FullDocumentTwoChunks`).

An empty text is split into `[""]`, so it gives the one chunk `""`
(`Indexer.EmptyTextChunks`).

The error handling also follows the code:

- An overlap larger than the size does not fail: the range is empty and
  there are no chunks (`Indexer.NegativeStepChunks`).
- Only `step == 0` with at least one document is excluded, as a
  precondition (`Indexer.Splittable`). That is where `range` raises. With
  no documents the loop body never runs, so equal size and overlap give the
  empty dictionary (`Indexer.EmptyDataChunks`).
- The semantic and hybrid paths are the stubs of the code, and return
  `None`.

## Model

| member | source | states |
|---|---|---|
| PyText.Split | rag/indexer.py:45 | `s.split(sep)` gives at least one part |
| PyText.SplitPartsFree | rag/indexer.py:45 | no part of `s.split(sep)` contains the separator |
| PyText.JoinSplit | rag/indexer.py:45-54 | joining the parts of `s.split(sep)` with `sep` gives `s` back |
| PyText.SplitJoin | rag/indexer.py:45-54 | splitting a join of separator-free parts (at least one) gives the parts back |
| PyText.Join | rag/indexer.py:54 | `sep.join(parts)`; its meaning is fixed by `JoinSplit` and `SplitJoin`, which make it the inverse of `Split` |
| PyText.Tokens | rag/querying.py:49 | every token of `str.split()` is a non-empty run of non-whitespace; a text starting with a non-whitespace character has a token |
| PyText.TokensEmpty | rag/querying.py:49 | `"".split()` is `[]` |
| PyText.TokensSpaceThen | rag/querying.py:49 | a leading whitespace character is dropped: `(c + t).split() == t.split()` |
| PyText.TokensWordThen | rag/querying.py:49 | a whitespace-free word followed by whitespace or nothing is split off as the first token; with the two lemmas above this fixes `split()` on every text |
| PyText.TokensOfJoin | tests/indexer.py:61-63 | `split()` of whitespace-free words joined with single spaces gives the words back |
| PyText.Lower | rag/config.py:28 | `lower()` keeps the length and lower-cases each character |
| PyText.Strip | rag/config.py:28 | `strip()` is no longer than its input, has its characters, starts and ends with non-whitespace, and is empty exactly for all-whitespace input |
| PyText.StripIsSlice | rag/config.py:28 | `strip()` is the slice `s[a..b]` of its input where everything before `a` and from `b` on is whitespace; with `Strip`'s ends being non-whitespace, this fixes the result |
| PyText.StripIdempotent | rag/config.py:28 | stripping twice is stripping once |
| PyText.PySlice | rag/indexer.py:48 | for `0 <= i <= j`, the slice is the sub-sequence between the bounds clamped to the length |
| PyText.ClampIndex | rag/indexer.py:48 | one bound of a list slice: a negative bound counts from the end, and the result is clamped to `0..len`, so at most `len` |
| PyText.EndsWith | rag/loader.py:57-61 | `s.endswith(suffix)`: the suffix is no longer than `s` and equals its last characters |
| PyText.EndsWithAny | rag/loader.py:46 | `s.endswith(tuple(suffixes))`: some listed suffix ends `s` |
| Indexer.Words | rag/indexer.py:45 | a document always has at least one word |
| Indexer.WindowText | rag/indexer.py:48-54 | the chunk joined from the words starting at word `a`; `ChunkSliceIsWindow` ties it to the Python slice, and `WindowTextWords` gives back its words |
| Indexer.Windows | rag/indexer.py:46-54 | the chunks for the range values from `start` on; described by `CutWindows`, `WindowsCount` and `WindowAt` |
| Indexer.ChunkText | rag/indexer.py:44-55 | one document's chunks, none for a negative step; described by `SplitFile`, `ChunkCount`, `ChunkAt`, `ChunkOverlap` and `TailChunkIsSuffix` |
| Indexer.SplitFile | rag/indexer.py:44-55 | the chunks of one document are exactly those `ChunkText` defines, none for a negative step |
| Indexer.CutWindows | rag/indexer.py:46-54 | the loop over `range(0, N, step)` appends exactly the windows `Windows` defines, in order |
| Indexer.WindowsStep | rag/indexer.py:46-54 | one loop turn, emitting the window at `i` and moving to `i + step`, keeps the emitted chunks a prefix of all windows |
| Indexer.DocSplitter.constructor | rag/indexer.py:8-25 | stores data, chunk size and overlap (defaults 500 and 150) and fills `chunks` with their chunking; accepts equal size and overlap when there are no documents |
| Indexer.DocSplitter.ComputeChunks | rag/indexer.py:42-57 | the result has exactly the keys of `data`, and each value is that file's own chunking; equal size and overlap are accepted when `data` is empty |
| Indexer.DocSplitter.SplitDocs | rag/indexer.py:27-31 | recomputing gives a value equal to the `chunks` field set at construction |
| Indexer.DocSplitter.GetFileChunks | rag/indexer.py:70-74 | a present name gets its chunks; an absent one gets `ValueError("File <name> not found in data")` |
| Indexer.EmptyDataChunks | rag/indexer.py:42-57 | with no documents the chunking is `{}`, for every size and overlap, equal ones included |
| Indexer.ChunkingUnique | rag/indexer.py:42-57 | two chunkings of the same data are equal, so the result does not depend on dictionary order |
| Indexer.WindowsCount | rag/indexer.py:46 | the windows from a start index number `ceil((N - start) / step)`, and none past the end |
| Indexer.WindowStartIsProduct | rag/indexer.py:46 | the `k`-th value of `range(0, N, step)`, reached by repeated addition, is `k*step` |
| Indexer.WindowAt | rag/indexer.py:46-54 | window `k` starts at word `start + k*step`, which is in range, and is the joined clamped slice |
| Indexer.ChunkCount | rag/indexer.py:46 | a document has `(N + step - 1) / step` chunks, which is at least one |
| Indexer.WordsNoSpaces | rag/indexer.py:45 | no word of a document contains a space |
| Indexer.ChunkSliceIsWindow | rag/indexer.py:48-54 | the chunk the loop joins from `words[i:i + chunk_size]` is the window at `i`, for every size, negative ones included |
| Indexer.WindowTextWords | rag/indexer.py:45-48 | splitting a window of separator-free words gives back its words, between 1 and `chunk_size` of them |
| Indexer.ChunkIsWindow | rag/indexer.py:46-54 | chunk `k` is the window whose first word is the `k`-th range value, which is below the word count |
| Indexer.ChunkAt | rag/indexer.py:46-54 | for `chunk_size >= 0`, chunk `k`, whose first word `a` is the `k`-th range value (`k*step`), is `" ".join(words[a : min(a + size, N)])` with `a < N` |
| Indexer.ChunkWords | rag/indexer.py:46-48 | for `chunk_size > 0`, the words of chunk `k`, which starts at word `k*step`, are its window of the document, between 1 and `chunk_size` of them |
| Indexer.ChunkOverlap | rag/indexer.py:46-48 | for `chunk_overlap >= 0`, when chunk `k`, starting at word `k*step`, is full it has exactly `chunk_size` words, and its words from index `chunk_size - chunk_overlap` on are the first `chunk_overlap` words of chunk `k+1` |
| Indexer.TailChunkIsSuffix | rag/indexer.py:46-48 | when chunk `k`, starting at word `k*step`, reaches the last word, chunk `k+1` is exactly its words after the first `step` |
| Indexer.FullDocumentTwoChunks | rag/indexer.py:46-54 | a document of exactly `chunk_size` words, with `0 < 2*overlap <= chunk_size`, has two chunks, the second being its words from `step` on |
| Indexer.SingleWindowRoundTrip | rag/indexer.py:45-54 | when `chunk_size >= N`, chunk 0 is the original text |
| Indexer.EmptyTextChunks | rag/indexer.py:45-46 | the empty text gives the single chunk `""` |
| Indexer.NegativeStepChunks | rag/indexer.py:46 | an overlap larger than the size gives no chunks |
| Indexer.SampleScenario | tests/indexer.py:35-63 | 200 words, size 50, overlap 10: five chunks, chunks 0, 1 and 4 at words 0-50, 40-90 and 160-200, ten shared words |
| Loader.Loader.constructor | rag/loader.py:16-25 | stores the directory and the two exclusion lists (default `None`) |
| Loader.PathJoin | rag/loader.py:42 | `os.path.join(data_dir, file)` on POSIX; described by `PathJoinShape` |
| Loader.PathJoinShape | rag/loader.py:42 | the joined path ends with the name; an absolute name is kept as it is, otherwise the directory comes first |
| Loader.KindOf | rag/loader.py:57-65 | the reader chosen by the extension; described by `KindOfSuffixes` |
| Loader.KindOfSuffixes | rag/loader.py:57-65 | `.pdf` selects the pdf reader; `.txt` or `.md`, if not `.pdf`, selects the text reader; no reader for a name without one of the four suffixes |
| Loader.Decide | rag/loader.py:42-65 | the skip chain, then the extension dispatch; described by `DecideRead` |
| Loader.DecideRead | rag/loader.py:42-65 | an entry is read iff it is a regular file, passes the type test, passes the name test and has a supported extension, and then by that extension's reader |
| Loader.Loaded | rag/loader.py:38-67 | the dictionary after the listed entries; `LoadFiles` computes it and `LoadedAt` gives its keys and values |
| Loader.Loader.LoadFiles | rag/loader.py:36-67 | the loop with its `continue` skips builds exactly the dictionary `Loaded` folds over the listing |
| Loader.LoadedAt | rag/loader.py:38-67 | a name is a key iff it is listed and passes the file test, both exclusions and the extension dispatch; its value is that reader's result |
| Loader.ReaderFailureKept | rag/loader.py:57-62 | a reader returning `None` leaves the key present with value `None` |
| Loader.ExcludedTypesAbsent | rag/loader.py:46-48 | a name ending with a listed suffix (raw suffix, no dot needed) is never a key |
| Loader.ExcludedNamesAbsent | rag/loader.py:50-52 | a listed excluded name is never a key |
| Loader.FalsyExclusionsIgnored | rag/loader.py:46-50 | `None` and `[]` exclusion lists give the same dictionary as no exclusions |
| Loader.NoExclusionKeys | rag/loader.py:40-65 | with no exclusions, the keys are exactly the listed regular files ending in `.pdf`, `.txt`, `.md` or `.csv` |
| Loader.SplitLastIsSuffix | tests/test_loader.py:21 | the last part of `key.split(".")` is a suffix of `key` |
| Loader.PdfExcluded | tests/test_loader.py:15-21 | excluding `["pdf"]`, no key's last dot-separated part is `pdf` |
| Config.LlmClients | rag/config.py:11-22 | the table has exactly the keys `ollama` and `openai`, and the `openai` key is the environment's |
| Config.Normalise | rag/config.py:28 | `client_name.lower().strip()`; described by `NormaliseIdempotent` and `NormalisedLiteral` |
| Config.UnsupportedMessage | rag/config.py:30 | the `ValueError` text, with the table's keys printed in order as `['ollama', 'openai']` |
| Config.Resolve | rag/config.py:11-33 | succeeds iff the lower-cased, stripped name is `ollama` or `openai`, giving that name and its table row; otherwise `ValueError` naming the normalised name and both keys |
| Config.NormaliseIdempotent | rag/config.py:28 | normalising a normalised name changes nothing |
| Config.ResolveStable | rag/config.py:28-33 | resolving the stored name again gives the same result |
| Config.NormalisedLiteral | rag/config.py:28 | a lower-case name without surrounding whitespace is left unchanged |
| Config.OllamaRow | rag/config.py:12-16 | the default `ollama` resolves to `http://localhost:11434/v1`, key `ollama` and model `llama3.2:3b-instruct-fp16` |
| Config.OpenAiRow | rag/config.py:17-21 | `openai` resolves to `https://api.openai.com/v1`, the environment key and model `gpt-4o-mini` |
| Config.RandomRejected | rag/config.py:29-30 | `random` is rejected with the unsupported-client message |
| Config.LLMConfig.FromEntry | rag/config.py:32-40 | the fields take the stored name and the row's model, base URL and key |
| Config.NewLLMConfig | rag/config.py:26-47 | an unresolved name raises `Resolve`'s error; a resolved one raises whatever building the client or `models.list()` raised; otherwise a fresh configuration whose fields agree with the table row of the normalised name |
| Querying.RouteOf | rag/querying.py:96-103 | a method string selects a route iff it is `keyword_based`, `semantic_search` or `hybrid`; any other string takes the branch that raises |
| Querying.RouteRoundTrip | rag/querying.py:96-103 | exactly three method strings are accepted, one per route |
| Querying.DefaultMethodRejected | rag/querying.py:17 | the default method `similarity` selects no route |
| Querying.Preprocess | rag/querying.py:47-51 | the stemmer applied to `text.lower().split()`; `Lower` and the `Tokens` lemmas fix its input |
| Querying.CorpusTokens | rag/querying.py:47-54 | one token list per stored document, in order, each `stem(lower(doc).split())` |
| Querying.Zip | rag/querying.py:66 | `zip` pairs the lists index by index, up to the shorter length |
| Querying.Hits | rag/querying.py:60-66 | the `zip` of the ids and scores BM25 returns for the preprocessed corpus; `Zip` describes the pairing |
| Querying.KeywordBased | rag/querying.py:39-74 | succeeds iff every returned index names a document and its metadata; then entry `i` holds the documents and metadata at hit `i`'s index, its score and rank `i + 1`; otherwise `IndexError` |
| Querying.RanksContiguous | rag/querying.py:65-72 | the ranks of a result are exactly `1..len`, each one more than the previous |
| Querying.KeywordLength | rag/querying.py:63-66 | a result has one entry per pair the back end returned |
| Querying.SemanticSearch | rag/querying.py:76-78 | the stub returns `None` |
| Querying.Hybrid | rag/querying.py:80-82 | the stub returns `None` |
| Querying.Retriever.constructor | rag/querying.py:15-37 | every argument is stored unchanged (defaults `similarity`, 5, `text-embedding-3-small`) and no call has been made |
| Querying.Retriever.Retrieve | rag/querying.py:84-103 | embeds the query first; a failed embedding raises; then fetches the collection, before dispatch; an invalid method raises `ValueError("Invalid retrieval method: <m>")`; semantic and hybrid give `None`; keyword gives `KeywordBased`'s outcome |

## Left out

- The embedding request, the Chroma collection and its fetch, the OpenAI client and its `models.list()` check, and the chat calls are network or storage I/O. The client check is the `connect` parameter, which may fail; the client object is not kept. The embedding is an `embed` parameter that may fail. The fetch is the `Collection` object's contents, and it never fails. `rag/database.py` is not part of this model.
- BM25 indexing, scoring and its query tokenisation (`bm25s`), and Snowball stemming (`PyStemmer`), are uninterpreted functions. Scores stay opaque, so nothing bounds the result count by `top_k`.
- Querying.KeywordBased: the stemmer and the BM25 calls are total functions here, so they never raise. "Succeeds iff every returned index is in range" holds only under that assumption.
- The computed `query_tokens` is kept but, as in the code, not used, and it is not related to the tokenisation the BM25 query uses.
- Querying.Retriever.constructor: the defaults `LLMConfig(client_name="openai")` and `ChromaDatabase()` are objects built when the module loads, so the model takes both clients as arguments.
- `rag/querying.py` imports `LLMConfig` from `llm_config`, a module that is not part of this model; the model uses `Config.LLMConfig`.
- File reading (`PdfReader`, `open`, `pandas.read_csv`) gives abstract values of one type `C`. The chunker takes strings, so a CSV DataFrame or a `None` from a failed reader is not a `DocSplitter` input here.
- The order of `os.listdir` and of dictionary insertion is not modelled: the listing is an input sequence and the dictionaries are maps.
- `lower()`, `strip()` and `split()` are modelled for ASCII whitespace and letters only, not full Unicode.
- The `IndexError` branch of the chunker cannot be taken, because Python slices clamp. The generic `except` branch is unreachable as well. Neither is modelled.
- Logging, `print`, `Loader.peek_data`, `main.py`, and the `__main__` block of `rag/config.py` are output only.
- The `Vectorizer` and `Indexer` pipeline classes used by the tests are not part of this model. Their chunking scenario is stated as the lemma `Indexer.SampleScenario` about `DocSplitter`'s chunking.
- Indexer.DocSplitter.SplitDocs: `self.data = data` keeps the caller's dictionary by reference, and `split_docs()` recomputes from it. A caller that changes that dictionary after construction makes `split_docs()` differ from `self.chunks`. The model stores `data` as a value, and `SplitDocs` requires `Valid()`, so this aliasing is not captured.
- Indexer.DocSplitter.constructor: requires `chunk_size != chunk_overlap` when there is at least one document. There `range` with step 0 raises `ValueError`, and that failure is not modelled as a result.

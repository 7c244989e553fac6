# flask_rag_apikey retrieval core in Dafny

This project models the retrieval pipeline of a Flask story generator that does
retrieval-augmented generation. The pipeline has two halves.

**Ingestion (`PDFProcessor`).** PDF files are grouped in one directory per
category. The processor scans these directories at start-up. Each readable
document whose text is not blank is cut into chunks of at most 500
whitespace-separated words. Each chunk is appended twice: to the global `chunk_texts` list and to its
category's list in `category_chunks`. A FAISS index over the chunk embeddings is
built only when some chunk exists.

**Retrieval (`StoryGenerator`).** `get_relevant_chunks` runs either a
category-scoped search or a global one:

- Category search applies when the category is truthy and is a key of
  `category_chunks`. It collects the positions of `chunk_texts` whose text occurs
  in that category's list (text equality), searches a temporary index over those
  texts, and maps the hits back to texts.
- Global search searches the processor's own index.

Padding hits (negative) are dropped, and any failure yields `[]`.
`generate_story` asks for two chunks, builds a context string from them, fills
in the prompt template, and returns a one-key dict.

Files:

- `wrappers.dfy`: `Option` and `Result`.
- `pytext.dfy`: the Python string operations the code relies on:
  - `str.split()` and `str.strip()` over Python's `isspace` characters;
  - `" ".join`;
  - `split('\n')`, used to read the context back.
- `chunker.dfy`: `_chunk_text`, as windows of words joined by single spaces.
- `ingestion.dfy`: the `PdfProcessor` class.
  - `LoadDocuments` is the nested loop of `_load_documents`, which updates
    `chunkTexts` and `categoryChunks` in place.
  - `CreateFaissIndex` is the empty-corpus guard of `_create_faiss_index`.
  - Each method is proved against specification functions over the directory
    scan (`ScanChunks`, `ScanCategories`, `ScanIndexed`, `Ingest`).
- `retrieval.dfy`: `get_relevant_chunks` as pure functions over a `CorpusView`
  snapshot of the processor. The search is an oracle parameter.
- `story.dfy`: context assembly, the prompt template and `generate_story`.

The directory scan is an input. It is a sequence of `Entry` values, each either
a category directory with its `Document`s or some other entry. A `Document` is
either the extracted text or `Unreadable`, which stands for any exception
raised before the document's chunks are appended.

## Model

| member | source | states |
|---|---|---|
| PyText.LStripSpec | app/services/pdf_processor.py:52 | left strip removes exactly the leading whitespace: the result is a suffix whose first character, if any, is not whitespace, and everything removed is whitespace |
| PyText.RStripSpec | app/services/pdf_processor.py:52 | right strip removes exactly the trailing whitespace, symmetrically |
| PyText.StripEmptyIffBlank | app/services/pdf_processor.py:52 | `text.strip()` is empty exactly when every character of `text` is whitespace |
| PyText.WordEnd | app/services/pdf_processor.py:72 | the length of the leading run of non-whitespace never exceeds the string |
| PyText.WordEndSpec | app/services/pdf_processor.py:72 | that run is non-whitespace and is ended by whitespace or by the end of the string |
| PyText.SplitYieldsWords | app/services/pdf_processor.py:72 | every piece of `text.split()` is non-empty and holds no whitespace |
| PyText.SplitEmptyIffBlank | app/services/pdf_processor.py:72 | `text.split()` is empty exactly when the text is blank |
| PyText.SplitWordThen | app/services/pdf_processor.py:72 | splitting a word followed by whitespace (or nothing) yields that word, then the split of the rest |
| PyText.SplitJoin | app/services/pdf_processor.py:72-73 | splitting words joined by single spaces gives back exactly those words |
| PyText.JoinAvoids | app/services/pdf_processor.py:73 | a character absent from the separator and from every part is absent from the join |
| PyText.WordAvoidsNewline | app/services/pdf_processor.py:72 | a word holds no newline |
| PyText.SplitOn | app/services/story_generator.py:62 | splitting on a character gives at least one piece and no piece holds that character |
| PyText.SplitOnJoin | app/services/story_generator.py:62 | splitting `"\n".join(parts)` on newlines gives back `parts` when no part holds a newline |
| Chunker.JoinEach | app/services/pdf_processor.py:73 | one chunk per window |
| Chunker.JoinEachAt | app/services/pdf_processor.py:73 | chunk `j` is window `j` joined by single spaces |
| Chunker.WindowsCount | app/services/pdf_processor.py:73 | the number of windows of N words is ceil(N / size), stated without division |
| Chunker.WindowAt | app/services/pdf_processor.py:73 | window `j` is `words[j*size : j*size+size]` (cut at the end), and its start is inside the word list |
| Chunker.WindowSizes | app/services/pdf_processor.py:73 | every window but the last has `size` words; the last has between 1 and `size` |
| Chunker.FlattenWindows | app/services/pdf_processor.py:73 | the windows concatenated in order are the word list |
| Chunker.WindowWords | app/services/pdf_processor.py:72-73 | every entry of every window of `text.split()` is a word |
| Chunker.ResplitChunk | app/services/pdf_processor.py:72-73 | re-splitting chunk `j` gives exactly window `j` |
| Chunker.ChunksReproduceWords | app/services/pdf_processor.py:72-73 | the words of all chunks, in order, are exactly `text.split()` |
| Chunker.ChunkWordCounts | app/services/pdf_processor.py:72-73 | ceil(N / size) chunks for N words; every chunk but the last has `size` words and the last between 1 and `size` |
| Chunker.ChunksEmptyIffBlank | app/services/pdf_processor.py:72-73 | empty or whitespace-only text, and only such text, yields no chunk |
| Chunker.ChunkAvoidsNewline | app/services/pdf_processor.py:72-73 | no chunk holds a newline |
| Chunker.ChunkShape | app/services/pdf_processor.py:73 | any one chunk holds between 1 and `size` words and no newline |
| Ingestion.PdfProcessor.constructor | app/services/pdf_processor.py:13-30 | the state after construction is the corpus `Ingest(scan)`: chunks and category lists from the scan, and an index exactly when some chunk exists |
| Ingestion.PdfProcessor.LoadDocuments | app/services/pdf_processor.py:36-68 | `chunkTexts` gains the chunks of every indexed document in scan order; every category directory (re)sets its key; `pdfCount` is the number of indexed documents |
| Ingestion.PdfProcessor.LoadEntry | app/services/pdf_processor.py:41-44 | a category directory appends its chunks, (re)sets its key and counts its indexed documents; any other entry changes nothing |
| Ingestion.PdfProcessor.LoadCategory | app/services/pdf_processor.py:42-63 | one category directory appends its documents' chunks to `chunkTexts`, sets its key to exactly those chunks, and counts its indexed documents |
| Ingestion.PdfProcessor.AddDocument | app/services/pdf_processor.py:47-63 | a failing or blank document changes nothing and is not counted; otherwise its chunks are appended to both lists and it is counted |
| Ingestion.PdfProcessor.CreateFaissIndex | app/services/pdf_processor.py:77-92 | with no chunks nothing is built and the index stays as it was; otherwise the index holds one vector per chunk |
| Ingestion.EntryStep | app/services/pdf_processor.py:41-63 | helper for `LoadDocuments`: one pass of the directory loop keeps the loop's correspondence with the scan functions |
| Ingestion.DocumentStep | app/services/pdf_processor.py:47-63 | helper for `LoadCategory`: one pass of the document loop keeps the category loop's correspondence |
| Ingestion.DocChunksNonEmptyIffIndexed | app/services/pdf_processor.py:52-58 | a document contributes chunks exactly when it was extracted and its text is not blank |
| Ingestion.PdfsNoChunksIffNoneIndexed | app/services/pdf_processor.py:47-63 | a directory contributes no chunk exactly when none of its documents was counted |
| Ingestion.NoChunksIffNoIndexedPdf | app/services/pdf_processor.py:65-66 | `pdf_count == 0` (the "no valid PDF" warning) exactly when `chunk_texts` is empty |
| Ingestion.EveryCategoryHasKey | app/services/pdf_processor.py:42-44 | a key is in `category_chunks` exactly when it was there before or names a scanned category directory, even one without chunks |
| Ingestion.CategoryListIsItsDocuments | app/services/pdf_processor.py:43-58 | with distinct directory names, a category's list is the concatenation of its own documents' chunks |
| Ingestion.CategoriesPartitionCorpus | app/services/pdf_processor.py:56-58 | with distinct directory names, the category lists concatenated in scan order are exactly `chunk_texts` |
| Ingestion.CategoryLengthsSum | app/services/pdf_processor.py:56-58 | with distinct directory names, the lengths of the category lists sum to `len(chunk_texts)` |
| Ingestion.ConcatListsFrame | app/services/pdf_processor.py:44 | helper for `ConcatListsAppend`: setting a key outside the listed names leaves their concatenation and total length unchanged |
| Ingestion.ConcatListsLength | app/services/pdf_processor.py:56-58 | helper for `CategoryLengthsSum`: the concatenation's length is the sum of the list lengths |
| Ingestion.ConcatListsAppend | app/services/pdf_processor.py:44 | helper for `CategoriesPartitionCorpus`: a new category at the end of the order appends its list |
| Ingestion.DirNamesAvoid | app/services/pdf_processor.py:41-43 | helper for `CategoriesPartitionCorpus`: a name no scanned entry carries is not a category directory name |
| Ingestion.CategoryTextsInCorpus | app/services/pdf_processor.py:57-58 | every text of every category list also occurs in `chunk_texts` |
| Ingestion.DocChunksWellFormed | app/services/pdf_processor.py:56 | every chunk of a document holds 1 to 500 words and no newline |
| Ingestion.PdfsChunksWellFormed | app/services/pdf_processor.py:47-58 | every chunk a directory contributes is well formed |
| Ingestion.ScanChunksWellFormed | app/services/pdf_processor.py:41-58 | every text in `chunk_texts` after a scan is well formed |
| Ingestion.IngestedCorpusWellFormed | app/services/pdf_processor.py:13-30 | after construction: index present exactly when chunks exist, with one vector per chunk; no chunks exactly when no PDF was counted; every chunk well formed; every category text among the chunks |
| Retrieval.CategoryIndices | app/services/story_generator.py:34-37 | `category_indices` is strictly increasing, holds only positions whose text is in the category's list, and holds every such position |
| Retrieval.Pick | app/services/story_generator.py:42 | the texts at `category_indices`, one per position and in order |
| Retrieval.Resolve | app/services/story_generator.py:47 | the hit-to-text comprehension raises exactly when some hit is past the table; otherwise it returns at most one text per hit, only texts from the table, and the entry of every non-negative hit |
| Retrieval.CategorySearch | app/services/story_generator.py:33-47 | every text returned is in the category's list and in `chunk_texts`; no matching position gives `[]` |
| Retrieval.GlobalSearch | app/services/story_generator.py:48-50 | every text returned is in `chunk_texts`; without an index (`None`) the call fails and gives `[]` |
| Retrieval.GetRelevantChunks | app/services/story_generator.py:30-53 | results are stored chunks and, for a known truthy category, members of its list; a known category with no matching position gives `[]`; the global branch without an index gives `[]` |
| Retrieval.ResolveAppend | app/services/story_generator.py:47 | resolving hits `a + b` is resolving `a` then `b`, so the result follows hit order |
| Retrieval.ResolveOne | app/services/story_generator.py:50 | a negative hit contributes nothing, an in-range hit its entry, and a hit past the end raises |
| Retrieval.ResolveKeepsAll | app/services/story_generator.py:47 | with no padding and no out-of-range hit, one text per hit |
| Retrieval.UnknownCategoryFallsBack | app/services/story_generator.py:33 | a falsy or unknown category gives the global search result |
| Retrieval.FailingSearchGivesNothing | app/services/story_generator.py:51-53 | when the search always raises, the result is `[]` for every category |
| Retrieval.AtMostK | app/services/story_generator.py:46-50 | a search returning at most `k` hits yields at most `k` texts |
| Retrieval.EmptyCorpusGivesNothing | app/services/story_generator.py:30-53 | over an ingested corpus with no chunks, every call returns `[]` |
| Retrieval.MatchesIffNonEmpty | app/services/story_generator.py:34-39 | a list whose texts all occur in `chunk_texts` has matching positions exactly when it is non-empty |
| Retrieval.KnownCategoryMatchesIffNonEmpty | app/services/story_generator.py:34-39 | over an ingested corpus, a known category has matching positions exactly when its list is non-empty |
| Story.BuildContext | app/services/story_generator.py:58-62 | the context is empty exactly when the category is falsy or retrieval with k=2 is empty; otherwise it starts with the header |
| Story.ContextRecoversChunks | app/services/story_generator.py:62 | if no stored chunk holds a newline, splitting the context after the header on newlines gives back the retrieved chunks |
| Story.IngestedContextRecoversChunks | app/services/story_generator.py:62 | over an ingested corpus the context always reads back to the retrieved chunks |
| Story.PromptTemplate | app/services/story_generator.py:64-70 | the template's length is the preamble, prompt, context and guidelines together |
| Story.PromptTemplateInjective | app/services/story_generator.py:64-70 | given the length of either the prompt or the context, the template determines both |
| Story.NoCategoryNoContext | app/services/story_generator.py:58-70 | without a truthy category the model gets the bare prompt between preamble and guidelines |
| Story.GenerateStory | app/services/story_generator.py:55-80 | the result has exactly one key: `"response"` with the reply content on success, `"error"` with the message on failure |

## Left out

- FAISS `IndexFlatL2` construction, L2 distances and nearest-neighbour search:
  - The search is the oracle parameter `Search`.
  - The global index is known only by its vector count (`FlatIndex.ntotal`).
- SentenceTransformer embeddings, including `encode` of the query and the texts. They are folded into the oracle, and their failures are its `None`.
- PyMuPDF extraction and directory iteration are inputs. `Document.Unreadable` stands for any exception raised before the document's chunks are appended. An exception raised when the PDF is closed after its chunks were appended and counted is not modelled: that document would stay in both lists and in the count. The `mkdir` calls are left out.
- Persistence (`faiss.write_index`, `pickle.dump`) is file I/O through opaque serialisers.
- `CreateFaissIndex`: exceptions from embedding or persistence, which `_create_faiss_index` re-raises, are not modelled. The model always builds the index.
- The ChatGroq client is the `llm` parameter of `GenerateStory`. Its `Failure` carries the exception message.
- Logging, Flask routes, authentication, session files and configuration are not part of this model.
- `ChunkText`: only `chunk_size > 0` is modelled. The processor always uses 500.
- Category search reads the texts of `category_indices` once. It uses them both as the texts indexed and as the table the hits are resolved against; indexing `chunk_texts[category_indices[i]]` gives the same texts and the same `IndexError`.
- `LoadEntry`, `LoadCategory` and `AddDocument` are the inner levels of the nested loop in `_load_documents`. The model splits them out as methods of their own.
- The category partition lemmas assume distinct directory names, as the entries of one directory have.
- Category membership is text equality, as in the code, so duplicates are kept. If two categories share a chunk text, category search over one of them also matches the other's position. The result is still a text of the searched category's list. No lemma claims that `category_indices` covers only the category's own positions.

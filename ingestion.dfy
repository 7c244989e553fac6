/**
 * `PDFProcessor`: the corpus store. `_load_documents` walks the category
 * directories and their PDFs in scan order and appends each usable
 * document's chunks to the global `chunk_texts` and to its category's list;
 * `_create_faiss_index` builds the global index unless there is nothing to index.
 */
module Ingestion {
  import opened Wrappers
  import opened PyText
  import opened Chunker

  /** One PDF of a category directory: its extracted text, or processing that raised before any chunk was appended. */
  datatype Document = Extracted(text: string) | Unreadable

  /** One entry of the books directory: a category directory with its PDFs, or anything else. */
  datatype Entry = CategoryDir(name: string, pdfs: seq<Document>) | OtherEntry(name: string)

  /** The FAISS flat index, known here only by how many vectors it holds. */
  datatype FlatIndex = FlatIndex(ntotal: nat)

  /** What the retriever reads of a `PDFProcessor`. */
  datatype CorpusView = CorpusView(
    chunkTexts: seq<string>,
    categoryChunks: map<string, seq<string>>,
    faissIndex: Option<FlatIndex>)

  /** A document is indexed when its text was extracted and `text.strip()` is non-empty. */
  predicate Indexed(d: Document) {
    d.Extracted? && Strip(d.text) != []
  }

  /** The chunks a document contributes. */
  function DocChunks(d: Document): seq<string> {
    if Indexed(d) then ChunkText(d.text, ChunkSize) else []
  }

  /** Chunks of the first `n` PDFs of a directory, in order. */
  function PdfsChunks(pdfs: seq<Document>, n: nat): seq<string>
    requires n <= |pdfs|
  {
    if n == 0 then [] else PdfsChunks(pdfs, n - 1) + DocChunks(pdfs[n - 1])
  }

  /** How many of the first `n` PDFs of a directory are indexed. */
  function PdfsIndexed(pdfs: seq<Document>, n: nat): nat
    requires n <= |pdfs|
  {
    if n == 0 then 0 else PdfsIndexed(pdfs, n - 1) + (if Indexed(pdfs[n - 1]) then 1 else 0)
  }

  /** The chunks a directory entry contributes. */
  function EntryChunks(e: Entry): seq<string> {
    if e.CategoryDir? then PdfsChunks(e.pdfs, |e.pdfs|) else []
  }

  function EntryIndexed(e: Entry): nat {
    if e.CategoryDir? then PdfsIndexed(e.pdfs, |e.pdfs|) else 0
  }

  /** The category map after one directory entry: a category directory (re)sets its key to its own chunks. */
  function EntryCategories(m: map<string, seq<string>>, e: Entry): map<string, seq<string>> {
    if e.CategoryDir? then m[e.name := EntryChunks(e)] else m
  }

  /** The global chunk sequence the first `n` entries of a scan produce, in scan order. */
  function ScanChunks(scan: seq<Entry>, n: nat): seq<string>
    requires n <= |scan|
  {
    if n == 0 then [] else ScanChunks(scan, n - 1) + EntryChunks(scan[n - 1])
  }

  /** `pdf_count` after the first `n` entries of a scan. */
  function ScanIndexed(scan: seq<Entry>, n: nat): nat
    requires n <= |scan|
  {
    if n == 0 then 0 else ScanIndexed(scan, n - 1) + EntryIndexed(scan[n - 1])
  }

  /**
   * The category map after the first `n` entries of a scan, starting from `m`.
   */
  function ScanCategories(m: map<string, seq<string>>, scan: seq<Entry>, n: nat): map<string, seq<string>>
    requires n <= |scan|
  {
    if n == 0 then m else EntryCategories(ScanCategories(m, scan, n - 1), scan[n - 1])
  }

  /** Names of the category directories among the first `n` entries of a scan, in order. */
  function DirNames(scan: seq<Entry>, n: nat): seq<string>
    requires n <= |scan|
  {
    if n == 0 then []
    else DirNames(scan, n - 1) + (if scan[n - 1].CategoryDir? then [scan[n - 1].name] else [])
  }

  /** The corpus a fresh `PDFProcessor` holds after scanning `scan`. */
  function Ingest(scan: seq<Entry>): CorpusView {
    var texts := ScanChunks(scan, |scan|);
    CorpusView(texts, ScanCategories(map[], scan, |scan|), if texts == [] then None else Some(FlatIndex(|texts|)))
  }

  class PdfProcessor {
    var chunkTexts: seq<string>
    var categoryChunks: map<string, seq<string>>
    var faissIndex: Option<FlatIndex>

    function View(): CorpusView
      reads this
    {
      CorpusView(chunkTexts, categoryChunks, faissIndex)
    }

    /** `__init__`: start empty, load the documents, build the index. */
    constructor (scan: seq<Entry>)
      ensures View() == Ingest(scan)
    {
      chunkTexts := [];
      categoryChunks := map[];
      faissIndex := None;
      new;
      var _ := LoadDocuments(scan);
      CreateFaissIndex();
    }

    /** `_load_documents`: returns `pdf_count`. */
    method LoadDocuments(scan: seq<Entry>) returns (pdfCount: nat)
      modifies this`chunkTexts, this`categoryChunks
      ensures chunkTexts == old(chunkTexts) + ScanChunks(scan, |scan|)
      ensures categoryChunks == ScanCategories(old(categoryChunks), scan, |scan|)
      ensures pdfCount == ScanIndexed(scan, |scan|)
    {
      ghost var texts0, cats0 := chunkTexts, categoryChunks;
      pdfCount := 0;
      var i := 0;
      while i < |scan|
        invariant i <= |scan|
        invariant chunkTexts == texts0 + ScanChunks(scan, i)
        invariant categoryChunks == ScanCategories(cats0, scan, i)
        invariant pdfCount == ScanIndexed(scan, i)
      {
        ghost var texts1, cats1, count1 := chunkTexts, categoryChunks, pdfCount;
        var count := LoadEntry(scan[i]);
        pdfCount := pdfCount + count;
        EntryStep(texts0, cats0, scan, i, texts1, cats1, count1, chunkTexts, categoryChunks, pdfCount);
        i := i + 1;
      }
    }

    /** One entry of the directory scan: a category directory is loaded, anything else is skipped. */
    method LoadEntry(entry: Entry) returns (count: nat)
      modifies this`chunkTexts, this`categoryChunks
      ensures chunkTexts == old(chunkTexts) + EntryChunks(entry)
      ensures categoryChunks == EntryCategories(old(categoryChunks), entry)
      ensures count == EntryIndexed(entry)
    {
      count := 0;
      if entry.CategoryDir? {
        count := LoadCategory(entry.name, entry.pdfs);
      } else {
        assert chunkTexts + [] == chunkTexts;
      }
    }

    /**
     * The body of `_load_documents` for one category directory: reset its list,
     * then chunk each PDF whose text is not blank; returns how many PDFs were indexed.
     */
    method LoadCategory(name: string, pdfs: seq<Document>) returns (count: nat)
      modifies this`chunkTexts, this`categoryChunks
      ensures chunkTexts == old(chunkTexts) + PdfsChunks(pdfs, |pdfs|)
      ensures categoryChunks == old(categoryChunks)[name := PdfsChunks(pdfs, |pdfs|)]
      ensures count == PdfsIndexed(pdfs, |pdfs|)
    {
      ghost var texts0, cats0 := chunkTexts, categoryChunks;
      categoryChunks := categoryChunks[name := []];
      count := 0;
      var j := 0;
      while j < |pdfs|
        invariant j <= |pdfs| && Loaded(texts0, cats0, name, pdfs, j, chunkTexts, categoryChunks, count)
      {
        var indexed := AddDocument(name, pdfs[j]);
        if indexed {
          count := count + 1;
        }
        DocumentStep(texts0, cats0, name, pdfs, j);
        j := j + 1;
      }
    }

    /**
     * The `try` block for one PDF: a document whose processing raised before its
     * chunks were appended (`Unreadable`) or whose text is blank changes nothing;
     * otherwise its chunks are appended to `chunk_texts` and to the category's
     * list. Returns whether it was indexed.
     */
    method AddDocument(name: string, doc: Document) returns (indexed: bool)
      requires name in categoryChunks
      modifies this`chunkTexts, this`categoryChunks
      ensures indexed == Indexed(doc)
      ensures chunkTexts == old(chunkTexts) + DocChunks(doc)
      ensures categoryChunks == old(categoryChunks)[name := old(categoryChunks)[name] + DocChunks(doc)]
    {
      indexed := false;
      if doc.Unreadable? {
        assert old(categoryChunks)[name] + [] == old(categoryChunks)[name];
        return;
      }
      var text := doc.text;
      if Strip(text) == [] {
        assert old(categoryChunks)[name] + [] == old(categoryChunks)[name];
        return;
      }
      var chunks := ChunkText(text, ChunkSize);
      chunkTexts := chunkTexts + chunks;
      categoryChunks := categoryChunks[name := categoryChunks[name] + chunks];
      indexed := true;
    }

    /** `_create_faiss_index`: nothing is built when there are no chunks. */
    method CreateFaissIndex()
      modifies this`faissIndex
      ensures chunkTexts == [] ==> faissIndex == old(faissIndex)
      ensures chunkTexts != [] ==> faissIndex == Some(FlatIndex(|chunkTexts|))
    {
      if chunkTexts == [] {
        return;
      }
      faissIndex := Some(FlatIndex(|chunkTexts|));
    }
  }

  /** One pass of the directory loop keeps its invariant. */
  lemma EntryStep(texts0: seq<string>, cats0: map<string, seq<string>>, scan: seq<Entry>, i: nat,
                  texts: seq<string>, cats: map<string, seq<string>>, count: nat,
                  texts': seq<string>, cats': map<string, seq<string>>, count': nat)
    requires i < |scan|
    requires texts == texts0 + ScanChunks(scan, i)
    requires cats == ScanCategories(cats0, scan, i)
    requires count == ScanIndexed(scan, i)
    requires texts' == texts + EntryChunks(scan[i])
    requires cats' == EntryCategories(cats, scan[i])
    requires count' == count + EntryIndexed(scan[i])
    ensures texts' == texts0 + ScanChunks(scan, i + 1)
    ensures cats' == ScanCategories(cats0, scan, i + 1)
    ensures count' == ScanIndexed(scan, i + 1)
  {
    AppendAssoc(texts0, ScanChunks(scan, i), EntryChunks(scan[i]));
  }

  /**
   * The state of the document loop after `j` PDFs: their chunks appended to the
   * corpus and forming the category's list, and the indexed ones counted.
   */
  ghost predicate Loaded(texts0: seq<string>, cats0: map<string, seq<string>>, name: string, pdfs: seq<Document>, j: nat,
                         texts: seq<string>, cats: map<string, seq<string>>, count: nat)
    requires j <= |pdfs|
  {
    && texts == texts0 + PdfsChunks(pdfs, j)
    && cats == cats0[name := PdfsChunks(pdfs, j)]
    && count == PdfsIndexed(pdfs, j)
  }

  /** One pass of the document loop keeps the category loop's invariant. */
  lemma DocumentStep(texts0: seq<string>, cats0: map<string, seq<string>>, name: string, pdfs: seq<Document>, j: nat)
    requires j < |pdfs|
    ensures texts0 + PdfsChunks(pdfs, j) + DocChunks(pdfs[j]) == texts0 + PdfsChunks(pdfs, j + 1)
    ensures cats0[name := PdfsChunks(pdfs, j)][name := PdfsChunks(pdfs, j) + DocChunks(pdfs[j])]
      == cats0[name := PdfsChunks(pdfs, j + 1)]
    ensures PdfsIndexed(pdfs, j) + (if Indexed(pdfs[j]) then 1 else 0) == PdfsIndexed(pdfs, j + 1)
  {
    AppendAssoc(texts0, PdfsChunks(pdfs, j), DocChunks(pdfs[j]));
  }

  lemma AppendEmpty<T>(a: seq<T>, b: seq<T>)
    ensures a + b == [] <==> a == [] && b == []
  {
    assert |a + b| == |a| + |b|;
  }

  lemma AppendAssoc<T>(a: seq<T>, b: seq<T>, c: seq<T>)
    ensures (a + b) + c == a + (b + c)
  {
  }

  /** Directory entries have pairwise distinct names, as the entries of one directory do. */
  predicate DistinctNames(scan: seq<Entry>) {
    forall i, j :: 0 <= i < j < |scan| ==> scan[i].name != scan[j].name
  }

  /** The list of category `c`, or none when `c` is not a key. */
  function ListOf(m: map<string, seq<string>>, c: string): seq<string> {
    if c in m then m[c] else []
  }

  /** The category lists for `names`, concatenated in that order. */
  function ConcatLists(m: map<string, seq<string>>, names: seq<string>): seq<string> {
    if names == [] then [] else ConcatLists(m, names[..|names| - 1]) + ListOf(m, names[|names| - 1])
  }

  /** Sum of the lengths of the category lists for `names`. */
  function TotalLength(m: map<string, seq<string>>, names: seq<string>): nat {
    if names == [] then 0 else TotalLength(m, names[..|names| - 1]) + |ListOf(m, names[|names| - 1])|
  }

  /** A document contributes chunks exactly when it is indexed (extracted and not blank). */
  lemma DocChunksNonEmptyIffIndexed(d: Document)
    ensures DocChunks(d) != [] <==> Indexed(d)
  {
    if d.Extracted? {
      StripEmptyIffBlank(d.text);
      ChunksEmptyIffBlank(d.text, ChunkSize);
    }
  }

  lemma {:induction false} PdfsNoChunksIffNoneIndexed(pdfs: seq<Document>, n: nat)
    requires n <= |pdfs|
    ensures PdfsChunks(pdfs, n) == [] <==> PdfsIndexed(pdfs, n) == 0
  {
    if n > 0 {
      var d := pdfs[n - 1];
      var before, added := PdfsChunks(pdfs, n - 1), DocChunks(d);
      var counted, one := PdfsIndexed(pdfs, n - 1), if Indexed(d) then 1 else 0;
      assert PdfsChunks(pdfs, n) == before + added;
      assert PdfsIndexed(pdfs, n) == counted + one;
      PdfsNoChunksIffNoneIndexed(pdfs, n - 1);
      DocChunksNonEmptyIffIndexed(d);
      EmptySumIff(before, added, counted, one);
    }
  }

  /**
   * `pdf_count == 0` (the "no valid PDF" warning) holds exactly when the scan
   * produced no chunk, which is when `_create_faiss_index` builds nothing.
   */
  lemma {:induction false} NoChunksIffNoIndexedPdf(scan: seq<Entry>, n: nat)
    requires n <= |scan|
    ensures ScanChunks(scan, n) == [] <==> ScanIndexed(scan, n) == 0
  {
    if n > 0 {
      var e := scan[n - 1];
      var before, added := ScanChunks(scan, n - 1), EntryChunks(e);
      var counted, more := ScanIndexed(scan, n - 1), EntryIndexed(e);
      assert ScanChunks(scan, n) == before + added;
      assert ScanIndexed(scan, n) == counted + more;
      NoChunksIffNoIndexedPdf(scan, n - 1);
      EntryNoChunksIffNoneIndexed(e);
      EmptySumIff(before, added, counted, more);
    }
  }

  /** Two parts that are empty exactly when their counts are zero combine the same way. */
  lemma EmptySumIff(a: seq<string>, b: seq<string>, x: nat, y: nat)
    requires a == [] <==> x == 0
    requires b == [] <==> y == 0
    ensures a + b == [] <==> x + y == 0
  {
    AppendEmpty(a, b);
  }

  lemma EntryNoChunksIffNoneIndexed(e: Entry)
    ensures EntryChunks(e) == [] <==> EntryIndexed(e) == 0
  {
    if e.CategoryDir? {
      PdfsNoChunksIffNoneIndexed(e.pdfs, |e.pdfs|);
    }
  }

  /** Every category directory gets a key, even one that contributes no chunk; no other key appears. */
  lemma {:induction false} EveryCategoryHasKey(m: map<string, seq<string>>, scan: seq<Entry>, n: nat)
    requires n <= |scan|
    ensures forall k :: k in ScanCategories(m, scan, n) <==> k in m || k in DirNames(scan, n)
  {
    if n > 0 {
      EveryCategoryHasKey(m, scan, n - 1);
    }
  }

  /** With distinct directory names, a category's list is the chunks of its own PDFs. */
  lemma {:induction false} CategoryListIsItsDocuments(scan: seq<Entry>, n: nat, i: nat)
    requires n <= |scan| && DistinctNames(scan)
    requires i < n && scan[i].CategoryDir?
    ensures scan[i].name in ScanCategories(map[], scan, n)
    ensures ScanCategories(map[], scan, n)[scan[i].name] == PdfsChunks(scan[i].pdfs, |scan[i].pdfs|)
  {
    var prev, e := ScanCategories(map[], scan, n - 1), scan[n - 1];
    assert ScanCategories(map[], scan, n) == EntryCategories(prev, e);
    if i < n - 1 {
      CategoryListIsItsDocuments(scan, n - 1, i);
      assert scan[i].name != e.name;
    }
  }

  lemma {:induction false} ConcatListsFrame(m: map<string, seq<string>>, names: seq<string>, x: string, v: seq<string>)
    requires x !in names
    ensures ConcatLists(m[x := v], names) == ConcatLists(m, names)
    ensures TotalLength(m[x := v], names) == TotalLength(m, names)
  {
    if names != [] {
      ConcatListsFrame(m, names[..|names| - 1], x, v);
    }
  }

  lemma {:induction false} ConcatListsLength(m: map<string, seq<string>>, names: seq<string>)
    ensures |ConcatLists(m, names)| == TotalLength(m, names)
  {
    if names != [] {
      ConcatListsLength(m, names[..|names| - 1]);
    }
  }

  /** A name that no entry among the first `n` carries is not among their directory names. */
  lemma {:induction false} DirNamesAvoid(scan: seq<Entry>, n: nat, x: string)
    requires n <= |scan|
    requires forall i :: 0 <= i < n ==> scan[i].name != x
    ensures x !in DirNames(scan, n)
  {
    if n > 0 {
      DirNamesAvoid(scan, n - 1, x);
    }
  }

  /**
   * With distinct directory names, the category lists taken in scan order and
   * concatenated are exactly `chunk_texts`.
   */
  lemma {:induction false} CategoriesPartitionCorpus(scan: seq<Entry>, n: nat)
    requires n <= |scan| && DistinctNames(scan)
    ensures ConcatLists(ScanCategories(map[], scan, n), DirNames(scan, n)) == ScanChunks(scan, n)
  {
    if n > 0 {
      CategoriesPartitionCorpus(scan, n - 1);
      var e := scan[n - 1];
      if e.CategoryDir? {
        DirNamesAvoid(scan, n - 1, e.name);
      }
      PartitionStep(scan, n);
    }
  }

  /** One more directory entry keeps the category lists a partition of the chunks seen so far. */
  lemma PartitionStep(scan: seq<Entry>, n: nat)
    requires 0 < n <= |scan|
    requires ConcatLists(ScanCategories(map[], scan, n - 1), DirNames(scan, n - 1)) == ScanChunks(scan, n - 1)
    requires scan[n - 1].CategoryDir? ==> scan[n - 1].name !in DirNames(scan, n - 1)
    ensures ConcatLists(ScanCategories(map[], scan, n), DirNames(scan, n)) == ScanChunks(scan, n)
  {
    var e := scan[n - 1];
    var m, names := ScanCategories(map[], scan, n - 1), DirNames(scan, n - 1);
    if e.CategoryDir? {
      assert ScanCategories(map[], scan, n) == m[e.name := EntryChunks(e)];
      assert DirNames(scan, n) == names + [e.name];
      ConcatListsAppend(m, names, e.name, EntryChunks(e));
    } else {
      assert ScanCategories(map[], scan, n) == m;
      assert DirNames(scan, n) == names + [] == names;
      assert ScanChunks(scan, n) == ScanChunks(scan, n - 1) + [];
    }
  }

  /** With distinct directory names, the lengths of the category lists sum to `len(chunk_texts)`. */
  lemma CategoryLengthsSum(scan: seq<Entry>)
    requires DistinctNames(scan)
    ensures TotalLength(ScanCategories(map[], scan, |scan|), DirNames(scan, |scan|)) == |ScanChunks(scan, |scan|)|
  {
    CategoriesPartitionCorpus(scan, |scan|);
    ConcatListsLength(ScanCategories(map[], scan, |scan|), DirNames(scan, |scan|));
  }

  /** Adding a new key at the end of the name list appends its list to the concatenation. */
  lemma ConcatListsAppend(m: map<string, seq<string>>, names: seq<string>, x: string, v: seq<string>)
    requires x !in names
    ensures ConcatLists(m[x := v], names + [x]) == ConcatLists(m, names) + v
    ensures TotalLength(m[x := v], names + [x]) == TotalLength(m, names) + |v|
  {
    ConcatListsFrame(m, names, x, v);
    assert (names + [x])[..|names|] == names;
  }

  /** Every text of every category list also occurs in `chunk_texts`. */
  lemma {:induction false} CategoryTextsInCorpus(scan: seq<Entry>, n: nat)
    requires n <= |scan|
    ensures forall c, t ::
              c in ScanCategories(map[], scan, n) && t in ScanCategories(map[], scan, n)[c] ==> t in ScanChunks(scan, n)
  {
    if n > 0 {
      CategoryTextsInCorpus(scan, n - 1);
    }
  }

  /** What every stored chunk looks like: 1 to `ChunkSize` words and no newline. */
  predicate WellFormedChunk(t: string) {
    '\n' !in t && 1 <= |Split(t)| <= ChunkSize
  }

  lemma DocChunksWellFormed(d: Document)
    ensures forall t :: t in DocChunks(d) ==> WellFormedChunk(t)
  {
    if Indexed(d) {
      var chunks := ChunkText(d.text, ChunkSize);
      forall j | 0 <= j < |chunks| ensures WellFormedChunk(chunks[j]) {
        ChunkShape(d.text, ChunkSize, j);
      }
    }
  }

  lemma {:induction false} PdfsChunksWellFormed(pdfs: seq<Document>, n: nat)
    requires n <= |pdfs|
    ensures forall t :: t in PdfsChunks(pdfs, n) ==> WellFormedChunk(t)
  {
    if n > 0 {
      PdfsChunksWellFormed(pdfs, n - 1);
      DocChunksWellFormed(pdfs[n - 1]);
    }
  }

  /** Every text in `chunk_texts` after a scan is a well-formed chunk. */
  lemma {:induction false} ScanChunksWellFormed(scan: seq<Entry>, n: nat)
    requires n <= |scan|
    ensures forall t :: t in ScanChunks(scan, n) ==> WellFormedChunk(t)
  {
    if n > 0 {
      ScanChunksWellFormed(scan, n - 1);
      var e := scan[n - 1];
      if e.CategoryDir? {
        PdfsChunksWellFormed(e.pdfs, |e.pdfs|);
      }
    }
  }

  /**
   * A freshly built `PDFProcessor`: the index exists exactly when there are chunks
   * and then holds one vector per chunk; every stored chunk is well formed; every
   * category text is one of the stored chunks.
   */
  lemma IngestedCorpusWellFormed(scan: seq<Entry>)
    ensures var c := Ingest(scan);
      && (c.faissIndex.None? <==> c.chunkTexts == [])
      && (c.faissIndex.Some? ==> c.faissIndex.value.ntotal == |c.chunkTexts|)
      && (c.chunkTexts == [] <==> ScanIndexed(scan, |scan|) == 0)
      && (forall t :: t in c.chunkTexts ==> WellFormedChunk(t))
      && (forall cat, t :: cat in c.categoryChunks && t in c.categoryChunks[cat] ==> t in c.chunkTexts)
  {
    NoChunksIffNoIndexedPdf(scan, |scan|);
    ScanChunksWellFormed(scan, |scan|);
    CategoryTextsInCorpus(scan, |scan|);
  }
}

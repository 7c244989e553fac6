/**
 * `StoryGenerator.get_relevant_chunks`: retrieval over a `PDFProcessor`'s corpus,
 * either scoped to one category (a temporary index over that category's chunks)
 * or global (the processor's own index). The nearest-neighbour search is an
 * oracle; what is modelled is the bookkeeping that maps its hits back to texts.
 */
module Retrieval {
  import opened Wrappers
  import opened Ingestion

  /**
   * Embedding the query and the indexed texts, building the index and searching
   * it for `k` neighbours: given the query, the texts the index was built from and
   * `k`, the hit row (`indices[0]`), or `None` when any of it raises.
   */
  type Search = (string, seq<string>, nat) -> Option<seq<int>>

  /** Python truthiness of the optional `category` argument. */
  predicate Truthy(category: Option<string>) {
    category.Some? && category.value != ""
  }

  /**
   * `category_indices` over the first `n` texts: the positions whose text is
   * equal to some text of the category's list (duplicates included).
   */
  function CategoryIndices(texts: seq<string>, members: seq<string>, n: nat): (idx: seq<nat>)
    requires n <= |texts|
    ensures forall j :: 0 <= j < |idx| ==> idx[j] < n && texts[idx[j]] in members
    ensures forall j, j' :: 0 <= j < j' < |idx| ==> idx[j] < idx[j']
    ensures forall i {:trigger i in idx} :: 0 <= i < n && texts[i] in members ==> i in idx
  {
    if n == 0 then []
    else CategoryIndices(texts, members, n - 1) + (if texts[n - 1] in members then [n - 1] else [])
  }

  /** The elements of `s` at `positions`, in that order. */
  function Pick<T>(s: seq<T>, positions: seq<nat>): (r: seq<T>)
    requires forall j :: 0 <= j < |positions| ==> positions[j] < |s|
    ensures |r| == |positions|
    ensures forall j :: 0 <= j < |r| ==> r[j] == s[positions[j]]
  {
    if positions == [] then [] else [s[positions[0]]] + Pick(s, positions[1..])
  }

  /**
   * The comprehension `[table[i] for i in hits if i >= 0]`: negative (padding) hits
   * are dropped; a hit past the end of `table` raises `IndexError` (`None`).
   */
  function Resolve<T>(table: seq<T>, hits: seq<int>): (r: Option<seq<T>>)
    ensures r.Some? <==> forall j :: 0 <= j < |hits| ==> hits[j] < |table|
    ensures r.Some? ==> |r.value| <= |hits|
    ensures r.Some? ==> forall x :: x in r.value ==> x in table
    ensures r.Some? ==> forall j :: 0 <= j < |hits| && 0 <= hits[j] ==> table[hits[j]] in r.value
  {
    if hits == [] then Some([])
    else if hits[0] >= |table| then None
    else
      match Resolve(table, hits[1..])
      case None => None
      case Some(rest) => Some((if hits[0] >= 0 then [table[hits[0]]] else []) + rest)
  }

  /** The category branch: search the category's texts and map hits back through `category_indices`. */
  function CategorySearch(texts: seq<string>, members: seq<string>, search: Search, query: string, k: nat): (r: seq<string>)
    ensures forall t :: t in r ==> t in members && t in texts
    ensures (forall i :: 0 <= i < |texts| ==> texts[i] !in members) ==> r == []
  {
    var idx := CategoryIndices(texts, members, |texts|);
    if idx == [] then []
    else
      // `chunk_texts[category_indices[i]]` is the i-th text the temporary index was built from
      var indexed := Pick(texts, idx);
      match search(query, indexed, k)
      case None => []
      case Some(hits) =>
        match Resolve(indexed, hits)
        case None => []
        case Some(found) => found
  }

  /** The global branch: search the processor's index; without one (`None`) the call raises. */
  function GlobalSearch(corpus: CorpusView, search: Search, query: string, k: nat): (r: seq<string>)
    ensures forall t :: t in r ==> t in corpus.chunkTexts
    ensures corpus.faissIndex.None? ==> r == []
  {
    if corpus.faissIndex.None? then []
    else
      match search(query, corpus.chunkTexts, k)
      case None => []
      case Some(hits) =>
        match Resolve(corpus.chunkTexts, hits)
        case None => []
        case Some(found) => found
  }

  /**
   * `get_relevant_chunks(query, category, k)`: category-scoped search when the
   * category is truthy and a key of `category_chunks`, global search otherwise;
   * every failure yields `[]`.
   */
  function GetRelevantChunks(corpus: CorpusView, search: Search, query: string, category: Option<string>, k: nat): (r: seq<string>)
    ensures forall t :: t in r ==> t in corpus.chunkTexts
    ensures Truthy(category) && category.value in corpus.categoryChunks ==>
      forall t :: t in r ==> t in corpus.categoryChunks[category.value]
    ensures Truthy(category) && category.value in corpus.categoryChunks &&
      (forall i :: 0 <= i < |corpus.chunkTexts| ==> corpus.chunkTexts[i] !in corpus.categoryChunks[category.value])
      ==> r == []
    ensures !(Truthy(category) && category.value in corpus.categoryChunks) && corpus.faissIndex.None? ==> r == []
  {
    if Truthy(category) && category.value in corpus.categoryChunks then
      CategorySearch(corpus.chunkTexts, corpus.categoryChunks[category.value], search, query, k)
    else
      GlobalSearch(corpus, search, query, k)
  }

  /** Resolving hits `a + b` resolves `a`, then `b`: the result follows hit order. */
  lemma {:induction false} ResolveAppend<T>(table: seq<T>, a: seq<int>, b: seq<int>)
    ensures Resolve(table, a + b).Some? <==> Resolve(table, a).Some? && Resolve(table, b).Some?
    ensures Resolve(table, a + b).Some? ==>
      Resolve(table, a + b).value == Resolve(table, a).value + Resolve(table, b).value
  {
    if a == [] {
      assert a + b == b;
    } else {
      assert (a + b)[0] == a[0];
      assert (a + b)[1..] == a[1..] + b;
      ResolveAppend(table, a[1..], b);
      var x: seq<T> := if a[0] >= 0 && a[0] < |table| then [table[a[0]]] else [];
      if Resolve(table, a + b).Some? {
        AppendAssoc(x, Resolve(table, a[1..]).value, Resolve(table, b).value);
      }
    }
  }

  /** A padding hit contributes nothing; an in-range hit contributes exactly its entry. */
  lemma ResolveOne<T>(table: seq<T>, h: int)
    ensures h < 0 ==> Resolve(table, [h]) == Some([])
    ensures 0 <= h < |table| ==> Resolve(table, [h]) == Some([table[h]])
    ensures |table| <= h ==> Resolve(table, [h]) == None
  {
    assert [h][0] == h && [h][1..] == [];
    assert Resolve(table, []) == Some([]);
    if 0 <= h < |table| {
      assert [table[h]] + [] == [table[h]];
    }
  }

  /** Without padding and without out-of-range hits, nothing is dropped. */
  lemma {:induction false} ResolveKeepsAll<T>(table: seq<T>, hits: seq<int>)
    requires forall j :: 0 <= j < |hits| ==> 0 <= hits[j] < |table|
    ensures Resolve(table, hits).Some? && |Resolve(table, hits).value| == |hits|
  {
    if hits != [] {
      ResolveKeepsAll(table, hits[1..]);
    }
  }

  /** A falsy category, or one that is not a key of `category_chunks`, falls back to global search. */
  lemma UnknownCategoryFallsBack(corpus: CorpusView, search: Search, query: string, category: Option<string>, k: nat)
    requires !Truthy(category) || category.value !in corpus.categoryChunks
    ensures GetRelevantChunks(corpus, search, query, category, k) == GetRelevantChunks(corpus, search, query, None, k)
  {
  }

  /** When every search attempt raises, the result is `[]`. */
  lemma FailingSearchGivesNothing(corpus: CorpusView, search: Search, query: string, category: Option<string>, k: nat)
    requires forall q, ts, n :: search(q, ts, n) == None
    ensures GetRelevantChunks(corpus, search, query, category, k) == []
  {
  }

  /** A search that returns at most `k` hits (as FAISS does) yields at most `k` texts. */
  lemma AtMostK(corpus: CorpusView, search: Search, query: string, category: Option<string>, k: nat)
    requires forall q, ts :: search(q, ts, k).Some? ==> |search(q, ts, k).value| <= k
    ensures |GetRelevantChunks(corpus, search, query, category, k)| <= k
  {
  }

  /** Over a freshly ingested corpus with no chunks, every call returns `[]`. */
  lemma EmptyCorpusGivesNothing(scan: seq<Entry>, search: Search, query: string, category: Option<string>, k: nat)
    requires Ingest(scan).chunkTexts == []
    ensures GetRelevantChunks(Ingest(scan), search, query, category, k) == []
  {
  }

  /** A position whose text is in the list makes `category_indices` non-empty. */
  lemma MatchedPosition(texts: seq<string>, members: seq<string>, i: nat)
    requires i < |texts| && texts[i] in members
    ensures CategoryIndices(texts, members, |texts|) != []
  {
    assert i in CategoryIndices(texts, members, |texts|);
  }

  /** A text of the list that occurs among `texts` makes `category_indices` non-empty. */
  lemma SharedTextMatches(texts: seq<string>, members: seq<string>, t: string)
    requires t in members && t in texts
    ensures CategoryIndices(texts, members, |texts|) != []
  {
    var i :| 0 <= i < |texts| && texts[i] == t;
    MatchedPosition(texts, members, i);
  }

  /** An empty list matches no position. */
  lemma {:induction false} NoMembersNoMatches(texts: seq<string>, n: nat)
    requires n <= |texts|
    ensures CategoryIndices(texts, [], n) == []
  {
    if n > 0 {
      NoMembersNoMatches(texts, n - 1);
    }
  }

  /** When every text of a list occurs among `texts`, it has matching positions exactly when it is non-empty. */
  lemma MatchesIffNonEmpty(texts: seq<string>, members: seq<string>)
    requires forall j :: 0 <= j < |members| ==> members[j] in texts
    ensures CategoryIndices(texts, members, |texts|) != [] <==> members != []
  {
    if members == [] {
      NoMembersNoMatches(texts, |texts|);
    } else {
      SharedTextMatches(texts, members, members[0]);
    }
  }

  /**
   * Over a freshly ingested corpus, a known category has matching positions exactly
   * when its list is non-empty (every category text is one of the stored chunks).
   */
  lemma KnownCategoryMatchesIffNonEmpty(scan: seq<Entry>, cat: string)
    requires cat in Ingest(scan).categoryChunks
    ensures var c := Ingest(scan);
      CategoryIndices(c.chunkTexts, c.categoryChunks[cat], |c.chunkTexts|) != [] <==> c.categoryChunks[cat] != []
  {
    IngestedCorpusWellFormed(scan);
    var c := Ingest(scan);
    MatchesIffNonEmpty(c.chunkTexts, c.categoryChunks[cat]);
  }
}

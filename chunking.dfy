/** The pure and step-by-step parts of ProcessDocumentInChunksUseCase that
    turn a page list into request chunks: the relevance filter, the greedy
    chunk packer, the text sent for one chunk, and the document title. */
module Chunking {
  import opened Domain
  import opened Text

  const PAGES_PER_CHUNK: nat := 15
  const MAX_CHARS_PER_CHUNK: nat := 120000
  const MIN_PAGE_CHARS: nat := 50
  const KEYWORD_PAGE_CHARS: nat := 200
  const MAX_TITLE_CHARS: nat := 100

  const IRRELEVANT_PAGE_KEYWORDS: seq<string> := [
    "bibliografía", "bibliography", "referencias", "references",
    "índice", "index", "tabla de contenido", "table of contents",
    "glosario", "glossary", "apéndice", "appendix",
    "agradecimientos", "acknowledgments", "sobre el autor", "about the author"
  ]

  // ------------------------------------------------------------------
  // Page filter
  // ------------------------------------------------------------------

  predicate IsTooShort(page: PageJson) {
    |Trim(page.content)| < MIN_PAGE_CHARS
  }

  /** The lower-cased, left-trimmed text starts with a keyword and the trimmed
      page is short. */
  predicate IsFullyIrrelevant(page: PageJson) {
    exists k :: 0 <= k < |IRRELEVANT_PAGE_KEYWORDS| &&
      StartsWith(TrimStart(Lower(page.content)), Lower(IRRELEVANT_PAGE_KEYWORDS[k])) &&
      |Trim(page.content)| < KEYWORD_PAGE_CHARS
  }

  predicate ShouldKeep(page: PageJson) {
    !IsTooShort(page) && !IsFullyIrrelevant(page)
  }

  /** `a` is `b` with some elements left out, order kept. */
  predicate IsSubsequence<T(==)>(a: seq<T>, b: seq<T>)
    decreases |b|
  {
    a == [] ||
    (b != [] && ((a[0] == b[0] && IsSubsequence(a[1..], b[1..])) || IsSubsequence(a, b[1..])))
  }

  lemma {:induction false} SubsequenceReflexive<T>(a: seq<T>)
    ensures IsSubsequence(a, a)
    decreases |a|
  {
    if a != [] {
      SubsequenceReflexive(a[1..]);
    }
  }

  /** `pages.filterIndexed { ... shouldKeep }`. */
  function KeepRelevant(pages: seq<PageJson>): (r: seq<PageJson>)
    ensures |r| <= |pages|
    decreases |pages|
  {
    if pages == [] then []
    else
      var rest := KeepRelevant(pages[1..]);
      if ShouldKeep(pages[0]) then [pages[0]] + rest else rest
  }

  /** The filter keeps pages in their order. */
  lemma {:induction false} KeepRelevantOrdered(pages: seq<PageJson>)
    ensures IsSubsequence(KeepRelevant(pages), pages)
    decreases |pages|
  {
    if pages != [] {
      var rest := KeepRelevant(pages[1..]);
      KeepRelevantOrdered(pages[1..]);
      if ShouldKeep(pages[0]) {
        assert ([pages[0]] + rest)[1..] == rest;
      }
    }
  }

  /** Every page the filter keeps passes `shouldKeep`. */
  lemma {:induction false} KeepRelevantSound(pages: seq<PageJson>)
    ensures forall x :: x in KeepRelevant(pages) ==> ShouldKeep(x)
    decreases |pages|
  {
    if pages != [] {
      KeepRelevantSound(pages[1..]);
    }
  }

  /** Every page that passes `shouldKeep` is kept, as many times as it
      occurs, and no other page is: with `KeepRelevantOrdered` this makes
      the result exactly the passing pages in their order. */
  lemma {:induction false} KeepRelevantComplete(pages: seq<PageJson>)
    ensures forall i :: 0 <= i < |pages| && ShouldKeep(pages[i]) ==> pages[i] in KeepRelevant(pages)
    ensures forall x :: multiset(KeepRelevant(pages))[x] == if ShouldKeep(x) then multiset(pages)[x] else 0
    decreases |pages|
  {
    if pages != [] {
      KeepRelevantComplete(pages[1..]);
      forall i | 0 < i < |pages| ensures pages[i] == pages[1..][i - 1] {}
      assert pages == [pages[0]] + pages[1..];
      assert multiset(pages) == multiset{pages[0]} + multiset(pages[1..]);
      if ShouldKeep(pages[0]) {
        assert KeepRelevant(pages) == [pages[0]] + KeepRelevant(pages[1..]);
        assert multiset(KeepRelevant(pages)) == multiset{pages[0]} + multiset(KeepRelevant(pages[1..]));
      }
    }
  }

  /** `filterRelevantPages`: the kept pages, unless fewer than 30% of the
      pages survive, in which case the input is returned unchanged
      (`filtered.size < pages.size * 0.3`, compared here as `10 * kept < 3 * n`). */
  function FilterRelevantPages(pages: seq<PageJson>): (r: seq<PageJson>)
    ensures IsSubsequence(r, pages)
    ensures 10 * |r| >= 3 * |pages|
    ensures 10 * |KeepRelevant(pages)| < 3 * |pages| ==> r == pages
    ensures 10 * |KeepRelevant(pages)| >= 3 * |pages| ==> r == KeepRelevant(pages)
  {
    var filtered := KeepRelevant(pages);
    KeepRelevantOrdered(pages);
    KeepRelevantSound(pages);
    KeepRelevantComplete(pages);
    if 10 * |filtered| < 3 * |pages| then
      SubsequenceReflexive(pages);
      pages
    else
      filtered
  }

  // ------------------------------------------------------------------
  // Greedy chunk packer
  // ------------------------------------------------------------------

  /** `sumOf { it.content.length }`. */
  function SumChars(pages: seq<PageJson>): nat
    decreases |pages|
  {
    if pages == [] then 0 else SumChars(pages[..|pages| - 1]) + |pages[|pages| - 1].content|
  }

  /** The chunk `flushChunk` emits for the pending pages. */
  function MakeChunk(index: nat, pages: seq<PageJson>): ContentChunk
    requires pages != []
  {
    ContentChunk(index, pages[0].pageNumber, pages[|pages| - 1].pageNumber, pages, SumChars(pages))
  }

  /** The packer's variables: the chunks emitted so far, `currentPages` and
      `currentChars`. */
  datatype Packer = Packer(chunks: seq<ContentChunk>, current: seq<PageJson>, chars: int)

  /** `flushChunk()`: emit the pending pages as the next chunk, if any. */
  function Flush(p: Packer): Packer {
    if p.current == [] then p
    else Packer(p.chunks + [MakeChunk(|p.chunks|, p.current)], [], 0)
  }

  /** One iteration of the `for (page in pages)` loop. */
  function Step(p: Packer, page: PageJson): Packer {
    var pageChars := |page.content|;
    var wouldExceedChars := p.chars + pageChars > MAX_CHARS_PER_CHUNK;
    var wouldExceedPages := |p.current| >= PAGES_PER_CHUNK;
    var q := if p.current != [] && (wouldExceedChars || wouldExceedPages) then Flush(p) else p;
    var q' := Packer(q.chunks, q.current + [page], q.chars + pageChars);
    if |q'.current| == 1 && q'.chars > MAX_CHARS_PER_CHUNK then Flush(q') else q'
  }

  /** The packer's variables after the loop has consumed `pages`. */
  function Pack(pages: seq<PageJson>): Packer
    decreases |pages|
  {
    if pages == [] then Packer([], [], 0) else Step(Pack(pages[..|pages| - 1]), pages[|pages| - 1])
  }

  /** What `createChunks` returns: the loop, then a final flush. */
  function ChunksOf(pages: seq<PageJson>): seq<ContentChunk> {
    Flush(Pack(pages)).chunks
  }

  /** The pages of all chunks, concatenated in order. */
  function Flatten(chunks: seq<ContentChunk>): seq<PageJson>
    decreases |chunks|
  {
    if chunks == [] then [] else Flatten(chunks[..|chunks| - 1]) + chunks[|chunks| - 1].pages
  }

  /** A chunk at position `k`: numbered `k`, non-empty, at most 15 pages,
      first/last page numbers and character total taken from its pages, and
      over the character budget only when it holds a single page. */
  predicate WellFormedChunk(c: ContentChunk, k: int) {
    && c.chunkIndex == k
    && c.pages != []
    && |c.pages| <= PAGES_PER_CHUNK
    && c.startPage == c.pages[0].pageNumber
    && c.endPage == c.pages[|c.pages| - 1].pageNumber
    && c.totalCharacters == SumChars(c.pages)
    && (c.totalCharacters <= MAX_CHARS_PER_CHUNK || |c.pages| == 1)
  }

  /** The greedy packer closes a chunk only when the next page would not fit. */
  predicate CannotTake(c: ContentChunk, next: PageJson) {
    |c.pages| >= PAGES_PER_CHUNK || c.totalCharacters + |next.content| > MAX_CHARS_PER_CHUNK
  }

  /** `c` could not have taken the first page of `d`. */
  predicate CannotJoin(c: ContentChunk, d: ContentChunk) {
    d.pages != [] && CannotTake(c, d.pages[0])
  }

  ghost predicate ChunksWellFormed(chunks: seq<ContentChunk>) {
    forall k :: 0 <= k < |chunks| ==> WellFormedChunk(chunks[k], k)
  }

  /** Every chunk but the last was closed because the following page did not fit. */
  ghost predicate Maximal(chunks: seq<ContentChunk>) {
    forall i :: 0 <= i < |chunks| - 1 ==> CannotJoin(chunks[i], chunks[i + 1])
  }

  /** A non-empty pending list could not have joined the last chunk; an empty
      one means the last chunk was emitted for being over the budget. */
  ghost predicate PendingAfter(chunks: seq<ContentChunk>, current: seq<PageJson>) {
    if current == [] then chunks == [] || chunks[|chunks| - 1].totalCharacters > MAX_CHARS_PER_CHUNK
    else chunks == [] || CannotTake(chunks[|chunks| - 1], current[0])
  }

  /** What holds of the packer's variables after each page: the chunks and
      the pending pages together are the pages consumed; every chunk is well
      formed and maximal; the pending list is short enough, its character count
      is right and within the budget, and it sits right after the last chunk. */
  ghost predicate PackerInv(p: Packer, consumed: seq<PageJson>) {
    && Flatten(p.chunks) + p.current == consumed
    && ChunksWellFormed(p.chunks)
    && Maximal(p.chunks)
    && |p.current| <= PAGES_PER_CHUNK
    && p.chars == SumChars(p.current)
    && p.chars <= MAX_CHARS_PER_CHUNK
    && PendingAfter(p.chunks, p.current)
  }

  lemma {:induction false} FlattenAppend(chunks: seq<ContentChunk>, c: ContentChunk)
    ensures Flatten(chunks + [c]) == Flatten(chunks) + c.pages
  {
    assert (chunks + [c])[..|chunks|] == chunks;
  }

  lemma {:induction false} SumCharsAppend(pages: seq<PageJson>, page: PageJson)
    ensures SumChars(pages + [page]) == SumChars(pages) + |page.content|
  {
    assert (pages + [page])[..|pages|] == pages;
  }

  /** Emitting the pending pages keeps every chunk well formed and maximal,
      provided the last chunk could not have taken the first pending page. */
  lemma {:induction false} FlushKeeps(p: Packer, consumed: seq<PageJson>)
    requires Flatten(p.chunks) + p.current == consumed
    requires ChunksWellFormed(p.chunks) && Maximal(p.chunks)
    requires p.current != [] && |p.current| <= PAGES_PER_CHUNK
    requires p.chars == SumChars(p.current)
    requires p.chars <= MAX_CHARS_PER_CHUNK || |p.current| == 1
    requires p.chunks != [] ==> CannotTake(p.chunks[|p.chunks| - 1], p.current[0])
    ensures Flatten(Flush(p).chunks) == consumed
    ensures ChunksWellFormed(Flush(p).chunks) && Maximal(Flush(p).chunks)
    ensures Flush(p) == Packer(p.chunks + [MakeChunk(|p.chunks|, p.current)], [], 0)
  {
    var c := MakeChunk(|p.chunks|, p.current);
    var cs := p.chunks + [c];
    FlattenAppend(p.chunks, c);
    assert WellFormedChunk(c, |p.chunks|);
    forall k | 0 <= k < |cs| ensures WellFormedChunk(cs[k], k) {
      if k < |p.chunks| { assert cs[k] == p.chunks[k]; }
    }
    forall i | 0 <= i < |cs| - 1 ensures CannotJoin(cs[i], cs[i + 1]) {
      if i + 1 < |p.chunks| {
        assert cs[i] == p.chunks[i] && cs[i + 1] == p.chunks[i + 1];
      } else {
        assert cs[i] == p.chunks[|p.chunks| - 1];
      }
    }
  }

  /** A page that starts a new pending list, because the last chunk could not
      take it, and fits the budget on its own. */
  lemma {:induction false} OpenSmallKeeps(chunks: seq<ContentChunk>, consumed: seq<PageJson>, page: PageJson)
    requires Flatten(chunks) == consumed
    requires ChunksWellFormed(chunks) && Maximal(chunks)
    requires chunks != [] ==> CannotTake(chunks[|chunks| - 1], page)
    requires |page.content| <= MAX_CHARS_PER_CHUNK
    ensures PackerInv(Packer(chunks, [page], |page.content|), consumed + [page])
  {
    SumCharsAppend([], page);
    assert [] + [page] == [page];
  }

  /** Nothing pending after a chunk that is over the budget. */
  lemma {:induction false} EmptyPendingKeeps(chunks: seq<ContentChunk>, consumed: seq<PageJson>)
    requires Flatten(chunks) == consumed
    requires ChunksWellFormed(chunks) && Maximal(chunks)
    requires chunks != [] && chunks[|chunks| - 1].totalCharacters > MAX_CHARS_PER_CHUNK
    ensures PackerInv(Packer(chunks, [], 0), consumed)
  {
    assert Flatten(chunks) + [] == Flatten(chunks);
  }

  /** A page that starts a new pending list and alone is over the budget:
      it is emitted at once as a chunk of its own. */
  lemma {:induction false} OpenLargeKeeps(chunks: seq<ContentChunk>, consumed: seq<PageJson>, page: PageJson)
    requires Flatten(chunks) == consumed
    requires ChunksWellFormed(chunks) && Maximal(chunks)
    requires chunks != [] ==> CannotTake(chunks[|chunks| - 1], page)
    requires |page.content| > MAX_CHARS_PER_CHUNK
    ensures PackerInv(Flush(Packer(chunks, [page], |page.content|)), consumed + [page])
  {
    var q := Packer(chunks, [page], |page.content|);
    SumCharsAppend([], page);
    assert [] + [page] == [page];
    FlushKeeps(q, consumed + [page]);
    var c := MakeChunk(|chunks|, [page]);
    assert Flush(q) == Packer(chunks + [c], [], 0);
    EmptyPendingKeeps(chunks + [c], consumed + [page]);
  }

  /** A page that starts a new pending list, because the last chunk could not
      take it; if it alone is over the budget it is emitted at once. */
  lemma {:induction false} OpenKeeps(chunks: seq<ContentChunk>, consumed: seq<PageJson>, page: PageJson)
    requires Flatten(chunks) == consumed
    requires ChunksWellFormed(chunks) && Maximal(chunks)
    requires chunks != [] ==> CannotTake(chunks[|chunks| - 1], page)
    ensures var q := Packer(chunks, [page], |page.content|);
      var r := if |page.content| > MAX_CHARS_PER_CHUNK then Flush(q) else q;
      PackerInv(r, consumed + [page])
  {
    if |page.content| > MAX_CHARS_PER_CHUNK {
      OpenLargeKeeps(chunks, consumed, page);
    } else {
      OpenSmallKeeps(chunks, consumed, page);
    }
  }

  /** A page that joins the pending list because it fits. */
  lemma {:induction false} ExtendKeeps(p: Packer, consumed: seq<PageJson>, page: PageJson)
    requires PackerInv(p, consumed)
    requires p.current != [] && |p.current| < PAGES_PER_CHUNK
    requires p.chars + |page.content| <= MAX_CHARS_PER_CHUNK
    ensures var r := Packer(p.chunks, p.current + [page], p.chars + |page.content|);
      PackerInv(r, consumed + [page])
  {
    SumCharsAppend(p.current, page);
    assert (p.current + [page])[0] == p.current[0];
  }

  lemma {:induction false} StepAfterEmpty(p: Packer, consumed: seq<PageJson>, page: PageJson)
    requires PackerInv(p, consumed) && p.current == []
    ensures PackerInv(Step(p, page), consumed + [page])
  {
    var q := Packer(p.chunks, [page], |page.content|);
    assert Step(p, page) == if |page.content| > MAX_CHARS_PER_CHUNK then Flush(q) else q;
    OpenKeeps(p.chunks, consumed, page);
  }

  lemma {:induction false} StepAfterFlush(p: Packer, consumed: seq<PageJson>, page: PageJson)
    requires PackerInv(p, consumed) && p.current != []
    requires p.chars + |page.content| > MAX_CHARS_PER_CHUNK || |p.current| >= PAGES_PER_CHUNK
    ensures PackerInv(Step(p, page), consumed + [page])
  {
    FlushKeeps(p, consumed);
    var f := Flush(p);
    assert f.chunks[|f.chunks| - 1] == MakeChunk(|p.chunks|, p.current);
    var q := Packer(f.chunks, [page], |page.content|);
    assert Step(p, page) == if |page.content| > MAX_CHARS_PER_CHUNK then Flush(q) else q;
    OpenKeeps(f.chunks, consumed, page);
  }

  lemma {:induction false} StepKeeps(p: Packer, consumed: seq<PageJson>, page: PageJson)
    requires PackerInv(p, consumed)
    ensures PackerInv(Step(p, page), consumed + [page])
  {
    if p.current == [] {
      StepAfterEmpty(p, consumed, page);
    } else if p.chars + |page.content| > MAX_CHARS_PER_CHUNK || |p.current| >= PAGES_PER_CHUNK {
      StepAfterFlush(p, consumed, page);
    } else {
      assert Step(p, page) == Packer(p.chunks, p.current + [page], p.chars + |page.content|);
      ExtendKeeps(p, consumed, page);
    }
  }

  lemma {:induction false} PackKeeps(pages: seq<PageJson>)
    ensures PackerInv(Pack(pages), pages)
    decreases |pages|
  {
    if pages != [] {
      var init := pages[..|pages| - 1];
      PackKeeps(init);
      StepKeeps(Pack(init), init, pages[|pages| - 1]);
      assert init + [pages[|pages| - 1]] == pages;
    }
  }

  /** The chunking contract: the chunks' pages, concatenated, are exactly the
      input pages in order; every chunk is well formed at its position; every
      chunk but the last was closed because the next page did not fit; and
      there are no chunks exactly when there are no pages. */
  lemma {:induction false} ChunksOfCorrect(pages: seq<PageJson>)
    ensures Flatten(ChunksOf(pages)) == pages
    ensures ChunksWellFormed(ChunksOf(pages))
    ensures Maximal(ChunksOf(pages))
    ensures ChunksOf(pages) == [] <==> pages == []
  {
    var p := Pack(pages);
    PackKeeps(pages);
    if p.current != [] {
      FlushKeeps(p, pages);
    }
    if ChunksOf(pages) != [] {
      var cs := ChunksOf(pages);
      FlattenAppend(cs[..|cs| - 1], cs[|cs| - 1]);
      assert cs[..|cs| - 1] + [cs[|cs| - 1]] == cs;
    }
  }

  lemma {:induction false} FlattenContains(chunks: seq<ContentChunk>, k: int, x: PageJson)
    requires 0 <= k < |chunks| && x in chunks[k].pages
    ensures x in Flatten(chunks)
    decreases |chunks|
  {
    if k < |chunks| - 1 {
      FlattenContains(chunks[..|chunks| - 1], k, x);
    }
  }

  lemma {:induction false} SumCharsBound(pages: seq<PageJson>, bound: nat)
    requires forall x :: x in pages ==> |x.content| <= bound
    ensures SumChars(pages) <= |pages| * bound
    decreases |pages|
  {
    if pages != [] {
      SumCharsBound(pages[..|pages| - 1], bound);
      assert pages[|pages| - 1] in pages;
    }
  }

  /** A chunk of short pages that could not take the next short page is
      full: its character total is too small to be the reason. */
  lemma {:induction false} ClosedShortChunkIsFull(c: ContentChunk, k: int, next: PageJson)
    requires WellFormedChunk(c, k) && CannotTake(c, next)
    requires forall x :: x in c.pages ==> |x.content| * PAGES_PER_CHUNK <= MAX_CHARS_PER_CHUNK
    requires |next.content| * PAGES_PER_CHUNK <= MAX_CHARS_PER_CHUNK
    ensures |c.pages| == PAGES_PER_CHUNK
  {
    SumCharsBound(c.pages, MAX_CHARS_PER_CHUNK / PAGES_PER_CHUNK);
  }

  /** Well-formed, maximal chunks of short pages are full, all but the last. */
  lemma {:induction false} MaximalShortChunksAreFull(cs: seq<ContentChunk>, pages: seq<PageJson>)
    requires Flatten(cs) == pages && ChunksWellFormed(cs) && Maximal(cs)
    requires forall x :: x in pages ==> |x.content| * PAGES_PER_CHUNK <= MAX_CHARS_PER_CHUNK
    ensures forall k :: 0 <= k < |cs| - 1 ==> |cs[k].pages| == PAGES_PER_CHUNK
  {
    forall k | 0 <= k < |cs| - 1 ensures |cs[k].pages| == PAGES_PER_CHUNK {
      assert WellFormedChunk(cs[k], k) && WellFormedChunk(cs[k + 1], k + 1);
      assert CannotJoin(cs[k], cs[k + 1]);
      forall x | x in cs[k].pages ensures x in pages {
        FlattenContains(cs, k, x);
      }
      FlattenContains(cs, k + 1, cs[k + 1].pages[0]);
      ClosedShortChunkIsFull(cs[k], k, cs[k + 1].pages[0]);
    }
  }

  /** When no page exceeds a fifteenth of the character budget (8 000
      characters), only the page limit closes chunks: every chunk but the last
      holds exactly 15 pages. */
  lemma {:induction false} ShortPagesGiveFullChunks(pages: seq<PageJson>)
    requires forall x :: x in pages ==> |x.content| * PAGES_PER_CHUNK <= MAX_CHARS_PER_CHUNK
    ensures var cs := ChunksOf(pages);
      forall k :: 0 <= k < |cs| - 1 ==> |cs[k].pages| == PAGES_PER_CHUNK
  {
    ChunksOfCorrect(pages);
    MaximalShortChunksAreFull(ChunksOf(pages), pages);
  }

  /** `createChunks`: the loop over the pages with the pending list, its
      character count, and `flushChunk`. */
  method CreateChunks(pages: seq<PageJson>) returns (chunks: seq<ContentChunk>)
    ensures chunks == ChunksOf(pages)
  {
    chunks := [];
    var currentPages: seq<PageJson> := [];
    var currentChars := 0;
    for i := 0 to |pages|
      invariant Packer(chunks, currentPages, currentChars) == Pack(pages[..i])
    {
      var page := pages[i];
      assert pages[..i + 1][..i] == pages[..i];
      var pageChars := |page.content|;
      var wouldExceedChars := currentChars + pageChars > MAX_CHARS_PER_CHUNK;
      var wouldExceedPages := |currentPages| >= PAGES_PER_CHUNK;
      if currentPages != [] && (wouldExceedChars || wouldExceedPages) {
        chunks, currentPages, currentChars := FlushChunk(chunks, currentPages, currentChars);
      }
      currentPages := currentPages + [page];
      currentChars := currentChars + pageChars;
      if |currentPages| == 1 && currentChars > MAX_CHARS_PER_CHUNK {
        chunks, currentPages, currentChars := FlushChunk(chunks, currentPages, currentChars);
      }
    }
    assert pages[..|pages|] == pages;
    chunks, currentPages, currentChars := FlushChunk(chunks, currentPages, currentChars);
  }

  /** `flushChunk()`, on the packer's variables. */
  method FlushChunk(chunks: seq<ContentChunk>, currentPages: seq<PageJson>, currentChars: int)
    returns (chunks': seq<ContentChunk>, currentPages': seq<PageJson>, currentChars': int)
    ensures Packer(chunks', currentPages', currentChars') == Flush(Packer(chunks, currentPages, currentChars))
    ensures currentPages' == []
    ensures currentPages != [] ==> |chunks'| == |chunks| + 1 && chunks'[|chunks|].pages == currentPages
  {
    if currentPages == [] {
      return chunks, currentPages, currentChars;
    }
    var totalChars := SumChars(currentPages);
    var chunk := ContentChunk(|chunks|, currentPages[0].pageNumber, currentPages[|currentPages| - 1].pageNumber,
                              currentPages, totalChars);
    chunks' := chunks + [chunk];
    currentPages' := [];
    currentChars' := 0;
  }

  // ------------------------------------------------------------------
  // The text sent for one chunk
  // ------------------------------------------------------------------

  function ChunkHeader(c: ContentChunk): string {
    "=== DOCUMENTO: PÁGINAS " + IntToString(c.startPage) + "-" + IntToString(c.endPage) + " ===\n" + "\n"
  }

  function PageHeader(p: PageJson): string {
    "--- PÁGINA " + IntToString(p.pageNumber) + " ---\n"
  }

  /** The lines appended for one page: its header, its text, an empty line. */
  function PageBlock(p: PageJson): string {
    PageHeader(p) + p.content + "\n\n"
  }

  function PageBlocks(pages: seq<PageJson>): string {
    ConcatMap(pages, PageBlock)
  }

  /** `buildChunkContent`. */
  function BuildChunkContent(c: ContentChunk): string {
    ChunkHeader(c) + PageBlocks(c.pages)
  }

  /** Every page's text appears whole in the chunk text, after the blocks of
      the pages before it and its own header line. */
  lemma {:induction false} ChunkContentEmbedsPage(c: ContentChunk, k: int)
    requires 0 <= k < |c.pages|
    ensures var s := BuildChunkContent(c);
      var off := |ChunkHeader(c)| + |PageBlocks(c.pages[..k])| + |PageHeader(c.pages[k])|;
      off + |c.pages[k].content| <= |s| && s[off..off + |c.pages[k].content|] == c.pages[k].content
  {
    var ps := c.pages;
    var prefix := ChunkHeader(c) + PageBlocks(ps[..k]) + PageHeader(ps[k]);
    var rest := "\n\n" + PageBlocks(ps[k + 1..]);
    ConcatMapAt(ps, k, PageBlock);
    Regroup(ChunkHeader(c), PageBlocks(ps[..k]), PageHeader(ps[k]), ps[k].content, "\n\n", PageBlocks(ps[k + 1..]));
    SliceOfMiddle(prefix, ps[k].content, rest);
  }

  // ------------------------------------------------------------------
  // Title
  // ------------------------------------------------------------------

  /** `firstOrNull { it.trim().isNotEmpty() }`. */
  function FirstNonBlankLine(lines: seq<string>): (r: Option<string>)
    ensures r.Some? ==> r.value in lines && !IsBlank(r.value)
    ensures r.Some? ==>
      exists i :: 0 <= i < |lines| && lines[i] == r.value && (forall j :: 0 <= j < i ==> IsBlank(lines[j]))
    ensures r.None? <==> forall i :: 0 <= i < |lines| ==> IsBlank(lines[i])
    decreases |lines|
  {
    if lines == [] then None
    else
      BlankIffTrimEmpty(lines[0]);
      if Trim(lines[0]) != [] then Some(lines[0])
      else
        var r := FirstNonBlankLine(lines[1..]);
        if r.Some? then
          var k :| 0 <= k < |lines[1..]| && lines[1..][k] == r.value && forall j :: 0 <= j < k ==> IsBlank(lines[1..][j]);
          assert lines[k + 1] == r.value;
          assert forall j :: 0 <= j < k + 1 ==> IsBlank(lines[j]) by {
            forall j | 0 < j < k + 1 ensures IsBlank(lines[j]) { assert lines[j] == lines[1..][j - 1]; }
          }
          r
        else
          r
  }

  /** The text of the first page, or "" for a document without pages. */
  function FirstPageText(doc: DocumentJson): string {
    if |doc.pages| > 0 then doc.pages[0].content else ""
  }

  /** `extractTitle`: the first non-blank line of the first page, cut to 100
      characters; otherwise the file name without ".pdf". */
  function ExtractTitle(doc: DocumentJson): (r: string)
    ensures FirstNonBlankLine(Lines(FirstPageText(doc))).Some? ==>
      var line := FirstNonBlankLine(Lines(FirstPageText(doc))).value;
      r == line[..if |line| <= MAX_TITLE_CHARS then |line| else MAX_TITLE_CHARS]
    ensures FirstNonBlankLine(Lines(FirstPageText(doc))).None? ==> r == RemoveSuffix(doc.filename, ".pdf")
  {
    match FirstNonBlankLine(Lines(FirstPageText(doc)))
    case Some(line) => Take(line, MAX_TITLE_CHARS)
    case None => RemoveSuffix(doc.filename, ".pdf")
  }
}

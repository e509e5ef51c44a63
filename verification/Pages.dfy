/** Splitting a document into page ranges, and putting the pages together again. */
module Pages {
  import opened Types

  /** max(1, ceil(pages / size)), with exact integer division. */
  function ShardCount(pages: nat, size: nat): nat
    requires size >= 1
  {
    var c := (pages + size - 1) / size;
    if c < 1 then 1 else c
  }

  function RangeStart(idx: nat, size: nat): nat {
    idx * size
  }

  function RangeEnd(idx: nat, pages: nat, size: nat): nat {
    if idx * size + size < pages then idx * size + size else pages
  }

  function OcrRange(ocr: seq<string>, start: nat, end: nat): seq<Page>
    requires start <= end <= |ocr|
  {
    seq(end - start, k requires 0 <= k < end - start => Page(start + k, ocr[start + k]))
  }

  /** The pages of one direct pass over the whole document. */
  function AllPages(texts: seq<string>): seq<Page> {
    OcrRange(texts, 0, |texts|)
  }

  // ---- The ranges partition the pages ----

  lemma MulMono(a: nat, b: nat, s: nat)
    requires a <= b
    ensures a * s <= b * s
  {
  }

  /** Every start lies inside the document (or at 0 when there are no pages). */
  lemma RangeInside(idx: nat, pages: nat, size: nat)
    requires size >= 1 && idx < ShardCount(pages, size)
    ensures RangeStart(idx, size) <= RangeEnd(idx, pages, size) <= pages
    ensures pages > 0 ==> RangeStart(idx, size) < RangeEnd(idx, pages, size)
  {
    var c := (pages + size - 1) / size;
    if pages == 0 {
      assert c == 0 by { DivSmall(size - 1, size); }
      assert idx == 0;
    } else {
      assert idx <= c - 1 by { if c < 1 { DivPos(pages, size); } }
      MulMono(idx, c - 1, size);
      assert c * size <= pages + size - 1;
      assert (c - 1) * size == c * size - size;
    }
  }

  lemma DivSmall(x: nat, s: nat)
    requires x < s
    ensures x / s == 0
  {
  }

  lemma DivPos(pages: nat, s: nat)
    requires pages >= 1 && s >= 1
    ensures (pages + s - 1) / s >= 1
  {
  }

  /** Consecutive ranges touch, the last one ends at the last page. */
  lemma RangesAdjacent(idx: nat, pages: nat, size: nat)
    requires size >= 1 && idx < ShardCount(pages, size)
    ensures RangeStart(0, size) == 0
    ensures idx + 1 < ShardCount(pages, size) ==> RangeEnd(idx, pages, size) == RangeStart(idx + 1, size)
    ensures idx + 1 == ShardCount(pages, size) ==> RangeEnd(idx, pages, size) == pages
  {
    if idx + 1 < ShardCount(pages, size) {
      RangeInside(idx + 1, pages, size);
      assert (idx + 1) * size == idx * size + size;
    } else {
      var c := (pages + size - 1) / size;
      assert pages + size - 1 == size * c + (pages + size - 1) % size;
      if c >= 1 {
        assert idx * size + size == c * size;
      } else {
        assert size * c == 0;
      }
    }
  }

  lemma DivBounds(x: nat, s: nat)
    requires s >= 1
    ensures (x / s) * s <= x < (x / s + 1) * s
  {
    assert x == s * (x / s) + x % s;
    assert (x / s + 1) * s == (x / s) * s + s;
  }

  lemma PageBelowCount(pages: nat, size: nat, p: nat)
    requires size >= 1 && p < pages
    ensures p / size < ShardCount(pages, size)
  {
    var c := (pages + size - 1) / size;
    DivBounds(p, size);
    DivBounds(pages + size - 1, size);
    assert (c + 1) * size == c * size + size;
    if c <= p / size {
      MulMono(c, p / size, size);
      assert false;
    }
  }

  /** Range idx holds page p exactly when idx is p / size. */
  lemma InRange(idx: nat, pages: nat, size: nat, p: nat)
    requires size >= 1 && p < pages
    ensures RangeStart(idx, size) <= p < RangeEnd(idx, pages, size) <==> idx == p / size
  {
    var q := p / size;
    DivBounds(p, size);
    assert (idx + 1) * size == idx * size + size;
    if idx < q {
      MulMono(idx + 1, q, size);
    } else if idx > q {
      MulMono(q + 1, idx, size);
    }
  }

  /** Each page lies in exactly one range. */
  lemma RangesPartition(pages: nat, size: nat, p: nat)
    requires size >= 1 && p < pages
    ensures p / size < ShardCount(pages, size)
    ensures forall idx: nat | idx < ShardCount(pages, size) ::
              (RangeStart(idx, size) <= p < RangeEnd(idx, pages, size) <==> idx == p / size)
  {
    hide ShardCount, RangeStart, RangeEnd;
    PageBelowCount(pages, size, p);
    forall idx: nat | idx < ShardCount(pages, size)
      ensures RangeStart(idx, size) <= p < RangeEnd(idx, pages, size) <==> idx == p / size
    {
      InRange(idx, pages, size, p);
    }
  }

  lemma ShardCountOne(pages: nat, size: nat)
    requires size >= 1
    ensures pages <= size <==> ShardCount(pages, size) == 1
    ensures ShardCount(pages, size) >= 1
  {
    var c := (pages + size - 1) / size;
    assert pages + size - 1 == size * c + (pages + size - 1) % size;
    if c >= 2 {
      MulMono(2, c, size);
    }
  }

  // ---- Reassembly ----

  function InsertPage(p: Page, ps: seq<Page>): seq<Page> {
    if ps == [] then [p]
    else if p.no <= ps[0].no then [p] + ps
    else [ps[0]] + InsertPage(p, ps[1..])
  }

  /** Stable sort by page number. */
  function SortPages(ps: seq<Page>): (r: seq<Page>)
    ensures |r| == |ps|
  {
    if ps == [] then [] else
      InsertLength(ps[0], SortPages(ps[1..]));
      InsertPage(ps[0], SortPages(ps[1..]))
  }

  lemma InsertLength(p: Page, ps: seq<Page>)
    ensures |InsertPage(p, ps)| == |ps| + 1
  {
  }

  predicate SortedPages(ps: seq<Page>) {
    forall i, j | 0 <= i < j < |ps| :: ps[i].no <= ps[j].no
  }

  lemma {:induction false} InsertKeeps(p: Page, ps: seq<Page>)
    ensures multiset(InsertPage(p, ps)) == multiset(ps) + multiset{p}
  {
    if ps != [] && p.no > ps[0].no {
      InsertKeeps(p, ps[1..]);
      assert ps == [ps[0]] + ps[1..];
    }
  }

  lemma {:induction false} InsertSorted(p: Page, ps: seq<Page>)
    requires SortedPages(ps)
    ensures SortedPages(InsertPage(p, ps))
  {
    if ps != [] && p.no > ps[0].no {
      InsertSorted(p, ps[1..]);
      InsertKeeps(p, ps[1..]);
      var rest := InsertPage(p, ps[1..]);
      forall k | 0 <= k < |rest| ensures ps[0].no <= rest[k].no {
        assert rest[k] in multiset(rest);
        assert rest[k] == p || rest[k] in ps[1..];
      }
    }
  }

  /** The sort orders the pages and neither loses nor invents one. */
  lemma {:induction false} SortCorrect(ps: seq<Page>)
    ensures SortedPages(SortPages(ps))
    ensures multiset(SortPages(ps)) == multiset(ps)
  {
    if ps != [] {
      SortCorrect(ps[1..]);
      InsertSorted(ps[0], SortPages(ps[1..]));
      InsertKeeps(ps[0], SortPages(ps[1..]));
      assert ps == [ps[0]] + ps[1..];
    }
  }

  /** The pages of one number, in their order. */
  function WithNumber(ps: seq<Page>, no: nat): seq<Page> {
    if ps == [] then [] else (if ps[0].no == no then [ps[0]] else []) + WithNumber(ps[1..], no)
  }

  lemma {:induction false} InsertStable(p: Page, ps: seq<Page>, no: nat)
    ensures WithNumber(InsertPage(p, ps), no) == (if p.no == no then [p] else []) + WithNumber(ps, no)
  {
    if ps == [] || p.no <= ps[0].no {
      assert InsertPage(p, ps)[1..] == ps;
    } else {
      InsertStable(p, ps[1..], no);
      var rest, tail := InsertPage(p, ps[1..]), WithNumber(ps[1..], no);
      assert InsertPage(p, ps) == [ps[0]] + rest && InsertPage(p, ps)[1..] == rest;
      var head := if ps[0].no == no then [ps[0]] else [];
      var mine := if p.no == no then [p] else [];
      assert head == [] || mine == [];
      assert head + (mine + tail) == mine + (head + tail);
    }
  }

  /** It is stable: pages of the same number stay in their order. */
  lemma {:induction false} SortStable(ps: seq<Page>, no: nat)
    ensures WithNumber(SortPages(ps), no) == WithNumber(ps, no)
  {
    if ps != [] {
      SortStable(ps[1..], no);
      InsertStable(ps[0], SortPages(ps[1..]), no);
    }
  }

  lemma {:induction false} SortIdentity(ps: seq<Page>)
    requires SortedPages(ps)
    ensures SortPages(ps) == ps
  {
    if ps != [] {
      SortIdentity(ps[1..]);
      if |ps| > 1 {
        assert ps[0].no <= ps[1].no;
      }
      assert ps == [ps[0]] + ps[1..];
    }
  }

  lemma SortFrom(ps: seq<Page>, i: nat)
    requires i < |ps|
    ensures SortPages(ps[i..]) == InsertPage(ps[i], SortPages(ps[i + 1..]))
  {
    assert ps[i..][1..] == ps[i + 1..];
  }

  /** pages.sort(key = page_no), in place. */
  method SortInPlace(a: array<Page>)
    modifies a
    ensures a[..] == SortPages(old(a[..]))
  {
    var i := a.Length;
    ghost var was := a[..];
    assert was[i..] == [];
    assert a[i..] == SortPages(was[i..]);
    hide SortPages, InsertPage;
    while i > 0
      invariant 0 <= i <= a.Length == |was|
      invariant a[..i] == was[..i]
      invariant a[i..] == SortPages(was[i..])
    {
      i := i - 1;
      assert a[i] == was[i] && a[..i] == was[..i];
      SortFrom(was, i);
      SortStep(a, i);
    }
    assert a[..] == a[0..];
    assert was[0..] == was;
  }

  lemma {:induction false} InsertAt(p: Page, s: seq<Page>, m: nat)
    requires m <= |s|
    requires forall k | 0 <= k < m :: s[k].no < p.no
    requires m < |s| ==> p.no <= s[m].no
    ensures InsertPage(p, s) == s[..m] + [p] + s[m..]
  {
    if m > 0 {
      InsertAt(p, s[1..], m - 1);
      assert s[..m] == [s[0]] + s[1..][..m - 1];
      assert s[m..] == s[1..][m - 1..];
    }
  }

  /** Moves a[i] rightwards to its place in the sorted suffix a[i+1..]. */
  method SortStep(a: array<Page>, i: nat)
    requires i < a.Length
    modifies a
    ensures a[..i] == old(a[..i])
    ensures a[i..] == InsertPage(old(a[i]), old(a[i + 1..]))
  {
    ghost var was := a[..];
    var p := a[i];
    var j := i;
    while j + 1 < a.Length && a[j + 1].no < p.no
      invariant i <= j < a.Length
      invariant forall k | 0 <= k < i || j < k < a.Length :: a[k] == was[k]
      invariant forall k | i <= k < j :: a[k] == was[k + 1] && was[k + 1].no < p.no
      invariant a[j] == p
    {
      assert a[j + 1] == was[j + 1];
      a[j], a[j + 1] := a[j + 1], a[j];
      j := j + 1;
    }
    assert j + 1 < a.Length ==> a[j + 1] == was[j + 1];
    ghost var now := a[..];
    assert was[i] == p && now[j] == p;
    forall k | i <= k < j ensures now[k] == was[k + 1] && was[k + 1].no < was[i].no {
      assert now[k] == a[k];
    }
    Placed(was, now, i, j);
  }

  /** Moving was[i] to place j, behind everything smaller, has inserted it in the suffix. */
  lemma Placed(was: seq<Page>, now: seq<Page>, i: nat, j: nat)
    requires i <= j < |was| == |now| && now[j] == was[i]
    requires forall k | i <= k < j :: now[k] == was[k + 1] && was[k + 1].no < was[i].no
    requires forall k | 0 <= k < i || j < k < |was| :: now[k] == was[k]
    requires j + 1 < |was| ==> was[i].no <= was[j + 1].no
    ensures now[..i] == was[..i] && now[i..] == InsertPage(was[i], was[i + 1..])
  {
    var s := was[i + 1..];
    forall k | 0 <= k < j - i ensures s[k] == now[i + k] && s[k].no < was[i].no {
      assert now[i + k] == was[i + k + 1];
    }
    InsertAt(was[i], s, j - i);
    assert now[i..] == s[..j - i] + [was[i]] + s[j - i..];
  }

  // ---- The object store ----

  /** Shard outputs 0..total-1 concatenated in shard order; None when one is missing. */
  function Gather(outs: map<(DocId, nat), seq<Page>>, d: DocId, total: nat): Option<seq<Page>> {
    if total == 0 then Some([])
    else match Gather(outs, d, total - 1)
      case None => None
      case Some(ps) => if (d, total - 1) in outs then Some(ps + outs[(d, total - 1)]) else None
  }

  function EnsureAssembledSpec(outs: map<(DocId, nat), seq<Page>>, asm: map<DocId, seq<Page>>, d: DocId,
      total: nat): Option<seq<Page>> {
    if d in asm then Some(asm[d])
    else match Gather(outs, d, total)
      case None => None
      case Some(ps) => Some(SortPages(ps))
  }

  /** Objects at deterministic paths: shard outputs and assembled artifacts. */
  class ObjectStore {
    var outs: map<(DocId, nat), seq<Page>>
    var asm: map<DocId, seq<Page>>

    constructor ()
      ensures outs == map[] && asm == map[]
    {
      outs, asm := map[], map[];
    }

    method WriteShardOutput(d: DocId, idx: nat, pages: seq<Page>)
      modifies this`outs
      ensures outs == old(outs)[(d, idx) := pages]
    {
      outs := outs[(d, idx) := pages];
    }

    method WriteAssembled(d: DocId, pages: seq<Page>)
      modifies this`asm
      ensures asm == old(asm)[d := pages]
    {
      asm := asm[d := pages];
    }

    /** Returns the artifact, assembling it from the shard outputs when it is absent;
        None stands for a missing shard output. */
    method EnsureAssembled(d: DocId, shardsTotal: nat) returns (r: Option<seq<Page>>)
      modifies this`asm
      ensures r == EnsureAssembledSpec(outs, old(asm), d, shardsTotal)
      ensures asm == if r.Some? then old(asm)[d := r.value] else old(asm)
    {
      if d in asm {
        assert asm == asm[d := asm[d]];
        return Some(asm[d]);
      }
      var pages: seq<Page> := [];
      for idx := 0 to shardsTotal
        invariant Gather(outs, d, idx) == Some(pages)
      {
        if (d, idx) !in outs {
          GatherStops(outs, d, idx, shardsTotal);
          return None;
        }
        assert Gather(outs, d, idx + 1) == Some(pages + outs[(d, idx)]);
        pages := pages + outs[(d, idx)];
      }
      var list := new Page[|pages|](i requires 0 <= i < |pages| => pages[i]);
      assert list[..] == pages;
      SortInPlace(list);
      WriteAssembled(d, list[..]);
      r := Some(asm[d]);
    }
  }

  lemma {:induction false} GatherStops(outs: map<(DocId, nat), seq<Page>>, d: DocId, idx: nat, total: nat)
    requires idx < total && (d, idx) !in outs
    ensures Gather(outs, d, total).None?
  {
    if idx < total - 1 {
      GatherStops(outs, d, idx, total - 1);
    }
  }

  /** Assembly fails exactly when an output is missing. */
  lemma {:induction false} GatherIff(outs: map<(DocId, nat), seq<Page>>, d: DocId, total: nat)
    ensures Gather(outs, d, total).Some? <==> forall i: nat | i < total :: (d, i) in outs
  {
    if total > 0 { GatherIff(outs, d, total - 1); }
  }

  /** All pages of d's first outputs. */
  function Outputs(outs: map<(DocId, nat), seq<Page>>, d: DocId, total: nat): multiset<Page>
    requires forall i: nat | i < total :: (d, i) in outs
  {
    if total == 0 then multiset{} else Outputs(outs, d, total - 1) + multiset(outs[(d, total - 1)])
  }

  lemma {:induction false} GatherAllPages(outs: map<(DocId, nat), seq<Page>>, d: DocId, total: nat)
    requires forall i: nat | i < total :: (d, i) in outs
    ensures Gather(outs, d, total).Some? && multiset(Gather(outs, d, total).value) == Outputs(outs, d, total)
  {
    if total > 0 { GatherAllPages(outs, d, total - 1); }
  }

  /** What assembling returns: what is there; else, if no output is missing, exactly their pages, ordered by number. */
  lemma AssembledMeans(outs: map<(DocId, nat), seq<Page>>, asm: map<DocId, seq<Page>>, d: DocId, total: nat)
    ensures var r := EnsureAssembledSpec(outs, asm, d, total);
      && (d in asm ==> r == Some(asm[d]))
      && (d !in asm ==> (r.Some? <==> forall i: nat | i < total :: (d, i) in outs))
      && (d !in asm && r.Some? ==> SortedPages(r.value) && multiset(r.value) == Outputs(outs, d, total))
  {
    GatherIff(outs, d, total);
    if Gather(outs, d, total).Some? {
      GatherAllPages(outs, d, total);
      SortCorrect(Gather(outs, d, total).value);
    }
  }

  // ---- Completeness and the text handed to the model ----

  function UpTo(n: nat): (r: set<nat>)
    ensures forall k: nat :: k in r <==> k < n
    ensures |r| == n
  {
    if n == 0 then {} else UpTo(n - 1) + {n - 1}
  }

  function PageNumbers(pages: seq<Page>): set<nat> {
    set p | p in pages :: p.no
  }

  /** The set of page numbers is exactly {0 .. expected-1}. */
  function Completeness(numbers: set<nat>, expected: nat): Outcome {
    if numbers != UpTo(expected) then Fail else Pass
  }

  function JoinLines(pages: seq<Page>): string {
    if pages == [] then ""
    else if |pages| == 1 then pages[0].text
    else pages[0].text + "\n" + JoinLines(pages[1..])
  }

  function SourceText(pages: seq<Page>): string {
    JoinLines(SortPages(pages))
  }

  // ---- What the joined text is ----

  /** Where page p starts in a text of these pages, one newline apart. */
  function Offset(texts: seq<string>, p: nat): nat
    requires p <= |texts|
  {
    if p == 0 then 0 else Offset(texts, p - 1) + |texts[p - 1]| + 1
  }

  /** Page p stands whole at its place, and a newline separates it from the next. */
  ghost predicate PageAt(text: string, texts: seq<string>, p: nat)
    requires p < |texts|
  {
    && Offset(texts, p) + |texts[p]| <= |text|
    && text[Offset(texts, p)..Offset(texts, p) + |texts[p]|] == texts[p]
    && (p + 1 < |texts| ==>
          Offset(texts, p + 1) <= |text| && text[Offset(texts, p + 1) - 1] == '\n')
  }

  /** The text is these pages in order, each whole, one newline between neighbours, and nothing else. */
  ghost predicate IsJoined(text: string, texts: seq<string>) {
    && |text| == (if texts == [] then 0 else Offset(texts, |texts|) - 1)
    && forall p: nat | p < |texts| :: PageAt(text, texts, p)
  }

  function TextsOf(pages: seq<Page>): seq<string> {
    seq(|pages|, i requires 0 <= i < |pages| => pages[i].text)
  }

  lemma {:induction false} OffsetTail(texts: seq<string>, p: nat)
    requires 1 <= p <= |texts|
    ensures Offset(texts, p) == |texts[0]| + 1 + Offset(texts[1..], p - 1)
  {
    if p > 1 {
      OffsetTail(texts, p - 1);
    }
  }

  /** A page moves right by the length of what is put in front. */
  lemma PageBehind(head: string, rest: string, texts: seq<string>, p: nat)
    requires p < |texts| && PageAt(rest, texts, p)
    ensures PageAt(head + "\n" + rest, [head] + texts, p + 1)
  {
    var all, text, k := [head] + texts, head + "\n" + rest, Offset(texts, p);
    assert all[1..] == texts;
    OffsetTail(all, p + 1);
    if p + 1 < |texts| { OffsetTail(all, p + 2); }
    hide Offset;
    assert text[|head| + 1 + k..|head| + 1 + k + |texts[p]|] == rest[k..k + |texts[p]|];
  }

  lemma JoinedFront(head: string, rest: string, texts: seq<string>)
    requires texts != [] && IsJoined(rest, texts)
    ensures IsJoined(head + "\n" + rest, [head] + texts)
  {
    var all, text := [head] + texts, head + "\n" + rest;
    assert all[1..] == texts;
    OffsetTail(all, |all|);
    FirstPage(head, rest, texts);
    hide PageAt, Offset;
    forall p: nat | p < |all| ensures PageAt(text, all, p) {
      if p > 0 { PageBehind(head, rest, texts, p - 1); }
    }
  }

  lemma FirstPage(head: string, rest: string, texts: seq<string>)
    requires texts != []
    ensures PageAt(head + "\n" + rest, [head] + texts, 0)
  {
    assert (head + "\n" + rest)[0..|head|] == head;
  }

  lemma {:induction false} JoinLinesJoins(pages: seq<Page>)
    ensures IsJoined(JoinLines(pages), TextsOf(pages))
  {
    if |pages| == 1 {
      var text := pages[0].text;
      assert text[0..|text|] == text;
    } else if |pages| > 1 {
      JoinLinesJoins(pages[1..]);
      assert TextsOf(pages) == [pages[0].text] + TextsOf(pages[1..]);
      JoinedFront(pages[0].text, JoinLines(pages[1..]), TextsOf(pages[1..]));
    }
  }

  /** The source text of any page list is that of its pages in order. */
  lemma SourceTextMeans(pages: seq<Page>)
    ensures IsJoined(SourceText(pages), TextsOf(SortPages(pages)))
    ensures SortedPages(SortPages(pages)) && multiset(SortPages(pages)) == multiset(pages)
  {
    SortCorrect(pages);
    JoinLinesJoins(SortPages(pages));
  }

  /** Joining is a homomorphism: a newline goes between the texts of two non-empty lists. */
  lemma {:induction false} JoinLinesConcat(a: seq<Page>, b: seq<Page>)
    requires a != [] && b != []
    ensures JoinLines(a + b) == JoinLines(a) + "\n" + JoinLines(b)
  {
    assert (a + b)[1..] == a[1..] + b;
    if |a| > 1 {
      JoinLinesConcat(a[1..], b);
      assert a[0].text + "\n" + (JoinLines(a[1..]) + "\n" + JoinLines(b)) ==
             a[0].text + "\n" + JoinLines(a[1..]) + "\n" + JoinLines(b);
    }
  }

  /** ShardOutputs: every shard of a document with the engine's texts `ocr` is stored as its range. */
  ghost predicate HoldsShards(outs: map<(DocId, nat), seq<Page>>, d: DocId, ocr: seq<string>, size: nat)
    requires size >= 1
  {
    forall i: nat | i < ShardCount(|ocr|, size) ::
      (d, i) in outs && RangeStart(i, size) <= RangeEnd(i, |ocr|, size) <= |ocr| &&
      outs[(d, i)] == OcrRange(ocr, RangeStart(i, size), RangeEnd(i, |ocr|, size))
  }

  /** Shard outputs that are stored hold the engine's pages of their range; some may be missing. */
  ghost predicate TrueShards(outs: map<(DocId, nat), seq<Page>>, d: DocId, ocr: seq<string>, size: nat)
    requires size >= 1
  {
    forall i: nat | i < ShardCount(|ocr|, size) && (d, i) in outs ::
      RangeStart(i, size) <= RangeEnd(i, |ocr|, size) <= |ocr| &&
      outs[(d, i)] == OcrRange(ocr, RangeStart(i, size), RangeEnd(i, |ocr|, size))
  }

  /** Whatever number of shards is gathered, the result is a prefix of one direct pass. */
  lemma {:induction false} GatherIsPrefix(outs: map<(DocId, nat), seq<Page>>, d: DocId, ocr: seq<string>, size: nat,
      k: nat)
    requires size >= 1 && TrueShards(outs, d, ocr, size) && 1 <= k <= ShardCount(|ocr|, size)
    requires Gather(outs, d, k).Some?
    ensures RangeEnd(k - 1, |ocr|, size) <= |ocr|
    ensures Gather(outs, d, k).value == OcrRange(ocr, 0, RangeEnd(k - 1, |ocr|, size))
  {
    RangeInside(k - 1, |ocr|, size);
    if k == 1 {
      assert Gather(outs, d, 0) == Some([]);
      assert [] + outs[(d, 0)] == outs[(d, 0)];
    } else {
      GatherIsPrefix(outs, d, ocr, size, k - 1);
      RangesAdjacent(k - 2, |ocr|, size);
      var mid := RangeStart(k - 1, size);
      var end := RangeEnd(k - 1, |ocr|, size);
      assert OcrRange(ocr, 0, mid) + OcrRange(ocr, mid, end) == OcrRange(ocr, 0, end);
    }
  }

  lemma {:induction false} GatherFinds(outs: map<(DocId, nat), seq<Page>>, d: DocId, total: nat)
    requires forall i: nat | i < total :: (d, i) in outs
    ensures Gather(outs, d, total).Some?
  {
    if total > 0 {
      GatherFinds(outs, d, total - 1);
    }
  }

  /** Sharded equals unsharded: once every shard output is stored, in whatever order and however
      often each was written, assembly returns the pages of one direct pass, each page exactly once
      and in order; completeness passes and the text is that of the direct pass. */
  lemma ShardedEqualsUnsharded(outs: map<(DocId, nat), seq<Page>>, asm: map<DocId, seq<Page>>, d: DocId,
      ocr: seq<string>, size: nat)
    requires size >= 1 && HoldsShards(outs, d, ocr, size) && d !in asm
    ensures EnsureAssembledSpec(outs, asm, d, ShardCount(|ocr|, size)) == Some(AllPages(ocr))
    ensures forall p: nat | p < |ocr| :: AllPages(ocr)[p] == Page(p, ocr[p])
    ensures Completeness(PageNumbers(AllPages(ocr)), |ocr|) == Pass
    ensures SourceText(AllPages(ocr)) == JoinLines(AllPages(ocr)) && IsJoined(SourceText(AllPages(ocr)), ocr)
  {
    AllPagesComplete(ocr);
    SortIdentity(AllPages(ocr));
    GatherAll(outs, d, ocr, size);
    AllPagesJoin(ocr);
  }

  lemma AllPagesJoin(texts: seq<string>)
    ensures IsJoined(JoinLines(AllPages(texts)), texts)
  {
    JoinLinesJoins(AllPages(texts));
    assert TextsOf(AllPages(texts)) == texts;
  }

  lemma GatherAll(outs: map<(DocId, nat), seq<Page>>, d: DocId, ocr: seq<string>, size: nat)
    requires size >= 1 && HoldsShards(outs, d, ocr, size)
    ensures Gather(outs, d, ShardCount(|ocr|, size)) == Some(AllPages(ocr))
  {
    var n := ShardCount(|ocr|, size);
    ShardCountOne(|ocr|, size);
    GatherFinds(outs, d, n);
    GatherIsPrefix(outs, d, ocr, size, n);
    RangesAdjacent(n - 1, |ocr|, size);
  }

  lemma AllPagesComplete(texts: seq<string>)
    ensures Completeness(PageNumbers(AllPages(texts)), |texts|) == Pass
    ensures SortedPages(AllPages(texts))
  {
    var ps := AllPages(texts);
    forall k: nat | k < |texts| ensures k in PageNumbers(ps) {
      assert ps[k].no == k && ps[k] in ps;
    }
    assert PageNumbers(ps) == UpTo(|texts|);
  }

  // ---- What completeness says of repeated pages ----

  predicate NoRepeats(pages: seq<Page>) {
    forall i, j | 0 <= i < j < |pages| :: pages[i].no != pages[j].no
  }

  lemma RepeatAtEnd(init: seq<Page>, last: Page)
    ensures NoRepeats(init + [last]) <==> NoRepeats(init) && last.no !in PageNumbers(init)
    ensures PageNumbers(init + [last]) == PageNumbers(init) + {last.no}
  {
    var pages := init + [last];
    if last.no in PageNumbers(init) {
      var i :| 0 <= i < |init| && init[i].no == last.no;
      assert pages[i].no == pages[|init|].no;
    } else {
      forall i | 0 <= i < |init| ensures init[i].no != last.no { assert init[i] in init; }
    }
    if NoRepeats(pages) {
      forall i, j | 0 <= i < j < |init| ensures init[i].no != init[j].no {
        assert pages[i] == init[i] && pages[j] == init[j];
      }
    }
  }

  /** A list has as many page numbers as pages exactly when no page number occurs twice. */
  lemma {:induction false} CountNumbers(pages: seq<Page>)
    ensures |PageNumbers(pages)| <= |pages|
    ensures |PageNumbers(pages)| == |pages| <==> NoRepeats(pages)
  {
    if pages != [] {
      var init, last := pages[..|pages| - 1], pages[|pages| - 1];
      assert pages == init + [last];
      hide NoRepeats, PageNumbers;
      CountNumbers(init);
      RepeatAtEnd(init, last);
    }
  }

  /** The gate is handed a set, so by itself it does not see a repeated page. A list that passes is free of repeats
      exactly when it has as many pages as expected, and it never has fewer. */
  lemma CompleteWithoutRepeats(pages: seq<Page>, expected: nat)
    requires Completeness(PageNumbers(pages), expected) == Pass
    ensures NoRepeats(pages) <==> |pages| == expected
    ensures |pages| >= expected
  {
    CountNumbers(pages);
  }

  /** A prefix of one direct pass repeats nothing, and is complete only when it is the whole pass. */
  lemma PrefixComplete(texts: seq<string>, end: nat)
    requires end <= |texts|
    ensures NoRepeats(OcrRange(texts, 0, end)) && SortedPages(OcrRange(texts, 0, end))
    ensures Completeness(PageNumbers(OcrRange(texts, 0, end)), |texts|) == Pass ==> end == |texts|
  {
    CountNumbers(OcrRange(texts, 0, end));
  }
}

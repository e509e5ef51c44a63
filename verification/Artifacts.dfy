/** The artifact a handler works on, in every run and with no hypothesis: it never changes, it repeats no page, and
    what reaches the model is the text of one direct pass. The completeness gate alone stands between a join that fired
    too early and the model. */
module Artifacts {
  import opened Types
  import opened Pages
  import opened Ledger
  import opened Stages
  import opened Protocol
  import opened Frames
  import opened Basics

  // ---- The invariant ----

  /** The pages of one direct pass by the producer this document's bytes call for. */
  ghost function Canonical(env: Env, d: DocId): seq<Page>
    requires Known(env, d)
  {
    AllPages(Texts(env, d))
  }

  ghost function Texts(env: Env, d: DocId): seq<string>
    requires Known(env, d)
  {
    if TierZeroDoc(env, d) then env.sources[d].embedded else env.sources[d].ocr
  }

  ghost predicate PrefixTo(env: Env, d: DocId, pages: seq<Page>, end: nat)
    requires Known(env, d)
  {
    end <= |Texts(env, d)| && pages == OcrRange(Texts(env, d), 0, end)
  }

  /** The first pages of one direct pass, up to some page. */
  ghost predicate Prefix(env: Env, d: DocId, pages: seq<Page>) {
    Known(env, d) && exists end: nat :: PrefixTo(env, d, pages, end)
  }

  function PagesOf(pc: Pc): Option<seq<Page>> {
    if pc.Assembled? || pc.Attempted? || pc.Decided? then Some(pc.pages) else None
  }

  /** A handler past assembly holds the stored artifact, and all of it. */
  ghost predicate HandlerPages(env: Env, w: World, x: Handler) {
    PagesOf(x.pc).Some? ==>
      && x.doc in w.assembled && w.assembled[x.doc] == PagesOf(x.pc).value
      && Known(env, x.doc) && PagesOf(x.pc).value == Canonical(env, x.doc)
  }

  ghost predicate PagesInv(env: Env, w: World) {
    && (forall d | d in w.assembled :: Prefix(env, d, w.assembled[d]))
    && (forall h | h in w.handlers :: HandlerPages(env, w, w.handlers[h]))
  }

  // ---- No step changes an artifact ----

  lemma ArtifactStable(env: Env, w: World, a: Action, w': World)
    requires Basic(env, w) && Next(env, w, a) == Some(w')
    ensures forall d | d in w.assembled :: d in w'.assembled && w'.assembled[d] == w.assembled[d]
  {
    hide NextText, NextExtract, NextRecover, NextBroker, TextMsgs, ExtractMsgs, RecoverMsgs, SameButText,
         SameButVerdict, SameButRecovery, Basic;
    match a
    case Text(x) => TextArtifactStable(env, w, x, w');
    case Extract(x) => ExtractSteps(env, w, x, w');
    case Recover(x) => RecoverSteps(env, w, x, w');
    case Broker(x) => BrokerSteps(w, x, w');
  }

  lemma TextArtifactStable(env: Env, w: World, a: TextAction, w': World)
    requires Basic(env, w) && NextText(env, w, a) == Some(w')
    ensures forall d | d in w.assembled :: d in w'.assembled && w'.assembled[d] == w.assembled[d]
  {
    hide Transition, TriageTx, TextEmbeddedTx, CommitSplitTx, RecordShard, ShardText, AllPages, RowsOk, RefsOk;
    if (a.EmbeddedWrite? || a.EmbeddedCommit?) && a.msg < |w.t.sent| {
      assert MsgOk(env, w, w.t.sent[a.msg]);
      var d := w.t.sent[a.msg].doc;
      if d in w.assembled { assert ArtifactOk(env, w, d, w.assembled[d]); }
    }
  }

  // ---- Every artifact is a prefix of one direct pass ----

  lemma WholePass(env: Env, d: DocId)
    requires Known(env, d)
    ensures Prefix(env, d, Canonical(env, d))
  {
    assert PrefixTo(env, d, Canonical(env, d), |Texts(env, d)|);
  }

  /** Text steps write the embedded text, and only where that is the text to use. */
  lemma TextPrefix(env: Env, w: World, a: TextAction, w': World, d: DocId)
    requires Basic(env, w) && NextText(env, w, a) == Some(w') && d in w'.assembled
    ensures (d in w.assembled && w'.assembled[d] == w.assembled[d]) || Prefix(env, d, w'.assembled[d])
  {
    hide Transition, TriageTx, TextEmbeddedTx, CommitSplitTx, RecordShard, ShardText, AllPages, RowsOk, RefsOk,
         StoreOk, Prefix;
    if (a.EmbeddedWrite? || a.EmbeddedCommit?) && a.msg < |w.t.sent| {
      assert MsgOk(env, w, w.t.sent[a.msg]);
      WholePass(env, w.t.sent[a.msg].doc);
    }
  }

  lemma TrueOutputs(env: Env, w: World, d: DocId)
    requires Basic(env, w) && Known(env, d)
    ensures TrueShards(w.outs, d, env.sources[d].ocr, env.cfg.shardSize)
  {
    hide RowsOk, MsgsOk, RefsOk;
    forall i: nat | i < ShardTotal(env, d) && (d, i) in w.outs
      ensures RangeStart(i, env.cfg.shardSize) <= RangeEnd(i, PageTotal(env, d), env.cfg.shardSize) <= PageTotal(env, d)
      ensures w.outs[(d, i)] == ShardPages(env, d, i)
    {
      assert OutputOk(env, d, i, w.outs[(d, i)]);
      RangeInside(i, PageTotal(env, d), env.cfg.shardSize);
    }
  }

  /** Assembling, from however many shards the row counts, gives a prefix. */
  lemma GatheredPrefix(env: Env, w: World, d: DocId, total: nat)
    requires Basic(env, w) && Known(env, d) && d !in w.assembled && 1 <= total <= ShardTotal(env, d)
    requires EnsureAssembledSpec(w.outs, w.assembled, d, total).Some?
    ensures Prefix(env, d, EnsureAssembledSpec(w.outs, w.assembled, d, total).value)
  {
    hide Basic, TierZeroDoc;
    var ocr, size := env.sources[d].ocr, env.cfg.shardSize;
    if TierZeroDoc(env, d) {
      TierZeroUnwritten(env, w, d);
      GatherStops(w.outs, d, 0, total);
    } else {
      TrueOutputs(env, w, d);
      GatherIsPrefix(w.outs, d, ocr, size, total);
      var end := RangeEnd(total - 1, |ocr|, size);
      PrefixComplete(ocr, end);
      SortIdentity(OcrRange(ocr, 0, end));
      assert PrefixTo(env, d, OcrRange(ocr, 0, end), end);
    }
  }

  lemma AssemblePrefix(env: Env, w: World, h: nat)
    requires Basic(env, w) && PagesInv(env, w) && h in w.handlers && w.handlers[h].pc.Loaded?
    ensures var x := w.handlers[h];
      var r := EnsureAssembledSpec(w.outs, w.assembled, x.doc, x.pc.row.shardsTotal);
      r.Some? ==> Prefix(env, x.doc, r.value)
  {
    hide Basic, Gather, Prefix;
    var x := w.handlers[h];
    if x.doc !in w.assembled && EnsureAssembledSpec(w.outs, w.assembled, x.doc, x.pc.row.shardsTotal).Some? {
      HandlerTotal(env, w, h);
      HandlerTotalBelow(env, w, h);
      GatheredPrefix(env, w, x.doc, x.pc.row.shardsTotal);
    }
  }

  lemma HandlerTotalBelow(env: Env, w: World, h: nat)
    requires Basic(env, w) && h in w.handlers && w.handlers[h].pc.Loaded?
    ensures Known(env, w.handlers[h].doc) && w.handlers[h].pc.row.shardsTotal <= ShardTotal(env, w.handlers[h].doc)
    ensures w.handlers[h].pc.row.pageCount.Some? ==>
              w.handlers[h].pc.row.pageCount == Some(PageTotal(env, w.handlers[h].doc))
  {
    HandlerDoc(env, w, h);
  }

  lemma HandlerDoc(env: Env, w: World, h: nat)
    requires Basic(env, w) && h in w.handlers
    ensures w.handlers[h].doc in w.t.docs
    ensures RowOf(w.handlers[h].pc).Some? ==> GoodRow(env, w.handlers[h].doc, RowOf(w.handlers[h].pc).value)
  {
    assert HandlerRowOk(env, w, h);
  }

  // ---- The completeness gate lets only the whole pass through ----

  lemma PrefixPasses(env: Env, d: DocId, pages: seq<Page>)
    requires Prefix(env, d, pages) && Completeness(PageNumbers(pages), PageTotal(env, d)) == Pass
    ensures pages == Canonical(env, d)
  {
    var end: nat :| PrefixTo(env, d, pages, end);
    PrefixComplete(Texts(env, d), end);
  }

  lemma CheckedCanonical(env: Env, d: DocId, row: Doc, pages: seq<Page>)
    requires Known(env, d) && Prefix(env, d, pages) &&
             (row.pageCount.Some? ==> row.pageCount == Some(PageTotal(env, d)))
    ensures PagesOf(Checked(row, pages)).Some? ==>
              PagesOf(Checked(row, pages)) == Some(pages) && pages == Canonical(env, d)
  {
    hide Completeness, Prefix, Canonical;
    if row.pageCount.Some? && Completeness(PageNumbers(pages), PageTotal(env, d)) == Pass {
      PrefixPasses(env, d, pages);
    }
  }

  lemma AssembledPages(env: Env, w: World, h: nat, w': World)
    requires Basic(env, w) && PagesInv(env, w) && DoAssemble(w, h) == Some(w')
    ensures h in w'.handlers && HandlerPages(env, w', w'.handlers[h])
    ensures forall d | d in w'.assembled :: (d in w.assembled && w'.assembled[d] == w.assembled[d]) ||
              Prefix(env, d, w'.assembled[d])
  {
    hide Basic, PagesInv, EnsureAssembledSpec, Checked, PagesOf, Prefix, Canonical;
    var x := w.handlers[h];
    var r := EnsureAssembledSpec(w.outs, w.assembled, x.doc, x.pc.row.shardsTotal);
    if r.Some? {
      AssemblePrefix(env, w, h);
      HandlerTotalBelow(env, w, h);
      CheckedCanonical(env, x.doc, x.pc.row, r.value);
    } else {
      RoutingPages(EMPTY_REPORT.(completeness := Some(Fail)));
    }
  }

  lemma RoutingPages(report: Report)
    ensures PagesOf(Routing(report)).None?
  {
  }

  // ---- The step ----

  lemma HandlerPagesStay(env: Env, w: World, w': World, x: Handler)
    requires HandlerPages(env, w, x)
    requires forall d | d in w.assembled :: d in w'.assembled && w'.assembled[d] == w.assembled[d]
    ensures HandlerPages(env, w', x)
  {
    hide Canonical;
  }

  /** But for assembling, a handler keeps the pages it has. */
  lemma KeepsPages(env: Env, w: World, a: ExtractAction, w': World, h: nat)
    requires NextExtract(env, w, a) == Some(w') && !a.Assemble? && h in w'.handlers
    ensures PagesOf(w'.handlers[h].pc).None? ||
            (h in w.handlers && w.handlers[h].doc == w'.handlers[h].doc &&
                PagesOf(w.handlers[h].pc) == PagesOf(w'.handlers[h].pc))
  {
    hide NextExtract, EnsureAssembledSpec, FunnelOf, Completeness, Clash;
    HandlersAfter(env, w, a, w');
  }

  lemma ExtractPages(env: Env, w: World, a: ExtractAction, w': World)
    requires Basic(env, w) && PagesInv(env, w) && NextExtract(env, w, a) == Some(w')
    ensures PagesInv(env, w')
  {
    hide DoStart, DoLoad, DoAssemble, DoAttempt, DoFunnel, DoFinish, DoReroute, DoCrash, ExtractMsgs, VerdictTables,
         HandlerFrame, Basic, Prefix, PcAfter, HandlerPages;
    ExtractSteps(env, w, a, w');
    HandlersAfter(env, w, a, w');
    if a.Assemble? { AssembledPages(env, w, a.h, w'); }
    forall h | h in w'.handlers ensures HandlerPages(env, w', w'.handlers[h]) {
      if !(a.Assemble? && h == a.h) { OtherPages(env, w, a, w', h); }
    }
  }

  lemma OtherPages(env: Env, w: World, a: ExtractAction, w': World, h: nat)
    requires PagesInv(env, w) && NextExtract(env, w, a) == Some(w') && h in w'.handlers && !(a.Assemble? && h == a.h)
    requires forall d | d in w.assembled :: d in w'.assembled && w'.assembled[d] == w.assembled[d]
    ensures HandlerPages(env, w', w'.handlers[h])
  {
    hide NextExtract, Prefix, PcAfter, Canonical;
    if a.Assemble? {
      HandlersAfter(env, w, a, w');
    } else {
      KeepsPages(env, w, a, w', h);
    }
    if h in w.handlers { assert HandlerPages(env, w, w.handlers[h]); }
  }

  lemma OtherArtifacts(env: Env, w: World, a: Action, w': World, d: DocId)
    requires Basic(env, w) && Next(env, w, a) == Some(w') && !a.Extract? && d in w'.assembled
    ensures (d in w.assembled && w'.assembled[d] == w.assembled[d]) || Prefix(env, d, w'.assembled[d])
  {
    hide NextText, NextRecover, NextBroker, RecoverMsgs, SameButRecovery, Basic, Prefix;
    match a
    case Text(x) => TextPrefix(env, w, x, w', d);
    case Recover(x) => RecoverSteps(env, w, x, w');
    case Broker(x) => BrokerSteps(w, x, w');
  }

  lemma PagesStep(env: Env, w: World, a: Action, w': World)
    requires Basic(env, w) && PagesInv(env, w) && Next(env, w, a) == Some(w')
    ensures PagesInv(env, w')
  {
    hide NextText, NextExtract, NextRecover, NextBroker, Basic, Prefix, HandlerPages;
    if a.Extract? {
      ExtractPages(env, w, a.ext, w');
    } else {
      ArtifactStable(env, w, a, w');
      OnlyExtract(env, w, a, w');
      forall d | d in w'.assembled ensures Prefix(env, d, w'.assembled[d]) {
        OtherArtifacts(env, w, a, w', d);
      }
      forall h | h in w'.handlers ensures HandlerPages(env, w', w'.handlers[h]) {
        HandlerPagesStay(env, w, w', w.handlers[h]);
      }
    }
  }

  lemma {:induction false} PagesRun(env: Env, ws: seq<World>, acts: seq<Action>, n: nat)
    requires env.Valid() && IsRun(env, ws, acts) && n < |ws|
    ensures Basic(env, ws[n]) && PagesInv(env, ws[n])
  {
    hide Next, Basic;
    BasicRun(env, ws, acts, n);
    if n > 0 {
      PagesRun(env, ws, acts, n - 1);
      PagesStep(env, ws[n - 1], acts[n - 1], ws[n]);
    }
  }

  // ---- The theorems ----

  lemma CanonicalComplete(env: Env, d: DocId)
    requires Known(env, d)
    ensures Completeness(PageNumbers(Canonical(env, d)), PageTotal(env, d)) == Pass
    ensures SourceText(Canonical(env, d)) == JoinLines(Canonical(env, d))
  {
    AllPagesComplete(Texts(env, d));
    SortIdentity(AllPages(Texts(env, d)));
  }

  lemma CanonicalJoined(env: Env, d: DocId)
    requires Known(env, d)
    ensures IsJoined(JoinLines(Canonical(env, d)), Texts(env, d))
  {
    AllPagesJoin(Texts(env, d));
  }

  /** No artifact ever repeats a page, or holds one out of order or with another text than one direct pass gives it;
      so an artifact that passes completeness is the whole pass. With no hypothesis on the run. */
  lemma ArtifactsRepeatNothing(env: Env, ws: seq<World>, acts: seq<Action>, n: nat, d: DocId)
    requires env.Valid() && IsRun(env, ws, acts) && n < |ws| && d in ws[n].assembled
    ensures Known(env, d) && NoRepeats(ws[n].assembled[d]) && SortedPages(ws[n].assembled[d])
    ensures ws[n].assembled[d] <= Canonical(env, d)
    ensures Completeness(PageNumbers(ws[n].assembled[d]), PageTotal(env, d)) == Pass <==>
              ws[n].assembled[d] == Canonical(env, d)
  {
    hide Next, Basic, Completeness, PageNumbers;
    PagesRun(env, ws, acts, n);
    var pages := ws[n].assembled[d];
    assert Prefix(env, d, pages);
    var end: nat :| PrefixTo(env, d, pages, end);
    PrefixComplete(Texts(env, d), end);
    CanonicalComplete(env, d);
    if Completeness(PageNumbers(pages), PageTotal(env, d)) == Pass { PrefixPasses(env, d, pages); }
  }

  /** In every run, with no hypothesis and for every document, a handler past assembly holds the pages of one direct
      pass, and their text is what the funnel gets: the completeness gate lets nothing else through. */
  lemma ModelSeesDirectPass(env: Env, ws: seq<World>, acts: seq<Action>, n: nat, h: nat)
    requires env.Valid() && IsRun(env, ws, acts) && n < |ws|
    requires h in ws[n].handlers && PagesOf(ws[n].handlers[h].pc).Some?
    ensures Known(env, ws[n].handlers[h].doc)
    ensures PagesOf(ws[n].handlers[h].pc).value == Canonical(env, ws[n].handlers[h].doc)
    ensures SourceText(PagesOf(ws[n].handlers[h].pc).value) == JoinLines(Canonical(env, ws[n].handlers[h].doc))
    ensures IsJoined(SourceText(PagesOf(ws[n].handlers[h].pc).value), Texts(env, ws[n].handlers[h].doc))
  {
    hide Next, Basic, Canonical, SourceText, IsJoined;
    PagesRun(env, ws, acts, n);
    assert HandlerPages(env, ws[n], ws[n].handlers[h]);
    CanonicalJoined(env, ws[n].handlers[h].doc);
    CanonicalComplete(env, ws[n].handlers[h].doc);
  }
}

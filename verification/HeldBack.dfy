/** What becomes of a document that was held back, re-driven, and has lost its commit: it has a result, it is in
    extraction, and no handler can complete it. */
module HeldBack {
  import opened Types
  import opened Pages
  import opened Ledger
  import opened Sweeper
  import opened Protocol
  import opened Frames
  import opened Basics
  import opened Artifacts
  import opened Joining
  import opened Storage
  import opened Verdicts
  import opened LiveWork
  import Completing
  import FirstWriter
  import Retries

  // ---- Why a handler routes to review ----

  /** A handler of a dispatched document is about to park it only because the unique index refused its commit. */
  ghost predicate RoutesByClash(env: Env, x: Handler) {
    x.pc.Routing? && Sent(env, x.doc) ==> x.pc.report.dedupe == Some(Fail)
  }

  lemma RoutesStep(env: Env, w: World, a: ExtractAction, w': World, h: nat)
    requires NextExtract(env, w, a) == Some(w') && !a.Assemble? && h in w'.handlers
    requires h in w.handlers ==> RoutesByClash(env, w.handlers[h])
    ensures RoutesByClash(env, w'.handlers[h])
  {
    hide NextExtract, Clash, FunnelOf;
    HandlersAfter(env, w, a, w');
  }

  lemma OthersStay(env: Env, w: World, a: ExtractAction, w': World, h: nat)
    requires NextExtract(env, w, a) == Some(w') && h in w'.handlers && h != a.h
    ensures h in w.handlers && w'.handlers[h] == w.handlers[h]
  {
    hide NextExtract, PcAfter;
    HandlersAfter(env, w, a, w');
  }

  lemma {:induction false} RoutesRun(env: Env, ws: seq<World>, acts: seq<Action>, n: nat)
    requires env.Valid() && IsRun(env, ws, acts) && Under2(ws, acts) && n < |ws|
    ensures forall h | h in ws[n].handlers :: RoutesByClash(env, ws[n].handlers[h])
  {
    hide NextText, NextExtract, NextRecover, NextBroker, Under2, RoutesByClash;
    if n > 0 {
      RoutesRun(env, ws, acts, n - 1);
      var w, a, w' := ws[n - 1], acts[n - 1], ws[n];
      assert Next(env, w, a) == Some(w');
      forall h | h in w'.handlers ensures RoutesByClash(env, w'.handlers[h]) {
        if !a.Extract? {
          OnlyExtract(env, w, a, w');
        } else if !a.ext.Assemble? {
          RoutesStep(env, w, a.ext, w', h);
        } else if h != a.ext.h {
          OthersStay(env, w, a.ext, w', h);
        } else {
          AssembleRoutes(env, ws, acts, n - 1, h);
        }
      }
    }
  }

  lemma AssembleRoutes(env: Env, ws: seq<World>, acts: seq<Action>, n: nat, h: nat)
    requires env.Valid() && IsRun(env, ws, acts) && Under2(ws, acts) && n < |acts|
    requires acts[n] == Extract(Assemble(h)) && h in ws[n + 1].handlers
    ensures RoutesByClash(env, ws[n + 1].handlers[h])
  {
    hide NextText, NextExtract, NextRecover, NextBroker, Under2, PcAfter;
    assert Next(env, ws[n], acts[n]) == Some(ws[n + 1]);
    HandlersAfter(env, ws[n], acts[n].ext, ws[n + 1]);
    if Sent(env, ws[n].handlers[h].doc) { AssemblyNeverRejects(env, ws, acts, n, h); }
  }

  // ---- One step ----

  /** A sweep finds d running with its attempts used up. */
  ghost predicate FailsAtCap(cfg: Config, w: World, a: Action, d: DocId)
    requires d in w.t.docs
  {
    a.Recover? && a.rec.SweepClaim? && d in a.rec.ids && w.t.docs[d].state == ExtractRunning &&
    w.t.docs[d].extractAttempts >= cfg.maxExtract
  }

  ghost predicate Reroutes(w: World, a: Action, d: DocId) {
    a.Extract? && a.ext.Reroute? && a.ext.h in w.handlers && w.handlers[a.ext.h].doc == d &&
    w.handlers[a.ext.h].pc.Routing?
  }

  predicate AtCap(e: Option<LastError>) {
    e.Some? && e.value.CapExceeded? && e.value.state == ExtractRunning && e.value.attempts >= e.value.max
  }

  lemma TextLeaves(env: Env, w: World, a: TextAction, w': World, d: DocId)
    requires NextText(env, w, a) == Some(w') && d in w.t.docs && !IsText(w.t.docs[d].state)
    ensures d in w'.t.docs && w'.t.docs[d].state == w.t.docs[d].state
    ensures w'.t.docs[d].lastError == w.t.docs[d].lastError && w'.t.docs[d].gates == w.t.docs[d].gates
  {
    hide NextText, TextMsgs;
    TextSteps(env, w, a, w');
    TextEdges(env, w, a, w', d);
  }

  lemma RecoverMoves(env: Env, w: World, a: RecoverAction, w': World, d: DocId)
    requires NextRecover(env, w, a) == Some(w') && !Touches(Recover(a), d)
    requires d in w.t.docs && !IsText(w.t.docs[d].state)
    ensures d in w'.t.docs && w'.t.docs[d].gates == w.t.docs[d].gates
    ensures FailsAtCap(env.cfg, w, Recover(a), d) ==> w'.t.docs[d].state == Failed && AtCap(w'.t.docs[d].lastError)
    ensures !FailsAtCap(env.cfg, w, Recover(a), d) ==>
              w'.t.docs[d].lastError == w.t.docs[d].lastError &&
              (w'.t.docs[d].state == w.t.docs[d].state ||
               (w.t.docs[d].state == ExtractRunning && w'.t.docs[d].state == ExtractPending))
  {
    hide RedriveMsgs, EnqueueAll, IsBatch, Tally;
    match a
    case ForceRedrive(r) =>
      var target := RedriveTarget(r.row, r.assembled).value;
      var t := Transition(w.t, r.doc, target, Predecessors(target), w.now).value;
      EnqueueAllFacts(t, RedriveMsgs(env.cfg, t, Row(r.doc, r.row.(state := target)), Operator));
    case SweepRedrive(r) => EnqueueAllFacts(w.t, RedriveMsgs(env.cfg, w.t, r, Sweep));
    case _ =>
  }

  lemma HandlerWrites(env: Env, w: World, a: ExtractAction, w': World, d: DocId)
    requires NextExtract(env, w, a) == Some(w') && d in w.t.docs && w.t.docs[d].result.Some?
    ensures d in w'.t.docs && w'.t.docs[d].lastError == w.t.docs[d].lastError
    ensures Reroutes(w, Extract(a), d) ==>
              w'.t.docs[d].state == Review && w'.t.docs[d].gates == w.handlers[a.h].pc.report
    ensures !Reroutes(w, Extract(a), d) ==>
              w'.t.docs[d].gates == w.t.docs[d].gates &&
              (w'.t.docs[d].state == w.t.docs[d].state ||
               (IsExtract(w.t.docs[d].state) && w'.t.docs[d].state == ExtractRunning))
  {
    hide DoStart, DoLoad, DoAssemble, DoAttempt, DoFunnel, DoFinish, DoCrash, PcAfter, FinishTx, ExtractMsgs,
         HandlerFrame;
    ExtractSteps(env, w, a, w');
    ExtractVerdict(env, w, a, w', d);
    if a.Finish? && Ends(env, w, a, d) {
      ClashVerdict(env, w, a.h, a.autoPost, w');
      var pc := w.handlers[a.h].pc;
      Completing.FinishVerdict(w.t, d, pc.fields, pc.report, a.autoPost, w.now, w'.t);
    }
  }

  /** A document that has its result and is out of text production: running round, failed at its cap, or parked by a
      refused commit. */
  ghost predicate Fated(w: World, d: DocId) {
    && d in w.t.docs && w.t.docs[d].result.Some?
    && (|| IsExtract(w.t.docs[d].state)
        || (w.t.docs[d].state == Failed && AtCap(w.t.docs[d].lastError))
        || (w.t.docs[d].state == Review && w.t.docs[d].gates.dedupe == Some(Fail)))
  }

  lemma FatedStep(env: Env, w: World, a: Action, w': World, d: DocId)
    requires Fated(w, d) && Next(env, w, a) == Some(w') && !Touches(a, d) && Sent(env, d)
    requires forall h | h in w.handlers :: RoutesByClash(env, w.handlers[h])
    ensures Fated(w', d) && (IsExtract(w'.t.docs[d].state) ==> IsExtract(w.t.docs[d].state))
  {
    hide NextText, NextExtract, NextRecover, NextBroker, FailsAtCap, AtCap;
    FirstWriter.ResultStays(env, w, a, w', d);
    match a
    case Text(x) => TextLeaves(env, w, x, w', d);
    case Extract(x) => HandlerWrites(env, w, x, w', d);
    case Recover(x) => RecoverMoves(env, w, x, w', d);
    case Broker(x) => BrokerSteps(w, x, w');
  }

  // ---- The theorems ----

  /** From extraction such a document is taken in exactly two ways: by the sweep that finds it running with its
      attempts used up, and by the reroute of its handler. */
  lemma HeldLeaves(env: Env, w: World, a: Action, w': World, d: DocId)
    requires Next(env, w, a) == Some(w') && !Touches(a, d)
    requires d in w.t.docs && w.t.docs[d].result.Some? && IsExtract(w.t.docs[d].state)
    ensures d in w'.t.docs
    ensures !IsExtract(w'.t.docs[d].state) <==> FailsAtCap(env.cfg, w, a, d) || Reroutes(w, a, d)
  {
    hide NextText, NextExtract, NextRecover, NextBroker, AtCap;
    match a
    case Text(x) => TextLeaves(env, w, x, w', d);
    case Extract(x) => HandlerWrites(env, w, x, w', d);
    case Recover(x) => RecoverMoves(env, w, x, w', d);
    case Broker(x) => BrokerSteps(w, x, w');
  }

  lemma {:induction false} FatedRun(env: Env, ws: seq<World>, acts: seq<Action>, m: nat, n: nat, d: DocId)
    requires env.Valid() && IsRun(env, ws, acts) && Under2(ws, acts) && m <= n < |ws| && Sent(env, d)
    requires Fated(ws[m], d) && LeftAlone(acts, d, m, n)
    ensures Fated(ws[n], d) && (IsExtract(ws[n].t.docs[d].state) ==> IsExtract(ws[m].t.docs[d].state))
    decreases n - m
  {
    hide Next, Under2, RoutesByClash, Touches, AtCap;
    if m < n {
      FatedRun(env, ws, acts, m, n - 1, d);
      RoutesRun(env, ws, acts, n - 1);
      FatedStep(env, ws[n - 1], acts[n - 1], ws[n], d);
    }
  }

  /** The fate of a held-back document that is in extraction again, its result written by an earlier verdict: as long
      as the operator leaves it alone it keeps that result and never completes. It goes round between extract_pending
      and extract_running, no more often than the cap allows, until it has failed at that cap, or is back in review
      with the dedupe failure of a refused commit; and then it stays out of extraction. */
  lemma HeldBackFate(env: Env, ws: seq<World>, acts: seq<Action>, m: nat, k: nat, n: nat, d: DocId)
    requires env.Valid() && IsRun(env, ws, acts) && Under2(ws, acts) && m <= k <= n < |ws| && Sent(env, d)
    requires d in ws[m].t.docs && ws[m].t.docs[d].result.Some? && IsExtract(ws[m].t.docs[d].state)
    requires LeftAlone(acts, d, m, n)
    ensures d in ws[k].t.docs && d in ws[n].t.docs && ws[n].t.docs[d].result == ws[m].t.docs[d].result
    ensures var doc := ws[n].t.docs[d];
      || IsExtract(doc.state)
      || (doc.state == Failed && AtCap(doc.lastError))
      || (doc.state == Review && doc.gates.dedupe == Some(Fail))
    ensures !IsExtract(ws[k].t.docs[d].state) ==> !IsExtract(ws[n].t.docs[d].state)
    ensures Count(ws[n].sweptExtract, d) <= env.cfg.maxExtract
  {
    hide Next, Under2, AtCap;
    FirstWriter.ResultWrittenOnce(env, ws, acts, m, n, d);
    FatedRun(env, ws, acts, m, k, d);
    FatedRun(env, ws, acts, k, n, d);
    Retries.RetriesBounded(env, ws, acts, n, d);
  }
}

/** Retries are bounded over whole runs. */
module Retries {
  import opened Types
  import opened Pages
  import opened Ledger
  import opened Sweeper
  import opened Protocol
  import opened Frames
  import opened Basics
  import opened Artifacts
  import opened Verdicts
  import opened Completing
  import Funnel

  /** How often the sweeper took d back from its running state, against the row's own counters and the caps. */
  ghost predicate Bounded(cfg: Config, w: World, d: DocId)
    requires d in w.t.docs
  {
    var doc := w.t.docs[d];
    && doc.textAttempts == Count(w.sweptText, d) <= cfg.maxText
    && Count(w.sweptExtract, d) <= doc.extractAttempts && Count(w.sweptExtract, d) <= cfg.maxExtract
  }

  /** A document without a row was never swept. */
  ghost predicate RetryInv(cfg: Config, w: World) {
    && (forall d | d in w.t.docs :: Bounded(cfg, w, d))
    && (forall d | d in w.sweptText || d in w.sweptExtract :: d in w.t.docs)
  }

  /** 1 for the step that counts an attempt of d. */
  ghost function Tried(w: World, a: Action, d: DocId): nat {
    if a.Extract? && a.ext.Attempt? && a.ext.h in w.handlers && w.handlers[a.ext.h].doc == d then 1 else 0
  }

  ghost predicate SameAttempts(w: World, a: Action, w': World, d: DocId)
    requires d in w.t.docs && d in w'.t.docs
  {
    && w'.t.docs[d].textAttempts == w.t.docs[d].textAttempts
    && w'.t.docs[d].extractAttempts == w.t.docs[d].extractAttempts + Tried(w, a, d)
  }

  lemma ExtractAttempts(env: Env, w: World, a: ExtractAction, w': World, d: DocId)
    requires NextExtract(env, w, a) == Some(w') && d in w.t.docs
    ensures d in w'.t.docs && SameAttempts(w, Extract(a), w', d)
    ensures w'.sweptText == w.sweptText && w'.sweptExtract == w.sweptExtract
  {
    hide DoStart, DoLoad, DoAssemble, DoFunnel, DoFinish, DoReroute, DoCrash, ExtractMsgs, HandlerFrame;
    ExtractSteps(env, w, a, w');
    match a
    case Finish(h, autoPost) => FinishAttempts(w, h, autoPost, w', d);
    case RunFunnel(h, script) => FunnelAttempts(env, w, h, script, w', d);
    case Attempt(h) =>
    case _ => OtherAttempts(env, w, a, w', d);
  }

  lemma CommitAttempts(t: Tables, d: DocId, result: Extraction, gates: Report, final: DocState,
      payload: Option<Payload>, now: Time, e: DocId)
    requires e in t.docs
    ensures var t' := CommitExtraction(t, d, result, gates, final, payload, now).0;
      e in t'.docs && t'.docs[e].extractAttempts == t.docs[e].extractAttempts
  {
  }

  lemma FinishAttempts(w: World, h: nat, autoPost: bool, w': World, d: DocId)
    requires DoFinish(w, h, autoPost) == Some(w') && d in w.t.docs && d in w'.t.docs
    ensures w'.t.docs[d].extractAttempts == w.t.docs[d].extractAttempts
  {
    hide CommitExtraction, Violates;
    var x := w.handlers[h];
    match x.pc.fields
    case None => CommitAttempts(w.t, x.doc, NoFields, x.pc.report, Review, None, w.now, d);
    case Some(f) =>
      if autoPost {
        CommitAttempts(SetBusinessKey(w.t, x.doc, f.seller, f.invoiceNo), x.doc, HasFields(f), x.pc.report, Complete,
            Some(AutoPost(f, x.pc.report)), w.now, d);
      } else {
        CommitAttempts(w.t, x.doc, HasFields(f), x.pc.report.(killSwitch := Some(Fail)), Review, None, w.now, d);
      }
  }

  lemma FunnelAttempts(env: Env, w: World, h: nat, script: Funnel.Script, w': World, d: DocId)
    requires DoFunnel(env, w, h, script) == Some(w') && d in w.t.docs && d in w'.t.docs
    ensures w'.t.docs[d].extractAttempts == w.t.docs[d].extractAttempts
  {
    hide FunnelOf, Asks;
  }

  lemma OtherAttempts(env: Env, w: World, a: ExtractAction, w': World, d: DocId)
    requires NextExtract(env, w, a) == Some(w') && (a.Start? || a.Load? || a.Assemble? || a.Reroute? || a.Crash?) &&
             d in w.t.docs && d in w'.t.docs
    ensures w'.t.docs[d].extractAttempts == w.t.docs[d].extractAttempts
  {
    hide DoStart, DoLoad, DoAssemble, DoCrash;
    match a
    case Start(h, i) => StartAttempts(w, h, i, w', d);
    case Assemble(h) => AssembleVerdict(w, h, w');
    case Load(h) => LoadVerdict(w, h, w');
    case Crash(h) => LoadVerdict(w, h, w');
    case Reroute(h) =>
  }

  lemma StartAttempts(w: World, h: nat, i: nat, w': World, d: DocId)
    requires DoStart(w, h, i) == Some(w') && d in w.t.docs && d in w'.t.docs
    ensures w'.t.docs[d].extractAttempts == w.t.docs[d].extractAttempts
  {
  }

  /** The claim is the only step that counts a sweep, and the only one but a handler's attempt that spends one. */
  lemma RecoverAttempts(env: Env, w: World, a: RecoverAction, w': World, d: DocId)
    requires NextRecover(env, w, a) == Some(w') && !a.SweepClaim? && d in w.t.docs
    ensures d in w'.t.docs && SameAttempts(w, Recover(a), w', d)
    ensures w'.sweptText == w.sweptText && w'.sweptExtract == w.sweptExtract
  {
    hide RedriveMsgs, EnqueueAll;
    match a
    case ForceRedrive(r) =>
      var target := RedriveTarget(r.row, r.assembled).value;
      var t := Transition(w.t, r.doc, target, Predecessors(target), w.now).value;
      EnqueueAllFacts(t, RedriveMsgs(env.cfg, t, Row(r.doc, r.row.(state := target)), Operator));
    case SweepRedrive(r) => EnqueueAllFacts(w.t, RedriveMsgs(env.cfg, w.t, r, Sweep));
    case _ =>
  }

  lemma ClaimDocBounded(cfg: Config, w: World, ids: seq<DocId>, w': World, d: DocId)
    requires d in w.t.docs && Bounded(cfg, w, d)
    requires w'.t == ClaimAll(cfg, w.t, ids, w.now)
    requires w'.sweptText == Tally(cfg, w.t.docs, ids, TextRunning, w.sweptText, w.now)
    requires w'.sweptExtract == Tally(cfg, w.t.docs, ids, ExtractRunning, w.sweptExtract, w.now)
    ensures d in w'.t.docs && Bounded(cfg, w', d)
  {
  }

  lemma ClaimBounded(env: Env, w: World, ids: seq<DocId>, locked: set<DocId>, cap: nat, w': World)
    requires RetryInv(env.cfg, w) && DoSweepClaim(env, w, ids, locked, cap) == Some(w')
    ensures RetryInv(env.cfg, w')
  {
    hide IsBatch, Bounded, ClaimedDoc;
    forall d | d in w'.t.docs ensures Bounded(env.cfg, w', d) {
      ClaimDocBounded(env.cfg, w, ids, w', d);
    }
  }

  lemma OthersAttempts(env: Env, w: World, a: Action, w': World, d: DocId)
    requires Next(env, w, a) == Some(w') && !(a.Recover? && a.rec.SweepClaim?) && d in w.t.docs
    ensures d in w'.t.docs && SameAttempts(w, a, w', d)
    ensures w'.sweptText == w.sweptText && w'.sweptExtract == w.sweptExtract
  {
    hide NextText, NextExtract, NextRecover, NextBroker, TextMsgs;
    match a
    case Text(x) => TextSteps(env, w, x, w');
    case Extract(x) => ExtractAttempts(env, w, x, w', d);
    case Recover(x) => RecoverAttempts(env, w, x, w', d);
    case Broker(x) => BrokerSteps(w, x, w');
  }

  lemma NewRowAttempts(env: Env, w: World, a: Action, w': World, d: DocId)
    requires Next(env, w, a) == Some(w') && d !in w.t.docs && d in w'.t.docs
    ensures w'.t.docs[d].textAttempts == 0 && w'.t.docs[d].extractAttempts == 0
    ensures w'.sweptText == w.sweptText && w'.sweptExtract == w.sweptExtract
  {
    hide NextText, NextExtract, NextRecover, NextBroker, TextMsgs, RecoverMsgs, ExtractMsgs, SameButRecovery,
         SameButVerdict, HandlerFrame;
    match a
    case Text(x) =>
      TextSteps(env, w, x, w');
      TriageOnly(env, w, x, w', d);
      TriageAttempts(env, w, x, w', d);
    case Extract(x) => ExtractSteps(env, w, x, w');
    case Recover(x) => RecoverSteps(env, w, x, w');
    case Broker(x) => BrokerSteps(w, x, w');
  }

  lemma TriageAttempts(env: Env, w: World, a: TextAction, w': World, d: DocId)
    requires NextText(env, w, a) == Some(w') && a.Triage? && d !in w.t.docs && d in w'.t.docs
    ensures w'.t.docs[d].textAttempts == 0 && w'.t.docs[d].extractAttempts == 0
  {
    hide DispatchMsg;
  }

  lemma RetryStep(env: Env, w: World, a: Action, w': World)
    requires RetryInv(env.cfg, w) && Next(env, w, a) == Some(w')
    ensures RetryInv(env.cfg, w')
  {
    hide NextText, NextExtract, NextBroker, DoSweepClaim, DoForceRedrive, DoAcceptReview, DoSweepRedrive, NewMsgs;
    if a.Recover? && a.rec.SweepClaim? {
      ClaimBounded(env, w, a.rec.ids, a.rec.locked, a.rec.cap, w');
    } else {
      StepGrows(env, w, a, w');
      forall d | d in w'.t.docs ensures Bounded(env.cfg, w', d) {
        if d in w.t.docs {
          assert Bounded(env.cfg, w, d);
          OthersAttempts(env, w, a, w', d);
        } else {
          NewRowAttempts(env, w, a, w', d);
        }
      }
      OthersCount(env, w, a, w');
    }
  }

  lemma OthersCount(env: Env, w: World, a: Action, w': World)
    requires Next(env, w, a) == Some(w') && !(a.Recover? && a.rec.SweepClaim?)
    ensures w'.sweptText == w.sweptText && w'.sweptExtract == w.sweptExtract
  {
    hide NextText, NextExtract, NextRecover, NextBroker, TextMsgs, ExtractMsgs, SameButText, SameButVerdict,
         HandlerFrame;
    match a
    case Text(x) => TextSteps(env, w, x, w');
    case Extract(x) => ExtractSteps(env, w, x, w');
    case Recover(x) => RecoverCount(env, w, x, w');
    case Broker(x) => BrokerSteps(w, x, w');
  }

  lemma RecoverCount(env: Env, w: World, a: RecoverAction, w': World)
    requires NextRecover(env, w, a) == Some(w') && !a.SweepClaim?
    ensures w'.sweptText == w.sweptText && w'.sweptExtract == w.sweptExtract
  {
    hide RedriveMsgs, EnqueueAll, Transition;
  }

  lemma {:induction false} RetryRun(env: Env, ws: seq<World>, acts: seq<Action>, n: nat)
    requires IsRun(env, ws, acts) && n < |ws|
    ensures RetryInv(env.cfg, ws[n])
  {
    hide Next;
    if n > 0 {
      RetryRun(env, ws, acts, n - 1);
      RetryStep(env, ws[n - 1], acts[n - 1], ws[n]);
    }
  }

  // ---- The theorems ----

  /** At every point of every run: text_attempts is within its cap and counts exactly the sweeps back from
      text_running, and the sweeps back from extract_running are within theirs. */
  lemma RetriesBounded(env: Env, ws: seq<World>, acts: seq<Action>, n: nat, d: DocId)
    requires IsRun(env, ws, acts) && n < |ws| && d in ws[n].t.docs
    ensures ws[n].t.docs[d].textAttempts == Count(ws[n].sweptText, d) <= env.cfg.maxText
    ensures Count(ws[n].sweptExtract, d) <= env.cfg.maxExtract
  {
    hide Next;
    RetryRun(env, ws, acts, n);
    assert Bounded(env.cfg, ws[n], d);
  }

  /** Once the sweeps of a running state are used up, the next claim from it fails the document with a reason. */
  lemma NextClaimFails(env: Env, ws: seq<World>, acts: seq<Action>, n: nat, d: DocId)
    requires IsRun(env, ws, acts) && n < |acts| && acts[n].Recover? && acts[n].rec.SweepClaim?
    requires d in ws[n].t.docs && d in acts[n].rec.ids
    requires var s := ws[n].t.docs[d].state;
      (s == TextRunning && Count(ws[n].sweptText, d) == env.cfg.maxText) ||
      (s == ExtractRunning && Count(ws[n].sweptExtract, d) == env.cfg.maxExtract)
    ensures d in ws[n + 1].t.docs && ws[n + 1].t.docs[d].state == Failed
    ensures ws[n + 1].t.docs[d].lastError.Some? && ws[n + 1].t.docs[d].lastError.value.CapExceeded? &&
            ws[n + 1].t.docs[d].lastError.value.state == ws[n].t.docs[d].state
    ensures Row(d, ws[n].t.docs[d]) !in ws[n + 1].claimed || Row(d, ws[n].t.docs[d]) in ws[n].claimed
  {
    hide NextText, NextExtract, NextBroker, IsBatch, Tally;
    RetryRun(env, ws, acts, n);
    assert Bounded(env.cfg, ws[n], d);
    assert Next(env, ws[n], acts[n]) == Some(ws[n + 1]);
  }

  /** The sweeps a document has left, over both running states. */
  ghost function Remaining(cfg: Config, w: World, d: DocId): int {
    cfg.maxText + cfg.maxExtract - Count(w.sweptText, d) - Count(w.sweptExtract, d)
  }

  /** That is a measure: never negative, grown by no step, and one less after every sweep that takes the document
      back from a running state. */
  lemma RemainingDecreases(env: Env, ws: seq<World>, acts: seq<Action>, n: nat, d: DocId)
    requires IsRun(env, ws, acts) && n < |acts| && d in ws[n].t.docs
    ensures 0 <= Remaining(env.cfg, ws[n + 1], d) <= Remaining(env.cfg, ws[n], d)
    ensures acts[n].Recover? && acts[n].rec.SweepClaim? && d in acts[n].rec.ids && IsRunning(ws[n].t.docs[d].state) &&
            d in ws[n + 1].t.docs && ws[n + 1].t.docs[d].state != Failed ==>
              Remaining(env.cfg, ws[n + 1], d) == Remaining(env.cfg, ws[n], d) - 1
  {
    hide NextText, NextExtract, NextBroker, DoForceRedrive, DoAcceptReview, DoSweepRedrive, IsBatch, NewMsgs;
    assert Next(env, ws[n], acts[n]) == Some(ws[n + 1]);
    RetryRun(env, ws, acts, n + 1);
    StepGrows(env, ws[n], acts[n], ws[n + 1]);
    assert Bounded(env.cfg, ws[n + 1], d);
    if !(acts[n].Recover? && acts[n].rec.SweepClaim?) {
      OthersCount(env, ws[n], acts[n], ws[n + 1]);
    }
  }

  // ---- What extract_attempts counts ----

  /** How often a handler of d counted an attempt before step n. */
  ghost function Tries(ws: seq<World>, acts: seq<Action>, n: nat, d: DocId): nat
    requires |ws| == |acts| + 1 && n < |ws|
  {
    if n == 0 then 0 else Tries(ws, acts, n - 1, d) + Tried(ws[n - 1], acts[n - 1], d)
  }

  lemma ClaimCounts(cfg: Config, w: World, ids: seq<DocId>, w': World, d: DocId)
    requires d in w.t.docs && w'.t == ClaimAll(cfg, w.t, ids, w.now)
    requires w'.sweptExtract == Tally(cfg, w.t.docs, ids, ExtractRunning, w.sweptExtract, w.now)
    ensures d in w'.t.docs
    ensures w'.t.docs[d].extractAttempts - w.t.docs[d].extractAttempts ==
            Count(w'.sweptExtract, d) - Count(w.sweptExtract, d)
  {
  }

  lemma SweepCounts(env: Env, w: World, a: Action, w': World, d: DocId)
    requires Next(env, w, a) == Some(w') && a.Recover? && a.rec.SweepClaim? && d in w.t.docs
    ensures d in w'.t.docs
    ensures w'.t.docs[d].extractAttempts - w.t.docs[d].extractAttempts ==
            Count(w'.sweptExtract, d) - Count(w.sweptExtract, d)
  {
    hide IsBatch, Tally, ClaimAll;
    ClaimCounts(env.cfg, w, a.rec.ids, w', d);
  }

  lemma TriedKnown(env: Env, w: World, a: Action, d: DocId)
    requires Basic(env, w) && d !in w.t.docs
    ensures Tried(w, a, d) == 0
  {
    hide Basic;
    if a.Extract? && a.ext.h in w.handlers { HandlerDoc(env, w, a.ext.h); }
  }

  /** At every point of every run extract_attempts is exactly the number of attempts its handlers counted and of sweeps
      back from extract_running. */
  lemma {:induction false} AttemptsExact(env: Env, ws: seq<World>, acts: seq<Action>, n: nat, d: DocId)
    requires env.Valid() && IsRun(env, ws, acts) && n < |ws|
    ensures (if d in ws[n].t.docs then ws[n].t.docs[d].extractAttempts else 0) ==
            Tries(ws, acts, n, d) + Count(ws[n].sweptExtract, d)
  {
    hide Next, Basic, RetryInv, NewMsgs, Tried;
    if n > 0 {
      var w, a, w' := ws[n - 1], acts[n - 1], ws[n];
      AttemptsExact(env, ws, acts, n - 1, d);
      BasicRun(env, ws, acts, n - 1);
      RetryRun(env, ws, acts, n);
      StepGrows(env, w, a, w');
      if d !in w.t.docs { TriedKnown(env, w, a, d); }
      if a.Recover? && a.rec.SweepClaim? {
        SweepTriesNone(w, a, d);
        SweepAddsNone(env, w, a, w');
        if d in w.t.docs { SweepCounts(env, w, a, w', d); } else { NoRowSwept(env, w', d); }
      } else {
        OthersCount(env, w, a, w');
        if d in w.t.docs { OthersAttempts(env, w, a, w', d); }
        else if d in w'.t.docs { NewRowAttempts(env, w, a, w', d); }
      }
    }
  }

  lemma SweepTriesNone(w: World, a: Action, d: DocId)
    requires !a.Extract?
    ensures Tried(w, a, d) == 0
  {
  }

  lemma NoRowSwept(env: Env, w: World, d: DocId)
    requires RetryInv(env.cfg, w) && d !in w.t.docs
    ensures Count(w.sweptExtract, d) == 0
  {
  }

  lemma SweepAddsNone(env: Env, w: World, a: Action, w': World)
    requires Next(env, w, a) == Some(w') && a.Recover? && a.rec.SweepClaim?
    ensures w'.t.docs.Keys == w.t.docs.Keys
  {
    hide IsBatch, Tally;
  }
}

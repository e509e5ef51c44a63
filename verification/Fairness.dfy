/** The capped, oldest-first sweep starves no document. */
module Fairness {
  import opened Types
  import opened Pages
  import opened Ledger
  import opened Sweeper
  import opened Stages
  import opened Protocol
  import opened Frames
  import opened Basics
  import opened Joining
  import opened Verdicts
  import Funnel

  // ---- Every state change stamps the row ----

  /** The row kept its state and its time, or carries the time of this step. */
  ghost predicate Stamped(w: World, w': World, e: DocId)
    requires e in w'.t.docs
  {
    w'.t.docs[e].updatedAt == w.now ||
    (e in w.t.docs && w'.t.docs[e].state == w.t.docs[e].state && w'.t.docs[e].updatedAt == w.t.docs[e].updatedAt)
  }

  ghost predicate StampedTables(t: Tables, t': Tables, now: Time) {
    forall e | e in t'.docs ::
      t'.docs[e].updatedAt == now ||
      (e in t.docs && t'.docs[e].state == t.docs[e].state && t'.docs[e].updatedAt == t.docs[e].updatedAt)
  }

  lemma TextStamped(env: Env, w: World, a: TextAction, w': World, e: DocId)
    requires NextText(env, w, a) == Some(w') && e in w'.t.docs
    ensures Stamped(w, w', e)
  {
    hide AllPages, ShardText, Transition, TriageTx, TextEmbeddedTx, CommitSplitTx, RecordShard;
    match a
    case Triage(d) => TriageStamp(env.cfg, w.t, d, env.sources[d], w.now);
    case EmbeddedWrite(i) =>
    case EmbeddedCommit(i) =>
      var m := w.t.sent[i];
      EmbeddedStamp(env.cfg, w.t, m.doc, env.sources[m.doc], m.payload.gcsPath, w.now);
    case SplitBegin(i) => TransitionStamp(w.t, w.t.sent[i].doc, TextRunning, {TextPending}, w.now);
    case SplitCommit(i) =>
      var n := |env.sources[w.t.sent[i].doc].ocr|;
      SplitStamp(env.cfg, w.t, w.t.sent[i].doc, ShardCount(n, env.cfg.shardSize), n, e);
    case ShardBegin(i) => TransitionStamp(w.t, w.t.sent[i].doc, TextRunning, {TextPending}, w.now);
    case ShardWrite(i) =>
    case ShardRecord(i) => RecordStamp(w.t, w.t.sent[i].doc, w.t.sent[i].payload.idx, w.now);
  }

  lemma TransitionStamp(t: Tables, d: DocId, to: DocState, from: set<DocState>, now: Time)
    ensures Transition(t, d, to, from, now).Some? ==> StampedTables(t, Transition(t, d, to, from, now).value, now)
  {
  }

  lemma TriageStamp(cfg: Config, t: Tables, d: DocId, src: Source, now: Time)
    ensures StampedTables(t, TriageTx(cfg, t, d, src, now), now)
  {
    hide DispatchMsg;
  }

  lemma EmbeddedStamp(cfg: Config, t: Tables, d: DocId, src: Source, gcsPath: string, now: Time)
    ensures TextEmbeddedTx(cfg, t, d, src, gcsPath, now).Some? ==>
              StampedTables(t, TextEmbeddedTx(cfg, t, d, src, gcsPath, now).value, now)
  {
    hide DispatchMsg;
  }

  lemma RecordStamp(t: Tables, d: DocId, idx: nat, now: Time)
    ensures RecordShard(t, d, idx, now).Done? ==> StampedTables(t, RecordShard(t, d, idx, now).tables, now)
  {
  }

  lemma SplitStamp(cfg: Config, t: Tables, d: DocId, total: nat, pageCount: nat, e: DocId)
    requires e in CommitSplitTx(cfg, t, d, total, pageCount).docs
    ensures e in t.docs && CommitSplitTx(cfg, t, d, total, pageCount).docs[e].state == t.docs[e].state
    ensures CommitSplitTx(cfg, t, d, total, pageCount).docs[e].updatedAt == t.docs[e].updatedAt
  {
  }

  lemma RecoverStamped(env: Env, w: World, a: RecoverAction, w': World, e: DocId)
    requires NextRecover(env, w, a) == Some(w') && e in w'.t.docs
    ensures Stamped(w, w', e)
  {
    hide RedriveMsgs, EnqueueAll, IsBatch, Tally;
    match a
    case ForceRedrive(r) =>
      var target := RedriveTarget(r.row, r.assembled).value;
      var t := Transition(w.t, r.doc, target, Predecessors(target), w.now).value;
      EnqueueAllFacts(t, RedriveMsgs(env.cfg, t, Row(r.doc, r.row.(state := target)), Operator));
    case SweepRedrive(r) => EnqueueAllFacts(w.t, RedriveMsgs(env.cfg, w.t, r, Sweep));
    case _ =>
  }

  lemma CommitStamped(t: Tables, d: DocId, result: Extraction, gates: Report, final: DocState, payload: Option<Payload>,
      now: Time)
    ensures StampedTables(t, CommitExtraction(t, d, result, gates, final, payload, now).0, now)
  {
  }

  lemma FinishStamped(t: Tables, d: DocId, fields: Option<Fields>, report: Report, autoPost: bool, now: Time,
      t': Tables)
    requires FinishTx(t, d, fields, report, autoPost, now) == Some(t')
    ensures StampedTables(t, t', now)
  {
    hide CommitExtraction, Violates;
    match fields
    case None => CommitStamped(t, d, NoFields, report, Review, None, now);
    case Some(f) =>
      CommitStamped(t, d, HasFields(f), report.(killSwitch := Some(Fail)), Review, None, now);
      CommitStamped(SetBusinessKey(t, d, f.seller, f.invoiceNo), d, HasFields(f), report, Complete,
          Some(AutoPost(f, report)), now);
  }

  lemma ExtractStamped(env: Env, w: World, a: ExtractAction, w': World, e: DocId)
    requires NextExtract(env, w, a) == Some(w') && e in w'.t.docs
    ensures Stamped(w, w', e)
  {
    hide DoAssemble, DoFunnel, DoFinish, PcAfter, FinishTx;
    match a
    case Finish(h, autoPost) =>
      ClashVerdict(env, w, h, autoPost, w');
      if PcAfter(env, w, a).None? {
        FinishStamped(w.t, w.handlers[h].doc, w.handlers[h].pc.fields, w.handlers[h].pc.report, autoPost, w.now, w'.t);
      }
    case RunFunnel(h, script) => FunnelStamped(env, w, h, script, w', e);
    case Assemble(h) => AssembleVerdict(w, h, w');
    case _ =>
  }

  lemma FunnelStamped(env: Env, w: World, h: nat, script: Funnel.Script, w': World, e: DocId)
    requires DoFunnel(env, w, h, script) == Some(w') && e in w'.t.docs
    ensures Stamped(w, w', e)
  {
    hide FunnelOf, Asks;
  }

  lemma StepStamped(env: Env, w: World, a: Action, w': World, e: DocId)
    requires Next(env, w, a) == Some(w') && e in w'.t.docs
    ensures Stamped(w, w', e) && (w'.now == w.now || (e in w.t.docs && w'.t.docs[e] == w.t.docs[e]))
  {
    hide NextText, NextExtract, NextRecover, NextBroker, TextMsgs, ExtractMsgs, RecoverMsgs, SameButText,
         SameButVerdict, SameButRecovery, HandlerFrame;
    match a
    case Text(x) => TextStamped(env, w, x, w', e); TextSteps(env, w, x, w');
    case Extract(x) => ExtractStamped(env, w, x, w', e); ExtractSteps(env, w, x, w');
    case Recover(x) => RecoverStamped(env, w, x, w', e); RecoverSteps(env, w, x, w');
    case Broker(x) => BrokerSteps(w, x, w');
  }

  // ---- The queue ahead of a document ----

  /** The other in-flight documents whose state is not newer than d's. */
  ghost function Ahead(w: World, d: DocId): set<DocId>
    requires d in w.t.docs
  {
    set e | e in w.t.docs && e != d && InFlight(w.t.docs[e].state) && w.t.docs[e].updatedAt <= w.t.docs[d].updatedAt
  }

  ghost predicate IsSweep(a: Action) {
    a.Recover? && a.rec.SweepClaim?
  }

  /** d is stuck, so everything stamped from now on comes after it: nobody joins the queue ahead. */
  lemma NobodyJoins(env: Env, w: World, a: Action, w': World, d: DocId)
    requires Next(env, w, a) == Some(w') && d in w.t.docs && Stuck(env.cfg, w.t.docs[d], w.now)
    requires d in w'.t.docs && Stuck(env.cfg, w'.t.docs[d], w'.now)
    ensures w'.t.docs[d].updatedAt == w.t.docs[d].updatedAt
    ensures Ahead(w', d) <= Ahead(w, d)
  {
    hide Next;
    StepStamped(env, w, a, w', d);
    forall e | e in Ahead(w', d) ensures e in Ahead(w, d) {
      StepStamped(env, w, a, w', e);
    }
  }

  ghost function IdSet(ids: seq<DocId>): set<DocId> {
    set d | d in ids
  }

  lemma {:induction false} DistinctSize(ids: seq<DocId>)
    requires Distinct(ids)
    ensures |IdSet(ids)| == |ids|
  {
    if ids != [] {
      var init, last := ids[..|ids| - 1], ids[|ids| - 1];
      DistinctSize(init);
      assert last !in IdSet(init);
      assert IdSet(ids) == IdSet(init) + {last};
    }
  }

  /** A sweep that passes over an eligible document is full of documents from the queue ahead of it. */
  lemma PassedOver(env: Env, w: World, ids: seq<DocId>, locked: set<DocId>, cap: nat, d: DocId)
    requires Basic(env, w) && IsBatch(env.cfg, w.t.docs, locked, w.now, cap, ids)
    requires d in w.t.docs && d !in locked && Stuck(env.cfg, w.t.docs[d], w.now) && d !in ids
    ensures |ids| == cap && IdSet(ids) <= Ahead(w, d) && |IdSet(ids)| == cap
  {
    hide MsgsOk, RefsOk, StoreOk;
    var all := Eligible(env.cfg, w.t.docs, locked, w.now);
    assert d in all;
    forall e | e in ids ensures e in Ahead(w, d) {
      assert Ordered(w.t.docs, e, d);
      assert e in all;
      assert GoodRow(env, e, w.t.docs[e]) && GoodRow(env, d, w.t.docs[d]);
    }
    DistinctSize(ids);
  }

  /** ... and claiming moves them behind it. */
  lemma SweepShortens(env: Env, w: World, a: Action, w': World, d: DocId)
    requires Basic(env, w) && Next(env, w, a) == Some(w') && IsSweep(a) && d in w.t.docs &&
             Stuck(env.cfg, w.t.docs[d], w.now)
    requires d !in a.rec.locked && d in w'.t.docs && Stuck(env.cfg, w'.t.docs[d], w'.now)
    ensures |Ahead(w', d)| + a.rec.cap <= |Ahead(w, d)|
  {
    hide Basic, NextText, NextExtract, NextBroker, IsBatch, Tally;
    NobodyJoins(env, w, a, w', d);
    var ids := a.rec.ids;
    ClaimStamps(env, w, ids, a.rec.locked, a.rec.cap, w');
    assert d !in ids;
    PassedOver(env, w, ids, a.rec.locked, a.rec.cap, d);
    var claimed := IdSet(ids);
    forall e | e in claimed ensures e !in Ahead(w', d) {
      assert e in w.t.docs;
    }
    SubsetSize(Ahead(w', d), Ahead(w, d) - claimed);
    assert Ahead(w, d) == (Ahead(w, d) - claimed) + claimed;
  }

  lemma ClaimStamps(env: Env, w: World, ids: seq<DocId>, locked: set<DocId>, cap: nat, w': World)
    requires DoSweepClaim(env, w, ids, locked, cap) == Some(w')
    ensures w'.now == w.now && IsBatch(env.cfg, w.t.docs, locked, w.now, cap, ids)
    ensures forall e | e in ids && e in w.t.docs :: e in w'.t.docs && w'.t.docs[e].updatedAt == w.now
  {
    hide IsBatch, Tally;
  }

  lemma SweepBatch(env: Env, w: World, a: Action, w': World)
    requires Next(env, w, a) == Some(w') && IsSweep(a)
    ensures IsBatch(env.cfg, w.t.docs, a.rec.locked, w.now, a.rec.cap, a.rec.ids)
  {
    hide IsBatch, Tally;
  }

  /** The number of sweeps among actions m..n. */
  ghost function Sweeps(acts: seq<Action>, m: nat, n: nat): nat
    requires m <= n <= |acts|
    decreases n - m
  {
    if m == n then 0 else Sweeps(acts, m, n - 1) + (if IsSweep(acts[n - 1]) then 1 else 0)
  }

  /** At every point d is in a text state older than the one threshold, or in an extract state older than the other. */
  ghost predicate StaysOverdue(env: Env, ws: seq<World>, m: nat, n: nat, d: DocId)
    requires m <= n < |ws|
  {
    forall i | m <= i <= n ::
      d in ws[i].t.docs &&
      var doc := ws[i].t.docs[d];
      (doc.state in {TextPending, TextRunning} && doc.updatedAt < ws[i].now - env.cfg.stuckText) ||
      (doc.state in {ExtractPending, ExtractRunning} && doc.updatedAt < ws[i].now - env.cfg.stuckExtract)
  }

  lemma OverdueIsStuck(cfg: Config, doc: Doc, now: Time)
    ensures Stuck(cfg, doc, now) <==>
              (doc.state in {TextPending, TextRunning} && doc.updatedAt < now - cfg.stuckText) ||
              (doc.state in {ExtractPending, ExtractRunning} && doc.updatedAt < now - cfg.stuckExtract)
  {
  }

  ghost predicate Unlocked(acts: seq<Action>, m: nat, n: nat, cap: nat, d: DocId)
    requires m <= n <= |acts|
  {
    forall i | m <= i < n && IsSweep(acts[i]) :: acts[i].rec.cap == cap && d !in acts[i].rec.locked
  }

  lemma {:induction false} QueueShrinks(env: Env, ws: seq<World>, acts: seq<Action>, m: nat, n: nat, d: DocId, cap: nat)
    requires env.Valid() && IsRun(env, ws, acts) && m <= n <= |acts|
    requires StaysOverdue(env, ws, m, n, d) && Unlocked(acts, m, n, cap, d)
    ensures |Ahead(ws[n], d)| + cap * Sweeps(acts, m, n) <= |Ahead(ws[m], d)|
    decreases n - m
  {
    hide Next, Basic, Stuck, Ahead;
    if m < n {
      QueueShrinks(env, ws, acts, m, n - 1, d, cap);
      assert d in ws[n - 1].t.docs && d in ws[n].t.docs;
      OverdueIsStuck(env.cfg, ws[n - 1].t.docs[d], ws[n - 1].now);
      OverdueIsStuck(env.cfg, ws[n].t.docs[d], ws[n].now);
      if IsSweep(acts[n - 1]) {
        BasicRun(env, ws, acts, n - 1);
        SweepShortens(env, ws[n - 1], acts[n - 1], ws[n], d);
        assert cap * (Sweeps(acts, m, n - 1) + 1) == cap * Sweeps(acts, m, n - 1) + cap;
      } else {
        NobodyJoins(env, ws[n - 1], acts[n - 1], ws[n], d);
        SubsetSize(Ahead(ws[n], d), Ahead(ws[n - 1], d));
      }
    }
  }

  lemma LessThanABatch(k: nat, cap: nat, rest: nat)
    requires cap >= 1 && rest + cap * (k / cap) <= k
    ensures rest < cap
  {
  }

  /** Sweep fairness with a bound. A document that stays overdue and unlocked, with k other in-flight documents whose
      state is not newer, is claimed by the (k / cap + 1)-th sweep at the latest: whatever the other actors do, across
      both thresholds and with any other rows locked. */
  lemma ClaimedWithinBound(env: Env, ws: seq<World>, acts: seq<Action>, m: nat, n: nat, d: DocId, cap: nat)
    requires env.Valid() && IsRun(env, ws, acts) && m <= n < |acts| && cap >= 1
    requires StaysOverdue(env, ws, m, n, d) && Unlocked(acts, m, n + 1, cap, d)
    requires IsSweep(acts[n]) && Sweeps(acts, m, n) == |Ahead(ws[m], d)| / cap
    ensures d in acts[n].rec.ids
  {
    hide Basic, Next, IsBatch, Ahead, Stuck;
    QueueShrinks(env, ws, acts, m, n, d, cap);
    BasicRun(env, ws, acts, n);
    SweepBatch(env, ws[n], acts[n], ws[n + 1]);
    LessThanABatch(|Ahead(ws[m], d)|, cap, |Ahead(ws[n], d)|);
    assert d in ws[n].t.docs;
    OverdueIsStuck(env.cfg, ws[n].t.docs[d], ws[n].now);
    if d !in acts[n].rec.ids {
      PassedOver(env, ws[n], acts[n].rec.ids, acts[n].rec.locked, cap, d);
      SubsetSize(IdSet(acts[n].rec.ids), Ahead(ws[n], d));
    }
  }

  lemma {:induction false} TimeFlows(env: Env, ws: seq<World>, acts: seq<Action>, i: nat, j: nat)
    requires IsRun(env, ws, acts) && i <= j < |ws|
    ensures ws[i].now <= ws[j].now
    decreases j - i
  {
    hide Next, NewMsgs;
    if i < j {
      TimeFlows(env, ws, acts, i, j - 1);
      StepGrows(env, ws[j - 1], acts[j - 1], ws[j]);
    }
  }

  /** Nothing moves d between m and n. */
  ghost predicate LeftBehind(ws: seq<World>, m: nat, n: nat, d: DocId)
    requires m <= n < |ws|
  {
    forall i | m <= i <= n ::
      d in ws[i].t.docs && d in ws[m].t.docs && ws[i].t.docs[d].state == ws[m].t.docs[d].state &&
      ws[i].t.docs[d].updatedAt == ws[m].t.docs[d].updatedAt
  }

  /** A text document left alone for longer than the text threshold, and unlocked, is claimed within the same bound. */
  lemma TextClaimedWithinBound(env: Env, ws: seq<World>, acts: seq<Action>, m: nat, n: nat, d: DocId, cap: nat)
    requires env.Valid() && IsRun(env, ws, acts) && m <= n < |acts| && cap >= 1
    requires LeftBehind(ws, m, n, d) && Unlocked(acts, m, n + 1, cap, d)
    requires d in ws[m].t.docs && ws[m].t.docs[d].state in {TextPending, TextRunning}
    requires ws[m].now - ws[m].t.docs[d].updatedAt > env.cfg.stuckText
    requires IsSweep(acts[n]) && Sweeps(acts, m, n) == |Ahead(ws[m], d)| / cap
    ensures d in acts[n].rec.ids
  {
    hide Next, Ahead, Sweeps;
    forall i | m <= i <= n ensures ws[m].now <= ws[i].now { TimeFlows(env, ws, acts, m, i); }
    ClaimedWithinBound(env, ws, acts, m, n, d, cap);
  }
}

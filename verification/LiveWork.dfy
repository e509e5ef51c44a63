/** With the derived threshold the sweeper never takes a document from a worker that keeps its time bound, and every
    state change is then an edge of the state machine. */
module LiveWork {
  import opened Types
  import opened Pages
  import opened Ledger
  import opened Sweeper
  import opened Stages
  import opened Protocol
  import opened Frames
  import opened Verdicts
  import opened Fairness
  import Funnel

  // ---- The extraction budget, in whole seconds ----

  const SECOND: nat := 1_000_000
  const TIER_COUNT: nat := 2
  const MARGIN: nat := 300

  function Budget(maxRepair: nat, timeout: nat): nat {
    TIER_COUNT * (maxRepair + 1) * timeout
  }

  /** The extract threshold config derives in real mode. */
  function DerivedThreshold(maxRepair: nat, timeout: nat): nat {
    (Budget(maxRepair, timeout) + MARGIN) * SECOND
  }

  // ---- Time spent in model calls ----

  function SumTime(calls: seq<Funnel.Call>, n: nat): Time {
    if n == 0 || n > |calls| then 0 else SumTime(calls, n - 1) + calls[n - 1].duration
  }

  ghost predicate Quick(calls: seq<Funnel.Call>, n: nat, limit: nat) {
    forall c | 0 <= c < n && c < |calls| :: calls[c].duration <= limit
  }

  lemma {:induction false} QuickSum(calls: seq<Funnel.Call>, n: nat, limit: nat)
    requires Quick(calls, n, limit) && n <= |calls|
    ensures SumTime(calls, n) <= n * limit
  {
    if n > 0 {
      QuickSum(calls, n - 1, limit);
      assert n * limit == (n - 1) * limit + limit;
    }
  }

  ghost predicate RunsFunnel(w: World, h: nat, a: Action) {
    a.Extract? && a.ext.RunFunnel? && a.ext.h == h && h in w.handlers && w.handlers[h].pc.Attempted?
  }

  /** The duration of the calls that a step of handler h makes. */
  ghost function StepSpent(w: World, h: nat, a: Action): Time {
    if RunsFunnel(w, h, a) then
      var r := FunnelOf(w, h, a.ext.script);
      SumTime(a.ext.script.cheap, r.cheapCalls) + SumTime(a.ext.script.strong, r.strongCalls)
    else 0
  }

  ghost function Spent(ws: seq<World>, acts: seq<Action>, h: nat, i: nat, j: nat): Time
    requires i <= j <= |acts| && |ws| == |acts| + 1
    decreases j - i
  {
    if i == j then 0 else Spent(ws, acts, h, i, j - 1) + StepSpent(ws[j - 1], h, acts[j - 1])
  }

  /** Every call handler h makes between i and j keeps the timeout. */
  ghost predicate CallsQuick(ws: seq<World>, acts: seq<Action>, h: nat, i: nat, j: nat, timeout: nat)
    requires i <= j <= |acts| && |ws| == |acts| + 1
  {
    forall k | i <= k < j :: StepQuick(ws[k], h, acts[k], timeout)
  }

  ghost predicate StepQuick(w: World, h: nat, a: Action, timeout: nat) {
    RunsFunnel(w, h, a) ==>
      var r := FunnelOf(w, h, a.ext.script);
      Quick(a.ext.script.cheap, r.cheapCalls, timeout * SECOND) &&
          Quick(a.ext.script.strong, r.strongCalls, timeout * SECOND)
  }

  lemma FunnelTime(env: Env, w: World, h: nat, a: Action, w': World, timeout: nat)
    requires Next(env, w, a) == Some(w') && StepQuick(w, h, a, timeout)
    ensures StepSpent(w, h, a) <= Budget(env.cfg.maxRepair, timeout) * SECOND
    ensures RunsFunnel(w, h, a) ==> h in w'.handlers && w'.handlers[h].pc.Decided?
  {
    hide NextText, NextRecover, NextBroker, Funnel.FunnelSpec, SumTime, DoStart, DoLoad, DoAssemble, DoAttempt,
         DoFinish, DoReroute, DoCrash,
         Asks, CountRepairs, SourceText;
    if RunsFunnel(w, h, a) {
      var script := a.ext.script;
      var x := w.handlers[h];
      var r := FunnelOf(w, h, script);
      Funnel.FunnelCallBound(w.t.docs, x.doc, x.pc.row.docType, SourceText(x.pc.pages), env.cfg.maxRepair, script);
      QuickSum(script.cheap, r.cheapCalls, timeout * SECOND);
      QuickSum(script.strong, r.strongCalls, timeout * SECOND);
      CallTime(r.cheapCalls, r.strongCalls, env.cfg.maxRepair, timeout);
    }
  }

  lemma CallTime(a: nat, b: nat, maxRepair: nat, timeout: nat)
    requires a <= maxRepair + 1 && b <= maxRepair + 1
    ensures a * (timeout * SECOND) + b * (timeout * SECOND) <= Budget(maxRepair, timeout) * SECOND
  {
    MulMono(a, maxRepair + 1, timeout * SECOND);
    MulMono(b, maxRepair + 1, timeout * SECOND);
    assert 2 * ((maxRepair + 1) * (timeout * SECOND)) == (TIER_COUNT * (maxRepair + 1) * timeout) * SECOND;
  }

  lemma {:induction false} SumUniform(calls: seq<Funnel.Call>, n: nat, q: nat)
    requires n <= |calls| && forall k | 0 <= k < n :: calls[k].duration == q
    ensures SumTime(calls, n) == n * q
  {
    if n > 0 {
      SumUniform(calls, n - 1, q);
      assert n * q == (n - 1) * q + q;
    }
  }

  function Stubborn(n: nat, q: nat): seq<Funnel.Call> {
    seq(n, _ => Funnel.Call(Funnel.Unparseable, q))
  }

  /** The budget is no more than needed: a model that never gives a usable answer, each time at the last moment, takes
      exactly all of it. */
  lemma BudgetAttained(docs: map<DocId, Doc>, d: DocId, docType: DocType, text: string, maxRepair: nat, timeout: nat)
    ensures var calls := Stubborn(maxRepair + 1, timeout * SECOND);
      var r := Funnel.FunnelSpec(docs, d, docType, text, Funnel.Script(calls, calls));
      && r.cheapCalls == r.strongCalls == maxRepair + 1
      && SumTime(calls, r.cheapCalls) + SumTime(calls, r.strongCalls) == Budget(maxRepair, timeout) * SECOND
  {
    hide Funnel.FunnelSpec;
    var q := timeout * SECOND;
    var calls := Stubborn(maxRepair + 1, q);
    var script := Funnel.Script(calls, calls);
    assert Funnel.AfterFutile(calls, |calls|);
    Funnel.FunnelAnswers(docs, d, docType, text, maxRepair, script, BLANK_FIELDS);
    Funnel.CallsMade(docs, d, docType, text, maxRepair, script, 0);
    SumUniform(calls, maxRepair + 1, q);
    assert 2 * ((maxRepair + 1) * (timeout * SECOND)) == (TIER_COUNT * (maxRepair + 1) * timeout) * SECOND;
  }

  /** The figures of the default configuration: 1200 seconds of calls, a threshold of 1500. */
  lemma DefaultFigures()
    ensures Budget(2, 200) == 1200 && DerivedThreshold(2, 200) == 1_500_000_000
  {
  }

  // ---- A worker at work ----

  /** Handler h starts on d with action i and is still at it in world j. */
  ghost predicate Works(ws: seq<World>, acts: seq<Action>, h: nat, d: DocId, i: nat, j: nat)
    requires |ws| == |acts| + 1
  {
    && i < j <= |acts|
    && acts[i].Extract? && acts[i].ext.Start? && acts[i].ext.h == h
    && (forall k | i < k <= j :: h in ws[k].handlers && ws[k].handlers[h].doc == d)
  }

  /** The funnel runs at most once per message. */
  lemma {:induction false} SpentBounded(env: Env, ws: seq<World>, acts: seq<Action>, h: nat, d: DocId, i: nat, j: nat,
      timeout: nat)
    requires IsRun(env, ws, acts) && Works(ws, acts, h, d, i, j) && CallsQuick(ws, acts, h, i, j, timeout)
    ensures Spent(ws, acts, h, i, j) <= Budget(env.cfg.maxRepair, timeout) * SECOND
    ensures !ws[j].handlers[h].pc.Decided? && !ws[j].handlers[h].pc.Routing? ==> Spent(ws, acts, h, i, j) == 0
    decreases j
  {
    hide Next, StepQuick, StepSpent;
    if j == i + 1 {
      StartSpends(env, ws[i], h, acts[i], ws[j]);
    } else {
      SpentBounded(env, ws, acts, h, d, i, j - 1, timeout);
      assert StepQuick(ws[j - 1], h, acts[j - 1], timeout);
      FunnelTime(env, ws[j - 1], h, acts[j - 1], ws[j], timeout);
      PcForward(env, ws[j - 1], acts[j - 1], ws[j], h);
    }
  }

  lemma StartSpends(env: Env, w: World, h: nat, a: Action, w': World)
    requires a.Extract? && a.ext.Start?
    ensures StepSpent(w, h, a) == 0
  {
  }

  /** A handler never returns to the funnel, and only the funnel spends. */
  lemma PcForward(env: Env, w: World, a: Action, w': World, h: nat)
    requires Next(env, w, a) == Some(w') && h in w.handlers && h in w'.handlers &&
             w.handlers[h].doc == w'.handlers[h].doc
    ensures w.handlers[h].pc.Decided? || w.handlers[h].pc.Routing? ==>
              w'.handlers[h].pc.Decided? || w'.handlers[h].pc.Routing?
    ensures !RunsFunnel(w, h, a) ==> StepSpent(w, h, a) == 0
    ensures RunsFunnel(w, h, a) ==> !w.handlers[h].pc.Decided? && !w.handlers[h].pc.Routing?
  {
    hide NextText, NextExtract, NextRecover, NextBroker, EnsureAssembledSpec, FunnelOf, Completeness, Clash, SumTime;
    if a.Extract? {
      HandlersAfter(env, w, a.ext, w');
    } else {
      OnlyExtract(env, w, a, w');
    }
  }

  ghost predicate Touches(a: Action, d: DocId) {
    a.Recover? && ((a.rec.ForceRedrive? && a.rec.seen.doc == d) || (a.rec.AcceptReview? && a.rec.seen.doc == d))
  }

  /** d is being extracted since `since` or later. */
  ghost predicate Running(w: World, d: DocId, since: Time) {
    d in w.t.docs && w.t.docs[d].state == ExtractRunning && since <= w.t.docs[d].updatedAt
  }

  lemma RecoverLeaves(env: Env, w: World, a: RecoverAction, w': World, d: DocId)
    requires NextRecover(env, w, a) == Some(w') && !Touches(Recover(a), d) && d in w.t.docs &&
             !Stuck(env.cfg, w.t.docs[d], w.now)
    ensures d in w'.t.docs && w'.t.docs[d] == w.t.docs[d]
    ensures a.SweepClaim? ==> d !in a.ids
  {
    hide RedriveMsgs, EnqueueAll, Tally, Stuck;
    match a
    case ForceRedrive(r) =>
      var target := RedriveTarget(r.row, r.assembled).value;
      var t := Transition(w.t, r.doc, target, Predecessors(target), w.now).value;
      EnqueueAllFacts(t, RedriveMsgs(env.cfg, t, Row(r.doc, r.row.(state := target)), Operator));
    case SweepRedrive(r) => EnqueueAllFacts(w.t, RedriveMsgs(env.cfg, w.t, r, Sweep));
    case SweepClaim(ids, locked, cap) => assert d in ids ==> d in Eligible(env.cfg, w.t.docs, locked, w.now);
    case _ =>
  }

  /** While its handler is at work and the threshold has not passed, nobody else moves the document. */
  lemma StepLeaves(env: Env, w: World, a: Action, w': World, h: nat, d: DocId, since: Time)
    requires OpenInv(w) && Next(env, w, a) == Some(w') && H1(w, a) && !Touches(a, d)
    requires h in w.handlers && w.handlers[h].doc == d && h in w'.handlers && w'.handlers[h].doc == d
    requires Running(w, d, since) && since <= w.now && w.now - since < env.cfg.stuckExtract
    ensures Running(w', d, since)
  {
    hide NextText, NextExtract, NextRecover, NextBroker, PcAfter, SameVerdict, TextMsgs;
    match a
    case Text(x) => TextSteps(env, w, x, w'); StepStamped(env, w, a, w', d);
    case Extract(x) =>
      HandlersAfter(env, w, x, w');
      ExtractVerdict(env, w, x, w', d);
      StepStamped(env, w, a, w', d);
    case Recover(x) => RecoverLeaves(env, w, x, w', d);
    case Broker(x) => BrokerSteps(w, x, w');
  }

  lemma StartRuns(env: Env, w: World, a: Action, w': World, h: nat)
    requires Next(env, w, a) == Some(w') && a.Extract? && a.ext.Start? && a.ext.h == h
    ensures h in w'.handlers && Running(w', w'.handlers[h].doc, w.now) && w'.now == w.now
  {
    hide NextText, NextRecover, NextBroker;
  }

  ghost predicate LeftAlone(acts: seq<Action>, d: DocId, i: nat, j: nat)
    requires i <= j <= |acts|
  {
    forall k | i <= k < j :: !Touches(acts[k], d)
  }

  lemma {:induction false} StaysRunning(env: Env, ws: seq<World>, acts: seq<Action>, h: nat, d: DocId, i: nat, j: nat,
      k: nat)
    requires IsRun(env, ws, acts) && Under1(ws, acts) && Works(ws, acts, h, d, i, j) && LeftAlone(acts, d, i, j)
    requires ws[j].now - ws[i].now < env.cfg.stuckExtract && i < k <= j
    ensures Running(ws[k], d, ws[i].now)
    decreases k
  {
    hide Next, OpenInv, H1, Running;
    if k == i + 1 {
      StartRuns(env, ws[i], acts[i], ws[k], h);
    } else {
      StaysRunning(env, ws, acts, h, d, i, j, k - 1);
      OpenRun(env, ws, acts, k - 1);
      TimeFlows(env, ws, acts, k - 1, j);
      TimeFlows(env, ws, acts, i, k - 1);
      StepLeaves(env, ws[k - 1], acts[k - 1], ws[k], h, d, ws[i].now);
    }
  }

  /** The calls of a funnel still under way: the script it follows and how many calls of each tier it has begun. */
  datatype UnderWay = UnderWay(script: Funnel.Script, cheap: nat, strong: nat)

  /** While handler h is in the funnel, these are calls it makes, each within the timeout. */
  ghost predicate Making(env: Env, w: World, h: nat, u: UnderWay, timeout: nat) {
    h in w.handlers && w.handlers[h].pc.Attempted? ==>
      Funnel.Ready(u.script, env.cfg.maxRepair) &&
      var r := FunnelOf(w, h, u.script);
      u.cheap <= r.cheapCalls && u.strong <= r.strongCalls &&
      Quick(u.script.cheap, u.cheap, timeout * SECOND) && Quick(u.script.strong, u.strong, timeout * SECOND)
  }

  /** Their duration so far. */
  ghost function InProgress(w: World, h: nat, u: UnderWay): Time {
    if h in w.handlers && w.handlers[h].pc.Attempted?
    then SumTime(u.script.cheap, u.cheap) + SumTime(u.script.strong, u.strong)
    else 0
  }

  /** Calls are credited as they are made: finished funnels and the one under way stay within the budget together. */
  lemma CreditBounded(env: Env, ws: seq<World>, acts: seq<Action>, h: nat, d: DocId, i: nat, j: nat, timeout: nat,
      u: UnderWay)
    requires IsRun(env, ws, acts) && Works(ws, acts, h, d, i, j) && CallsQuick(ws, acts, h, i, j, timeout)
    requires Making(env, ws[j], h, u, timeout)
    ensures Spent(ws, acts, h, i, j) + InProgress(ws[j], h, u) <= Budget(env.cfg.maxRepair, timeout) * SECOND
  {
    hide Next, Spent, CallsQuick, Budget, Funnel.FunnelSpec, SumTime, SourceText;
    SpentBounded(env, ws, acts, h, d, i, j, timeout);
    var w, x := ws[j], ws[j].handlers[h];
    if x.pc.Attempted? {
      var script := u.script;
      Funnel.FunnelCallBound(w.t.docs, x.doc, x.pc.row.docType, SourceText(x.pc.pages), env.cfg.maxRepair, script);
      QuickSum(script.cheap, u.cheap, timeout * SECOND);
      QuickSum(script.strong, u.strong, timeout * SECOND);
      CallTime(u.cheap, u.strong, env.cfg.maxRepair, timeout);
    }
  }

  /** The worker of handler h keeps its time up to world j: its calls, finished or under way, keep the timeout, the rest
      of its work takes under the margin, and the operator leaves its document alone. */
  ghost predicate OnTime(env: Env, ws: seq<World>, acts: seq<Action>, h: nat, d: DocId, i: nat, j: nat, timeout: nat,
      u: UnderWay)
    requires i <= j <= |acts| && |ws| == |acts| + 1
  {
    && CallsQuick(ws, acts, h, i, j, timeout) && Making(env, ws[j], h, u, timeout)
    && ws[j].now - ws[i].now < Spent(ws, acts, h, i, j) + InProgress(ws[j], h, u) + MARGIN * SECOND
    && LeftAlone(acts, d, i, j)
  }

  /** No theft of live work: with the derived threshold and H1, a worker that has kept its time so far, whatever comes
      after, has its document in extract_running, and no sweep has claimed it or claims it now. */
  lemma NoTheft(env: Env, ws: seq<World>, acts: seq<Action>, h: nat, d: DocId, i: nat, j: nat, timeout: nat,
      u: UnderWay, k: nat)
    requires IsRun(env, ws, acts) && Under1(ws, acts)
    requires env.cfg.stuckExtract == DerivedThreshold(env.cfg.maxRepair, timeout)
    requires Works(ws, acts, h, d, i, j) && OnTime(env, ws, acts, h, d, i, j, timeout, u) && i < k <= j
    ensures d in ws[k].t.docs && ws[k].t.docs[d].state == ExtractRunning
    ensures k < |acts| && IsSweep(acts[k]) ==> d !in acts[k].rec.ids
  {
    hide NextText, NextExtract, NextBroker, H1, Spent, CallsQuick, Making, InProgress;
    CreditBounded(env, ws, acts, h, d, i, j, timeout, u);
    StaysRunning(env, ws, acts, h, d, i, j, k);
    if k < |acts| && IsSweep(acts[k]) {
      TimeFlows(env, ws, acts, k, j);
      assert Next(env, ws[k], acts[k]) == Some(ws[k + 1]);
      RecoverLeaves(env, ws[k], acts[k].rec, ws[k + 1], d);
    }
  }

  /** The same bound for a worker at its final write, when no call is under way. */
  ghost predicate KeepsTime(ws: seq<World>, acts: seq<Action>, h: nat, d: DocId, i: nat, j: nat, timeout: nat)
    requires i <= j <= |acts| && |ws| == |acts| + 1
  {
    && CallsQuick(ws, acts, h, i, j, timeout)
    && ws[j].now - ws[i].now < Spent(ws, acts, h, i, j) + MARGIN * SECOND
    && LeftAlone(acts, d, i, j)
  }

  // ---- State changes are edges ----

  predicate Edge(a: DocState, b: DocState) {
    a == b || Allowed(a, b)
  }

  /** The statements of one step take the state along edges: one transition, or two through text_running when an
      embedded text is handled. */
  ghost predicate AlongEdges(a: Action, from: DocState, to: DocState) {
    Edge(from, to) || (a.Text? && a.text.EmbeddedCommit? && Edge(from, TextRunning) && Edge(TextRunning, to))
  }

  lemma TextEdges(env: Env, w: World, a: TextAction, w': World, d: DocId)
    requires NextText(env, w, a) == Some(w') && d in w.t.docs && d in w'.t.docs
    ensures AlongEdges(Text(a), w.t.docs[d].state, w'.t.docs[d].state)
  {
    hide AllPages, ShardText, DispatchMsg, CommitSplitTx;
    match a
    case SplitCommit(i) =>
      var n := |env.sources[w.t.sent[i].doc].ocr|;
      SplitStamp(env.cfg, w.t, w.t.sent[i].doc, ShardCount(n, env.cfg.shardSize), n, d);
    case _ =>
  }

  lemma RecoverEdges(env: Env, w: World, a: RecoverAction, w': World, d: DocId)
    requires NextRecover(env, w, a) == Some(w') && d in w.t.docs && d in w'.t.docs
    ensures Edge(w.t.docs[d].state, w'.t.docs[d].state)
  {
    hide RedriveMsgs, EnqueueAll, IsBatch, Tally;
    match a
    case ForceRedrive(r) =>
      var target := RedriveTarget(r.row, r.assembled).value;
      var t := Transition(w.t, r.doc, target, Predecessors(target), w.now).value;
      EnqueueAllFacts(t, RedriveMsgs(env.cfg, t, Row(r.doc, r.row.(state := target)), Operator));
    case SweepRedrive(r) => EnqueueAllFacts(w.t, RedriveMsgs(env.cfg, w.t, r, Sweep));
    case _ =>
  }

  lemma CommitEdge(t: Tables, d: DocId, result: Extraction, gates: Report, final: DocState, payload: Option<Payload>,
      now: Time)
    requires d in t.docs && t.docs[d].state == ExtractRunning && Closed(final)
    ensures d in CommitExtraction(t, d, result, gates, final, payload, now).0.docs
    ensures Edge(ExtractRunning, CommitExtraction(t, d, result, gates, final, payload, now).0.docs[d].state)
  {
  }

  lemma FinishEdge(t: Tables, d: DocId, fields: Option<Fields>, report: Report, autoPost: bool, now: Time, t': Tables)
    requires d in t.docs && t.docs[d].state == ExtractRunning &&
             FinishTx(t, d, fields, report, autoPost, now) == Some(t')
    ensures d in t'.docs && Edge(ExtractRunning, t'.docs[d].state)
  {
    hide CommitExtraction, Violates;
    match fields
    case None => CommitEdge(t, d, NoFields, report, Review, None, now);
    case Some(f) =>
      if autoPost {
        CommitEdge(SetBusinessKey(t, d, f.seller, f.invoiceNo), d, HasFields(f), report, Complete,
            Some(AutoPost(f, report)), now);
      } else {
        CommitEdge(t, d, HasFields(f), report.(killSwitch := Some(Fail)), Review, None, now);
      }
  }

  /** The two writes that test no state follow an edge when they find the document in extract_running. */
  lemma FinalWriteEdge(env: Env, w: World, a: ExtractAction, w': World, d: DocId)
    requires NextExtract(env, w, a) == Some(w') && Ends(env, w, a, d) && d in w.t.docs &&
             w.t.docs[d].state == ExtractRunning
    ensures d in w'.t.docs && Edge(ExtractRunning, w'.t.docs[d].state)
  {
    hide DoFinish, PcAfter, FinishTx;
    match a
    case Finish(h, autoPost) =>
      ClashVerdict(env, w, h, autoPost, w');
      FinishEdge(w.t, d, w.handlers[h].pc.fields, w.handlers[h].pc.report, autoPost, w.now, w'.t);
    case Reroute(h) =>
  }

  /** Every state change of every step is along edges, but for a final write that finds its document moved. */
  lemma StepEdges(env: Env, w: World, a: Action, w': World, d: DocId)
    requires Next(env, w, a) == Some(w') && d in w.t.docs
    requires a.Extract? && Ends(env, w, a.ext, d) ==> w.t.docs[d].state == ExtractRunning
    ensures d in w'.t.docs && AlongEdges(a, w.t.docs[d].state, w'.t.docs[d].state)
  {
    hide NextText, NextExtract, NextRecover, NextBroker, PcAfter, NewMsgs, SameVerdict;
    StepGrows(env, w, a, w');
    match a
    case Text(x) => TextEdges(env, w, x, w', d);
    case Extract(x) =>
      ExtractVerdict(env, w, x, w', d);
      if Ends(env, w, x, d) { FinalWriteEdge(env, w, x, w', d); }
    case Recover(x) => RecoverEdges(env, w, x, w', d);
    case Broker(x) => BrokerSteps(w, x, w');
  }

  /** An active handler was started at some point and has been at work since. */
  lemma {:induction false} StartOf(env: Env, ws: seq<World>, acts: seq<Action>, h: nat, j: nat) returns (i: nat)
    requires IsRun(env, ws, acts) && j < |ws| && h in ws[j].handlers
    ensures i < j && Works(ws, acts, h, ws[j].handlers[h].doc, i, j)
  {
    hide Next;
    HandlerCameFrom(env, ws[j - 1], acts[j - 1], ws[j], h);
    if h in ws[j - 1].handlers {
      i := StartOf(env, ws, acts, h, j - 1);
    } else {
      i := j - 1;
    }
  }

  lemma HandlerCameFrom(env: Env, w: World, a: Action, w': World, h: nat)
    requires Next(env, w, a) == Some(w') && h in w'.handlers
    ensures if h in w.handlers then w'.handlers[h].doc == w.handlers[h].doc
              else a.Extract? && a.ext.Start? && a.ext.h == h
  {
    hide NextText, NextExtract, NextRecover, NextBroker, EnsureAssembledSpec, FunnelOf, Completeness, Clash;
    if a.Extract? {
      HandlersAfter(env, w, a.ext, w');
    } else {
      OnlyExtract(env, w, a, w');
    }
  }

  /** Every worker that reaches its final write kept its time. */
  ghost predicate AllKeepTime(env: Env, ws: seq<World>, acts: seq<Action>, timeout: nat)
    requires |ws| == |acts| + 1
  {
    forall h: nat, d: DocId, i: nat, j: nat | j < |acts| && Works(ws, acts, h, d, i, j) &&
        EndsAt(env, ws, acts, h, d, j) ::
      KeepsTime(ws, acts, h, d, i, j, timeout)
  }

  ghost predicate EndsAt(env: Env, ws: seq<World>, acts: seq<Action>, h: nat, d: DocId, j: nat)
    requires |ws| == |acts| + 1 && j < |acts|
  {
    acts[j].Extract? && acts[j].ext.h == h && Ends(env, ws[j], acts[j].ext, d)
  }

  lemma FinalWrite(env: Env, w: World, a: ExtractAction, d: DocId)
    requires Ends(env, w, a, d)
    ensures a.h in w.handlers && !w.handlers[a.h].pc.Attempted?
  {
    hide PcAfter;
  }

  /** In such a run every state change of every document follows the edges of the state machine, although the final
      writes test no state at all. */
  lemma EveryChangeIsAnEdge(env: Env, ws: seq<World>, acts: seq<Action>, timeout: nat, n: nat, d: DocId)
    requires IsRun(env, ws, acts) && Under1(ws, acts) && AllKeepTime(env, ws, acts, timeout)
    requires env.cfg.stuckExtract == DerivedThreshold(env.cfg.maxRepair, timeout)
    requires n < |acts| && d in ws[n].t.docs
    ensures d in ws[n + 1].t.docs && AlongEdges(acts[n], ws[n].t.docs[d].state, ws[n + 1].t.docs[d].state)
  {
    hide Next, H1, AlongEdges, PcAfter, Spent, CallsQuick, LeftAlone;
    if acts[n].Extract? && Ends(env, ws[n], acts[n].ext, d) {
      var h := acts[n].ext.h;
      var i := StartOf(env, ws, acts, h, n);
      assert EndsAt(env, ws, acts, h, d, n);
      FinalWrite(env, ws[n], acts[n].ext, d);
      NoTheft(env, ws, acts, h, d, i, n, timeout, UnderWay(Funnel.Script([], []), 0, 0), n);
    }
    StepEdges(env, ws[n], acts[n], ws[n + 1], d);
  }
}

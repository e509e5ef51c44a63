/** The other direction: runs that get somewhere. The actors' methods are sequences of protocol steps, and from any
    world reached there are continuations that carry one document on, whatever the others are doing. */
module Progress {
  import opened Types
  import opened Pages
  import opened Ledger
  import opened Sweeper
  import opened Stages
  import opened Outbox
  import opened Protocol
  import opened Frames
  import opened Basics
  import opened Joining
  import opened Artifacts
  import opened Storage
  import opened Verdicts
  import opened Extraction
  import Funnel
  import Gates

  // ---- Runs and their continuations ----

  /** The hypotheses a run is held to. */
  datatype Rules = Rules(h1: bool, h2: bool, h3: bool)

  const ALL_RULES := Rules(true, true, true)

  ghost predicate Obeys(rules: Rules, w: World, a: Action, w': World) {
    (rules.h1 ==> H1(w, a)) && (rules.h2 ==> H2(w, a)) && (rules.h3 ==> H3(w, a, w'))
  }

  ghost predicate Within(rules: Rules, ws: seq<World>, acts: seq<Action>)
    requires |ws| == |acts| + 1
  {
    forall k | 0 <= k < |acts| :: Obeys(rules, ws[k], acts[k], ws[k + 1])
  }

  /** A run within the rules that passes v and ends in w. */
  ghost predicate Passes(env: Env, rules: Rules, v: World, w: World, ws: seq<World>, acts: seq<Action>, m: nat) {
    IsRun(env, ws, acts) && Within(rules, ws, acts) && m < |ws| && ws[m] == v && ws[|acts|] == w
  }

  /** w can be reached within the rules, and by way of v. */
  ghost predicate Leads(env: Env, rules: Rules, v: World, w: World) {
    exists ws: seq<World>, acts: seq<Action>, m: nat :: Passes(env, rules, v, w, ws, acts, m)
  }

  ghost predicate Reachable(env: Env, rules: Rules, w: World) {
    Leads(env, rules, w, w)
  }

  lemma Initial(env: Env, rules: Rules, now: Time)
    ensures Reachable(env, rules, InitWorld(now))
  {
    assert Passes(env, rules, InitWorld(now), InitWorld(now), [InitWorld(now)], [], 0);
  }

  lemma Arrived(env: Env, rules: Rules, v: World, w: World)
    requires Leads(env, rules, v, w)
    ensures Reachable(env, rules, w)
  {
    hide Next;
    var ws: seq<World>, acts: seq<Action>, m: nat :| Passes(env, rules, v, w, ws, acts, m);
    assert Passes(env, rules, w, w, ws, acts, |acts|);
  }

  lemma Extend(env: Env, rules: Rules, v: World, w: World, a: Action, w': World)
    requires Leads(env, rules, v, w) && Next(env, w, a) == Some(w') && Obeys(rules, w, a, w')
    ensures Leads(env, rules, v, w')
  {
    hide Next, Obeys;
    var ws: seq<World>, acts: seq<Action>, m: nat :| Passes(env, rules, v, w, ws, acts, m);
    var ws', acts' := ws + [w'], acts + [a];
    forall k | 0 <= k < |acts'| ensures Next(env, ws'[k], acts'[k]) == Some(ws'[k + 1]) &&
        Obeys(rules, ws'[k], acts'[k], ws'[k + 1]) {
      if k < |acts| { assert ws'[k] == ws[k] && acts'[k] == acts[k] && ws'[k + 1] == ws[k + 1]; }
    }
    assert Passes(env, rules, v, w', ws', acts', m);
  }

  /** Steps that are neither the start of a handler, nor the handling of an embedded text, nor a forced re-drive, are
      free of any rule. */
  lemma ExtendFreely(env: Env, rules: Rules, v: World, w: World, a: Action, w': World)
    requires Leads(env, rules, v, w) && Next(env, w, a) == Some(w')
    requires
      || a.Broker? || (a.Extract? && !a.ext.Start?)
      || (a.Text? && !a.text.EmbeddedCommit?) || (a.Recover? && !a.rec.ForceRedrive?)
    ensures Leads(env, rules, v, w')
  {
    hide Next, Leads;
    Extend(env, rules, v, w, a, w');
  }

  /** What is known of a world reached within the rules. */
  lemma ReachedFacts(env: Env, rules: Rules, v: World, w: World)
    requires env.Valid() && Leads(env, rules, v, w)
    ensures Basic(env, w) && forall d | d !in w.t.docs :: Recorded(w.t, d) == {}
    ensures rules.h1 ==> OpenInv(w)
    ensures rules.h2 ==> JoinInv(env, w) && StoreInv(env, w)
  {
    hide Next, Basic, JoinInv, StoreInv, OpenInv, H1, H2, H3;
    var ws: seq<World>, acts: seq<Action>, m: nat :| Passes(env, rules, v, w, ws, acts, m);
    BasicRun(env, ws, acts, |acts|);
    forall d | d !in w.t.docs ensures Recorded(w.t, d) == {} { NoRowNoShards(env, ws, acts, |acts|, d); }
    if rules.h1 {
      forall k | 0 <= k < |acts| ensures H1(ws[k], acts[k]) { assert Obeys(rules, ws[k], acts[k], ws[k + 1]); }
      OpenRun(env, ws, acts, |acts|);
    }
    if rules.h2 {
      forall k | 0 <= k < |acts| ensures H2(ws[k], acts[k]) { assert Obeys(rules, ws[k], acts[k], ws[k + 1]); }
      StoreRun(env, ws, acts, |acts|);
    }
  }

  // ---- A relay tick ----

  lemma {:induction false} LandAll(env: Env, rules: Rules, v: World, w: World, ids: set<nat>)
    requires Leads(env, rules, v, w) && ids <= w.produced
    ensures Leads(env, rules, v, w.(log := w.log + ids))
    decreases |ids|
  {
    hide Leads, NextText, NextExtract, NextRecover;
    if ids == {} {
      assert w.(log := w.log + ids) == w;
    } else {
      var i :| i in ids;
      var w' := w.(log := w.log + {i});
      ExtendFreely(env, rules, v, w, Broker(RelayLand(i)), w');
      LandAll(env, rules, v, w', ids - {i});
      assert w'.log + (ids - {i}) == w.log + ids;
    }
  }

  lemma {:induction false} AckAll(env: Env, rules: Rules, v: World, w: World, r: nat, ids: set<nat>)
    requires Leads(env, rules, v, w) && r in w.relays && ids <= w.relays[r].ids && ids <= w.log
    ensures Leads(env, rules, v, w.(relays := w.relays[r := Relay(w.relays[r].ids, w.relays[r].acked + ids)]))
    decreases |ids|
  {
    hide Leads, NextText, NextExtract, NextRecover;
    if ids == {} {
      assert w.(relays := w.relays[r := Relay(w.relays[r].ids, w.relays[r].acked + ids)]) == w;
    } else {
      var i :| i in ids;
      var w' := w.(relays := w.relays[r := Relay(w.relays[r].ids, w.relays[r].acked + {i})]);
      ExtendFreely(env, rules, v, w, Broker(RelayAck(r, i)), w');
      AckAll(env, rules, v, w', r, ids - {i});
      assert w.relays[r].acked + {i} + (ids - {i}) == w.relays[r].acked + ids;
      assert w'.relays[r := Relay(w.relays[r].ids, w.relays[r].acked + ids)] ==
             w.relays[r := Relay(w.relays[r].ids, w.relays[r].acked + ids)];
    }
  }

  /** A tick in which every delivery is confirmed does what RelayOnce says: the batch leaves the outbox for the log. */
  lemma TickIsARun(env: Env, rules: Rules, v: World, w: World, r: nat, ids: set<nat>, cap: nat)
    requires Leads(env, rules, v, w) && r !in w.relays && IsOutboxBatch(w.t.pending, LockedRows(w), cap, ids)
    ensures Leads(env, rules, v, w.(t := w.t.(pending := w.t.pending - ids), produced := w.produced + ids,
              log := w.log + ids))
  {
    hide Leads, IsOutboxBatch, LockedRows, NextText, NextExtract, NextRecover;
    var w1 := w.(relays := w.relays[r := Relay(ids, {})], produced := w.produced + ids);
    ExtendFreely(env, rules, v, w, Broker(RelayClaim(r, ids, cap)), w1);
    LandAll(env, rules, v, w1, ids);
    var w2 := w1.(log := w1.log + ids);
    AckAll(env, rules, v, w2, r, ids);
    var w3 := w2.(relays := w2.relays[r := Relay(w2.relays[r].ids, w2.relays[r].acked + ids)]);
    assert w3.relays[r] == Relay(ids, {} + ids) && {} + ids == ids;
    var w4 := w3.(t := w3.t.(pending := w3.t.pending - ids), relays := w3.relays - {r});
    ExtendFreely(env, rules, v, w3, Broker(RelayCommit(r)), w4);
    assert w4.relays == w.relays;
  }

  lemma FreshId(used: set<nat>) returns (r: nat)
    ensures r !in used
  {
    if UpTo(|used| + 1) <= used { SubsetSize(UpTo(|used| + 1), used); }
    r :| r in UpTo(|used| + 1) && r !in used;
  }

  ghost predicate SameButOutbox(w: World, w': World) {
    w' == w.(t := w.t.(pending := w'.t.pending), produced := w'.produced, log := w'.log) && w.log <= w'.log
  }

  /** Whatever the other relays hold, one more relay delivers a row that none of them has locked. */
  lemma Deliver(env: Env, rules: Rules, v: World, w: World, i: nat) returns (w': World)
    requires Leads(env, rules, v, w) && i in w.t.pending && i !in LockedRows(w)
    ensures Leads(env, rules, v, w') && SameButOutbox(w, w') && i in w'.log
    ensures w.t.pending - LockedRows(w) <= w'.log
  {
    hide Leads, LockedRows;
    var r := FreshId(w.relays.Keys);
    var ids := w.t.pending - LockedRows(w);
    assert w.t.pending - LockedRows(w) - ids == {};
    TickIsARun(env, rules, v, w, r, ids, |ids|);
    w' := w.(t := w.t.(pending := w.t.pending - ids), produced := w.produced + ids, log := w.log + ids);
  }

  /** A row just enqueued is locked by nobody. */
  lemma NewRowFree(env: Env, w: World, w': World)
    requires Basic(env, w) && w'.relays == w.relays
    ensures |w.t.sent| !in LockedRows(w') && forall i | i in LockedRows(w') :: i < |w.t.sent|
  {
    hide RowsOk, MsgsOk, StoreOk;
  }

  // ---- A sweep ----

  lemma {:induction false} RedrivesRun(env: Env, rules: Rules, v: World, w: World, rows: seq<Row>)
    requires Leads(env, rules, v, w) && forall r | r in rows :: r in w.claimed
    ensures Leads(env, rules, v, w.(t := RedriveAll(env.cfg, w.t, rows)))
  {
    hide Leads, NextText, NextExtract, NextBroker, RedriveMsgs, EnqueueAll;
    if rows == [] {
      assert w.(t := RedriveAll(env.cfg, w.t, rows)) == w;
    } else {
      var init, last := rows[..|rows| - 1], rows[|rows| - 1];
      RedrivesRun(env, rules, v, w, init);
      var w1 := w.(t := RedriveAll(env.cfg, w.t, init));
      assert last in w1.claimed;
      ExtendFreely(env, rules, v, w1, Recover(SweepRedrive(last)), w.(t := RedriveAll(env.cfg, w.t, rows)));
    }
  }

  lemma {:induction false} RedrivenClaimed(cfg: Config, t: Tables, ids: seq<DocId>, now: Time)
    requires forall i | 0 <= i < |ids| :: ids[i] in t.docs
    requires forall i | 0 <= i < |ids| :: InFlight(t.docs[ids[i]].state)
    ensures forall r | r in Redriven(cfg, t, ids, now) ::
              r.doc in ids && r.doc in t.docs && r.row == t.docs[r.doc] && ClaimedDoc(cfg, r.row, now).state != Failed
  {
    if ids != [] {
      RedrivenClaimed(cfg, t, ids[..|ids| - 1], now);
    }
  }

  /** A sweep as SweepOnce performs it, claim and re-drives in sequence, is a sequence of protocol steps. */
  lemma SweepIsARun(env: Env, rules: Rules, v: World, w: World, ids: seq<DocId>, locked: set<DocId>, cap: nat)
    returns (w': World)
    requires Leads(env, rules, v, w) && IsBatch(env.cfg, w.t.docs, locked, w.now, cap, ids)
    ensures Leads(env, rules, v, w') && forall i | 0 <= i < |ids| :: ids[i] in w.t.docs
    ensures w'.t == RedriveAll(env.cfg, ClaimAll(env.cfg, w.t, ids, w.now), Redriven(env.cfg, w.t, ids, w.now))
  {
    hide Leads, NextText, NextExtract, NextBroker, IsBatch, Tally, ClaimedDoc, RedriveAll, Redriven;
    BatchInTable(env.cfg, w.t.docs, locked, w.now, cap, ids);
    var w1 := DoSweepClaim(env, w, ids, locked, cap).value;
    ExtendFreely(env, rules, v, w, Recover(SweepClaim(ids, locked, cap)), w1);
    RedrivenClaimed(env.cfg, w.t, ids, w.now);
    var rows := Redriven(env.cfg, w.t, ids, w.now);
    forall r | r in rows ensures r in w1.claimed {
      assert r == Row(r.doc, w.t.docs[r.doc]);
    }
    RedrivesRun(env, rules, v, w1, rows);
    w' := w1.(t := RedriveAll(env.cfg, w1.t, rows));
  }

  // ---- One document carried on ----

  /** Message i tells of d's text and has reached the broker. */
  ghost predicate Told(w: World, d: DocId, i: nat) {
    Delivered(w, i, OcrCompleted) && w.t.sent[i].doc == d
  }

  ghost predicate Idle(w: World, d: DocId) {
    forall h | h in w.handlers :: w.handlers[h].doc != d
  }

  /** Nothing but outbox, broker and d's own row has changed, and histories have only grown. */
  ghost predicate Beside(w: World, w': World, d: DocId) {
    && d in w'.t.docs && w'.t.docs == w.t.docs[d := w'.t.docs[d]]
    && w'.t.posted == w.t.posted && w'.t.shards == w.t.shards && w'.outs == w.outs && w'.now == w.now
    && w.t.sent <= w'.t.sent && w.log <= w'.log
  }

  lemma ToldStays(w: World, w': World, d: DocId, i: nat)
    requires Told(w, d, i) && w.t.sent <= w'.t.sent && w.log <= w'.log
    ensures Told(w', d, i)
  {
  }

  /** A row fresh from the embedded text. */
  ghost predicate FreshRow(env: Env, d: DocId, doc: Doc)
    requires Known(env, d)
  {
    && doc.state == ExtractPending && doc.result.None? && doc.gates.override.None? && doc.shardsTotal == 1
    && doc.docType == env.sources[d].docType && doc.pageCount == Some(PageTotal(env, d))
    && doc.vendor.None? && doc.invoiceNo.None?
  }

  /** Triage sends a document with a text layer to the PDF worker, and the message is delivered. */
  lemma UploadTriage(env: Env, rules: Rules, v: World, w: World, d: DocId) returns (w': World, i: nat)
    requires env.Valid() && Known(env, d) && Dispatched(env.cfg, env.sources[d]) && env.sources[d].textLayer
    requires Leads(env, rules, v, w) && d !in w.t.docs
    ensures Leads(env, rules, v, w') && Beside(w, w', d) && w'.handlers == w.handlers && w'.assembled == w.assembled
    ensures w'.t.docs[d] == TriageDoc(env.cfg, env.sources[d], w.now) && w'.opReads == w.opReads &&
              w'.relays == w.relays
    ensures i in w'.log && i < |w'.t.sent|
    ensures w'.t.sent[i] == Msg(d, TextEmbedded, DocumentRef(env.sources[d].gcsPath, PageTotal(env, d)), Dispatch)
    ensures !SplitDone(w', d)
  {
    hide Leads, NextExtract, NextRecover, NextBroker, Basic, LockedRows;
    ReachedFacts(env, rules, v, w);
    NoMessages(env, w, d);
    i := |w.t.sent|;
    var w1 := w.(t := TriageTx(env.cfg, w.t, d, env.sources[d], w.now));
    ExtendFreely(env, rules, v, w, Text(Triage(d)), w1);
    NewRowFree(env, w, w1);
    w' := Deliver(env, rules, v, w1, i);
    forall j: nat ensures !SplitSent(w', d, j) { }
  }

  /** Upload: triage, the embedded text, and the message about it delivered. */
  lemma Upload(env: Env, rules: Rules, v: World, w: World, d: DocId) returns (w': World, i: nat)
    requires env.Valid() && Known(env, d) && TierZeroDoc(env, d) && Leads(env, rules, v, w) && d !in w.t.docs
    ensures Leads(env, rules, v, w') && Beside(w, w', d) && w'.handlers == w.handlers
    ensures FreshRow(env, d, w'.t.docs[d]) && Told(w', d, i)
    ensures w'.assembled == w.assembled[d := Canonical(env, d)] && w'.opReads == w.opReads
  {
    hide Leads, NextExtract, NextRecover, NextBroker, Basic, AllPages, LockedRows, SplitDone;
    var w0, i0 := UploadTriage(env, rules, v, w, d);
    var src := env.sources[d];
    ReachedFacts(env, rules, v, w0);
    i := |w0.t.sent|;
    var t := TextEmbeddedTx(env.cfg, w0.t, d, src, src.gcsPath, w0.now).value;
    var w1 := w0.(t := t, assembled := w0.assembled[d := AllPages(src.embedded)]);
    Extend(env, rules, v, w0, Text(EmbeddedCommit(i0)), w1);
    NewRowFree(env, w0, w1);
    w' := Deliver(env, rules, v, w1, i);
  }

  /** Assembling for d would give its canonical pages, and its row knows how many. */
  ghost predicate Fit(env: Env, w: World, d: DocId) {
    && Known(env, d) && d in w.t.docs && w.t.docs[d].pageCount == Some(PageTotal(env, d))
    && EnsureAssembledSpec(w.outs, w.assembled, d, w.t.docs[d].shardsTotal) == Some(Canonical(env, d))
  }

  lemma AssembledFits(env: Env, w: World, d: DocId)
    requires Known(env, d) && d in w.t.docs && w.t.docs[d].pageCount == Some(PageTotal(env, d))
    requires d in w.assembled && w.assembled[d] == Canonical(env, d)
    ensures Fit(env, w, d)
  {
  }

  ghost function Taken(env: Env, w: World, d: DocId, h: nat): World
    requires Known(env, d) && d in w.t.docs
  {
    var row := w.t.docs[d].(state := ExtractRunning, updatedAt := w.now);
    w.(t := w.t.(docs := w.t.docs[d := row]),
       assembled := w.assembled[d := Canonical(env, d)],
       handlers := w.handlers[h := Handler(d, Assembled(row, Canonical(env, d)))])
  }

  /** Handler h takes the message and has the artifact in hand. */
  lemma Take(env: Env, rules: Rules, v: World, w: World, d: DocId, i: nat, h: nat)
    requires Leads(env, rules, v, w) && Fit(env, w, d) && Told(w, d, i) && h !in w.handlers
    requires IsExtract(w.t.docs[d].state) && (rules.h1 ==> Idle(w, d))
    ensures Leads(env, rules, v, Taken(env, w, d, h))
  {
    hide Leads, NextText, NextRecover, NextBroker, Canonical, EnsureAssembledSpec, Completeness, PageNumbers;
    var row := w.t.docs[d].(state := ExtractRunning, updatedAt := w.now);
    var w1 := w.(t := w.t.(docs := w.t.docs[d := row]), handlers := w.handlers[h := Handler(d, Started)]);
    Extend(env, rules, v, w, Extract(Start(h, i)), w1);
    LoadedIs(w1, h);
    var w2 := DoLoad(w1, h).value;
    ExtendFreely(env, rules, v, w1, Extract(Load(h)), w2);
    AssembledIs(w2, h);
    CanonicalComplete(env, d);
    var w3 := DoAssemble(w2, h).value;
    ExtendFreely(env, rules, v, w2, Extract(Assemble(h)), w3);
    assert w3.handlers == Taken(env, w, d, h).handlers;
    assert w3 == Taken(env, w, d, h);
  }

  /** Only the two counters differ. */
  predicate SameButCounts(a: Doc, b: Doc) {
    b == a.(extractAttempts := b.extractAttempts, repairAttempts := b.repairAttempts)
  }

  lemma CountsOnly(t: Tables, d: DocId, n: nat)
    requires d in t.docs
    ensures var t' := CountRepairs(CountAttempt(t, d), d, n);
      && d in t'.docs && SameButCounts(t.docs[d], t'.docs[d])
      && t' == t.(docs := t.docs[d := t'.docs[d]])
    ensures var t' := CountAttempt(t, d);
              d in t'.docs && SameButCounts(t.docs[d], t'.docs[d]) && t'.docs == t.docs[d := t'.docs[d]]
  {
  }

  /** ... counts its attempt and hears the model out. */
  lemma Decide(env: Env, rules: Rules, v: World, w: World, h: nat, script: Funnel.Script) returns (w': World)
    requires Leads(env, rules, v, w) && h in w.handlers && w.handlers[h].pc.Assembled? && w.handlers[h].doc in w.t.docs
    requires Funnel.Ready(script, env.cfg.maxRepair)
    ensures Leads(env, rules, v, w')
    ensures var x := w.handlers[h];
      var r := VerdictOf(w, x.doc, x.pc.row, x.pc.pages, script);
      && w'.handlers == w.handlers[h := Handler(x.doc, Decided(x.pc.row, x.pc.pages, r.fields, r.report))]
      && x.doc in w'.t.docs && SameButCounts(w.t.docs[x.doc], w'.t.docs[x.doc])
      && w'.t == w.t.(docs := w.t.docs[x.doc := w'.t.docs[x.doc]])
      && w' == w.(t := w'.t, handlers := w'.handlers, asked := w'.asked)
  {
    hide Leads, NextText, NextRecover, NextBroker, VerdictOf, CountRepairs, CountAttempt, DoFunnel, Asks;
    JudgedIs(env, w, h, script);
    var w1 := DoAttempt(w, h).value;
    ExtendFreely(env, rules, v, w, Extract(Attempt(h)), w1);
    w' := DoFunnel(env, w1, h, script).value;
    ExtendFreely(env, rules, v, w1, Extract(RunFunnel(h, script)), w');
    CountsOnly(w.t, w.handlers[h].doc, VerdictOf(w, w.handlers[h].doc, w.handlers[h].pc.row, w.handlers[h].pc.pages,
        script).repairs);
  }

  // ---- What the funnel makes of a script ----

  /** Whatever the table holds, this tier hands over: it overflows, runs out of calls, or its answer is not sound. */
  ghost predicate Escalates(docType: DocType, text: string, calls: seq<Funnel.Call>) {
    forall k: nat | Funnel.StopsAt(calls, k) ::
      calls[k].reply.ContextOverflow? ||
      (calls[k].reply.Answer? && calls[k].reply.raw.WellFormed? &&
       !Gates.Sound(docType, calls[k].reply.raw.fields, text))
  }

  /** The script comes to the answer f, which is sound for d: at some call of the cheap tier, or at some call of the
      strong one after the cheap one has handed over. */
  ghost predicate Answers(env: Env, d: DocId, docType: DocType, script: Funnel.Script, f: Fields)
    requires Known(env, d)
  {
    var text := JoinLines(Canonical(env, d));
    && Funnel.Ready(script, env.cfg.maxRepair)
    && Gates.Sound(docType, f, text)
    && ((exists k: nat :: Funnel.AnswersAt(script.cheap, k, f)) ||
        (Escalates(docType, text, script.cheap) && exists k: nat :: Funnel.AnswersAt(script.strong, k, f)))
  }

  /** No complete document other than d holds this key. */
  ghost predicate NobodyHas(docs: map<DocId, Doc>, d: DocId, f: Fields) {
    f.seller.Some? && f.invoiceNo.Some? ==>
      forall e | e in docs && e != d && docs[e].state == Complete ::
        docs[e].vendor != f.seller || docs[e].invoiceNo != f.invoiceNo
  }

  lemma NotDuplicate(docs: map<DocId, Doc>, docs': map<DocId, Doc>, d: DocId, f: Fields)
    requires NobodyHas(docs, d, f) && d in docs' && docs' == docs[d := docs'[d]]
    ensures !Gates.HeldByOther(docs', d, f)
  {
  }

  lemma SoundAnswer(env: Env, w: World, d: DocId, row: Doc, script: Funnel.Script, f: Fields)
    requires Known(env, d) && Answers(env, d, row.docType, script, f) && NobodyHas(w.t.docs, d, f) && d in w.t.docs
    ensures VerdictOf(w, d, row, Canonical(env, d), script).fields == Some(f)
    ensures VerdictOf(w, d, row, Canonical(env, d), script).report.override.None?
  {
    hide Gates.Sound, JoinLines, Canonical, SourceText, CountAttempt, NobodyHas, Funnel.FunnelSpec, Funnel.AnswersAt,
         Funnel.StopsAt, Gates.HeldByOther;
    CanonicalComplete(env, d);
    CountsOnly(w.t, d, 0);
    var docs', text := CountAttempt(w.t, d).docs, JoinLines(Canonical(env, d));
    NotDuplicate(w.t.docs, docs', d, f);
    Funnel.FunnelAnswers(docs', d, row.docType, text, env.cfg.maxRepair, script, f);
    Funnel.FunnelReports(docs', d, row.docType, text, env.cfg.maxRepair, script);
  }

  /** A script whose cheap tier comes to a refusal. */
  ghost predicate ScriptRefuses(env: Env, script: Funnel.Script) {
    Funnel.Ready(script, env.cfg.maxRepair) && Funnel.Refuses(script.cheap)
  }

  lemma NoAnswer(env: Env, w: World, d: DocId, row: Doc, pages: seq<Page>, script: Funnel.Script)
    requires ScriptRefuses(env, script)
    ensures VerdictOf(w, d, row, pages, script).fields.None?
  {
    hide SourceText, CountAttempt, Funnel.FunnelSpec, Funnel.Refuses;
    Funnel.FunnelAnswers(CountAttempt(w.t, d).docs, d, row.docType, SourceText(pages), env.cfg.maxRepair, script,
        BLANK_FIELDS);
  }

  // ---- Closing ----

  /** Handler h has fields to post, its document has no result, and nobody else holds the key: the document completes
      and its message goes out. */
  lemma ConcludeWith(env: Env, rules: Rules, v: World, w: World, h: nat) returns (w': World)
    requires Leads(env, rules, v, w) && h in w.handlers && w.handlers[h].pc.Decided? && w.handlers[h].pc.fields.Some?
    requires w.handlers[h].doc in w.t.docs && w.t.docs[w.handlers[h].doc].result.None? && !Clash(w, w.handlers[h], true)
    ensures Leads(env, rules, v, w') && Beside(w, w', w.handlers[h].doc) && w'.handlers == w.handlers - {h}
    ensures w'.assembled == w.assembled && w'.relays == w.relays && w'.opReads == w.opReads
    ensures var x := w.handlers[h];
      var doc' := w'.t.docs[x.doc];
      && doc'.state == Complete && doc'.result == Some(HasFields(x.pc.fields.value)) && doc'.gates == x.pc.report
      && doc'.vendor == x.pc.fields.value.seller && doc'.invoiceNo == x.pc.fields.value.invoiceNo
      && |w'.t.sent| == |w.t.sent| + 1 && |w.t.sent| in w'.t.pending
      && w'.t.sent[|w.t.sent|] == Msg(x.doc, DocumentExtracted, AutoPost(x.pc.fields.value, x.pc.report), Commit)
  {
    hide Leads, NextText, NextRecover, NextBroker, Violates;
    var x := w.handlers[h];
    w' := DoFinish(w, h, true).value;
    ExtendFreely(env, rules, v, w, Extract(Finish(h, true)), w');
  }

  /** The winning commit, its message and the sink. */
  lemma PostRun(env: Env, rules: Rules, v: World, w: World, h: nat, f: Fields) returns (w': World)
    requires env.Valid() && Leads(env, rules, v, w)
    requires h in w.handlers && w.handlers[h].pc.Decided? && w.handlers[h].pc.fields == Some(f)
    requires w.handlers[h].doc in w.t.docs && w.t.docs[w.handlers[h].doc].result.None? &&
             w.handlers[h].doc !in w.t.posted
    requires !Clash(w, w.handlers[h], true)
    ensures Leads(env, rules, v, w')
    ensures var d := w.handlers[h].doc;
      && d in w'.t.docs && w'.t.docs[d].state == Complete && w'.t.docs[d].result == Some(HasFields(f))
      && d in w'.t.posted && w'.t.posted[d] == Posted(HasFields(f))
  {
    hide Leads, NextText, NextRecover, NextExtract, LockedRows, IsOutboxBatch, Violates, Basic;
    var i := |w.t.sent|;
    var w1 := ConcludeWith(env, rules, v, w, h);
    ReachedFacts(env, rules, v, w);
    NewRowFree(env, w, w1);
    var w2 := Deliver(env, rules, v, w1, i);
    w' := w2.(t := Post(w2.t, w2.t.sent[i]));
    ExtendFreely(env, rules, v, w2, Broker(SinkPost(i)), w');
  }

  lemma ReadyOf(env: Env, d: DocId, docType: DocType, script: Funnel.Script, f: Fields)
    requires Known(env, d) && Answers(env, d, docType, script, f)
    ensures Funnel.Ready(script, env.cfg.maxRepair)
  {
  }

  lemma LoneDocument(w: World, d: DocId, f: Fields)
    requires w.t.docs.Keys == {d}
    ensures !Violates(w.t.docs, d, f.seller, f.invoiceNo)
  {
  }
}

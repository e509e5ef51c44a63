/** Whole journeys of one document, from upload to posting, on the long way round as well as the short one: split, read
    shard by shard, joined, assembled and judged, whatever everybody else is doing. */
module Journeys {
  import opened Types
  import opened Pages
  import opened Ledger
  import opened Sweeper
  import opened Stages
  import opened Protocol
  import opened Basics
  import opened Joining
  import opened Artifacts
  import opened Storage
  import opened Extraction
  import opened Progress
  import opened Reopening
  import Completing
  import Funnel
  import Keys
  import Redriving

  // ---- What one document's journey leaves alone ----

  /** Between w and w' only d's own row, its shards and outputs, the outbox and the broker have changed. */
  ghost predicate Around(w: World, w': World, d: DocId) {
    && d in w'.t.docs && w'.t.docs == w.t.docs[d := w'.t.docs[d]]
    && w'.t.posted == w.t.posted && w'.handlers == w.handlers && w'.assembled == w.assembled
    && w'.relays == w.relays && w'.opReads == w.opReads && w'.now == w.now
    && w.t.sent <= w'.t.sent && w.log <= w'.log
  }

  /** Only what splitting and reading write has changed in a row. */
  predicate TextMoved(a: Doc, b: Doc) {
    b == a.(state := b.state, updatedAt := b.updatedAt, shardsTotal := b.shardsTotal, shardsDone := b.shardsDone)
  }

  lemma AroundTwice(w: World, w1: World, w2: World, d: DocId)
    requires Around(w, w1, d) && Around(w1, w2, d)
    ensures Around(w, w2, d)
  {
  }

  // ---- Shard by shard ----

  predicate IsShardOf(m: Msg, d: DocId, idx: nat) {
    m.doc == d && m.topic == OcrShard && m.payload.ShardRange? && m.payload.idx == idx
  }

  lemma ShardMsgForm(env: Env, w: World, k: nat)
    requires Basic(env, w) && k < |w.t.sent| && w.t.sent[k].topic == OcrShard
    ensures IsShardMsg(w.t.sent[k]) && w.t.sent[k].doc in env.sources
  {
    hide RowsOk, RefsOk, StoreOk;
    assert MsgOk(env, w, w.t.sent[k]);
    var m := w.t.sent[k];
    RangeInside(m.payload.idx, PageTotal(env, m.doc), env.cfg.shardSize);
  }

  /** What a claim that is not a duplicate leaves behind. */
  ghost predicate Claimed(t: Tables, t': Tables, d: DocId, idx: nat)
    requires d in t.docs
  {
    && d in t'.docs && t'.docs == t.docs[d := t'.docs[d]] && t'.posted == t.posted
    && Recorded(t', d) == Recorded(t, d) + {idx}
    && (if t.docs[d].shardsDone + 1 == t.docs[d].shardsTotal
        then
          && t'.docs[d] == t.docs[d].(state := ExtractPending, shardsDone := t.docs[d].shardsDone + 1,
                                      updatedAt := t'.docs[d].updatedAt)
          && t'.sent == t.sent + [Msg(d, OcrCompleted, JustId, Join)] && t'.pending == t.pending + {|t.sent|}
        else
          && t'.docs[d] == t.docs[d].(state := TextRunning, shardsDone := t.docs[d].shardsDone + 1,
                                      updatedAt := t'.docs[d].updatedAt)
          && t'.sent == t.sent && t'.pending == t.pending)
  }

  lemma ClaimShard(t: Tables, d: DocId, idx: nat, now: Time)
    requires d in t.docs && t.docs[d].state == TextRunning && idx !in Recorded(t, d)
    ensures RecordShard(t, d, idx, now).Done? && Claimed(t, RecordShard(t, d, idx, now).tables, d, idx)
  {
  }

  /** The worker has moved the document to text_running and stored the shard's pages. */
  ghost predicate Stored(w: World, w': World, d: DocId, k: nat) {
    && d in w.t.docs && k in w'.written
    && w'.t == w.t.(docs := w.t.docs[d := w.t.docs[d].(state := TextRunning, updatedAt := w.now)])
    && w' == w.(t := w'.t, outs := w'.outs, begun := w'.begun, written := w'.written)
  }

  lemma StoreShard(env: Env, rules: Rules, v: World, w: World, d: DocId, k: nat, idx: nat) returns (w': World)
    requires env.Valid() && Leads(env, rules, v, w) && d in w.t.docs && IsText(w.t.docs[d].state)
    requires k in w.log && k < |w.t.sent| && IsShardOf(w.t.sent[k], d, idx)
    ensures Leads(env, rules, v, w') && Stored(w, w', d, k)
  {
    ReachedFacts(env, rules, v, w);
    ShardMsgForm(env, w, k);
    hide Leads, NextExtract, NextRecover, NextBroker, Basic, ShardText, IsShardMsg;
    var t := Transition(w.t, d, TextRunning, {TextPending}, w.now).value;
    var w1 := w.(t := t, begun := w.begun + {k});
    ExtendFreely(env, rules, v, w, Text(ShardBegin(k)), w1);
    var m := w.t.sent[k];
    w' := w1.(outs := w1.outs[(d, idx) := ShardText(env.sources[d], m)], written := w1.written + {k});
    ExtendFreely(env, rules, v, w1, Text(ShardWrite(k)), w');
  }

  lemma StoredThenClaimed(w: World, w1: World, w': World, d: DocId, k: nat, idx: nat)
    requires Stored(w, w1, d, k) && Claimed(w1.t, w'.t, d, idx) && w' == w1.(t := w'.t)
    ensures Around(w, w', d) && w'.log == w.log && Claimed(w.t, w'.t, d, idx)
  {
  }

  /** A delivered shard that is not recorded yet is begun, written and claimed. */
  lemma ReadShard(env: Env, rules: Rules, v: World, w: World, d: DocId, k: nat, idx: nat) returns (w': World)
    requires env.Valid() && Leads(env, rules, v, w) && d in w.t.docs && IsText(w.t.docs[d].state)
    requires k in w.log && k < |w.t.sent| && IsShardOf(w.t.sent[k], d, idx) && idx !in Recorded(w.t, d)
    ensures Leads(env, rules, v, w') && Around(w, w', d) && w'.log == w.log && Claimed(w.t, w'.t, d, idx)
  {
    hide Leads, NextExtract, NextRecover, NextBroker, RecordShard, Claimed;
    var w1 := StoreShard(env, rules, v, w, d, k, idx);
    ClaimShard(w1.t, d, idx, w.now);
    w' := w1.(t := RecordShard(w1.t, d, idx, w.now).tables);
    ExtendFreely(env, rules, v, w1, Text(ShardRecord(k)), w');
    StoredThenClaimed(w, w1, w', d, k, idx);
  }

  /** Message k + i is d's i-th shard, among these ids. */
  ghost predicate ShardIn(w: World, ids: set<nat>, d: DocId, k: nat, i: nat) {
    k + i < |w.t.sent| && k + i in ids && IsShardOf(w.t.sent[k + i], d, i)
  }

  /** The n messages from id k on are d's shards and have reached the broker. */
  ghost predicate ShardsOut(w: World, d: DocId, k: nat, n: nat) {
    forall i: nat | i < n :: ShardIn(w, w.log, d, k, i)
  }

  lemma ShardsStayOut(w: World, w': World, d: DocId, k: nat, n: nat)
    requires ShardsOut(w, d, k, n) && w.t.sent <= w'.t.sent && w.log <= w'.log
    ensures ShardsOut(w', d, k, n)
  {
    forall i: nat | i < n ensures ShardIn(w', w'.log, d, k, i) {
      assert ShardIn(w, w.log, d, k, i);
    }
  }

  /** Every shard has been read, the join has fired, and its message is in the outbox. */
  ghost predicate AllRead(w: World, w': World, d: DocId, total: nat) {
    && Around(w, w', d) && d in w.t.docs && TextMoved(w.t.docs[d], w'.t.docs[d])
    && w'.t.docs[d].state == ExtractPending && Recorded(w'.t, d) == UpTo(total) && w'.t.docs[d].shardsTotal == total
    && |w'.t.sent| > 0 && w'.t.sent[|w'.t.sent| - 1] == Msg(d, OcrCompleted, JustId, Join)
    && |w'.t.sent| - 1 in w'.t.pending && |w.t.sent| < |w'.t.sent|
  }

  lemma LastRead(w: World, w': World, d: DocId, done: nat, total: nat)
    requires d in w.t.docs && w.t.docs[d].shardsDone == done && w.t.docs[d].shardsTotal == total == done + 1
    requires Recorded(w.t, d) == UpTo(done) && Around(w, w', d) && Claimed(w.t, w'.t, d, done)
    ensures AllRead(w, w', d, total)
  {
    assert UpTo(done + 1) == UpTo(done) + {done};
  }

  lemma OneMoreRead(w: World, w': World, d: DocId, done: nat)
    requires d in w.t.docs && w.t.docs[d].shardsDone == done && done + 1 < w.t.docs[d].shardsTotal
    requires Recorded(w.t, d) == UpTo(done) && Claimed(w.t, w'.t, d, done)
    ensures d in w'.t.docs && w'.t.docs[d].state == TextRunning && TextMoved(w.t.docs[d], w'.t.docs[d])
    ensures w'.t.docs[d].shardsDone == done + 1 && w'.t.docs[d].shardsTotal == w.t.docs[d].shardsTotal
    ensures Recorded(w'.t, d) == UpTo(done + 1) && w'.t.sent == w.t.sent
  {
    assert UpTo(done + 1) == UpTo(done) + {done};
  }

  lemma ReadOn(w: World, w1: World, w': World, d: DocId, total: nat)
    requires Around(w, w1, d) && d in w.t.docs && TextMoved(w.t.docs[d], w1.t.docs[d]) && AllRead(w1, w', d, total)
    ensures AllRead(w, w', d, total)
  {
    AroundTwice(w, w1, w', d);
  }

  /** From the shards recorded so far to the join, one after the other. */
  lemma {:induction false} ReadShards(env: Env, rules: Rules, v: World, w: World, d: DocId, k: nat, done: nat)
    returns (w': World)
    requires env.Valid() && Leads(env, rules, v, w) && d in w.t.docs && IsText(w.t.docs[d].state)
    requires w.t.docs[d].shardsDone == done < w.t.docs[d].shardsTotal && Recorded(w.t, d) == UpTo(done)
    requires ShardsOut(w, d, k, w.t.docs[d].shardsTotal)
    ensures Leads(env, rules, v, w') && AllRead(w, w', d, w.t.docs[d].shardsTotal)
    decreases w.t.docs[d].shardsTotal - done
  {
    var total := w.t.docs[d].shardsTotal;
    assert ShardIn(w, w.log, d, k, done);
    hide Leads, Claimed, AllRead, TextMoved;
    w' := ReadShard(env, rules, v, w, d, k + done, done);
    if done + 1 == total {
      LastRead(w, w', d, done, total);
    } else {
      var w1 := w';
      OneMoreRead(w, w1, d, done);
      ShardsStayOut(w, w1, d, k, total);
      w' := ReadShards(env, rules, v, w1, d, k, done + 1);
      ReadOn(w, w1, w', d, total);
    }
  }

  // ---- From dispatch to the join ----

  /** d is to be read by the engine, nothing has been read yet, and message i, which says so, has been delivered. */
  ghost predicate ToRead(env: Env, w: World, d: DocId, i: nat) {
    && Known(env, d) && d in w.t.docs && w.t.docs[d].state == TextPending && w.t.docs[d].shardsTotal == 1
    && w.t.docs[d].shardsDone == 0 && Recorded(w.t, d) == {} && i in w.log && i < |w.t.sent|
    && w.t.docs[d].pageCount == Some(PageTotal(env, d)) && !Truthy(w.t.docs[d].hasTextLayer)
    && w.t.sent[i] == DispatchMsg(env.cfg, d, false, PageTotal(env, d), env.sources[d].gcsPath, w.t.sent[i].cause)
  }

  /** The split of d begins and commits; the messages of its shards start at id k. */
  lemma SplitRun(env: Env, rules: Rules, v: World, w: World, d: DocId, i: nat) returns (w': World, k: nat)
    requires env.Valid() && Known(env, d) && Leads(env, rules, v, w) && d in w.t.docs &&
             w.t.docs[d].state == TextPending
    requires w.t.docs[d].pageCount == Some(PageTotal(env, d))
    requires i in w.log && i < |w.t.sent| && w.t.sent[i].topic == OcrSplit && w.t.sent[i].doc == d
    ensures Leads(env, rules, v, w') && Around(w, w', d) && w'.log == w.log && w'.t.shards == w.t.shards
    ensures TextMoved(w.t.docs[d], w'.t.docs[d]) && w'.t.docs[d].state == TextRunning
    ensures w'.t.docs[d].shardsTotal == ShardTotal(env, d) && w'.t.docs[d].shardsDone == w.t.docs[d].shardsDone
    ensures k == |w.t.sent| && |w'.t.sent| == k + ShardTotal(env, d)
    ensures forall j: nat | j < ShardTotal(env, d) :: ShardIn(w', w'.t.pending, d, k, j)
    ensures SplitDone(w', d)
  {
    hide Leads, NextExtract, NextRecover, NextBroker, SplitMsgs, EnqueueAll;
    var t := Transition(w.t, d, TextRunning, {TextPending}, w.now).value;
    var w1 := w.(t := t, splitting := w.splitting + {i});
    ExtendFreely(env, rules, v, w, Text(SplitBegin(i)), w1);
    var total, n := ShardTotal(env, d), PageTotal(env, d);
    k := |w1.t.sent|;
    var t1 := w1.t.(docs := w1.t.docs[d := w1.t.docs[d].(shardsTotal := total, pageCount := Some(n))]);
    EnqueueAllFacts(t1, SplitMsgs(env.cfg, d, total, total, n));
    w' := w1.(t := CommitSplitTx(env.cfg, w1.t, d, total, n));
    ExtendFreely(env, rules, v, w1, Text(SplitCommit(i)), w');
    forall j: nat | j < total ensures ShardIn(w', w'.t.pending, d, k, j) {
      assert w'.t.sent[k + j] == SplitMsgs(env.cfg, d, total, total, n)[j];
    }
    assert w'.t.sent[k] == SplitMsgs(env.cfg, d, total, total, n)[0];
    assert SplitSent(w', d, k);
  }

  lemma DeliveredAround(w: World, w': World, d: DocId)
    requires SameButOutbox(w, w') && d in w.t.docs
    ensures Around(w, w', d) && w'.t.shards == w.t.shards && w'.t.docs == w.t.docs
  {
  }

  /** The split, and all its messages delivered. */
  lemma SplitOut(env: Env, rules: Rules, v: World, w: World, d: DocId, i: nat) returns (w': World, k: nat)
    requires ToRead(env, w, d, i) && Leads(env, rules, v, w) && ShardTotal(env, d) > 1
    ensures Leads(env, rules, v, w') && Around(w, w', d) && TextMoved(w.t.docs[d], w'.t.docs[d])
    ensures IsText(w'.t.docs[d].state) && w'.t.docs[d].shardsDone == 0 && Recorded(w'.t, d) == {}
    ensures w'.t.docs[d].shardsTotal == ShardTotal(env, d) && ShardsOut(w', d, k, ShardTotal(env, d))
  {
    hide Leads, LockedRows, Basic;
    ShardCountOne(PageTotal(env, d), env.cfg.shardSize);
    var w1;
    w1, k := SplitRun(env, rules, v, w, d, i);
    ReachedFacts(env, rules, v, w);
    NewRowFree(env, w, w1);
    assert ShardIn(w1, w1.t.pending, d, k, 0);
    w' := Deliver(env, rules, v, w1, k);
    DeliveredAround(w1, w', d);
    AroundTwice(w, w1, w', d);
    forall j: nat | j < ShardTotal(env, d) ensures ShardIn(w', w'.log, d, k, j) {
      assert ShardIn(w1, w1.t.pending, d, k, j);
    }
  }

  /** A document to be read is read, however many shards it takes. */
  lemma ReadAll(env: Env, rules: Rules, v: World, w: World, d: DocId, i: nat) returns (w': World)
    requires ToRead(env, w, d, i) && Leads(env, rules, v, w)
    ensures Leads(env, rules, v, w') && AllRead(w, w', d, ShardTotal(env, d))
  {
    hide Leads;
    ShardCountOne(PageTotal(env, d), env.cfg.shardSize);
    if ShardTotal(env, d) == 1 {
      assert ShardIn(w, w.log, d, i, 0);
      assert UpTo(0) == {};
      w' := ReadShards(env, rules, v, w, d, i, 0);
    } else {
      var w1, k := SplitOut(env, rules, v, w, d, i);
      assert UpTo(0) == {};
      w' := ReadShards(env, rules, v, w1, d, k, 0);
      ReadOn(w, w1, w', d, ShardTotal(env, d));
    }
  }

  // ---- From upload to dispatch ----

  /** Handling the embedded text of a document whose text is unusable sends it to the engine, and sets its total to 1,
      even after a split. */
  lemma Fall(env: Env, rules: Rules, v: World, w: World, d: DocId, i: nat) returns (w': World)
    requires env.Valid() && Known(env, d) && !env.sources[d].sane && Leads(env, rules, v, w)
    requires d in w.t.docs && IsText(w.t.docs[d].state) && (rules.h2 ==> !SplitDone(w, d))
    requires i in w.log && i < |w.t.sent|
    requires w.t.sent[i] == Msg(d, TextEmbedded, DocumentRef(env.sources[d].gcsPath, PageTotal(env, d)), Dispatch)
    ensures Leads(env, rules, v, w') && Around(w, w', d) && w' == w.(t := w'.t)
    ensures w'.t == w.t.(docs := w'.t.docs, sent := w'.t.sent, pending := w'.t.pending)
    ensures w'.t.docs[d] == w.t.docs[d].(state := TextPending, hasTextLayer := Some(false), shardsTotal := 1,
                                         updatedAt := w.now)
    ensures w'.t.sent == w.t.sent +
                         [DispatchMsg(env.cfg, d, false, PageTotal(env, d), env.sources[d].gcsPath, FallThrough)]
    ensures w'.t.pending == w.t.pending + {|w.t.sent|}
  {
    hide Leads, NextExtract, NextRecover, NextBroker, SplitDone, DispatchMsg;
    var t := TextEmbeddedTx(env.cfg, w.t, d, env.sources[d], env.sources[d].gcsPath, w.now).value;
    w' := w.(t := t);
    Extend(env, rules, v, w, Text(EmbeddedCommit(i)), w');
  }

  /** A row as triage dispatches it, as far as extraction is concerned. */
  ghost predicate AsTriaged(env: Env, d: DocId, doc: Doc)
    requires Known(env, d)
  {
    && doc.result.None? && doc.gates.override.None? && doc.docType == env.sources[d].docType
    && doc.pageCount == Some(PageTotal(env, d)) && doc.vendor.None? && doc.invoiceNo.None?
  }

  /** Triage of a document without a text layer, its message delivered. */
  lemma TriageToRead(env: Env, rules: Rules, v: World, w: World, d: DocId) returns (w': World, i: nat)
    requires env.Valid() && Sent(env, d) && !env.sources[d].textLayer && Leads(env, rules, v, w)
    requires d !in w.t.docs
    ensures Leads(env, rules, v, w') && Around(w, w', d) && ToRead(env, w', d, i) && AsTriaged(env, d, w'.t.docs[d])
  {
    hide Leads, NextExtract, NextRecover, NextBroker, Basic, LockedRows, DispatchMsg;
    ReachedFacts(env, rules, v, w);
    i := |w.t.sent|;
    var w1 := w.(t := TriageTx(env.cfg, w.t, d, env.sources[d], w.now));
    ExtendFreely(env, rules, v, w, Text(Triage(d)), w1);
    NewRowFree(env, w, w1);
    w' := Deliver(env, rules, v, w1, i);
    Redriving.DispatchCause(env.cfg, d, false, PageTotal(env, d), env.sources[d].gcsPath, Dispatch);
  }

  /** Triage and fall-through of one whose text layer is unusable. */
  lemma FallToRead(env: Env, rules: Rules, v: World, w: World, d: DocId) returns (w': World, i: nat)
    requires env.Valid() && Sent(env, d) && env.sources[d].textLayer && !env.sources[d].sane && Leads(env, rules, v, w)
    requires d !in w.t.docs
    ensures Leads(env, rules, v, w') && Around(w, w', d) && ToRead(env, w', d, i) && AsTriaged(env, d, w'.t.docs[d])
  {
    hide Leads, LockedRows, Basic, SplitDone, DispatchMsg;
    ReachedFacts(env, rules, v, w);
    var w1, j := UploadTriage(env, rules, v, w, d);
    ReachedFacts(env, rules, v, w1);
    var w2 := Fall(env, rules, v, w1, d, j);
    NewRowFree(env, w1, w2);
    i := |w1.t.sent|;
    w' := Deliver(env, rules, v, w2, i);
    Redriving.DispatchCause(env.cfg, d, false, PageTotal(env, d), env.sources[d].gcsPath, FallThrough);
  }

  /** Upload of a document that the engine must read: dispatched, split if it must be, read and joined, and the message
      about its text delivered. */
  lemma UploadRead(env: Env, rules: Rules, v: World, w: World, d: DocId) returns (w': World, i: nat)
    requires env.Valid() && Sent(env, d) && !TierZeroDoc(env, d) && Leads(env, rules, v, w)
    requires d !in w.t.docs
    ensures Leads(env, rules, v, w') && Around(w, w', d) && Told(w', d, i) && AsTriaged(env, d, w'.t.docs[d])
    ensures w'.t.docs[d].state == ExtractPending && Recorded(w'.t, d) == UpTo(ShardTotal(env, d)) && JoinFired(w', d)
    ensures w'.t.docs[d].shardsTotal == ShardTotal(env, d) && !Truthy(w'.t.docs[d].hasTextLayer)
  {
    hide Leads, LockedRows, Basic;
    var w1, j;
    if env.sources[d].textLayer {
      w1, j := FallToRead(env, rules, v, w, d);
    } else {
      w1, j := TriageToRead(env, rules, v, w, d);
    }
    var w2 := ReadAll(env, rules, v, w1, d, j);
    AroundTwice(w, w1, w2, d);
    ReachedFacts(env, rules, v, w1);
    NewRowFree(env, w1, w2);
    i := |w2.t.sent| - 1;
    w' := Deliver(env, rules, v, w2, i);
    DeliveredAround(w2, w', d);
    AroundTwice(w, w2, w', d);
    assert JoinSent(w', d, i);
  }

  // ---- From upload to posting ----

  /** d waits for extraction, or can be assembled while it does, and its message has been delivered. */
  ghost predicate Awaiting(env: Env, w: World, d: DocId, i: nat) {
    Fit(env, w, d) && IsExtract(w.t.docs[d].state) && AsTriaged(env, d, w.t.docs[d]) && Told(w, d, i)
  }

  /** Only d's row is new; nothing has been posted, no handler has moved. */
  ghost predicate OnlyRow(w: World, w': World, d: DocId) {
    d in w'.t.docs && w'.t.docs == w.t.docs[d := w'.t.docs[d]] && w'.t.posted == w.t.posted && w'.handlers == w.handlers
  }

  /** From any world reached, any new document that triage dispatches can be carried to extraction. */
  lemma UploadAny(env: Env, v: World, w: World, d: DocId) returns (w': World, i: nat)
    requires env.Valid() && Sent(env, d) && Leads(env, ALL_RULES, v, w) && d !in w.t.docs
    ensures Leads(env, ALL_RULES, v, w') && OnlyRow(w, w', d) && Awaiting(env, w', d, i)
  {
    hide Leads, Basic, Fit, StoreInv, Canonical, DocJoinOk;
    ReachedFacts(env, ALL_RULES, v, w);
    if TierZeroDoc(env, d) {
      w', i := Upload(env, ALL_RULES, v, w, d);
      AssembledFits(env, w', d);
    } else {
      w', i := UploadRead(env, ALL_RULES, v, w, d);
      ReachedFacts(env, ALL_RULES, v, w');
      StoredFits(env, w', d);
    }
  }

  /** No row holds the key of f. */
  ghost predicate KeyUnused(docs: map<DocId, Doc>, f: Fields) {
    f.seller.Some? && f.invoiceNo.Some? ==> forall e | e in docs :: Keys.KeyOf(docs[e]) != (f.seller, f.invoiceNo)
  }

  lemma KeyStaysFree(docs: map<DocId, Doc>, docs': map<DocId, Doc>, d: DocId, f: Fields)
    requires KeyUnused(docs, f) && d in docs' && docs' == docs[d := docs'[d]]
    ensures !Violates(docs', d, f.seller, f.invoiceNo) && NobodyHas(docs', d, f)
  {
    hide Violates, NobodyHas;
    Keys.ViolatesIff(docs', d, f.seller, f.invoiceNo);
    KeyFree(docs', d, f);
  }

  lemma NothingOf(env: Env, w: World, d: DocId)
    requires env.Valid() && Reachable(env, ALL_RULES, w) && d !in w.t.docs
    ensures d !in w.t.posted && Idle(w, d)
  {
    hide Next, H1, H2, H3, Basic;
    var ws: seq<World>, acts: seq<Action>, m: nat :| Passes(env, ALL_RULES, w, w, ws, acts, m);
    forall k | 0 <= k < |acts| ensures H1(ws[k], acts[k]) { assert Obeys(ALL_RULES, ws[k], acts[k], ws[k + 1]); }
    if d in w.t.posted { Completing.PostedIsComplete(env, ws, acts, |acts|, d); }
    BasicRun(env, ws, acts, |acts|);
    forall h | h in w.handlers ensures w.handlers[h].doc != d { HandlerDoc(env, w, h); }
  }

  /** A sound answer is posted: from every world reached within the hypotheses, whatever the others have begun, every
      new document that triage dispatches, with or without a text layer and in however many shards, has a continuation
      that ends with it complete and exactly the fields of its first sound answer posted, if their key is not taken. */
  lemma SoundAnswerIsPosted(env: Env, v: World, d: DocId, script: Funnel.Script, f: Fields) returns (w: World)
    requires env.Valid() && Reachable(env, ALL_RULES, v) && Sent(env, d) && d !in v.t.docs
    requires Answers(env, d, env.sources[d].docType, script, f) && KeyUnused(v.t.docs, f)
    ensures Leads(env, ALL_RULES, v, w)
    ensures d in w.t.docs && w.t.docs[d].state == Complete && w.t.docs[d].result == Some(HasFields(f))
    ensures d in w.t.posted && w.t.posted[d] == Posted(HasFields(f))
  {
    hide Leads, Answers, Canonical, VerdictOf, Violates, NobodyHas, KeyUnused, Fit;
    NothingOf(env, v, d);
    var w1, i := UploadAny(env, v, v, d);
    var h := FreshId(w1.handlers.Keys);
    Take(env, ALL_RULES, v, w1, d, i, h);
    var w2 := Taken(env, w1, d, h);
    ReadyOf(env, d, env.sources[d].docType, script, f);
    KeyStaysFree(v.t.docs, w2.t.docs, d, f);
    SoundAnswer(env, w2, d, w2.handlers[h].pc.row, script, f);
    var w3 := Decide(env, ALL_RULES, v, w2, h, script);
    KeyStaysFree(v.t.docs, w3.t.docs, d, f);
    w := PostRun(env, ALL_RULES, v, w3, h, f);
  }
}

/** The scatter-gather join over whole runs: counted exactly, fired exactly once, at the last shard. */
module Joining {
  import opened Types
  import opened Pages
  import opened Ledger
  import opened Sweeper
  import opened Stages
  import opened Protocol
  import opened Frames
  import opened Basics

  // ---- The invariant ----

  /** The counter is the number of recorded shards. */
  ghost predicate Counted(w: World, d: DocId)
    requires d in w.t.docs
  {
    w.t.docs[d].shardsDone == |Recorded(w.t, d)|
  }

  /** Once any shard message exists the authoritative total is in place. */
  ghost predicate Settled(env: Env, w: World, m: Msg) {
    m.topic == OcrShard ==>
        Known(env, m.doc) && m.doc in w.t.docs && w.t.docs[m.doc].shardsTotal == ShardTotal(env, m.doc)
  }

  ghost predicate RowSplit(w: World, d: DocId, row: Doc) {
    row.shardsTotal > 1 ==> SplitDone(w, d)
  }

  ghost predicate Full(env: Env, w: World, d: DocId)
    requires Known(env, d)
  {
    |Recorded(w.t, d)| == ShardTotal(env, d)
  }

  ghost predicate JoinOk(env: Env, w: World, d: DocId)
    requires Known(env, d)
  {
    && (JoinFired(w, d) <==> Full(env, w, d))
    && (forall j: nat, k: nat | JoinSent(w, d, j) && JoinSent(w, d, k) :: j == k)
  }

  ghost predicate DocJoinOk(env: Env, w: World, d: DocId)
    requires d in w.t.docs
  {
    Known(env, d) && Counted(w, d) && RowSplit(w, d, w.t.docs[d]) && JoinOk(env, w, d)
  }

  ghost predicate JoinInv(env: Env, w: World) {
    && (forall d | d in w.t.docs :: DocJoinOk(env, w, d))
    && (forall d | d in w.t.shards :: d in w.t.docs)
    && (forall j | 0 <= j < |w.t.sent| :: Settled(env, w, w.t.sent[j]))
    && (forall r | r in w.claimed :: RowSplit(w, r.doc, r.row))
    && (forall r | r in w.opReads :: RowSplit(w, r.doc, r.row))
  }

  // ---- Cardinalities ----

  lemma {:induction false} SubsetSize(a: set<nat>, b: set<nat>)
    requires a <= b
    ensures |a| <= |b|
  {
    if a != {} {
      var x :| x in a;
      SubsetSize(a - {x}, b - {x});
    }
  }

  /** n different indices below n are all of them. */
  lemma FullSet(a: set<nat>, n: nat)
    requires forall x | x in a :: x < n
    ensures |a| <= n && (|a| == n <==> a == UpTo(n))
  {
    SubsetSize(a, UpTo(n));
    if |a| == n && a != UpTo(n) {
      var x :| x in UpTo(n) && x !in a;
      SubsetSize(a, UpTo(n) - {x});
    }
  }

  lemma RecordedBelow(env: Env, w: World, d: DocId)
    requires Basic(env, w) && d in w.t.docs
    ensures Known(env, d) && forall x | x in Recorded(w.t, d) :: x < ShardTotal(env, d)
  {
    assert GoodRow(env, d, w.t.docs[d]);
    forall x | x in Recorded(w.t, d) ensures x < ShardTotal(env, d) {
      assert (d, x) in w.outs;
      assert OutputOk(env, d, x, w.outs[(d, x)]);
    }
  }

  // ---- Steps that record nothing ----

  lemma SplitStays(w: World, w': World, ms: seq<Msg>, d: DocId)
    requires w'.t.sent == w.t.sent + ms && SplitDone(w, d)
    ensures SplitDone(w', d)
  {
    var j: nat :| SplitSent(w, d, j);
    assert SplitSent(w', d, j);
  }

  lemma JoinStays(w: World, w': World, ms: seq<Msg>, d: DocId)
    requires w'.t.sent == w.t.sent + ms
    requires forall k | 0 <= k < |ms| :: ms[k].cause != Join || ms[k].doc != d
    ensures forall j: nat :: JoinSent(w', d, j) <==> JoinSent(w, d, j)
    ensures JoinFired(w', d) <==> JoinFired(w, d)
  {
    forall j: nat ensures JoinSent(w', d, j) <==> JoinSent(w, d, j) {
      if |w.t.sent| <= j < |w'.t.sent| {
        assert w'.t.sent[j] == ms[j - |w.t.sent|];
      }
    }
    if JoinFired(w', d) {
      var j: nat :| JoinSent(w', d, j);
      assert JoinSent(w, d, j);
    }
    if JoinFired(w, d) {
      var j: nat :| JoinSent(w, d, j);
      assert JoinSent(w', d, j);
    }
  }

  ghost predicate SameShards(a: Doc, b: Doc) {
    a.shardsTotal == b.shardsTotal && a.shardsDone == b.shardsDone
  }

  /** New messages that fire no join, and whose shards are settled. */
  ghost predicate Harmless(env: Env, w': World, m: Msg) {
    m.cause != Join && Settled(env, w', m)
  }

  /** What survives a step that leaves every shard column alone. */
  lemma JoinFrame(env: Env, w: World, w': World, ms: seq<Msg>)
    requires JoinInv(env, w) && w'.t.sent == w.t.sent + ms && w'.t.shards == w.t.shards
    requires w'.t.docs.Keys == w.t.docs.Keys
    requires forall d | d in w.t.docs :: SameShards(w.t.docs[d], w'.t.docs[d])
    requires forall k | 0 <= k < |ms| :: Harmless(env, w', ms[k])
    requires forall r | r in w'.claimed && r !in w.claimed :: r.doc in w.t.docs && r.row == w.t.docs[r.doc]
    requires forall r | r in w'.opReads && r !in w.opReads :: r.doc in w.t.docs && r.row == w.t.docs[r.doc]
    ensures JoinInv(env, w')
  {
    hide Known, SplitDone;
    forall d | d in w'.t.docs ensures DocJoinOk(env, w', d) {
      assert DocJoinOk(env, w, d);
      JoinStays(w, w', ms, d);
      if w.t.docs[d].shardsTotal > 1 { SplitStays(w, w', ms, d); }
      assert Recorded(w'.t, d) == Recorded(w.t, d);
    }
    forall j | 0 <= j < |w'.t.sent| ensures Settled(env, w', w'.t.sent[j]) {
      if j < |w.t.sent| {
        assert Settled(env, w, w.t.sent[j]);
      } else {
        assert w'.t.sent[j] == ms[j - |w.t.sent|];
      }
    }
    forall r | r in w'.claimed ensures RowSplit(w', r.doc, r.row) {
      if r !in w.claimed { assert DocJoinOk(env, w, r.doc); }
      assert RowSplit(w, r.doc, r.row);
      if r.row.shardsTotal > 1 { SplitStays(w, w', ms, r.doc); }
    }
    forall r | r in w'.opReads ensures RowSplit(w', r.doc, r.row) {
      if r !in w.opReads { assert DocJoinOk(env, w, r.doc); }
      assert RowSplit(w, r.doc, r.row);
      if r.row.shardsTotal > 1 { SplitStays(w, w', ms, r.doc); }
    }
  }

  lemma ExtractJoin(env: Env, w: World, a: ExtractAction, w': World)
    requires JoinInv(env, w) && NextExtract(env, w, a) == Some(w')
    ensures JoinInv(env, w')
  {
    hide NextExtract, JoinInv;
    ExtractSteps(env, w, a, w');
    JoinFrame(env, w, w', ExtractMsgs(w, a));
  }

  /** A re-driven shard message needs a row that was split, or a document of one shard. */
  lemma RedriveSettled(env: Env, w: World, r: Row, cause: Cause)
    requires Basic(env, w) && JoinInv(env, w) && GoodRow(env, r.doc, r.row) && RowSplit(w, r.doc, r.row) &&
             r.doc in w.t.docs
    requires cause == Sweep || cause == Operator
    ensures forall k | 0 <= k < |RedriveMsgs(env.cfg, w.t, r, cause)| ::
              Harmless(env, w, RedriveMsgs(env.cfg, w.t, r, cause)[k])
  {
    hide Basic, JoinInv, GoodRow, RowSplit, Settled, RedriveMsgs, ShardTotal;
    RedriveKinds(env, w.t, r, cause);
    TotalSettled(env, w, r);
    forall k | 0 <= k < |RedriveMsgs(env.cfg, w.t, r, cause)| ensures Harmless(env, w,
        RedriveMsgs(env.cfg, w.t, r, cause)[k]) {
      SettledAt(env, w, RedriveMsgs(env.cfg, w.t, r, cause)[k]);
    }
  }

  lemma SettledAt(env: Env, w: World, m: Msg)
    requires m.topic == OcrShard ==>
        Known(env, m.doc) && m.doc in w.t.docs && w.t.docs[m.doc].shardsTotal == ShardTotal(env, m.doc)
    ensures Settled(env, w, m)
  {
  }

  /** A shard message comes from a row of several shards, or from a document small enough for one. */
  lemma RedriveKinds(env: Env, t: Tables, r: Row, cause: Cause)
    requires GoodRow(env, r.doc, r.row)
    ensures forall k | 0 <= k < |RedriveMsgs(env.cfg, t, r, cause)| ::
              RedriveMsgs(env.cfg, t, r, cause)[k].doc == r.doc &&
                  RedriveMsgs(env.cfg, t, r, cause)[k].cause == cause &&
              (RedriveMsgs(env.cfg, t, r, cause)[k].topic == OcrShard ==>
                  r.row.shardsTotal > 1 || ShardTotal(env, r.doc) == 1)
  {
    hide OcrDoc, Missing;
    ShardCountOne(PageTotal(env, r.doc), env.cfg.shardSize);
  }

  /** Where the row was split, or one shard is all there is, the document's total is the authoritative one. */
  lemma TotalSettled(env: Env, w: World, r: Row)
    requires Basic(env, w) && JoinInv(env, w) && GoodRow(env, r.doc, r.row) && RowSplit(w, r.doc, r.row) &&
             r.doc in w.t.docs
    ensures Known(env, r.doc)
    ensures r.row.shardsTotal > 1 || ShardTotal(env, r.doc) == 1 ==>
              w.t.docs[r.doc].shardsTotal == ShardTotal(env, r.doc)
  {
    hide RowsOk, RefsOk, StoreOk, DocJoinOk;
    if r.row.shardsTotal > 1 {
      var j: nat :| SplitSent(w, r.doc, j);
      assert MsgOk(env, w, w.t.sent[j]) && Settled(env, w, w.t.sent[j]);
    } else {
      assert GoodRow(env, r.doc, w.t.docs[r.doc]) by { GoodRowOf(env, w, r.doc); }
    }
  }

  lemma GoodRowOf(env: Env, w: World, d: DocId)
    requires Basic(env, w) && d in w.t.docs
    ensures GoodRow(env, d, w.t.docs[d])
  {
  }

  lemma RecoverHarmless(env: Env, w: World, a: RecoverAction, w': World)
    requires Basic(env, w) && JoinInv(env, w) && NextRecover(env, w, a) == Some(w')
    ensures forall k | 0 <= k < |RecoverMsgs(env, w, a)| :: Harmless(env, w, RecoverMsgs(env, w, a)[k])
  {
    hide RedriveMsgs, IsBatch, Tally, MsgsOk, RefsOk, StoreOk, DocJoinOk, Settled, EnqueueAll;
    match a
    case SweepRedrive(r) => RedriveSettled(env, w, r, Sweep);
    case ForceRedrive(r) =>
      var row := r.row.(state := RedriveTarget(r.row, r.assembled).value);
      assert GoodRow(env, r.doc, row);
      RedriveSettled(env, w, Row(r.doc, row), Operator);
    case AcceptReview(r, note) => NotShard(env, w, Msg(r.doc, DocumentExtracted, OperatorOverride, Accept));
    case _ =>
  }

  lemma NotShard(env: Env, w: World, m: Msg)
    requires m.topic != OcrShard
    ensures Settled(env, w, m)
  {
  }

  lemma RecoverJoin(env: Env, w: World, a: RecoverAction, w': World)
    requires Basic(env, w) && JoinInv(env, w) && NextRecover(env, w, a) == Some(w')
    ensures JoinInv(env, w')
  {
    hide NextRecover, JoinInv, RecoverMsgs, Basic;
    RecoverSteps(env, w, a, w');
    RecoverHarmless(env, w, a, w');
    JoinFrame(env, w, w', RecoverMsgs(env, w, a));
  }

  lemma BrokerJoin(env: Env, w: World, a: BrokerAction, w': World)
    requires JoinInv(env, w) && NextBroker(w, a) == Some(w')
    ensures JoinInv(env, w')
  {
    hide NextBroker, JoinInv;
    BrokerSteps(w, a, w');
    JoinFrame(env, w, w', []);
  }

  // ---- Text steps ----

  /** A text step about d: everything said of other documents stays, so only d is left to check. */
  lemma TextJoinFrame(env: Env, w: World, w': World, ms: seq<Msg>, d: DocId)
    requires JoinInv(env, w) && TextFrame(w, w', d) && w'.t.sent == w.t.sent + ms
    requires d in w'.t.docs && DocJoinOk(env, w', d)
    requires forall e | e in w'.t.shards :: e in w.t.shards || e == d
    requires forall k | 0 <= k < |ms| :: ms[k].doc == d && Settled(env, w', ms[k])
    requires forall j | 0 <= j < |w.t.sent| && w.t.sent[j].doc == d :: Settled(env, w', w.t.sent[j])
    ensures JoinInv(env, w')
  {
    hide Known, SplitDone, SameButText;
    forall e | e in w'.t.docs ensures DocJoinOk(env, w', e) {
      if e != d {
        assert DocJoinOk(env, w, e);
        JoinStays(w, w', ms, e);
        if w.t.docs[e].shardsTotal > 1 { SplitStays(w, w', ms, e); }
      }
    }
    forall j | 0 <= j < |w'.t.sent| ensures Settled(env, w', w'.t.sent[j]) {
      if j < |w.t.sent| {
        assert Settled(env, w, w.t.sent[j]);
      } else {
        assert w'.t.sent[j] == ms[j - |w.t.sent|];
      }
    }
    forall r | r in w'.claimed ensures RowSplit(w', r.doc, r.row) {
      assert RowSplit(w, r.doc, r.row);
      if r.row.shardsTotal > 1 { SplitStays(w, w', ms, r.doc); }
    }
    forall r | r in w'.opReads ensures RowSplit(w', r.doc, r.row) {
      assert RowSplit(w, r.doc, r.row);
      if r.row.shardsTotal > 1 { SplitStays(w, w', ms, r.doc); }
    }
  }

  /** Steps that touch neither the shard columns nor the shard table nor the outbox. */
  lemma QuietTextJoin(env: Env, w: World, a: TextAction, w': World)
    requires Basic(env, w) && JoinInv(env, w) && NextText(env, w, a) == Some(w')
    requires a.EmbeddedWrite? || a.SplitBegin? || a.ShardBegin? || a.ShardWrite?
    ensures JoinInv(env, w')
  {
    hide MsgsOk, RefsOk, StoreOk, ShardText, AllPages, JoinInv;
    JoinFrame(env, w, w', []);
  }

  lemma TriageJoin(env: Env, w: World, d: DocId, w': World)
    requires Basic(env, w) && JoinInv(env, w) && DoTriage(env, w, d) == Some(w')
    ensures JoinInv(env, w')
  {
    hide RefsOk, StoreOk, RowsOk, DispatchMsg, SameButText, TriageMsgs;
    if d in w.t.docs {
      assert w'.t == w.t;
      JoinFrame(env, w, w', []);
    } else {
      TriageSteps(env, w, d, w');
      NewRow(env, w, d, w');
      NoMessages(env, w, d);
      TriageSettled(env, w, d, w');
      TextJoinFrame(env, w, w', TriageMsgs(env, w, d), d);
    }
  }

  lemma NoMessages(env: Env, w: World, d: DocId)
    requires Basic(env, w) && d !in w.t.docs
    ensures forall j | 0 <= j < |w.t.sent| :: w.t.sent[j].doc != d
  {
    forall j | 0 <= j < |w.t.sent| ensures w.t.sent[j].doc != d {
      assert MsgOk(env, w, w.t.sent[j]);
    }
  }

  lemma TriageSettled(env: Env, w: World, d: DocId, w': World)
    requires Basic(env, w) && DoTriage(env, w, d) == Some(w') && d !in w.t.docs
    ensures forall k | 0 <= k < |TriageMsgs(env, w, d)| :: TriageMsgs(env, w, d)[k].doc == d &&
              TriageMsgs(env, w, d)[k].cause == Dispatch &&
              Settled(env, w', TriageMsgs(env, w, d)[k])
  {
    hide RefsOk, StoreOk, RowsOk, MsgsOk;
    ShardCountOne(PageTotal(env, d), env.cfg.shardSize);
  }

  lemma NewRow(env: Env, w: World, d: DocId, w': World)
    requires Basic(env, w) && JoinInv(env, w) && DoTriage(env, w, d) == Some(w') && d !in w.t.docs
    ensures d in w'.t.docs && DocJoinOk(env, w', d) && w'.t.shards == w.t.shards
  {
    hide RefsOk, StoreOk, RowsOk, DispatchMsg, GoodMsg;
    TriageSteps(env, w, d, w');
    TriageSettled(env, w, d, w');
    NoMessages(env, w, d);
    forall j: nat ensures !JoinSent(w', d, j) {
      if |w.t.sent| <= j < |w'.t.sent| {
        assert w'.t.sent[j] == TriageMsgs(env, w, d)[j - |w.t.sent|];
      }
    }
    assert Recorded(w'.t, d) == {};
  }

  lemma EmbeddedJoin(env: Env, w: World, i: nat, w': World)
    requires Basic(env, w) && JoinInv(env, w) && DoEmbeddedCommit(env, w, i) == Some(w')
    requires !SplitDone(w, w.t.sent[i].doc)
    ensures JoinInv(env, w')
  {
    hide RefsOk, StoreOk, RowsOk, DispatchMsg, SameButText, AllPages, EmbeddedMsgs, GoodMsg;
    var d := w.t.sent[i].doc;
    EmbeddedSteps(env, w, i, w');
    EmbeddedColumns(env, w, i, w');
    EmbeddedSettled(env, w, i, w');
    assert DocJoinOk(env, w, d);
    JoinStays(w, w', EmbeddedMsgs(env, w.t.sent[i]), d);
    assert Recorded(w'.t, d) == Recorded(w.t, d);
    forall j | 0 <= j < |w.t.sent| && w.t.sent[j].doc == d ensures Settled(env, w', w.t.sent[j]) {
      assert Settled(env, w, w.t.sent[j]);
    }
    TextJoinFrame(env, w, w', EmbeddedMsgs(env, w.t.sent[i]), d);
  }

  /** Without a committed split the total is 1 before and after. */
  lemma EmbeddedColumns(env: Env, w: World, i: nat, w': World)
    requires Basic(env, w) && JoinInv(env, w) && DoEmbeddedCommit(env, w, i) == Some(w')
    requires !SplitDone(w, w.t.sent[i].doc)
    ensures i < |w.t.sent| && w.t.sent[i].doc in w.t.docs && w.t.sent[i].doc in w'.t.docs && w'.t.shards == w.t.shards
    ensures SameShards(w.t.docs[w.t.sent[i].doc], w'.t.docs[w.t.sent[i].doc]) &&
              w'.t.docs[w.t.sent[i].doc].shardsTotal == 1
  {
    hide RefsOk, StoreOk, MsgsOk, DispatchMsg, AllPages, SplitDone, JoinOk;
    var d := w.t.sent[i].doc;
    assert DocJoinOk(env, w, d) && GoodRow(env, d, w.t.docs[d]);
  }

  /** What handling an embedded text sends fires no join; a shard message among it means one shard is all there is. */
  lemma EmbeddedKinds(env: Env, m: Msg)
    requires GoodMsg(env, m) && m.topic == TextEmbedded
    ensures forall k | 0 <= k < |EmbeddedMsgs(env, m)| :: EmbeddedMsgs(env, m)[k].doc == m.doc &&
              EmbeddedMsgs(env, m)[k].cause != Join &&
              (EmbeddedMsgs(env, m)[k].topic == OcrShard ==> ShardTotal(env, m.doc) == 1)
  {
    ShardCountOne(PageTotal(env, m.doc), env.cfg.shardSize);
  }

  lemma EmbeddedSettled(env: Env, w: World, i: nat, w': World)
    requires Basic(env, w) && JoinInv(env, w) && DoEmbeddedCommit(env, w, i) == Some(w')
    requires !SplitDone(w, w.t.sent[i].doc)
    ensures forall k | 0 <= k < |EmbeddedMsgs(env, w.t.sent[i])| ::
              EmbeddedMsgs(env, w.t.sent[i])[k].doc == w.t.sent[i].doc &&
              EmbeddedMsgs(env, w.t.sent[i])[k].cause != Join && Settled(env, w', EmbeddedMsgs(env, w.t.sent[i])[k])
  {
    EmbeddedColumns(env, w, i, w');
    hide RefsOk, StoreOk, RowsOk, AllPages, SplitDone, JoinInv, TextEmbeddedTx, EmbeddedMsgs, ShardTotal, Settled;
    assert MsgOk(env, w, w.t.sent[i]);
    EmbeddedKinds(env, w.t.sent[i]);
    forall k | 0 <= k < |EmbeddedMsgs(env, w.t.sent[i])| ensures Settled(env, w', EmbeddedMsgs(env, w.t.sent[i])[k]) {
      SettledAt(env, w', EmbeddedMsgs(env, w.t.sent[i])[k]);
    }
  }

  lemma SplitJoin(env: Env, w: World, i: nat, w': World)
    requires Basic(env, w) && JoinInv(env, w) && DoSplitCommit(env, w, i) == Some(w')
    ensures JoinInv(env, w')
  {
    hide RefsOk, StoreOk, RowsOk, SameButText, GoodMsg, SplitMsgs, CommitSplitTx, ShardCount;
    var d := w.t.sent[i].doc;
    var ms := SplitCommitMsgs(env, w.t.sent[i]);
    SplitSteps(env, w, i, w');
    SplitColumns(env, w, i, w');
    assert DocJoinOk(env, w, d);
    JoinStays(w, w', ms, d);
    assert SplitSent(w', d, |w.t.sent|) by { assert w'.t.sent[|w.t.sent|] == ms[0]; }
    assert Recorded(w'.t, d) == Recorded(w.t, d);
    TextJoinFrame(env, w, w', ms, d);
  }

  lemma SplitColumns(env: Env, w: World, i: nat, w': World)
    requires Basic(env, w) && JoinInv(env, w) && DoSplitCommit(env, w, i) == Some(w')
    ensures i < |w.t.sent| && w.t.sent[i].doc in w.t.docs && Known(env, w.t.sent[i].doc)
    ensures w'.t.docs == w.t.docs[w.t.sent[i].doc := w'.t.docs[w.t.sent[i].doc]] && w'.t.shards == w.t.shards
    ensures w'.t.docs[w.t.sent[i].doc].shardsTotal == ShardTotal(env, w.t.sent[i].doc)
    ensures w'.t.docs[w.t.sent[i].doc].shardsDone == w.t.docs[w.t.sent[i].doc].shardsDone
    ensures var ms := SplitCommitMsgs(env, w.t.sent[i]);
      |ms| >= 1 && forall k | 0 <= k < |ms| :: ms[k].doc == w.t.sent[i].doc && ms[k].cause == Split
  {
    hide RefsOk, StoreOk, RowsOk, JoinInv, GoodMsg, EnqueueAll;
    assert MsgOk(env, w, w.t.sent[i]);
    var n := |env.sources[w.t.sent[i].doc].ocr|;
    ShardCountOne(n, env.cfg.shardSize);
    SplitDocs(env.cfg, w.t, w.t.sent[i].doc, ShardCount(n, env.cfg.shardSize), n);
    SplitShards(env.cfg, w.t, w.t.sent[i].doc, ShardCount(n, env.cfg.shardSize), n);
  }

  // ---- The recording step ----

  /** What a shard claim does to its document: nothing for a duplicate; otherwise one more index, one more in the
      counter, and the join message exactly when the indices are then complete. */
  lemma RecordEffect(env: Env, w: World, i: nat, w': World)
    requires Basic(env, w) && JoinInv(env, w) && DoShardRecord(w, i) == Some(w')
    ensures i < |w.t.sent| && w.t.sent[i].payload.ShardRange? && w.t.sent[i].doc in w.t.docs &&
              w.t.sent[i].doc in w'.t.docs
    ensures var d, idx := w.t.sent[i].doc, w.t.sent[i].payload.idx;
      && idx < ShardTotal(env, d)
      && Recorded(w'.t, d) == Recorded(w.t, d) + {idx}
      && w'.t.docs[d].shardsTotal == w.t.docs[d].shardsTotal == ShardTotal(env, d)
      && Counted(w', d)
      && (forall e | e in w'.t.shards :: e in w.t.shards || e == d)
      && JoinMsgs(w, w.t.sent[i]) == (if idx !in Recorded(w.t, d) &&
          Full(env, w', d) then [Msg(d, OcrCompleted, JustId, Join)] else [])
  {
    hide RefsOk, RowsOk, StoreOk, JoinOk, SplitDone, GoodRow;
    assert WrittenOk(w, i) by { WrittenShard(env, w, i); }
    var m := w.t.sent[i];
    assert MsgOk(env, w, m) && Settled(env, w, m);
    assert m.topic == OcrShard by { WrittenShard(env, w, i); }
    assert DocJoinOk(env, w, m.doc);
  }

  lemma WrittenShard(env: Env, w: World, i: nat)
    requires Basic(env, w) && i in w.written
    ensures WrittenOk(w, i) && w.t.sent[i].topic == OcrShard
  {
  }

  lemma RecordJoin(env: Env, w: World, i: nat, w': World)
    requires Basic(env, w) && JoinInv(env, w) && DoShardRecord(w, i) == Some(w')
    ensures JoinInv(env, w')
  {
    hide Basic, SameButText, DoShardRecord, JoinMsgs, JoinFired, SplitDone, DocJoinOk;
    RecordEffect(env, w, i, w');
    RecordSteps(w, i, w');
    var d := w.t.sent[i].doc;
    assert DocJoinOk(env, w, d);
    RecordDocOk(env, w, i, w');
    forall j | 0 <= j < |w.t.sent| && w.t.sent[j].doc == d ensures Settled(env, w', w.t.sent[j]) {
      assert Settled(env, w, w.t.sent[j]);
    }
    TextJoinFrame(env, w, w', JoinMsgs(w, w.t.sent[i]), d);
  }

  lemma RecordDocOk(env: Env, w: World, i: nat, w': World)
    requires Basic(env, w) && JoinInv(env, w) && DoShardRecord(w, i) == Some(w')
    ensures i < |w.t.sent| && w.t.sent[i].doc in w'.t.docs && DocJoinOk(env, w', w.t.sent[i].doc)
  {
    hide Basic, SameButText, DoShardRecord, JoinMsgs, SplitDone, JoinOk, Counted;
    RecordEffect(env, w, i, w');
    RecordSteps(w, i, w');
    var d := w.t.sent[i].doc;
    assert DocJoinOk(env, w, d);
    if w.t.docs[d].shardsTotal > 1 { SplitStays(w, w', JoinMsgs(w, w.t.sent[i]), d); }
    RecordJoinOk(env, w, i, w');
  }

  lemma RecordJoinOk(env: Env, w: World, i: nat, w': World)
    requires Basic(env, w) && JoinInv(env, w) && DoShardRecord(w, i) == Some(w')
    ensures i < |w.t.sent| && Known(env, w.t.sent[i].doc) && JoinOk(env, w', w.t.sent[i].doc)
  {
    hide Basic, JoinInv, DoShardRecord, JoinMsgs, RowSplit, Counted, Settled, TextFrame, ShardTotal, JoinFired;
    RecordEffect(env, w, i, w');
    RecordSteps(w, i, w');
    var d, idx := w.t.sent[i].doc, w.t.sent[i].payload.idx;
    var ms := JoinMsgs(w, w.t.sent[i]);
    DocJoinOf(env, w, d);
    RecordedBelow(env, w, d);
    FullSet(Recorded(w.t, d), ShardTotal(env, d));
    if ms == [] {
      JoinStays(w, w', ms, d);
      if idx in Recorded(w.t, d) { assert Recorded(w'.t, d) == Recorded(w.t, d); }
    } else {
      assert idx in UpTo(ShardTotal(env, d));
      FiresNow(w, w', d);
    }
  }

  lemma DocJoinOf(env: Env, w: World, d: DocId)
    requires JoinInv(env, w) && d in w.t.docs
    ensures Known(env, d) && JoinOk(env, w, d)
  {
    hide JoinOk;
    assert DocJoinOk(env, w, d);
  }

  lemma FiresNow(w: World, w': World, d: DocId)
    requires !JoinFired(w, d) && w'.t.sent == w.t.sent + [Msg(d, OcrCompleted, JustId, Join)]
    ensures JoinFired(w', d)
    ensures forall j: nat, k: nat | JoinSent(w', d, j) && JoinSent(w', d, k) :: j == k
  {
    assert JoinSent(w', d, |w.t.sent|);
    forall j: nat | JoinSent(w', d, j) ensures j == |w.t.sent| {
      assert !JoinSent(w, d, j);
    }
  }

  lemma TextJoin(env: Env, w: World, a: TextAction, w': World)
    requires Basic(env, w) && JoinInv(env, w) && NextText(env, w, a) == Some(w')
    requires a.EmbeddedCommit? && a.msg < |w.t.sent| ==> !SplitDone(w, w.t.sent[a.msg].doc)
    ensures JoinInv(env, w')
  {
    hide Basic, JoinInv, DoTriage, DoSplitCommit, DoShardRecord, SplitDone, TextEmbeddedTx, DoSplitBegin, DoShardBegin,
         DoShardWrite, DoEmbeddedWrite;
    match a
    case Triage(d) => TriageJoin(env, w, d, w');
    case EmbeddedCommit(i) => EmbeddedJoin(env, w, i, w');
    case SplitCommit(i) => SplitJoin(env, w, i, w');
    case ShardRecord(i) => RecordJoin(env, w, i, w');
    case _ => QuietTextJoin(env, w, a, w');
  }

  lemma JoinStep(env: Env, w: World, a: Action, w': World)
    requires Basic(env, w) && JoinInv(env, w) && Next(env, w, a) == Some(w') && H2(w, a)
    ensures JoinInv(env, w')
  {
    hide Basic, JoinInv, NextText, NextExtract, NextRecover, NextBroker, SplitDone;
    match a
    case Text(x) => TextJoin(env, w, x, w');
    case Extract(x) => ExtractJoin(env, w, x, w');
    case Recover(x) => RecoverJoin(env, w, x, w');
    case Broker(x) => BrokerJoin(env, w, x, w');
  }

  lemma {:induction false} JoinRun(env: Env, ws: seq<World>, acts: seq<Action>, n: nat)
    requires env.Valid() && IsRun(env, ws, acts) && Under2(ws, acts) && n < |ws|
    ensures Basic(env, ws[n]) && JoinInv(env, ws[n])
  {
    hide Next, Basic, H2;
    BasicRun(env, ws, acts, n);
    if n > 0 {
      JoinRun(env, ws, acts, n - 1);
      JoinStep(env, ws[n - 1], acts[n - 1], ws[n]);
    }
  }

  // ---- The theorems ----

  /** Exactly-once join, at every point of every run under H2: shards_done is the number of recorded shards, the
      recorded shards are among the N of the document, the join has fired iff all N are recorded, and it fired once. */
  lemma ExactlyOnceJoin(env: Env, ws: seq<World>, acts: seq<Action>, n: nat, d: DocId)
    requires env.Valid() && IsRun(env, ws, acts) && Under2(ws, acts) && n < |ws| && d in ws[n].t.docs
    ensures Known(env, d)
    ensures ws[n].t.docs[d].shardsDone == |Recorded(ws[n].t, d)|
    ensures forall i | i in Recorded(ws[n].t, d) :: i < ShardTotal(env, d)
    ensures JoinFired(ws[n], d) <==> Recorded(ws[n].t, d) == UpTo(ShardTotal(env, d))
    ensures forall j: nat, k: nat | JoinSent(ws[n], d, j) && JoinSent(ws[n], d, k) :: j == k
  {
    hide Next, Under2;
    JoinRun(env, ws, acts, n);
    var w := ws[n];
    assert DocJoinOk(env, w, d);
    RecordedBelow(env, w, d);
    FullSet(Recorded(w.t, d), ShardTotal(env, d));
  }

  /** The join fires precisely in the transaction that commits the last missing shard. */
  lemma JoinAtLastShard(env: Env, ws: seq<World>, acts: seq<Action>, n: nat, d: DocId)
    requires env.Valid() && IsRun(env, ws, acts) && Under2(ws, acts) && n < |acts| && d in ws[n].t.docs
    ensures Known(env, d) && d in ws[n + 1].t.docs
    ensures !JoinFired(ws[n], d) && JoinFired(ws[n + 1], d) <==>
            Recorded(ws[n].t, d) != UpTo(ShardTotal(env, d)) && Recorded(ws[n + 1].t, d) == UpTo(ShardTotal(env, d))
    ensures !JoinFired(ws[n], d) && JoinFired(ws[n + 1], d) ==>
            acts[n].Text? && acts[n].text.ShardRecord? && ws[n + 1].t.docs[d].state == ExtractPending
  {
    hide Next, Under2, JoinFired, ShardTotal;
    ExactlyOnceJoin(env, ws, acts, n, d);
    StepGrows(env, ws[n], acts[n], ws[n + 1]);
    ExactlyOnceJoin(env, ws, acts, n + 1, d);
    BasicRun(env, ws, acts, n);
    JoinNeedsRecord(env, ws[n], acts[n], ws[n + 1], d);
  }

  lemma JoinNeedsRecord(env: Env, w: World, a: Action, w': World, d: DocId)
    requires Basic(env, w) && Next(env, w, a) == Some(w') && d in w.t.docs
    ensures !JoinFired(w, d) && JoinFired(w', d) ==>
              a.Text? && a.text.ShardRecord? && d in w'.t.docs && w'.t.docs[d].state == ExtractPending
  {
    hide NextText, NextExtract, NextRecover, NextBroker, NewMsgs, Basic;
    if !JoinFired(w, d) && JoinFired(w', d) {
      StepGrows(env, w, a, w');
      var j: nat :| JoinSent(w', d, j);
      assert !JoinSent(w, d, j);
      assert w'.t.sent[j] == NewMsgs(env, w, a)[j - |w.t.sent|];
      JoinCause(env, w, a, w', j - |w.t.sent|);
    }
  }

  lemma JoinCause(env: Env, w: World, a: Action, w': World, k: nat)
    requires Basic(env, w) && Next(env, w, a) == Some(w') && k < |NewMsgs(env, w, a)| &&
             NewMsgs(env, w, a)[k].cause == Join
    ensures a.Text? && a.text.ShardRecord?
    ensures NewMsgs(env, w, a)[k].doc in w'.t.docs && w'.t.docs[NewMsgs(env, w, a)[k].doc].state == ExtractPending
  {
    hide NextText, NextExtract, NextRecover, NextBroker, TextMsgs, ExtractMsgs, RecoverMsgs, Basic;
    match a
    case Text(x) =>
      TextCauses(env, w, x);
      WinnerState(env, w, x, w');
    case Extract(x) => ExtractCauses(w, x);
    case Recover(x) => RecoverCauses(env, w, x);
    case Broker(x) =>
  }

  lemma TextCauses(env: Env, w: World, a: TextAction)
    ensures forall k | 0 <= k < |TextMsgs(env, w, a)| ::
              TextMsgs(env, w, a)[k].cause in {Dispatch, FallThrough, TierZero, Split, Join}
    ensures forall k | 0 <= k < |TextMsgs(env, w, a)| :: TextMsgs(env, w, a)[k].cause == Join ==> a.ShardRecord?
  {
    hide Wins;
  }

  lemma WinnerState(env: Env, w: World, a: TextAction, w': World)
    requires NextText(env, w, a) == Some(w') && a.ShardRecord? && TextMsgs(env, w, a) != []
    ensures TextMsgs(env, w, a)[0].doc in w'.t.docs && w'.t.docs[TextMsgs(env, w, a)[0].doc].state == ExtractPending
    ensures |TextMsgs(env, w, a)| == 1
  {
  }

  lemma ExtractCauses(w: World, a: ExtractAction)
    ensures forall k | 0 <= k < |ExtractMsgs(w, a)| :: ExtractMsgs(w, a)[k].cause == Commit
  {
    hide Violates;
  }

  lemma RecoverCauses(env: Env, w: World, a: RecoverAction)
    ensures forall k | 0 <= k < |RecoverMsgs(env, w, a)| :: RecoverMsgs(env, w, a)[k].cause in {Sweep, Operator, Accept}
  {
  }
}

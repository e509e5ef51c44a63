/** What every step keeps, with no hypothesis on the run: rows, messages and stored objects agree with the documents'
    bytes. */
module Basics {
  import opened Types
  import opened Pages
  import opened Ledger
  import opened Sweeper
  import opened Stages
  import opened Outbox
  import opened Protocol
  import opened Frames

  // ---- Facts fixed by the bytes ----

  ghost predicate Known(env: Env, d: DocId) {
    d in env.sources && env.Valid()
  }

  ghost function PageTotal(env: Env, d: DocId): nat
    requires Known(env, d)
  {
    |env.sources[d].ocr|
  }

  /** The authoritative number of shards. */
  ghost function ShardTotal(env: Env, d: DocId): (n: nat)
    requires Known(env, d)
    ensures n >= 1
  {
    ShardCountOne(PageTotal(env, d), env.cfg.shardSize);
    ShardCount(PageTotal(env, d), env.cfg.shardSize)
  }

  /** Text comes from the embedded layer: triage dispatched it there and the layer is usable. */
  ghost predicate TierZeroDoc(env: Env, d: DocId)
    requires Known(env, d)
  {
    Dispatched(env.cfg, env.sources[d]) && env.sources[d].textLayer && env.sources[d].sane
  }

  /** Text can only come from OCR. */
  ghost predicate OcrDoc(env: Env, d: DocId)
    requires Known(env, d)
  {
    env.sources[d].verdict == Readable && !TierZeroDoc(env, d)
  }

  ghost function ShardPages(env: Env, d: DocId, idx: nat): seq<Page>
    requires Known(env, d) && idx < ShardTotal(env, d)
  {
    RangeInside(idx, PageTotal(env, d), env.cfg.shardSize);
    OcrRange(env.sources[d].ocr, RangeStart(idx, env.cfg.shardSize),
        RangeEnd(idx, PageTotal(env, d), env.cfg.shardSize))
  }

  /** The one payload a shard message for `idx` can carry. */
  ghost function ShardPayload(env: Env, d: DocId, idx: nat): Payload
    requires Known(env, d)
  {
    if ShardTotal(env, d) == 1 then DispatchPayload(OcrShard, env.sources[d].gcsPath, PageTotal(env, d))
    else ShardMsg(env.cfg, d, idx, ShardTotal(env, d), PageTotal(env, d), Split).payload
  }

  // ---- The invariant ----

  ghost predicate GoodRow(env: Env, d: DocId, doc: Doc) {
    Known(env, d) &&
    var src := env.sources[d];
    && doc.gcsPath == src.gcsPath && doc.priority == 0
    && doc.docType == (if Dispatched(env.cfg, src) then src.docType else Invoice)
    && doc.pageCount == (if src.verdict == Readable then Some(PageTotal(env, d)) else None)
    && (IsText(doc.state) ==> src.verdict == Readable)
    && (doc.shardsTotal == 1 || doc.shardsTotal == ShardTotal(env, d))
    && (doc.shardsTotal > 1 ==> OcrDoc(env, d))
    && (Truthy(doc.hasTextLayer) ==> Dispatched(env.cfg, src) && src.textLayer)
    && (!Truthy(doc.hasTextLayer) && src.verdict == Readable ==> OcrDoc(env, d))
  }

  ghost predicate GoodMsg(env: Env, m: Msg) {
    Known(env, m.doc) &&
    var src := env.sources[m.doc];
    && (m.cause == Split ==> m.topic == OcrShard)
    && (m.cause == Join ==> m.topic == OcrCompleted)
    && (m.topic == DocumentExtracted <==> m.cause == Commit || m.cause == Accept)
    && (m.cause == Commit ==> m.payload.AutoPost?)
    && (m.cause == Accept ==> m.payload.OperatorOverride?)
    && match m.topic
       case TextEmbedded => m.payload == DocumentRef(src.gcsPath, PageTotal(env, m.doc)) && Dispatched(env.cfg, src) &&
           src.textLayer
       case OcrSplit => m.payload == DocumentRef(src.gcsPath, PageTotal(env, m.doc)) && OcrDoc(env, m.doc) &&
           ShardTotal(env, m.doc) > 1
       case OcrShard => OcrDoc(env, m.doc) && m.payload.ShardRange? && m.payload.idx < ShardTotal(env, m.doc) &&
                        m.payload == ShardPayload(env, m.doc, m.payload.idx)
       case OcrCompleted => m.payload == JustId
       case DocumentExtracted => true
  }

  ghost predicate HandlerRowOk(env: Env, w: World, h: nat)
    requires h in w.handlers
  {
    var x := w.handlers[h];
    x.doc in w.t.docs && (RowOf(x.pc).Some? ==> GoodRow(env, x.doc, RowOf(x.pc).value))
  }

  ghost predicate RowsOk(env: Env, w: World) {
    && (forall d | d in w.t.docs :: GoodRow(env, d, w.t.docs[d]))
    && (forall r | r in w.claimed :: r.doc in w.t.docs && GoodRow(env, r.doc, r.row))
    && (forall r | r in w.opReads :: r.doc in w.t.docs && GoodRow(env, r.doc, r.row))
    && (forall h | h in w.handlers :: HandlerRowOk(env, w, h))
  }

  ghost predicate MsgOk(env: Env, w: World, m: Msg) {
    m.doc in w.t.docs && GoodMsg(env, m)
  }

  ghost predicate MsgsOk(env: Env, w: World) {
    forall i | 0 <= i < |w.t.sent| :: MsgOk(env, w, w.t.sent[i])
  }

  /** Row ids held by actors point at messages of the right topic. */
  ghost predicate RefsOk(w: World) {
    && (forall i | i in w.produced :: i < |w.t.sent|)
    && (forall i | i in w.log :: i < |w.t.sent|)
    && (forall i | i in w.t.pending :: i < |w.t.sent|)
    && (forall i | i in w.splitting :: i < |w.t.sent| && w.t.sent[i].topic == OcrSplit)
    && (forall i | i in w.begun :: i < |w.t.sent| && w.t.sent[i].topic == OcrShard)
    && (forall i | i in w.written :: i < |w.t.sent| && w.t.sent[i].topic == OcrShard)
    && (forall r, i | r in w.relays && i in w.relays[r].ids :: i < |w.t.sent|)
  }

  ghost predicate OutputOk(env: Env, d: DocId, idx: nat, pages: seq<Page>) {
    Known(env, d) && OcrDoc(env, d) && idx < ShardTotal(env, d) && pages == ShardPages(env, d, idx)
  }

  ghost predicate WrittenOk(w: World, i: nat) {
    i < |w.t.sent| && w.t.sent[i].payload.ShardRange? && (w.t.sent[i].doc, w.t.sent[i].payload.idx) in w.outs
  }

  ghost predicate ArtifactOk(env: Env, w: World, d: DocId, pages: seq<Page>) {
    && d in w.t.docs && Known(env, d)
    && (TierZeroDoc(env, d) ==> pages == AllPages(env.sources[d].embedded))
  }

  /** Shard outputs hold the engine's pages of their range; recorded shards were written; the artifact of a tier-0
      document is its embedded text. */
  ghost predicate StoreOk(env: Env, w: World) {
    && (forall k | k in w.outs :: OutputOk(env, k.0, k.1, w.outs[k]))
    && (forall i | i in w.written :: WrittenOk(w, i))
    && (forall d | d in w.assembled :: ArtifactOk(env, w, d, w.assembled[d]))
    && (forall d: DocId, idx: nat | idx in Recorded(w.t, d) :: (d, idx) in w.outs)
  }

  ghost predicate Basic(env: Env, w: World) {
    env.Valid() && RowsOk(env, w) && MsgsOk(env, w) && RefsOk(w) && StoreOk(env, w)
  }

  // ---- New messages are good ----

  lemma DispatchGood(env: Env, d: DocId, hasTextLayer: bool, cause: Cause)
    requires Known(env, d) && cause in {Dispatch, FallThrough, Sweep, Operator}
    requires if hasTextLayer then Dispatched(env.cfg, env.sources[d]) && env.sources[d].textLayer else OcrDoc(env, d)
    ensures GoodMsg(env, DispatchMsg(env.cfg, d, hasTextLayer, PageTotal(env, d), env.sources[d].gcsPath, cause))
  {
    ShardCountOne(PageTotal(env, d), env.cfg.shardSize);
  }

  lemma ShardGood(env: Env, d: DocId, idx: nat, cause: Cause)
    requires Known(env, d) && OcrDoc(env, d) && idx < ShardTotal(env, d) && ShardTotal(env, d) > 1
    requires cause in {Split, Sweep, Operator}
    ensures GoodMsg(env, ShardMsg(env.cfg, d, idx, ShardTotal(env, d), PageTotal(env, d), cause))
  {
  }

  lemma RedriveGood(env: Env, t: Tables, r: Row, cause: Cause)
    requires GoodRow(env, r.doc, r.row) && cause in {Sweep, Operator}
    ensures forall k | 0 <= k < |RedriveMsgs(env.cfg, t, r, cause)| ::
              RedriveMsgs(env.cfg, t, r, cause)[k].doc == r.doc && GoodMsg(env, RedriveMsgs(env.cfg, t, r, cause)[k])
  {
    var doc := r.row;
    ShardCountOne(PageTotal(env, r.doc), env.cfg.shardSize);
    if IsText(doc.state) && doc.shardsTotal <= 1 {
      DispatchGood(env, r.doc, Truthy(doc.hasTextLayer), cause);
    } else if doc.state.TextRunning? {
      var ids := Missing(Recorded(t, r.doc), doc.shardsTotal);
      MissingExactly(Recorded(t, r.doc), doc.shardsTotal);
      forall k | 0 <= k < |ids|
        ensures GoodMsg(env, ShardMsg(env.cfg, r.doc, ids[k], doc.shardsTotal, PageTotal(env, r.doc), cause))
      {
        assert ids[k] in ids;
        ShardGood(env, r.doc, ids[k], cause);
      }
    }
  }

  lemma TriageGood(env: Env, w: World, d: DocId)
    requires Basic(env, w)
    ensures forall k | 0 <= k < |TriageMsgs(env, w, d)| ::
              TriageMsgs(env, w, d)[k].doc == d && GoodMsg(env, TriageMsgs(env, w, d)[k])
  {
    if TriageMsgs(env, w, d) != [] {
      DispatchGood(env, d, env.sources[d].textLayer, Dispatch);
    }
  }

  lemma EmbeddedGood(env: Env, m: Msg)
    requires GoodMsg(env, m) && m.topic == TextEmbedded
    ensures forall k | 0 <= k < |EmbeddedMsgs(env, m)| :: EmbeddedMsgs(env, m)[k].doc == m.doc &&
              GoodMsg(env, EmbeddedMsgs(env, m)[k])
  {
    if !env.sources[m.doc].sane {
      DispatchGood(env, m.doc, false, FallThrough);
    }
  }

  lemma SplitGood(env: Env, m: Msg)
    requires GoodMsg(env, m) && m.topic == OcrSplit
    ensures forall k | 0 <= k < |SplitCommitMsgs(env, m)| :: SplitCommitMsgs(env, m)[k].doc == m.doc &&
              GoodMsg(env, SplitCommitMsgs(env, m)[k])
  {
    forall k | 0 <= k < ShardTotal(env, m.doc)
      ensures GoodMsg(env, ShardMsg(env.cfg, m.doc, k, ShardTotal(env, m.doc), PageTotal(env, m.doc), Split))
    {
      ShardGood(env, m.doc, k, Split);
    }
  }

  lemma TextMsgsGood(env: Env, w: World, a: TextAction, w': World)
    requires Basic(env, w) && NextText(env, w, a) == Some(w')
    ensures forall k | 0 <= k < |TextMsgs(env, w, a)| ::
              TextMsgs(env, w, a)[k].doc == TextDoc(w, a) && GoodMsg(env, TextMsgs(env, w, a)[k])
  {
    hide TriageMsgs, EmbeddedMsgs, SplitCommitMsgs, Wins, RecordShard, TextEmbeddedTx, TriageTx, CommitSplitTx, GoodMsg;
    match a
    case Triage(d) => TriageGood(env, w, d);
    case EmbeddedCommit(i) => assert MsgOk(env, w, w.t.sent[i]); EmbeddedGood(env, w.t.sent[i]);
    case SplitCommit(i) => assert MsgOk(env, w, w.t.sent[i]); SplitGood(env, w.t.sent[i]);
    case ShardRecord(i) =>
      assert MsgOk(env, w, w.t.sent[i]);
      JoinGood(env, w.t.sent[i].doc, w.t.sent[i]);
    case _ =>
  }

  lemma JoinGood(env: Env, d: DocId, m: Msg)
    requires GoodMsg(env, m) && m.doc == d
    ensures GoodMsg(env, Msg(d, OcrCompleted, JustId, Join))
  {
  }

  lemma ForceGood(env: Env, w: World, r: OpRead)
    requires GoodRow(env, r.doc, r.row) && r.doc in w.t.docs
    ensures forall k | 0 <= k < |ForceMsgs(env, w, r)| :: MsgOk(env, w, ForceMsgs(env, w, r)[k])
  {
    hide RedriveMsgs, GoodMsg, OcrDoc;
    if RedriveTarget(r.row, r.assembled).Some? {
      var row := r.row.(state := RedriveTarget(r.row, r.assembled).value);
      assert GoodRow(env, r.doc, row);
      RedriveGood(env, w.t, Row(r.doc, row), Operator);
    }
  }

  lemma RecoverMsgsGood(env: Env, w: World, a: RecoverAction, w': World)
    requires Basic(env, w) && NextRecover(env, w, a) == Some(w')
    ensures forall k | 0 <= k < |RecoverMsgs(env, w, a)| :: MsgOk(env, w, RecoverMsgs(env, w, a)[k])
  {
    hide RedriveMsgs, DoSweepClaim, Transition, ForceMsgs, GoodMsg, GoodRow, EnqueueAll, MsgsOk, RefsOk, StoreOk;
    match a
    case SweepRedrive(r) => RedriveGood(env, w.t, r, Sweep);
    case ForceRedrive(r) => ForceGood(env, w, r);
    case AcceptReview(r, note) => AcceptGood(env, r);
    case _ =>
  }

  lemma AcceptGood(env: Env, r: OpRead)
    requires GoodRow(env, r.doc, r.row)
    ensures GoodMsg(env, Msg(r.doc, DocumentExtracted, OperatorOverride, Accept))
  {
  }

  // ---- Preservation ----

  /** The history only grows, so what was said of old messages still holds. */
  lemma Appended(env: Env, w: World, w': World, ms: seq<Msg>)
    requires MsgsOk(env, w) && w'.t.sent == w.t.sent + ms
    requires forall d | d in w.t.docs :: d in w'.t.docs
    requires forall k | 0 <= k < |ms| :: MsgOk(env, w', ms[k])
    ensures MsgsOk(env, w')
    ensures forall i | 0 <= i < |w.t.sent| :: w'.t.sent[i] == w.t.sent[i]
  {
    hide GoodMsg;
    forall i | 0 <= i < |w'.t.sent| ensures MsgOk(env, w', w'.t.sent[i]) {
      if i < |w.t.sent| {
        assert MsgOk(env, w, w.t.sent[i]) && w'.t.sent[i] == w.t.sent[i];
      } else {
        assert w'.t.sent[i] == ms[i - |w.t.sent|];
      }
    }
  }

  lemma ExtractKeeps(env: Env, w: World, a: ExtractAction, w': World)
    requires Basic(env, w) && NextExtract(env, w, a) == Some(w')
    ensures Basic(env, w')
  {
    hide NextExtract, ExtractMsgs, GoodMsg, GoodRow, OutputOk, TierZeroDoc, SameButVerdict;
    ExtractSteps(env, w, a, w');
    ExtractMsgsGood(env, w, a);
    Appended(env, w, w', ExtractMsgs(w, a));
    ExtractRows(env, w, w', ExtractDoc(w, a));
    ExtractArtifact(env, w, a, w');
    assert StoreOk(env, w') by {
      forall d | d in w'.assembled ensures ArtifactOk(env, w', d, w'.assembled[d]) {
        if d in w.assembled {
          assert ArtifactOk(env, w, d, w.assembled[d]);
        }
      }
      forall i | i in w'.written ensures WrittenOk(w', i) {
        assert WrittenOk(w, i);
      }
      assert forall d :: Recorded(w'.t, d) == Recorded(w.t, d);
    }
  }

  lemma ExtractMsgsGood(env: Env, w: World, a: ExtractAction)
    requires Basic(env, w)
    ensures forall k | 0 <= k < |ExtractMsgs(w, a)| :: MsgOk(env, w, ExtractMsgs(w, a)[k])
  {
    hide Violates;
    if a.Finish? && a.h in w.handlers {
      assert HandlerRowOk(env, w, a.h);
      assert GoodRow(env, w.handlers[a.h].doc, w.t.docs[w.handlers[a.h].doc]);
    }
  }

  lemma ExtractRows(env: Env, w: World, w': World, d: DocId)
    requires Basic(env, w) && ExtractFrame(w, w', d)
    ensures RowsOk(env, w')
  {
    hide Known, OcrDoc, HandlerFrame;
    forall e | e in w'.t.docs ensures GoodRow(env, e, w'.t.docs[e]) {
      assert GoodRow(env, e, w.t.docs[e]);
    }
    ExtractHandlerRows(env, w, w', d);
  }

  lemma ExtractHandlerRows(env: Env, w: World, w': World, d: DocId)
    requires Basic(env, w) && ExtractFrame(w, w', d)
    ensures forall h | h in w'.handlers :: HandlerRowOk(env, w', h)
  {
    hide GoodRow, RowOf, SameButVerdict, StoreOk, MsgsOk, RefsOk;
    forall h | h in w'.handlers ensures HandlerRowOk(env, w', h) {
      assert HandlerFrame(w, w', d, h);
      assert h in w.handlers ==> HandlerRowOk(env, w, h);
    }
  }

  /** A handler can only assemble for a document whose shard outputs exist, so never for a tier-0 one. */
  lemma ExtractArtifact(env: Env, w: World, a: ExtractAction, w': World)
    requires Basic(env, w) && NextExtract(env, w, a) == Some(w')
    ensures forall d | d in w'.assembled && d !in w.assembled :: Known(env, d) && d in w.t.docs && !TierZeroDoc(env, d)
  {
    hide DoAssemble, ExtractFrame;
    ExtractSteps(env, w, a, w');
    if a.Assemble? {
      AssembleArtifact(env, w, a.h, w');
    }
  }

  lemma AssembleArtifact(env: Env, w: World, h: nat, w': World)
    requires Basic(env, w) && DoAssemble(w, h) == Some(w')
    ensures forall d | d in w'.assembled && d !in w.assembled :: Known(env, d) && d in w.t.docs && !TierZeroDoc(env, d)
  {
    hide Basic, Checked, TierZeroDoc, Gather, Known;
    HandlerTotal(env, w, h);
    var d := w.handlers[h].doc;
    if TierZeroDoc(env, d) {
      TierZeroUnwritten(env, w, d);
      GatherStops(w.outs, d, 0, w.handlers[h].pc.row.shardsTotal);
    }
  }

  lemma HandlerTotal(env: Env, w: World, h: nat)
    requires Basic(env, w) && h in w.handlers
    ensures w.handlers[h].doc in w.t.docs && Known(env, w.handlers[h].doc)
    ensures w.handlers[h].pc.Loaded? ==> w.handlers[h].pc.row.shardsTotal >= 1
  {
    hide MsgsOk, RefsOk, StoreOk;
    assert HandlerRowOk(env, w, h);
    assert GoodRow(env, w.handlers[h].doc, w.t.docs[w.handlers[h].doc]);
  }

  lemma TierZeroUnwritten(env: Env, w: World, d: DocId)
    requires Basic(env, w) && Known(env, d) && TierZeroDoc(env, d)
    ensures (d, 0) !in w.outs
  {
    hide RowsOk, MsgsOk, RefsOk, TierZeroDoc, ShardPages;
  }

  lemma RecoverKeeps(env: Env, w: World, a: RecoverAction, w': World)
    requires Basic(env, w) && NextRecover(env, w, a) == Some(w')
    ensures Basic(env, w')
  {
    hide NextRecover, RecoverMsgs, GoodMsg, GoodRow, OutputOk, TierZeroDoc, SameButRecovery;
    RecoverSteps(env, w, a, w');
    RecoverMsgsGood(env, w, a, w');
    Appended(env, w, w', RecoverMsgs(env, w, a));
    RecoverRows(env, w, a, w');
    assert StoreOk(env, w') by {
      forall d | d in w'.assembled ensures ArtifactOk(env, w', d, w'.assembled[d]) {
        assert ArtifactOk(env, w, d, w.assembled[d]);
      }
      forall i | i in w'.written ensures WrittenOk(w', i) {
        assert WrittenOk(w, i);
      }
      assert forall d :: Recorded(w'.t, d) == Recorded(w.t, d);
    }
  }

  lemma RecoverRows(env: Env, w: World, a: RecoverAction, w': World)
    requires Basic(env, w) && NextRecover(env, w, a) == Some(w')
    ensures RowsOk(env, w')
  {
    hide NextRecover, Known, OcrDoc, IsBatch;
    RecoverSteps(env, w, a, w');
    forall d | d in w'.t.docs ensures GoodRow(env, d, w'.t.docs[d]) {
      assert GoodRow(env, d, w.t.docs[d]);
      RecoverState(env, w, a, w', d);
    }
    forall h | h in w'.handlers ensures HandlerRowOk(env, w', h) {
      assert HandlerRowOk(env, w, h);
    }
  }

  /** Only a re-drive of a document with a known page count enters a text state. */
  lemma RecoverState(env: Env, w: World, a: RecoverAction, w': World, d: DocId)
    requires Basic(env, w) && NextRecover(env, w, a) == Some(w') && d in w.t.docs && d in w'.t.docs
    ensures IsText(w'.t.docs[d].state) ==> IsText(w.t.docs[d].state) || w.t.docs[d].pageCount.Some?
  {
    hide DoForceRedrive, RedriveMsgs, EnqueueAll, IsBatch, OcrDoc, MsgsOk, RefsOk, StoreOk, Tally;
    match a
    case ForceRedrive(r) => ForceState(env, w, r, w', d);
    case SweepRedrive(r) => EnqueueAllFacts(w.t, RedriveMsgs(env.cfg, w.t, r, Sweep));
    case _ =>
  }

  lemma ForceState(env: Env, w: World, r: OpRead, w': World, d: DocId)
    requires Basic(env, w) && DoForceRedrive(env, w, r) == Some(w') && d in w.t.docs && d in w'.t.docs
    ensures IsText(w'.t.docs[d].state) ==> IsText(w.t.docs[d].state) || w.t.docs[d].pageCount.Some?
  {
    hide RedriveMsgs, EnqueueAll, OcrDoc, MsgsOk, RefsOk, StoreOk;
    var target := RedriveTarget(r.row, r.assembled).value;
    var t := Transition(w.t, r.doc, target, Predecessors(target), w.now).value;
    EnqueueAllFacts(t, RedriveMsgs(env.cfg, t, Row(r.doc, r.row.(state := target)), Operator));
    assert GoodRow(env, r.doc, r.row) && GoodRow(env, r.doc, w.t.docs[r.doc]);
  }

  lemma BrokerRefs(env: Env, w: World, a: BrokerAction, w': World)
    requires Basic(env, w) && NextBroker(w, a) == Some(w')
    ensures RefsOk(w')
  {
    hide LockedRows, RowsOk, MsgsOk, StoreOk;
  }

  lemma BrokerKeeps(env: Env, w: World, a: BrokerAction, w': World)
    requires Basic(env, w) && NextBroker(w, a) == Some(w')
    ensures Basic(env, w')
  {
    hide GoodMsg, GoodRow, OutputOk, TierZeroDoc, IsOutboxBatch, LockedRows;
    BrokerSteps(w, a, w');
    BrokerRefs(env, w, a, w');
    assert RowsOk(env, w') by {
      forall h | h in w'.handlers ensures HandlerRowOk(env, w', h) {
        assert HandlerRowOk(env, w, h);
      }
    }
    assert MsgsOk(env, w') by {
      forall i | 0 <= i < |w'.t.sent| ensures MsgOk(env, w', w'.t.sent[i]) {
        assert MsgOk(env, w, w.t.sent[i]);
      }
    }
    assert StoreOk(env, w') by {
      forall d | d in w'.assembled ensures ArtifactOk(env, w', d, w'.assembled[d]) {
        assert ArtifactOk(env, w, d, w.assembled[d]);
      }
      forall i | i in w'.written ensures WrittenOk(w', i) {
        assert WrittenOk(w, i);
      }
      assert forall d :: Recorded(w'.t, d) == Recorded(w.t, d);
    }
  }

  /** The row a text step leaves for its document. */
  lemma TextRow(env: Env, w: World, a: TextAction, w': World)
    requires Basic(env, w) && NextText(env, w, a) == Some(w')
    requires TextDoc(w, a) in w'.t.docs
    ensures GoodRow(env, TextDoc(w, a), w'.t.docs[TextDoc(w, a)])
  {
    hide DoTriage, DoEmbeddedCommit, DoSplitCommit, DoShardRecord, MsgsOk, RefsOk, StoreOk, Known, OcrDoc, ShardText,
         AllPages;
    match a
    case Triage(d) => TriageRow(env, w, d, w');
    case EmbeddedCommit(i) => EmbeddedRow(env, w, i, w');
    case SplitCommit(i) => SplitRow(env, w, i, w');
    case ShardRecord(i) => RecordRow(env, w, i, w');
    case _ => PlainRow(env, w, a, w', TextDoc(w, a));
  }

  lemma PlainRow(env: Env, w: World, a: TextAction, w': World, d: DocId)
    requires Basic(env, w) && NextText(env, w, a) == Some(w') && d == TextDoc(w, a) && d in w'.t.docs
    requires a.EmbeddedWrite? || a.SplitBegin? || a.ShardBegin? || a.ShardWrite?
    ensures GoodRow(env, d, w'.t.docs[d])
  {
    hide MsgsOk, RefsOk, StoreOk, OcrDoc, ShardText, AllPages;
    assert d in w.t.docs && GoodRow(env, d, w.t.docs[d]);
  }

  lemma TriageRow(env: Env, w: World, d: DocId, w': World)
    requires Basic(env, w) && DoTriage(env, w, d) == Some(w')
    ensures d in w'.t.docs && GoodRow(env, d, w'.t.docs[d])
  {
    hide DispatchMsg, MsgsOk, RefsOk, StoreOk;
    if d in w.t.docs {
      assert GoodRow(env, d, w.t.docs[d]);
    }
  }

  lemma EmbeddedRow(env: Env, w: World, i: nat, w': World)
    requires Basic(env, w) && DoEmbeddedCommit(env, w, i) == Some(w')
    ensures i < |w.t.sent| && w.t.sent[i].doc in w'.t.docs && GoodRow(env, w.t.sent[i].doc, w'.t.docs[w.t.sent[i].doc])
  {
    hide DispatchMsg, RefsOk, StoreOk, AllPages;
    assert MsgOk(env, w, w.t.sent[i]);
    assert GoodRow(env, w.t.sent[i].doc, w.t.docs[w.t.sent[i].doc]);
  }

  lemma SplitRow(env: Env, w: World, i: nat, w': World)
    requires Basic(env, w) && DoSplitCommit(env, w, i) == Some(w')
    ensures i < |w.t.sent| && w.t.sent[i].doc in w'.t.docs && GoodRow(env, w.t.sent[i].doc, w'.t.docs[w.t.sent[i].doc])
  {
    hide EnqueueAll, StoreOk, SplitMsgs;
    assert MsgOk(env, w, w.t.sent[i]);
    assert GoodRow(env, w.t.sent[i].doc, w.t.docs[w.t.sent[i].doc]);
    var n := |env.sources[w.t.sent[i].doc].ocr|;
    SplitDocs(env.cfg, w.t, w.t.sent[i].doc, ShardCount(n, env.cfg.shardSize), n);
  }

  lemma SplitDocs(cfg: Config, t: Tables, d: DocId, total: nat, pageCount: nat)
    requires d in t.docs
    ensures CommitSplitTx(cfg, t, d, total, pageCount).docs ==
              t.docs[d := t.docs[d].(shardsTotal := total, pageCount := Some(pageCount))]
  {
  }

  lemma SplitDocsElsewhere(cfg: Config, t: Tables, d: DocId, total: nat, pageCount: nat, e: DocId)
    ensures e in t.docs && e != d ==>
              && e in CommitSplitTx(cfg, t, d, total, pageCount).docs
              && CommitSplitTx(cfg, t, d, total, pageCount).docs[e] == t.docs[e]
  {
  }

  lemma RecordRow(env: Env, w: World, i: nat, w': World)
    requires Basic(env, w) && DoShardRecord(w, i) == Some(w')
    ensures i < |w.t.sent| && w.t.sent[i].doc in w'.t.docs && GoodRow(env, w.t.sent[i].doc, w'.t.docs[w.t.sent[i].doc])
  {
    hide RefsOk, StoreOk, Known, OcrDoc;
    assert MsgOk(env, w, w.t.sent[i]);
    assert GoodRow(env, w.t.sent[i].doc, w.t.docs[w.t.sent[i].doc]);
  }

  /** The actors' references after a text step. */
  lemma TextRefs(env: Env, w: World, a: TextAction, w': World)
    requires Basic(env, w) && NextText(env, w, a) == Some(w')
    ensures RefsOk(w')
  {
    hide NextText, RowsOk, MsgsOk, StoreOk, TextMsgs, SameButText, Recorded;
    TextSteps(env, w, a, w');
    assert forall i | 0 <= i < |w.t.sent| :: w'.t.sent[i] == w.t.sent[i];
    TextNewRefs(env, w, a, w');
  }

  lemma TextNewRefs(env: Env, w: World, a: TextAction, w': World)
    requires NextText(env, w, a) == Some(w')
    ensures forall i | i in w'.splitting && i !in w.splitting :: i < |w.t.sent| && w.t.sent[i].topic == OcrSplit
    ensures forall i | i in w'.begun && i !in w.begun :: i < |w.t.sent| && w.t.sent[i].topic == OcrShard
    ensures forall i | i in w'.written && i !in w.written :: i in w.begun
  {
    hide Transition, TriageTx, TextEmbeddedTx, CommitSplitTx, RecordShard, ShardText, AllPages;
  }

  lemma TextOutputs(env: Env, w: World, a: TextAction, w': World)
    requires Basic(env, w) && NextText(env, w, a) == Some(w')
    ensures forall k | k in w'.outs :: OutputOk(env, k.0, k.1, w'.outs[k])
    ensures forall i | i in w'.written && i !in w.written :: WrittenOk(w', i)
  {
    hide Transition, TriageTx, TextEmbeddedTx, CommitSplitTx, RecordShard, AllPages, OutputOk, GoodMsg, RowsOk;
    match a
    case ShardWrite(i) =>
      var m := w.t.sent[i];
      assert MsgOk(env, w, m);
      OutputGood(env, m);
    case _ =>
  }

  lemma OutputGood(env: Env, m: Msg)
    requires GoodMsg(env, m) && m.topic == OcrShard && IsShardMsg(m)
    ensures OutputOk(env, m.doc, m.payload.idx, ShardText(env.sources[m.doc], m))
  {
    RangeInside(m.payload.idx, PageTotal(env, m.doc), env.cfg.shardSize);
    ShardCountOne(PageTotal(env, m.doc), env.cfg.shardSize);
    assert ShardText(env.sources[m.doc], m) == ShardPages(env, m.doc, m.payload.idx);
  }

  lemma TextArtifacts(env: Env, w: World, a: TextAction, w': World)
    requires Basic(env, w) && NextText(env, w, a) == Some(w')
    ensures forall d | d in w'.assembled :: ArtifactOk(env, w', d, w'.assembled[d])
  {
    hide NextText, TextMsgs, SameButText, AllPages, Recorded, RowsOk, RefsOk, GoodMsg;
    TextSteps(env, w, a, w');
    forall d | d in w'.assembled ensures ArtifactOk(env, w', d, w'.assembled[d]) {
      NewArtifact(env, w, a, w', d);
      if w'.assembled[d] != AllPages(env.sources[d].embedded) || d !in w.t.docs {
        assert ArtifactOk(env, w, d, w.assembled[d]);
      }
    }
  }

  /** Text steps write only the embedded text as an artifact. */
  lemma NewArtifact(env: Env, w: World, a: TextAction, w': World, d: DocId)
    requires Basic(env, w) && NextText(env, w, a) == Some(w') && d in w'.assembled
    ensures Known(env, d)
    ensures (d in w.assembled && w'.assembled[d] == w.assembled[d]) ||
              (d in w.t.docs && w'.assembled[d] == AllPages(env.sources[d].embedded))
  {
    hide Transition, TriageTx, TextEmbeddedTx, CommitSplitTx, RecordShard, ShardText, AllPages, RowsOk, RefsOk;
    if d in w.assembled {
      assert ArtifactOk(env, w, d, w.assembled[d]);
    }
    if !a.Triage? && a.msg < |w.t.sent| {
      assert MsgOk(env, w, w.t.sent[a.msg]);
    }
  }

  lemma TextRecorded(env: Env, w: World, a: TextAction, w': World)
    requires Basic(env, w) && NextText(env, w, a) == Some(w')
    ensures forall d: DocId, idx: nat | idx in Recorded(w'.t, d) && idx !in Recorded(w.t, d) :: a.ShardRecord? &&
              a.msg in w.written &&
              w.t.sent[a.msg].doc == d && w.t.sent[a.msg].payload.ShardRange? && w.t.sent[a.msg].payload.idx == idx
  {
    hide Basic, ShardText, AllPages, DispatchMsg, CommitSplitTx, DoShardRecord;
    match a
    case SplitCommit(i) =>
      var n := |env.sources[w.t.sent[i].doc].ocr|;
      SplitShards(env.cfg, w.t, w.t.sent[i].doc, ShardCount(n, env.cfg.shardSize), n);
    case ShardRecord(i) => RecordRecorded(w, i, w');
    case _ =>
  }

  lemma RecordRecorded(w: World, i: nat, w': World)
    requires DoShardRecord(w, i) == Some(w')
    ensures i in w.written && i < |w.t.sent| && w.t.sent[i].payload.ShardRange?
    ensures forall d: DocId, idx: nat | idx in Recorded(w'.t, d) && idx !in Recorded(w.t, d) ::
              w.t.sent[i].doc == d && w.t.sent[i].payload.idx == idx
  {
  }

  lemma SplitShards(cfg: Config, t: Tables, d: DocId, total: nat, pageCount: nat)
    ensures CommitSplitTx(cfg, t, d, total, pageCount).shards == t.shards
  {
  }

  lemma TextKeeps(env: Env, w: World, a: TextAction, w': World)
    requires Basic(env, w) && NextText(env, w, a) == Some(w')
    ensures Basic(env, w')
  {
    hide NextText, GoodMsg, GoodRow, OutputOk, ArtifactOk, TextMsgs, SameButText;
    TextSteps(env, w, a, w');
    TextMsgsGood(env, w, a, w');
    TextDocIn(env, w, a, w');
    TextRow(env, w, a, w');
    TextRefs(env, w, a, w');
    TextOutputs(env, w, a, w');
    TextArtifacts(env, w, a, w');
    TextRecorded(env, w, a, w');
    Appended(env, w, w', TextMsgs(env, w, a));
    assert RowsOk(env, w') by {
      forall h | h in w'.handlers ensures HandlerRowOk(env, w', h) {
        assert HandlerRowOk(env, w, h);
      }
    }
    assert StoreOk(env, w') by {
      forall i | i in w'.written ensures WrittenOk(w', i) {
        if i in w.written { assert WrittenOk(w, i); }
      }
      forall d: DocId, idx: nat | idx in Recorded(w'.t, d) ensures (d, idx) in w'.outs {
        if idx !in Recorded(w.t, d) { assert WrittenOk(w, a.msg); }
      }
    }
  }

  lemma TextDocIn(env: Env, w: World, a: TextAction, w': World)
    requires Basic(env, w) && NextText(env, w, a) == Some(w')
    ensures TextDoc(w, a) in w'.t.docs
  {
    hide Transition, TextEmbeddedTx, CommitSplitTx, RecordShard, ShardText, AllPages, RowsOk, StoreOk, GoodMsg,
         DispatchMsg;
    if !a.Triage? {
      assert MsgOk(env, w, w.t.sent[a.msg]);
      TextSteps(env, w, a, w');
    }
  }

  lemma BasicStep(env: Env, w: World, a: Action, w': World)
    requires Basic(env, w) && Next(env, w, a) == Some(w')
    ensures Basic(env, w')
  {
    hide NextText, NextExtract, NextRecover, NextBroker, Basic;
    match a
    case Text(x) => TextKeeps(env, w, x, w');
    case Extract(x) => ExtractKeeps(env, w, x, w');
    case Recover(x) => RecoverKeeps(env, w, x, w');
    case Broker(x) => BrokerKeeps(env, w, x, w');
  }

  /** The invariant holds throughout every run. */
  lemma {:induction false} BasicRun(env: Env, ws: seq<World>, acts: seq<Action>, n: nat)
    requires env.Valid() && IsRun(env, ws, acts) && n < |ws|
    ensures Basic(env, ws[n])
  {
    hide Next;
    if n > 0 {
      BasicRun(env, ws, acts, n - 1);
      BasicStep(env, ws[n - 1], acts[n - 1], ws[n]);
    }
  }

  lemma NoRowStep(env: Env, w: World, a: Action, w': World, d: DocId)
    requires Basic(env, w) && Next(env, w, a) == Some(w') && d !in w'.t.docs
    ensures d !in w.t.docs && Recorded(w'.t, d) == Recorded(w.t, d)
  {
    hide NextText, NextExtract, NextRecover, NextBroker, Basic, TextMsgs, ExtractMsgs, RecoverMsgs, SameButText,
         SameButVerdict, SameButRecovery, HandlerFrame;
    match a
    case Text(x) =>
      TextSteps(env, w, x, w');
      TextDocIn(env, w, x, w');
    case Extract(x) => ExtractSteps(env, w, x, w');
    case Recover(x) => RecoverSteps(env, w, x, w');
    case Broker(x) => BrokerSteps(w, x, w');
  }

  /** The foreign key: no shard is recorded for a document without a row. */
  lemma {:induction false} NoRowNoShards(env: Env, ws: seq<World>, acts: seq<Action>, n: nat, d: DocId)
    requires env.Valid() && IsRun(env, ws, acts) && n < |ws| && d !in ws[n].t.docs
    ensures Recorded(ws[n].t, d) == {}
  {
    hide Next, Basic;
    if n > 0 {
      BasicRun(env, ws, acts, n - 1);
      NoRowStep(env, ws[n - 1], acts[n - 1], ws[n], d);
      NoRowNoShards(env, ws, acts, n - 1, d);
    }
  }
}

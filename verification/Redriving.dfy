/** A re-drive sends again what was sent first: the unrecorded shards of a split, or the first dispatch. */
module Redriving {
  import opened Types
  import opened Pages
  import opened Ledger
  import opened Sweeper
  import opened Stages
  import opened Protocol
  import opened Frames
  import opened Basics
  import opened Joining
  import opened Storage

  // ---- The first dispatch ----

  /** Message j is what triage (or, for layer == false, the fall-through) dispatched. */
  predicate FirstMsg(env: Env, w: World, d: DocId, layer: bool, j: nat) {
    && j < |w.t.sent| && d in env.sources && w.t.sent[j].cause in {Dispatch, FallThrough}
    && w.t.sent[j] == DispatchMsg(env.cfg, d, layer, |env.sources[d].ocr|, env.sources[d].gcsPath, w.t.sent[j].cause)
  }

  ghost predicate Started(env: Env, w: World, d: DocId, layer: bool) {
    exists j: nat :: FirstMsg(env, w, d, layer, j)
  }

  lemma StartsAt(env: Env, w: World, d: DocId, layer: bool, j: nat)
    requires FirstMsg(env, w, d, layer, j)
    ensures Started(env, w, d, layer)
  {
  }

  ghost predicate RowStarted(env: Env, w: World, d: DocId, row: Doc) {
    Sent(env, d) && !Truthy(row.hasTextLayer) ==> Started(env, w, d, false)
  }

  ghost predicate MsgStarted(env: Env, w: World, m: Msg) {
    Sent(env, m.doc) && m.topic in {OcrSplit, OcrShard} ==> Started(env, w, m.doc, false)
  }

  ghost predicate DocStarted(env: Env, w: World, d: DocId)
    requires d in w.t.docs
  {
    && (Sent(env, d) ==> Started(env, w, d, env.sources[d].textLayer))
    && RowStarted(env, w, d, w.t.docs[d])
  }

  // ---- The split ----

  predicate SplitAt(env: Env, w: World, d: DocId, i: nat, j: nat)
    requires d in env.sources && env.Valid()
  {
    j < |w.t.sent| &&
    w.t.sent[j] == ShardMsg(env.cfg, d, i, ShardCount(|env.sources[d].ocr|, env.cfg.shardSize), |env.sources[d].ocr|,
        Split)
  }

  ghost predicate SplitHas(env: Env, w: World, d: DocId, i: nat)
    requires d in env.sources && env.Valid()
  {
    exists j: nat :: SplitAt(env, w, d, i, j)
  }

  /** Once a split has committed, the message of every shard is in the history. */
  ghost predicate SplitAll(env: Env, w: World, d: DocId) {
    SplitDone(w, d) && Known(env, d) ==> forall i: nat | i < ShardTotal(env, d) :: SplitHas(env, w, d, i)
  }

  ghost predicate SentInv(env: Env, w: World) {
    && (forall d | d in w.t.docs :: DocStarted(env, w, d) && SplitAll(env, w, d))
    && (forall r | r in w.claimed :: RowStarted(env, w, r.doc, r.row))
    && (forall r | r in w.opReads :: RowStarted(env, w, r.doc, r.row))
    && (forall j | 0 <= j < |w.t.sent| :: MsgStarted(env, w, w.t.sent[j]))
  }

  // ---- Preservation ----

  lemma StartedStays(env: Env, w: World, w': World, d: DocId, layer: bool)
    requires Grows(w, w') && Started(env, w, d, layer)
    ensures Started(env, w', d, layer)
  {
    var j: nat :| FirstMsg(env, w, d, layer, j);
    assert w'.t.sent[j] == w'.t.sent[..|w.t.sent|][j];
    assert FirstMsg(env, w', d, layer, j);
  }

  lemma RowStays(env: Env, w: World, w': World, d: DocId, row: Doc)
    requires Grows(w, w') && RowStarted(env, w, d, row)
    ensures RowStarted(env, w', d, row)
  {
    if Started(env, w, d, false) { StartedStays(env, w, w', d, false); }
  }

  lemma MsgStays(env: Env, w: World, w': World, m: Msg)
    requires Grows(w, w') && MsgStarted(env, w, m)
    ensures MsgStarted(env, w', m)
  {
    if Started(env, w, m.doc, false) { StartedStays(env, w, w', m.doc, false); }
  }

  /** A row that has been split stands for a shard message, hence for a started OCR. */
  lemma SplitStarted(env: Env, w: World, d: DocId)
    requires Basic(env, w) && SentInv(env, w) && Sent(env, d) && SplitDone(w, d)
    ensures Started(env, w, d, false)
  {
    hide RowsOk, RefsOk, StoreOk, Started;
    var j: nat :| SplitSent(w, d, j);
    assert MsgOk(env, w, w.t.sent[j]) && MsgStarted(env, w, w.t.sent[j]);
  }

  /** What a re-drive sends is about a started OCR whenever it is an OCR message. */
  lemma RedriveStarted(env: Env, w: World, r: Row, cause: Cause)
    requires Basic(env, w) && SentInv(env, w) && GoodRow(env, r.doc, r.row) && RowSplit(w, r.doc, r.row) &&
             RowStarted(env, w, r.doc, r.row)
    requires cause in {Sweep, Operator}
    ensures forall k | 0 <= k < |RedriveMsgs(env.cfg, w.t, r, cause)| ::
              MsgStarted(env, w, RedriveMsgs(env.cfg, w.t, r, cause)[k])
  {
    hide Basic, SentInv, Started, SplitDone, Missing, Truthy;
    RedriveGood(env, w.t, r, cause);
    if Sent(env, r.doc) && r.row.shardsTotal > 1 { SplitStarted(env, w, r.doc); }
  }

  lemma TextMsgStarted(env: Env, w: World, a: TextAction, w': World, k: nat)
    requires Basic(env, w) && SentInv(env, w) && NextText(env, w, a) == Some(w') && Grows(w, w') &&
             k < |TextMsgs(env, w, a)|
    requires w'.t.sent == w.t.sent + TextMsgs(env, w, a)
    ensures MsgStarted(env, w', TextMsgs(env, w, a)[k])
  {
    hide Basic, SentInv, Started, Transition, TriageTx, TextEmbeddedTx, CommitSplitTx, RecordShard, ShardText, AllPages,
         DispatchMsg, Grows;
    var m := TextMsgs(env, w, a)[k];
    TextMsgsGood(env, w, a, w');
    if Sent(env, m.doc) && m.topic in {OcrSplit, OcrShard} {
      match a
      case Triage(d) =>
        TriageLayer(env, d);
        DispatchCause(env.cfg, d, env.sources[d].textLayer, |env.sources[d].ocr|, env.sources[d].gcsPath, Dispatch);
        StartsAt(env, w', d, false, |w.t.sent|);
      case EmbeddedCommit(i) =>
        EmbeddedFirst(env, w, i);
        DispatchCause(env.cfg, m.doc, false, |env.sources[m.doc].ocr|, env.sources[m.doc].gcsPath, FallThrough);
        StartsAt(env, w', m.doc, false, |w.t.sent|);
      case SplitCommit(i) =>
        SplitFrom(env, w, i);
        MsgStays(env, w, w', w.t.sent[i]);
      case _ =>
    }
  }

  lemma TriageLayer(env: Env, d: DocId)
    requires Known(env, d)
    ensures DispatchMsg(env.cfg, d, env.sources[d].textLayer, |env.sources[d].ocr|, env.sources[d].gcsPath,
              Dispatch).topic in {OcrSplit, OcrShard} ==>
              !env.sources[d].textLayer
  {
  }

  lemma EmbeddedFirst(env: Env, w: World, i: nat)
    requires Basic(env, w) && i < |w.t.sent| && w.t.sent[i].topic == TextEmbedded
    ensures forall k | 0 <= k < |EmbeddedMsgs(env, w.t.sent[i])| &&
              EmbeddedMsgs(env, w.t.sent[i])[k].topic in {OcrSplit, OcrShard} ::
              !env.sources[w.t.sent[i].doc].sane && Known(env, w.t.sent[i].doc) &&
              EmbeddedMsgs(env, w.t.sent[i])[k] ==
                DispatchMsg(env.cfg, w.t.sent[i].doc, false, |env.sources[w.t.sent[i].doc].ocr|,
                    env.sources[w.t.sent[i].doc].gcsPath, FallThrough)
  {
    hide RowsOk, RefsOk, StoreOk, DispatchMsg;
    assert MsgOk(env, w, w.t.sent[i]);
  }

  lemma SplitFrom(env: Env, w: World, i: nat)
    requires Basic(env, w) && SentInv(env, w) && i in w.splitting
    ensures i < |w.t.sent| && w.t.sent[i].topic == OcrSplit && MsgStarted(env, w, w.t.sent[i])
  {
    hide RowsOk, MsgsOk, StoreOk, MsgStarted, DocStarted, SplitAll, RowStarted;
  }

  lemma RecoverMsgStarted(env: Env, w: World, a: RecoverAction, w': World, k: nat)
    requires Basic(env, w) && JoinInv(env, w) && SentInv(env, w) && NextRecover(env, w, a) == Some(w') &&
             k < |RecoverMsgs(env, w, a)|
    ensures MsgStarted(env, w, RecoverMsgs(env, w, a)[k])
  {
    hide RedriveMsgs, IsBatch, Tally, MsgsOk, RefsOk, StoreOk, DocJoinOk, Settled, EnqueueAll, Started, Transition,
         DocStarted, SplitAll, SplitDone, MsgStarted;
    match a
    case SweepRedrive(r) => RedriveStarted(env, w, r, Sweep);
    case ForceRedrive(r) =>
      var row := r.row.(state := RedriveTarget(r.row, r.assembled).value);
      assert GoodRow(env, r.doc, row);
      RedriveStarted(env, w, Row(r.doc, row), Operator);
    case AcceptReview(r, note) => NotOcr(env, w, Msg(r.doc, DocumentExtracted, OperatorOverride, Accept));
    case _ =>
  }

  lemma NotOcr(env: Env, w: World, m: Msg)
    requires m.topic == DocumentExtracted
    ensures MsgStarted(env, w, m)
  {
  }

  /** A text step leaves has_text_layer alone, or falls through and says so in a message, or is triage. */
  lemma TextRowStarted(env: Env, w: World, a: TextAction, w': World, d: DocId)
    requires Basic(env, w) && NextText(env, w, a) == Some(w') && Grows(w, w') && d in w'.t.docs
    requires w'.t.sent == w.t.sent + TextMsgs(env, w, a)
    requires d in w.t.docs ==> DocStarted(env, w, d)
    ensures DocStarted(env, w', d)
  {
    hide Basic, Started, NextText, TextMsgs, Grows;
    if d !in w.t.docs {
      TriagedLayer(env, w, a, w', d);
    } else {
      if Sent(env, d) { StartedStays(env, w, w', d, env.sources[d].textLayer); }
      LayerKept(env, w, a, w', d);
      RowStays(env, w, w', d, w.t.docs[d]);
      if w'.t.docs[d].hasTextLayer != w.t.docs[d].hasTextLayer {
        StartsAt(env, w', d, false, |w.t.sent|);
      }
    }
  }

  lemma TriagedLayer(env: Env, w: World, a: TextAction, w': World, d: DocId)
    requires Basic(env, w) && NextText(env, w, a) == Some(w') && d in w'.t.docs && d !in w.t.docs
    requires w'.t.sent == w.t.sent + TextMsgs(env, w, a)
    ensures DocStarted(env, w', d)
  {
    hide Basic, Started, DispatchMsg, CommitSplitTx, AllPages, ShardText;
    NewRowTriage(env, w, a, w', d);
    if Sent(env, d) {
      assert w'.t.sent[|w.t.sent|] == TextMsgs(env, w, a)[0];
      DispatchCause(env.cfg, d, env.sources[d].textLayer, |env.sources[d].ocr|, env.sources[d].gcsPath, Dispatch);
      StartsAt(env, w', d, env.sources[d].textLayer, |w.t.sent|);
    }
  }

  lemma DispatchCause(cfg: Config, d: DocId, layer: bool, pageCount: nat, path: string, cause: Cause)
    ensures DispatchMsg(cfg, d, layer, pageCount, path, cause).cause == cause
  {
  }

  lemma NewRowTriage(env: Env, w: World, a: TextAction, w': World, d: DocId)
    requires NextText(env, w, a) == Some(w') && d in w'.t.docs && d !in w.t.docs
    ensures a == Triage(d) && d in env.sources
    ensures Dispatched(env.cfg, env.sources[d]) ==> w'.t.docs[d].hasTextLayer == Some(env.sources[d].textLayer)
  {
    hide AllPages, ShardText, DispatchMsg, CommitSplitTx;
    if a.SplitCommit? {
      var n := |env.sources[w.t.sent[a.msg].doc].ocr|;
      SplitState(env.cfg, w.t, w.t.sent[a.msg].doc, ShardCount(n, env.cfg.shardSize), n);
    }
  }

  lemma LayerKept(env: Env, w: World, a: TextAction, w': World, d: DocId)
    requires Basic(env, w) && NextText(env, w, a) == Some(w') && d in w.t.docs && d in w'.t.docs
    requires w'.t.sent == w.t.sent + TextMsgs(env, w, a)
    ensures w'.t.docs[d].hasTextLayer == w.t.docs[d].hasTextLayer || FirstMsg(env, w', d, false, |w.t.sent|)
  {
    hide DoTriage, DoEmbeddedCommit, DoSplitCommit, DoShardRecord, AllPages, ShardText, Basic, TextMsgs;
    match a
    case Triage(e) => TriageKeepsLayer(env, w, e, w', d);
    case EmbeddedCommit(i) => EmbeddedLayer(env, w, i, w', d);
    case SplitCommit(i) => SplitLayer(env, w, i, w', d);
    case ShardRecord(i) => RecordLayer(w, i, w', d);
    case _ =>
  }

  lemma TriageKeepsLayer(env: Env, w: World, e: DocId, w': World, d: DocId)
    requires DoTriage(env, w, e) == Some(w') && d in w.t.docs
    ensures d in w'.t.docs && w'.t.docs[d] == w.t.docs[d]
  {
    hide DispatchMsg;
  }

  lemma SplitLayer(env: Env, w: World, i: nat, w': World, d: DocId)
    requires DoSplitCommit(env, w, i) == Some(w') && d in w.t.docs
    ensures d in w'.t.docs && w'.t.docs[d].hasTextLayer == w.t.docs[d].hasTextLayer
  {
    hide EnqueueAll, SplitMsgs, ShardCount;
    var n := |env.sources[w.t.sent[i].doc].ocr|;
    var d' := w.t.sent[i].doc;
    if d' in w.t.docs { SplitDocs(env.cfg, w.t, d', ShardCount(n, env.cfg.shardSize), n); }
    else { SplitState(env.cfg, w.t, d', ShardCount(n, env.cfg.shardSize), n); SplitDocsElsewhere(env.cfg, w.t, d',
        ShardCount(n, env.cfg.shardSize), n, d); }
  }

  lemma RecordLayer(w: World, i: nat, w': World, d: DocId)
    requires DoShardRecord(w, i) == Some(w') && d in w.t.docs
    ensures d in w'.t.docs && w'.t.docs[d].hasTextLayer == w.t.docs[d].hasTextLayer
  {
  }

  lemma EmbeddedLayer(env: Env, w: World, i: nat, w': World, d: DocId)
    requires Basic(env, w) && DoEmbeddedCommit(env, w, i) == Some(w') && d in w.t.docs && d in w'.t.docs
    ensures w'.t.docs[d].hasTextLayer == w.t.docs[d].hasTextLayer || FirstMsg(env, w', d, false, |w.t.sent|)
  {
    hide DispatchMsg, AllPages, RowsOk, RefsOk, StoreOk;
    assert MsgOk(env, w, w.t.sent[i]);
    DispatchCause(env.cfg, d, false, |env.sources[w.t.sent[i].doc].ocr|, w.t.sent[i].payload.gcsPath, FallThrough);
  }

  // ---- The split history ----

  lemma SplitCause(env: Env, w: World, a: Action, w': World, k: nat)
    requires Basic(env, w) && Next(env, w, a) == Some(w') && k < |NewMsgs(env, w, a)| &&
             NewMsgs(env, w, a)[k].cause == Split
    ensures a.Text? && a.text.SplitCommit? && a.text.msg < |w.t.sent| &&
              NewMsgs(env, w, a) == SplitCommitMsgs(env, w.t.sent[a.text.msg])
    ensures NewMsgs(env, w, a)[k].doc == w.t.sent[a.text.msg].doc
  {
    hide NextText, NextExtract, NextRecover, NextBroker, ExtractMsgs, RecoverMsgs, Basic, SplitCommitMsgs, JoinMsgs;
    match a
    case Text(x) => SplitOnly(env, w, x, k);
    case Extract(x) => ExtractCauses(w, x);
    case Recover(x) => RecoverCauses(env, w, x);
    case Broker(x) =>
  }

  lemma SplitOnly(env: Env, w: World, a: TextAction, k: nat)
    requires k < |TextMsgs(env, w, a)| && TextMsgs(env, w, a)[k].cause == Split
    ensures a.SplitCommit? && TextMsgs(env, w, a)[k].doc == w.t.sent[a.msg].doc
  {
  }

  lemma SplitAllStep(env: Env, w: World, a: Action, w': World, d: DocId)
    requires Basic(env, w) && Next(env, w, a) == Some(w') && Grows(w, w') && SplitAll(env, w, d)
    ensures SplitAll(env, w', d)
  {
    hide Next, NewMsgs, Basic, SplitDone, SplitCommitMsgs, Grows;
    StepGrows(env, w, a, w');
    if SplitDone(w', d) && Known(env, d) {
      forall i: nat | i < ShardTotal(env, d) ensures SplitHas(env, w', d, i) {
        if SplitDone(w, d) {
          assert SplitHas(env, w, d, i);
          var j: nat :| SplitAt(env, w, d, i, j);
          assert SplitAt(env, w', d, i, j);
        } else {
          var j := NewSplit(w, w', d);
          SplitCause(env, w, a, w', j - |w.t.sent|);
          SplitHasAll(env, w, a.text.msg, i);
          assert SplitAt(env, w', d, i, |w.t.sent| + i);
        }
      }
    }
  }

  lemma NewSplit(w: World, w': World, d: DocId) returns (j: nat)
    requires |w.t.sent| <= |w'.t.sent| && w'.t.sent[..|w.t.sent|] == w.t.sent && SplitDone(w', d) && !SplitDone(w, d)
    ensures |w.t.sent| <= j < |w'.t.sent| && w'.t.sent[j].cause == Split && w'.t.sent[j].doc == d
  {
    j :| SplitSent(w', d, j);
    if j < |w.t.sent| {
      assert w'.t.sent[j] == w'.t.sent[..|w.t.sent|][j];
      assert SplitSent(w, d, j);
    }
  }

  lemma SplitHasAll(env: Env, w: World, i: nat, k: nat)
    requires i < |w.t.sent| && Known(env, w.t.sent[i].doc) && k < ShardTotal(env, w.t.sent[i].doc)
    ensures k < |SplitCommitMsgs(env, w.t.sent[i])|
    ensures SplitCommitMsgs(env, w.t.sent[i])[k] ==
              ShardMsg(env.cfg, w.t.sent[i].doc, k, ShardTotal(env, w.t.sent[i].doc), PageTotal(env, w.t.sent[i].doc),
                  Split)
  {
  }

  // ---- The step ----

  lemma DocsSent(env: Env, w: World, a: Action, w': World, d: DocId)
    requires Basic(env, w) && SentInv(env, w) && Next(env, w, a) == Some(w') && Grows(w, w') && d in w'.t.docs
    ensures DocStarted(env, w', d)
  {
    hide Basic, NextText, NextExtract, NextRecover, NextBroker, TextMsgs, ExtractMsgs, RecoverMsgs, HandlerFrame,
         Started, SplitAll, MsgStarted, Grows;
    match a
    case Text(x) =>
      TextSteps(env, w, x, w');
      assert d in w.t.docs ==> DocStarted(env, w, d);
      TextRowStarted(env, w, x, w', d);
    case Extract(x) => ExtractSteps(env, w, x, w'); DocRowStays(env, w, w', d);
    case Recover(x) => RecoverSteps(env, w, x, w'); DocRowStays(env, w, w', d);
    case Broker(x) => BrokerSteps(w, x, w'); DocRowStays(env, w, w', d);
  }

  lemma DocRowStays(env: Env, w: World, w': World, d: DocId)
    requires SentInv(env, w) && Grows(w, w') && d in w.t.docs && d in w'.t.docs &&
             w'.t.docs[d].hasTextLayer == w.t.docs[d].hasTextLayer
    ensures DocStarted(env, w', d)
  {
    hide Started;
    assert DocStarted(env, w, d);
    RowStays(env, w, w', d, w.t.docs[d]);
    if Sent(env, d) { StartedStays(env, w, w', d, env.sources[d].textLayer); }
  }

  /** Rows are read from the table, so what holds of table rows holds of those held by actors. */
  lemma RowsSent(env: Env, w: World, a: Action, w': World)
    requires SentInv(env, w) && Next(env, w, a) == Some(w') && Grows(w, w')
    ensures forall r | r in w'.claimed :: RowStarted(env, w', r.doc, r.row)
    ensures forall r | r in w'.opReads :: RowStarted(env, w', r.doc, r.row)
  {
    hide NextText, NextExtract, NextRecover, NextBroker, TextMsgs, ExtractMsgs, RecoverMsgs, HandlerFrame, RowStarted,
         SplitAll, MsgStarted, Grows,
         SameButText, SameButVerdict, SameButRecovery;
    match a {
      case Text(x) => TextSteps(env, w, x, w');
      case Extract(x) => ExtractSteps(env, w, x, w');
      case Recover(x) => RecoverSteps(env, w, x, w');
      case Broker(x) => BrokerSteps(w, x, w');
    }
    forall r | r in w'.claimed ensures RowStarted(env, w', r.doc, r.row) {
      if r !in w.claimed { assert DocStarted(env, w, r.doc); }
      RowStays(env, w, w', r.doc, r.row);
    }
    forall r | r in w'.opReads ensures RowStarted(env, w', r.doc, r.row) {
      if r !in w.opReads { assert DocStarted(env, w, r.doc); }
      RowStays(env, w, w', r.doc, r.row);
    }
  }

  lemma MsgsSent(env: Env, w: World, a: Action, w': World, k: nat)
    requires Basic(env, w) && JoinInv(env, w) && SentInv(env, w) && Next(env, w, a) == Some(w') && Grows(w, w') &&
             k < |NewMsgs(env, w, a)|
    requires w'.t.sent == w.t.sent + NewMsgs(env, w, a)
    ensures MsgStarted(env, w', NewMsgs(env, w, a)[k])
  {
    hide Basic, JoinInv, SentInv, NextText, NextExtract, NextRecover, NextBroker, TextMsgs, ExtractMsgs, RecoverMsgs,
         MsgStarted, Grows;
    match a
    case Text(x) => TextMsgStarted(env, w, x, w', k);
    case Extract(x) => ExtractTopics(env, w', w, x, k);
    case Recover(x) =>
      RecoverMsgStarted(env, w, x, w', k);
      MsgStays(env, w, w', NewMsgs(env, w, a)[k]);
    case Broker(x) =>
  }

  lemma ExtractTopics(env: Env, v: World, w: World, a: ExtractAction, k: nat)
    requires k < |ExtractMsgs(w, a)|
    ensures MsgStarted(env, v, ExtractMsgs(w, a)[k])
  {
    hide Violates, Started;
  }

  lemma SentStep(env: Env, w: World, a: Action, w': World)
    requires Basic(env, w) && JoinInv(env, w) && SentInv(env, w) && Next(env, w, a) == Some(w') && Basic(env, w')
    ensures SentInv(env, w')
  {
    hide Basic, JoinInv, Next, NewMsgs, DocStarted, SplitAll, RowStarted, MsgStarted, Grows;
    GrowsStep(env, w, a, w');
    StepGrows(env, w, a, w');
    forall d | d in w'.t.docs ensures DocStarted(env, w', d) && SplitAll(env, w', d) {
      DocsSent(env, w, a, w', d);
      if d !in w.t.docs { NoSplitYet(env, w, d); }
      SplitAllStep(env, w, a, w', d);
    }
    RowsSent(env, w, a, w');
    forall j | 0 <= j < |w'.t.sent| ensures MsgStarted(env, w', w'.t.sent[j]) {
      if j < |w.t.sent| { MsgStays(env, w, w', w.t.sent[j]); } else { MsgsSent(env, w, a, w', j - |w.t.sent|); }
    }
  }

  lemma NoSplitYet(env: Env, w: World, d: DocId)
    requires Basic(env, w) && d !in w.t.docs
    ensures SplitAll(env, w, d)
  {
    hide Basic;
    NoMessages(env, w, d);
    assert forall j: nat :: !SplitSent(w, d, j);
  }

  lemma {:induction false} SentRun(env: Env, ws: seq<World>, acts: seq<Action>, n: nat)
    requires env.Valid() && IsRun(env, ws, acts) && Under2(ws, acts) && n < |ws|
    ensures Basic(env, ws[n]) && JoinInv(env, ws[n]) && SentInv(env, ws[n])
  {
    hide Next, Basic, JoinInv, H2;
    JoinRun(env, ws, acts, n);
    if n > 0 {
      SentRun(env, ws, acts, n - 1);
      SentStep(env, ws[n - 1], acts[n - 1], ws[n]);
    }
  }

  // ---- The theorems ----

  /** Some message of the history says exactly what m says, and was enqueued for one of these causes. */
  ghost predicate SaidBefore(w: World, m: Msg, causes: set<Cause>) {
    exists j: nat :: SaidAt(w, m, causes, j)
  }

  predicate SaidAt(w: World, m: Msg, causes: set<Cause>, j: nat) {
    j < |w.t.sent| && SameMessage(w.t.sent[j], m) && w.t.sent[j].cause in causes
  }

  /** A claimed row of a split document in text_running: the re-drive sends exactly the unrecorded shards, in order and
      once each, with the messages the split step produced for them. */
  lemma RedriveResendsMissingShards(env: Env, ws: seq<World>, acts: seq<Action>, n: nat, r: Row)
    requires env.Valid() && IsRun(env, ws, acts) && Under2(ws, acts) && n < |ws|
    requires r in ws[n].claimed && r.row.state == TextRunning && r.row.shardsTotal > 1
    ensures Known(env, r.doc) && r.row.shardsTotal == ShardTotal(env, r.doc)
    ensures var ms := RedriveMsgs(env.cfg, ws[n].t, r, Sweep);
      && (forall k | 0 <= k < |ms| :: ms[k].payload.ShardRange? && SaidBefore(ws[n], ms[k], {Split}))
      && (forall k, l | 0 <= k < l < |ms| :: ms[k].payload.idx < ms[l].payload.idx)
      && (forall i: nat :: (exists k :: 0 <= k < |ms| && ms[k].payload.idx == i) <==>
          i < ShardTotal(env, r.doc) && i !in Recorded(ws[n].t, r.doc))
  {
    hide Next, Under2, Basic, JoinInv, DocStarted, MsgStarted, RowStarted, SplitDone, RedriveMsgs;
    SentRun(env, ws, acts, n);
    var w := ws[n];
    ClaimedRow(env, w, r);
    var ids := Missing(Recorded(w.t, r.doc), r.row.shardsTotal);
    MissingExactly(Recorded(w.t, r.doc), r.row.shardsTotal);
    MissingPayloads(env, w, r, ids);
    var ms := RedriveMsgs(env.cfg, w.t, r, Sweep);
    assert SplitAll(env, w, r.doc);
    forall k | 0 <= k < |ms| ensures SaidBefore(w, ms[k], {Split}) {
      assert ids[k] in ids;
      assert SplitHas(env, w, r.doc, ids[k]);
      SplitSaid(env, w, r.doc, ids[k], ms[k]);
    }
    Indices(ms, ids);
  }

  lemma SplitSaid(env: Env, w: World, d: DocId, i: nat, m: Msg)
    requires Known(env, d) && SplitHas(env, w, d, i) &&
             SameMessage(m, ShardMsg(env.cfg, d, i, ShardTotal(env, d), PageTotal(env, d), Sweep))
    ensures SaidBefore(w, m, {Split})
  {
    var j: nat :| SplitAt(env, w, d, i, j);
    assert SaidAt(w, m, {Split}, j);
  }

  lemma Indices(ms: seq<Msg>, ids: seq<nat>)
    requires |ms| == |ids| && forall k | 0 <= k < |ms| :: ms[k].payload.ShardRange? && ms[k].payload.idx == ids[k]
    ensures forall i: nat :: (exists k :: 0 <= k < |ms| && ms[k].payload.idx == i) <==> i in ids
  {
    forall i: nat | i in ids ensures exists k :: 0 <= k < |ms| && ms[k].payload.idx == i {
      var k :| 0 <= k < |ids| && ids[k] == i;
      assert ms[k].payload.idx == i;
    }
  }

  lemma MissingPayloads(env: Env, w: World, r: Row, ids: seq<nat>)
    requires r.row.state == TextRunning && r.row.shardsTotal > 1 && r.row.pageCount.Some?
    requires ids == Missing(Recorded(w.t, r.doc), r.row.shardsTotal)
    ensures var ms := RedriveMsgs(env.cfg, w.t, r, Sweep);
      && |ms| == |ids|
      && forall k | 0 <= k < |ms| ::
           ms[k] == ShardMsg(env.cfg, r.doc, ids[k], r.row.shardsTotal, r.row.pageCount.value, Sweep) &&
               ms[k].payload.ShardRange? && ms[k].payload.idx == ids[k]
  {
  }

  /** Any other claimed row of a dispatched document in a text state: one message, the one triage or the fall-through
      sent first. */
  lemma RedriveRepeatsDispatch(env: Env, ws: seq<World>, acts: seq<Action>, n: nat, r: Row)
    requires env.Valid() && IsRun(env, ws, acts) && Under2(ws, acts) && n < |ws|
    requires r in ws[n].claimed && Sent(env, r.doc) && IsText(r.row.state)
    requires r.row.state == TextPending || r.row.shardsTotal <= 1
    ensures |RedriveMsgs(env.cfg, ws[n].t, r, Sweep)| == 1
    ensures SaidBefore(ws[n], RedriveMsgs(env.cfg, ws[n].t, r, Sweep)[0], {Dispatch, FallThrough})
  {
    hide Next, Under2, Basic, JoinInv, SplitAll, MsgStarted;
    SentRun(env, ws, acts, n);
    var w := ws[n];
    ClaimedRow(env, w, r);
    var d := r.doc;
    var layer := Truthy(r.row.hasTextLayer) && r.row.shardsTotal <= 1;
    assert Started(env, w, d, layer) by {
      assert DocStarted(env, w, d) && RowStarted(env, w, d, r.row);
      if r.row.shardsTotal > 1 { SplitStarted(env, w, d); }
    }
    var j: nat :| FirstMsg(env, w, d, layer, j);
    ShardCountOne(PageTotal(env, d), env.cfg.shardSize);
    assert SaidAt(w, RedriveMsgs(env.cfg, w.t, r, Sweep)[0], {Dispatch, FallThrough}, j);
  }

  lemma ClaimedRow(env: Env, w: World, r: Row)
    requires Basic(env, w) && JoinInv(env, w) && r in w.claimed
    ensures r.doc in w.t.docs && GoodRow(env, r.doc, r.row) && RowSplit(w, r.doc, r.row)
  {
    hide MsgsOk, RefsOk, StoreOk, DocJoinOk, Settled, GoodRow, RowSplit;
  }
}

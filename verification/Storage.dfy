/** Ledger and object store agree: a dispatched document that left text production has its text, so an extraction
    handler always finds the canonical artifact. */
module Storage {
  import opened Types
  import opened Pages
  import opened Ledger
  import opened Sweeper
  import opened Stages
  import opened Protocol
  import opened Frames
  import opened Basics
  import opened Joining
  import opened Artifacts

  // ---- The invariant ----

  /** Past text production. */
  predicate Reached(s: DocState) {
    !IsText(s) && s != Failed
  }

  ghost predicate Sent(env: Env, d: DocId) {
    Known(env, d) && Dispatched(env.cfg, env.sources[d])
  }

  ghost predicate TextDone(w: World, d: DocId) {
    d in w.assembled || JoinFired(w, d)
  }

  ghost predicate DocReady(env: Env, w: World, d: DocId)
    requires d in w.t.docs
  {
    && (Sent(env, d) && Reached(w.t.docs[d].state) ==> TextDone(w, d))
    && (Known(env, d) && Recorded(w.t, d) != {} ==> w.t.docs[d].shardsTotal == ShardTotal(env, d))
  }

  ghost predicate HandlerReady(env: Env, w: World, x: Handler) {
    Sent(env, x.doc) ==>
      && TextDone(w, x.doc)
      && (x.pc.Loaded? ==> x.doc in w.assembled || x.pc.row.shardsTotal == ShardTotal(env, x.doc))
  }

  ghost predicate ReadReady(env: Env, w: World, r: OpRead) {
    && (r.assembled ==> r.doc in w.assembled)
    && (Sent(env, r.doc) && Reached(r.row.state) ==> TextDone(w, r.doc))
  }

  ghost predicate ArtifactReady(env: Env, d: DocId, pages: seq<Page>) {
    Sent(env, d) ==> pages == Canonical(env, d)
  }

  ghost predicate StoreInv(env: Env, w: World) {
    && (forall d | d in w.t.docs :: DocReady(env, w, d))
    && (forall h | h in w.handlers :: HandlerReady(env, w, w.handlers[h]))
    && (forall r | r in w.opReads :: ReadReady(env, w, r))
    && (forall d | d in w.assembled :: ArtifactReady(env, d, w.assembled[d]))
  }

  ghost predicate Grows(w: World, w': World) {
    && |w.t.sent| <= |w'.t.sent| && w'.t.sent[..|w.t.sent|] == w.t.sent
    && forall d | d in w.assembled :: d in w'.assembled
  }

  lemma DoneStays(w: World, w': World, d: DocId)
    requires Grows(w, w') && TextDone(w, d)
    ensures TextDone(w', d)
  {
    if d !in w.assembled {
      var j: nat :| JoinSent(w, d, j);
      assert w'.t.sent[j] == w'.t.sent[..|w.t.sent|][j];
      assert JoinSent(w', d, j);
    }
  }

  lemma GrowsStep(env: Env, w: World, a: Action, w': World)
    requires Next(env, w, a) == Some(w')
    ensures Grows(w, w')
  {
    hide Next, NewMsgs;
    StepGrows(env, w, a, w');
    assert w'.t.sent[..|w.t.sent|] == w.t.sent;
  }

  /** What is left to check after a step. */
  lemma Upkeep(env: Env, w: World, w': World)
    requires StoreInv(env, w) && Grows(w, w')
    requires forall d | d in w'.t.docs :: DocReady(env, w', d)
    requires forall h | h in w'.handlers ::
        (h in w.handlers && w'.handlers[h] == w.handlers[h]) || HandlerReady(env, w', w'.handlers[h])
    requires forall r | r in w'.opReads :: r in w.opReads || ReadReady(env, w', r)
    requires forall d | d in w'.assembled ::
        (d in w.assembled && w'.assembled[d] == w.assembled[d]) || ArtifactReady(env, d, w'.assembled[d])
    ensures StoreInv(env, w')
  {
    hide TextDone, Grows, ArtifactReady, DocReady, Sent;
    forall h | h in w'.handlers ensures HandlerReady(env, w', w'.handlers[h]) {
      if h in w.handlers && w'.handlers[h] == w.handlers[h] {
        assert HandlerReady(env, w, w.handlers[h]);
        HandlerStays(env, w, w', w.handlers[h]);
      }
    }
    forall r | r in w'.opReads ensures ReadReady(env, w', r) {
      if r in w.opReads {
        assert ReadReady(env, w, r);
        ReadStays(env, w, w', r);
      }
    }
    forall d | d in w'.assembled ensures ArtifactReady(env, d, w'.assembled[d]) {
    }
  }

  lemma HandlerStays(env: Env, w: World, w': World, x: Handler)
    requires Grows(w, w') && HandlerReady(env, w, x)
    ensures HandlerReady(env, w', x)
  {
    if Sent(env, x.doc) { DoneStays(w, w', x.doc); }
  }

  lemma ReadStays(env: Env, w: World, w': World, r: OpRead)
    requires Grows(w, w') && ReadReady(env, w, r)
    ensures ReadReady(env, w', r)
  {
    if TextDone(w, r.doc) { DoneStays(w, w', r.doc); }
  }

  lemma DocStays(env: Env, w: World, w': World, d: DocId)
    requires Grows(w, w') && d in w.t.docs && d in w'.t.docs && DocReady(env, w, d)
    requires Reached(w'.t.docs[d].state) ==> Reached(w.t.docs[d].state) || TextDone(w, d)
    requires w'.t.docs[d].shardsTotal == w.t.docs[d].shardsTotal && Recorded(w'.t, d) == Recorded(w.t, d)
    ensures DocReady(env, w', d)
  {
    if TextDone(w, d) { DoneStays(w, w', d); }
  }

  // ---- Extraction handlers ----

  /** Only a handler of the document moves it past text production. */
  lemma ExtractReaches(env: Env, w: World, a: ExtractAction, w': World, d: DocId)
    requires NextExtract(env, w, a) == Some(w') && d in w.t.docs && d in w'.t.docs
    ensures Reached(w'.t.docs[d].state) ==> Reached(w.t.docs[d].state) || exists h ::
              h in w.handlers && w.handlers[h].doc == d
  {
    hide EnsureAssembledSpec, Checked, FunnelOf, CountAttempt, CountRepairs, Asks, FinishTx, Completeness, Violates,
         VerdictTables;
    if a.h in w.handlers && w.handlers[a.h].doc == d {
    } else if a.Start? {
    } else {
      ExtractSteps(env, w, a, w');
      assert VerdictTables(w.t, w'.t, ExtractDoc(w, a));
      SameElsewhere(w.t, w'.t, ExtractDoc(w, a), d);
    }
  }

  lemma SameElsewhere(t: Tables, t': Tables, d: DocId, e: DocId)
    requires VerdictTables(t, t', d) && e != d && e in t.docs
    ensures e in t'.docs && t'.docs[e] == t.docs[e]
  {
  }

  lemma ExtractDocs(env: Env, w: World, a: ExtractAction, w': World, d: DocId)
    requires StoreInv(env, w) && NextExtract(env, w, a) == Some(w') && d in w'.t.docs && Grows(w, w')
    requires w'.t.shards == w.t.shards && d in w.t.docs && w'.t.docs[d].shardsTotal == w.t.docs[d].shardsTotal
    ensures DocReady(env, w', d)
  {
    hide NextExtract, TextDone, Grows, ArtifactReady;
    ExtractReaches(env, w, a, w', d);
    assert DocReady(env, w, d);
    if h :| h in w.handlers && w.handlers[h].doc == d {
      assert HandlerReady(env, w, w.handlers[h]);
      if Sent(env, d) { DocStays(env, w, w', d); }
    } else {
      DocStays(env, w, w', d);
    }
    assert Recorded(w'.t, d) == Recorded(w.t, d);
  }

  /** How a handler came to be where it is after a step. */
  lemma HandlerMoves(env: Env, w: World, a: ExtractAction, w': World, h: nat)
    requires NextExtract(env, w, a) == Some(w') && h in w'.handlers
    requires !(h in w.handlers && w'.handlers[h] == w.handlers[h])
    ensures w'.handlers[h].doc in w.t.docs || h in w.handlers
    ensures h in w.handlers ==> w'.handlers[h].doc == w.handlers[h].doc
    ensures h !in w.handlers ==> Reached(w.t.docs[w'.handlers[h].doc].state)
    ensures w'.handlers[h].pc.Loaded? ==>
              w'.handlers[h].doc in w.t.docs && w'.handlers[h].pc.row == w.t.docs[w'.handlers[h].doc]
  {
    hide NextExtract, EnsureAssembledSpec, FunnelOf, Completeness, Clash;
    HandlersAfter(env, w, a, w');
  }

  lemma ExtractHandlersReady(env: Env, w: World, a: ExtractAction, w': World, h: nat)
    requires Basic(env, w) && JoinInv(env, w) && StoreInv(env, w) && NextExtract(env, w, a) == Some(w') &&
             Grows(w, w') && h in w'.handlers
    requires !(h in w.handlers && w'.handlers[h] == w.handlers[h])
    ensures HandlerReady(env, w', w'.handlers[h])
  {
    hide NextExtract, ArtifactReady, Basic, JoinInv, DocJoinOk, ReadReady;
    HandlerMoves(env, w, a, w', h);
    var x := w'.handlers[h];
    if Sent(env, x.doc) {
      if h in w.handlers {
        assert HandlerReady(env, w, w.handlers[h]);
      } else {
        assert DocReady(env, w, x.doc);
      }
      DoneStays(w, w', x.doc);
      if x.pc.Loaded? && x.doc !in w.assembled {
        assert DocReady(env, w, x.doc);
        FiredFull(env, w, x.doc);
      }
    }
  }

  lemma FiredFull(env: Env, w: World, d: DocId)
    requires Basic(env, w) && JoinInv(env, w) && d in w.t.docs && JoinFired(w, d)
    ensures Known(env, d) && Recorded(w.t, d) == UpTo(ShardTotal(env, d)) && Recorded(w.t, d) != {}
  {
    hide Basic;
    assert DocJoinOk(env, w, d);
    RecordedBelow(env, w, d);
    FullSet(Recorded(w.t, d), ShardTotal(env, d));
  }

  /** With the ledger's promise kept, assembly yields the canonical pages. */
  lemma AssemblesCanonical(env: Env, w: World, h: nat)
    requires Basic(env, w) && JoinInv(env, w) && StoreInv(env, w)
    requires h in w.handlers && w.handlers[h].pc.Loaded? && Sent(env, w.handlers[h].doc)
    ensures var x := w.handlers[h];
      EnsureAssembledSpec(w.outs, w.assembled, x.doc, x.pc.row.shardsTotal) == Some(Canonical(env, x.doc))
  {
    hide Basic, JoinInv, DocReady, ReadReady;
    var x := w.handlers[h];
    var d := x.doc;
    assert HandlerReady(env, w, x);
    if d in w.assembled {
      assert ArtifactReady(env, d, w.assembled[d]);
    } else {
      HandlerDoc(env, w, h);
      FiredFull(env, w, d);
      FullHolds(env, w, d);
      ShardedEqualsUnsharded(w.outs, w.assembled, d, env.sources[d].ocr, env.cfg.shardSize);
    }
  }

  /** All shards recorded: all their outputs are stored, and the document is one for OCR. */
  lemma FullHolds(env: Env, w: World, d: DocId)
    requires Basic(env, w) && Known(env, d) && Recorded(w.t, d) == UpTo(ShardTotal(env, d))
    ensures OcrDoc(env, d) && HoldsShards(w.outs, d, env.sources[d].ocr, env.cfg.shardSize)
  {
    hide RowsOk, MsgsOk, RefsOk;
    assert 0 in Recorded(w.t, d);
    assert OutputOk(env, d, 0, w.outs[(d, 0)]);
    forall i: nat | i < ShardTotal(env, d)
      ensures (d, i) in w.outs && w.outs[(d, i)] == ShardPages(env, d, i)
      ensures RangeStart(i, env.cfg.shardSize) <= RangeEnd(i, PageTotal(env, d), env.cfg.shardSize) <= PageTotal(env, d)
    {
      assert i in Recorded(w.t, d);
      assert OutputOk(env, d, i, w.outs[(d, i)]);
      RangeInside(i, PageTotal(env, d), env.cfg.shardSize);
    }
  }

  lemma ExtractArtifacts(env: Env, w: World, a: ExtractAction, w': World, d: DocId)
    requires Basic(env, w) && JoinInv(env, w) && StoreInv(env, w) && NextExtract(env, w, a) == Some(w') &&
             d in w'.assembled
    ensures (d in w.assembled && w'.assembled[d] == w.assembled[d]) || ArtifactReady(env, d, w'.assembled[d])
  {
    hide Basic, JoinInv, StoreInv, ExtractMsgs, Canonical, ArtifactReady, VerdictTables, HandlerFrame,
         DoStart, DoLoad, DoAssemble, DoAttempt, DoFunnel, DoFinish, DoReroute, DoCrash;
    ExtractSteps(env, w, a, w');
    if a.Assemble? {
      AssembledArtifact(env, w, a.h, w', d);
    }
  }

  lemma AssembledArtifact(env: Env, w: World, h: nat, w': World, d: DocId)
    requires Basic(env, w) && JoinInv(env, w) && StoreInv(env, w) && DoAssemble(w, h) == Some(w') && d in w'.assembled
    ensures (d in w.assembled && w'.assembled[d] == w.assembled[d]) || ArtifactReady(env, d, w'.assembled[d])
  {
    hide Basic, JoinInv, StoreInv, EnsureAssembledSpec, Checked, Canonical;
    if d == w.handlers[h].doc && Sent(env, d) {
      AssemblesCanonical(env, w, h);
    }
  }

  lemma ExtractStore(env: Env, w: World, a: ExtractAction, w': World)
    requires Basic(env, w) && JoinInv(env, w) && StoreInv(env, w) && NextExtract(env, w, a) == Some(w') && Grows(w, w')
    ensures StoreInv(env, w')
  {
    hide NextExtract, Grows, StoreInv, Basic, JoinInv, ExtractMsgs, HandlerReady, ReadReady, DocReady, ArtifactReady,
         HandlerFrame;
    ExtractSteps(env, w, a, w');
    forall d | d in w'.t.docs ensures DocReady(env, w', d) { ExtractDocs(env, w, a, w', d); }
    forall h | h in w'.handlers && !(h in w.handlers && w'.handlers[h] == w.handlers[h]) ensures HandlerReady(env, w',
        w'.handlers[h]) {
      ExtractHandlersReady(env, w, a, w', h);
    }
    forall d | d in w'.assembled ensures (d in w.assembled && w'.assembled[d] == w.assembled[d]) ||
        ArtifactReady(env, d, w'.assembled[d]) {
      ExtractArtifacts(env, w, a, w', d);
    }
    Upkeep(env, w, w');
  }

  // ---- Sweeper and operator ----

  lemma RecoverReaches(env: Env, w: World, a: RecoverAction, w': World, d: DocId)
    requires NextRecover(env, w, a) == Some(w') && d in w.t.docs && d in w'.t.docs
    ensures Reached(w'.t.docs[d].state) ==>
              Reached(w.t.docs[d].state) ||
              (a.ForceRedrive? && a.seen in w.opReads && a.seen.doc == d &&
                  (a.seen.row.state == Review || a.seen.assembled))
  {
    hide RedriveMsgs, EnqueueAll, IsBatch, Tally;
    match a
    case ForceRedrive(r) =>
      var target := RedriveTarget(r.row, r.assembled).value;
      var t := Transition(w.t, r.doc, target, Predecessors(target), w.now).value;
      EnqueueAllFacts(t, RedriveMsgs(env.cfg, t, Row(r.doc, r.row.(state := target)), Operator));
    case SweepRedrive(r) => EnqueueAllFacts(w.t, RedriveMsgs(env.cfg, w.t, r, Sweep));
    case _ =>
  }

  lemma RecoverStore(env: Env, w: World, a: RecoverAction, w': World)
    requires StoreInv(env, w) && NextRecover(env, w, a) == Some(w') && Grows(w, w')
    ensures StoreInv(env, w')
  {
    hide NextRecover, Grows, RecoverMsgs, TextDone, HandlerReady, ArtifactReady;
    RecoverSteps(env, w, a, w');
    forall d | d in w'.t.docs ensures DocReady(env, w', d) {
      RecoverReaches(env, w, a, w', d);
      assert DocReady(env, w, d);
      assert Recorded(w'.t, d) == Recorded(w.t, d);
      if a.ForceRedrive? && a.seen in w.opReads && a.seen.doc ==
          d { RecoverDoc(env, w, w', a.seen); } else { DocStays(env, w, w', d); }
    }
    forall r | r in w'.opReads && r !in w.opReads ensures ReadReady(env, w', r) {
      assert DocReady(env, w, r.doc);
      ReadStays(env, w, w', r);
    }
    Upkeep(env, w, w');
  }

  lemma RecoverDoc(env: Env, w: World, w': World, r: OpRead)
    requires StoreInv(env, w) && Grows(w, w') && r in w.opReads && r.doc in w.t.docs && r.doc in w'.t.docs
    requires Reached(w'.t.docs[r.doc].state) ==> Reached(w.t.docs[r.doc].state) || r.row.state == Review || r.assembled
    requires w'.t.docs[r.doc].shardsTotal == w.t.docs[r.doc].shardsTotal &&
             Recorded(w'.t, r.doc) == Recorded(w.t, r.doc)
    ensures DocReady(env, w', r.doc)
  {
    hide Grows;
    assert ReadReady(env, w, r) && DocReady(env, w, r.doc);
    if TextDone(w, r.doc) { DoneStays(w, w', r.doc); }
  }

  // ---- Text steps ----

  lemma TextReaches(env: Env, w: World, a: TextAction, w': World, d: DocId)
    requires NextText(env, w, a) == Some(w') && d in w'.t.docs && d == TextDoc(w, a)
    ensures Reached(w'.t.docs[d].state) ==>
      || (d in w.t.docs && Reached(w.t.docs[d].state))
      || d in w'.assembled
      || (a.ShardRecord? && a.msg < |w.t.sent| && JoinMsgs(w, w.t.sent[a.msg]) == [Msg(d, OcrCompleted, JustId, Join)])
      || (a.Triage? && d in env.sources && !Dispatched(env.cfg, env.sources[d]))
  {
    hide AllPages, ShardText, DispatchMsg, EnqueueAll, SplitMsgs;
    match a
    case SplitCommit(i) =>
      var n := |env.sources[d].ocr|;
      SplitState(env.cfg, w.t, d, ShardCount(n, env.cfg.shardSize), n);
    case _ =>
  }

  lemma SplitState(cfg: Config, t: Tables, d: DocId, total: nat, pageCount: nat)
    ensures CommitSplitTx(cfg, t, d, total, pageCount).docs.Keys == t.docs.Keys
    ensures d in t.docs ==> CommitSplitTx(cfg, t, d, total, pageCount).docs[d].state == t.docs[d].state
  {
  }

  lemma TextReachesDone(env: Env, w: World, a: TextAction, w': World, d: DocId)
    requires NextText(env, w, a) == Some(w') && d in w'.t.docs && d == TextDoc(w, a) && Grows(w, w')
    requires Sent(env, d) && Reached(w'.t.docs[d].state)
    requires d in w.t.docs && Reached(w.t.docs[d].state) ==> TextDone(w, d)
    ensures TextDone(w', d)
  {
    hide NextText, Grows, JoinMsgs, TextFrame, TriageMsgs, EmbeddedMsgs, SplitCommitMsgs, SplitDone;
    TextReaches(env, w, a, w', d);
    TextSteps(env, w, a, w');
    if d in w.t.docs && Reached(w.t.docs[d].state) {
      DoneStays(w, w', d);
    } else if d !in w'.assembled {
      assert JoinSent(w', d, |w.t.sent|);
    }
  }

  /** Recorded shards keep the authoritative total in place. */
  lemma TextTotal(env: Env, w: World, a: TextAction, w': World, d: DocId)
    requires Basic(env, w) && JoinInv(env, w) && StoreInv(env, w) && NextText(env, w, a) == Some(w')
    requires a.EmbeddedCommit? && a.msg < |w.t.sent| ==> !SplitDone(w, w.t.sent[a.msg].doc)
    requires d in w'.t.docs && d == TextDoc(w, a) && Known(env, d) && Recorded(w'.t, d) != {}
    ensures w'.t.docs[d].shardsTotal == ShardTotal(env, d)
  {
    hide Basic, JoinInv, DoTriage, TextEmbeddedTx, DoSplitCommit, DoShardRecord, AllPages, ShardText, SplitDone,
         TextDone, DocReady;
    match a
    case Triage(e) => TriageTotal(env, w, e, w');
    case EmbeddedCommit(i) =>
      EmbeddedColumns(env, w, i, w');
      assert Recorded(w'.t, d) == Recorded(w.t, d);
      TotalOf(env, w, d);
    case SplitCommit(i) => SplitColumns(env, w, i, w');
    case ShardRecord(i) => RecordEffect(env, w, i, w');
    case _ => TotalOf(env, w, d);
  }

  lemma TotalOf(env: Env, w: World, d: DocId)
    requires StoreInv(env, w) && d in w.t.docs && Known(env, d) && Recorded(w.t, d) != {}
    ensures w.t.docs[d].shardsTotal == ShardTotal(env, d)
  {
    hide TextDone, Sent;
    assert DocReady(env, w, d);
  }

  lemma TriageTotal(env: Env, w: World, d: DocId, w': World)
    requires Basic(env, w) && JoinInv(env, w) && StoreInv(env, w) && DoTriage(env, w, d) == Some(w')
    requires d in w'.t.docs && Known(env, d) && Recorded(w'.t, d) != {}
    ensures w'.t.docs[d].shardsTotal == ShardTotal(env, d)
  {
    hide DispatchMsg, Basic, DocJoinOk, DocReady, Settled;
    assert Recorded(w'.t, d) == Recorded(w.t, d);
    assert d in w.t.docs;
    TotalOf(env, w, d);
  }

  lemma TextStore(env: Env, w: World, a: TextAction, w': World)
    requires Basic(env, w) && JoinInv(env, w) && StoreInv(env, w) && NextText(env, w, a) == Some(w') && Grows(w, w')
    requires a.EmbeddedCommit? && a.msg < |w.t.sent| ==> !SplitDone(w, w.t.sent[a.msg].doc)
    ensures StoreInv(env, w')
  {
    hide NextText, Grows, Basic, JoinInv, TextMsgs, TextDone, SameButText, HandlerReady, ReadReady, ArtifactReady,
         SplitDone;
    TextSteps(env, w, a, w');
    var d := TextDoc(w, a);
    TextDocIn(env, w, a, w');
    assert d in w.t.docs ==> DocReady(env, w, d);
    if Sent(env, d) && Reached(w'.t.docs[d].state) { TextReachesDone(env, w, a, w', d); }
    if Known(env, d) && Recorded(w'.t, d) != {} { TextTotal(env, w, a, w', d); }
    forall e | e in w'.t.docs ensures DocReady(env, w', e) {
      if e != d {
        assert DocReady(env, w, e);
        DocStays(env, w, w', e);
      }
    }
    TextArtifactsReady(env, w, a, w');
    Upkeep(env, w, w');
  }

  lemma TextArtifactsReady(env: Env, w: World, a: TextAction, w': World)
    requires Basic(env, w) && NextText(env, w, a) == Some(w')
    ensures forall d | d in w'.assembled :: (d in w.assembled && w'.assembled[d] == w.assembled[d]) ||
              ArtifactReady(env, d, w'.assembled[d])
  {
    hide Transition, TriageTx, TextEmbeddedTx, CommitSplitTx, RecordShard, ShardText, AllPages, RowsOk, RefsOk, StoreOk;
    if (a.EmbeddedWrite? || a.EmbeddedCommit?) && a.msg < |w.t.sent| {
      assert MsgOk(env, w, w.t.sent[a.msg]);
    }
  }

  lemma BrokerStore(env: Env, w: World, a: BrokerAction, w': World)
    requires StoreInv(env, w) && NextBroker(w, a) == Some(w') && Grows(w, w')
    ensures StoreInv(env, w')
  {
    hide NextBroker, Grows, TextDone, HandlerReady, ArtifactReady;
    BrokerSteps(w, a, w');
    forall d | d in w'.t.docs ensures DocReady(env, w', d) {
      assert DocReady(env, w, d);
      DocStays(env, w, w', d);
    }
    Upkeep(env, w, w');
  }

  lemma StoreStep(env: Env, w: World, a: Action, w': World)
    requires Basic(env, w) && JoinInv(env, w) && StoreInv(env, w) && Next(env, w, a) == Some(w') && H2(w, a)
    ensures StoreInv(env, w')
  {
    hide Basic, JoinInv, StoreInv, NextText, NextExtract, NextRecover, NextBroker, SplitDone, Grows;
    GrowsStep(env, w, a, w');
    match a
    case Text(x) => TextStore(env, w, x, w');
    case Extract(x) => ExtractStore(env, w, x, w');
    case Recover(x) => RecoverStore(env, w, x, w');
    case Broker(x) => BrokerStore(env, w, x, w');
  }

  lemma {:induction false} StoreRun(env: Env, ws: seq<World>, acts: seq<Action>, n: nat)
    requires env.Valid() && IsRun(env, ws, acts) && Under2(ws, acts) && n < |ws|
    ensures Basic(env, ws[n]) && JoinInv(env, ws[n]) && StoreInv(env, ws[n])
  {
    hide Next, Basic, JoinInv, H2;
    JoinRun(env, ws, acts, n);
    if n > 0 {
      StoreRun(env, ws, acts, n - 1);
      StoreStep(env, ws[n - 1], acts[n - 1], ws[n]);
    }
  }

  // ---- The theorems ----

  /** Ledger and storage agree: a dispatched document in an extract state has its artifact, or the stored output of
      every shard its row counts, each holding the engine's pages of that shard. */
  lemma LedgerMatchesStorage(env: Env, ws: seq<World>, acts: seq<Action>, n: nat, d: DocId)
    requires env.Valid() && IsRun(env, ws, acts) && Under2(ws, acts) && n < |ws|
    requires d in ws[n].t.docs && Sent(env, d) && IsExtract(ws[n].t.docs[d].state)
    ensures d in ws[n].assembled ||
            (ws[n].t.docs[d].shardsTotal == ShardTotal(env, d) &&
                HoldsShards(ws[n].outs, d, env.sources[d].ocr, env.cfg.shardSize))
    ensures d in ws[n].assembled ==> ws[n].assembled[d] == Canonical(env, d)
  {
    hide Next, Under2, Basic, JoinInv, HoldsShards;
    StoreRun(env, ws, acts, n);
    var w := ws[n];
    assert DocReady(env, w, d);
    if d in w.assembled {
      assert ArtifactReady(env, d, w.assembled[d]);
    } else {
      FiredFull(env, w, d);
      FullHolds(env, w, d);
    }
  }

  /** The shard_output_missing and incomplete routes are unreachable for a dispatched document: assembling always
      leads on, with the pages of one direct pass. */
  lemma AssemblyNeverRejects(env: Env, ws: seq<World>, acts: seq<Action>, n: nat, h: nat)
    requires env.Valid() && IsRun(env, ws, acts) && Under2(ws, acts) && n < |acts|
    requires acts[n] == Extract(Assemble(h)) && h in ws[n].handlers && Sent(env, ws[n].handlers[h].doc)
    ensures h in ws[n + 1].handlers && ws[n].handlers[h].pc.Loaded?
    ensures ws[n + 1].handlers[h] == Handler(ws[n].handlers[h].doc,
              Assembled(ws[n].handlers[h].pc.row, Canonical(env, ws[n].handlers[h].doc)))
  {
    hide Under2, Basic, JoinInv, StoreInv, EnsureAssembledSpec, Completeness, Canonical, NextText, NextRecover,
         NextBroker;
    StoreRun(env, ws, acts, n);
    var w := ws[n];
    assert Next(env, w, acts[n]) == Some(ws[n + 1]);
    AssemblesCanonical(env, w, h);
    HandlerDoc(env, w, h);
    CanonicalComplete(env, w.handlers[h].doc);
  }
}

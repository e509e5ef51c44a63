/** What a forced re-drive of a document in review can still achieve: exactly when it can complete, and how it can come
    to stand in another document's way. */
module Reopening {
  import opened Types
  import opened Pages
  import opened Ledger
  import opened Sweeper
  import opened Protocol
  import opened Frames
  import opened Basics
  import opened Joining
  import opened Artifacts
  import opened Storage
  import opened Verdicts
  import opened Extraction
  import opened Progress
  import FirstWriter
  import Funnel
  import Gates
  import Keys

  // ---- The segments ----

  /** A dispatched document past text production can be assembled. */
  lemma StoredFits(env: Env, w: World, d: DocId)
    requires Basic(env, w) && JoinInv(env, w) && StoreInv(env, w)
    requires d in w.t.docs && Sent(env, d) && Reached(w.t.docs[d].state)
    ensures Fit(env, w, d)
  {
    hide Basic, JoinInv, HandlerReady, ReadReady;
    GoodRowOf(env, w, d);
    assert DocReady(env, w, d);
    if d in w.assembled {
      assert ArtifactReady(env, d, w.assembled[d]);
    } else {
      FiredFull(env, w, d);
      FullHolds(env, w, d);
      ShardedEqualsUnsharded(w.outs, w.assembled, d, env.sources[d].ocr, env.cfg.shardSize);
    }
  }

  ghost function Reopened(w: World, d: DocId): Doc
    requires d in w.t.docs
  {
    w.t.docs[d].(state := ExtractPending, updatedAt := w.now)
  }

  /** A forced re-drive from a fresh read of a row in review. */
  lemma ForceReview(env: Env, w: World, r: OpRead)
    requires r in w.opReads && r.doc in w.t.docs && r.row == w.t.docs[r.doc] && r.row.state == Review
    ensures RedriveTarget(r.row, r.assembled) == Some(ExtractPending)
    ensures DoForceRedrive(env, w, r) ==
              Some(w.(t := w.t.(docs := w.t.docs[r.doc := Reopened(w, r.doc)],
                                sent := w.t.sent + [Msg(r.doc, OcrCompleted, JustId, Operator)],
                                pending := w.t.pending + {|w.t.sent|})))
  {
    var t := Transition(w.t, r.doc, ExtractPending, Predecessors(ExtractPending), w.now).value;
    var m := Msg(r.doc, OcrCompleted, JustId, Operator);
    EnqueueNothing(t);
    EnqueueSnoc(t, [], m);
    assert [] + [m] == [m];
    hide EnqueueAll;
    assert RedriveMsgs(env.cfg, t, Row(r.doc, r.row.(state := ExtractPending)), Operator) == [m];
  }

  /** The operator reads a document in review and re-drives it; its message is delivered. */
  lemma Reopen(env: Env, rules: Rules, v: World, w: World, d: DocId) returns (w': World, i: nat)
    requires env.Valid() && Leads(env, rules, v, w) && d in w.t.docs && w.t.docs[d].state == Review
    ensures Leads(env, rules, v, w') && Beside(w, w', d) && w'.t.docs[d] == Reopened(w, d) && Told(w', d, i)
    ensures w'.handlers == w.handlers && w'.assembled == w.assembled && w'.relays == w.relays && w.opReads <= w'.opReads
  {
    hide Leads, NextText, NextExtract, NextBroker, Basic, LockedRows;
    var r := OpRead(d, w.t.docs[d], d in w.assembled);
    var w1 := w.(opReads := w.opReads + {r});
    ExtendFreely(env, rules, v, w, Recover(OperatorRead(d)), w1);
    ForceReview(env, w1, r);
    hide DoForceRedrive;
    var w2 := DoForceRedrive(env, w1, r).value;
    Extend(env, rules, v, w1, Recover(ForceRedrive(r)), w2);
    ReachedFacts(env, rules, v, w1);
    NewRowFree(env, w1, w2);
    i := |w.t.sent|;
    assert i in w2.t.pending;
    w' := Deliver(env, rules, v, w2, i);
  }

  /** A verdict without fields parks a document that has no result yet, and gives it the empty one. */
  lemma Park(env: Env, rules: Rules, v: World, w: World, h: nat) returns (w': World)
    requires Leads(env, rules, v, w) && h in w.handlers && w.handlers[h].pc.Decided? && w.handlers[h].pc.fields.None?
    requires w.handlers[h].doc in w.t.docs && w.t.docs[w.handlers[h].doc].result.None?
    ensures Leads(env, rules, v, w') && Beside(w, w', w.handlers[h].doc) && w'.handlers == w.handlers - {h}
    ensures w'.assembled == w.assembled
    ensures var doc' := w'.t.docs[w.handlers[h].doc];
      doc' == w.t.docs[w.handlers[h].doc].(state := Review, result := Some(NoFields), gates := doc'.gates,
          updatedAt := w.now)
  {
    hide Leads, NextText, NextRecover, NextBroker;
    w' := DoFinish(w, h, true).value;
    ExtendFreely(env, rules, v, w, Extract(Finish(h, true)), w');
  }

  /** A losing commit that the index lets through writes the key and nothing else. */
  lemma Lose(env: Env, rules: Rules, v: World, w: World, h: nat) returns (w': World)
    requires Leads(env, rules, v, w) && h in w.handlers && w.handlers[h].pc.Decided? && w.handlers[h].pc.fields.Some?
    requires w.handlers[h].doc in w.t.docs && w.t.docs[w.handlers[h].doc].result.Some? && !Clash(w, w.handlers[h], true)
    ensures Leads(env, rules, v, w') && Beside(w, w', w.handlers[h].doc) && w'.handlers == w.handlers - {h}
    ensures w'.assembled == w.assembled
    ensures w'.t.docs[w.handlers[h].doc] ==
              w.t.docs[w.handlers[h].doc].(vendor := w.handlers[h].pc.fields.value.seller,
                                           invoiceNo := w.handlers[h].pc.fields.value.invoiceNo)
  {
    hide Leads, NextText, NextRecover, NextBroker, Violates;
    w' := DoFinish(w, h, true).value;
    ExtendFreely(env, rules, v, w, Extract(Finish(h, true)), w');
  }

  // ---- Exactly when a re-drive can complete ----

  /** Nobody at all holds the key of f. */
  lemma KeyFree(docs: map<DocId, Doc>, d: DocId, f: Fields)
    requires d in docs && !Violates(docs, d, f.seller, f.invoiceNo)
    ensures NobodyHas(docs, d, f)
  {
    Keys.ViolatesIff(docs, d, f.seller, f.invoiceNo);
    if f.seller.Some? && f.invoiceNo.Some? {
      forall e | e in docs && e != d && docs[e].state == Complete
        ensures docs[e].vendor != f.seller || docs[e].invoiceNo != f.invoiceNo
      {
        assert Keys.KeyOf(docs[e]) != (f.seller, f.invoiceNo);
      }
    }
  }

  lemma SameViolations(docs: map<DocId, Doc>, docs': map<DocId, Doc>, d: DocId, vendor: Option<string>,
      invoiceNo: Option<string>)
    requires d in docs && d in docs' && docs' == docs[d := docs'[d]]
    ensures Violates(docs', d, vendor, invoiceNo) <==> Violates(docs, d, vendor, invoiceNo)
  {
    hide Violates;
    Keys.ViolatesIff(docs, d, vendor, invoiceNo);
    Keys.ViolatesIff(docs', d, vendor, invoiceNo);
    assert forall e | e != d :: e in docs' <==> e in docs;
    if e :| e in docs && e != d && Keys.KeyOf(docs[e]) == (vendor, invoiceNo) {
      assert e in docs' && docs'[e] == docs[e];
    }
    if e :| e in docs' && e != d && Keys.KeyOf(docs'[e]) == (vendor, invoiceNo) {
      assert e in docs && docs'[e] == docs[e];
    }
  }

  /** Complete by its own merit. */
  ghost predicate Earns(w: World, d: DocId) {
    d in w.t.docs && w.t.docs[d].state == Complete && w.t.docs[d].gates.override.None?
  }

  /** Under H1 nobody is working on a document in review. */
  lemma ReviewIdle(w: World, d: DocId)
    requires OpenInv(w) && d in w.t.docs && w.t.docs[d].state == Review
    ensures Idle(w, d)
  {
    forall h | h in w.handlers ensures w.handlers[h].doc != d { assert OpenDoc(w, h); }
  }

  /** The message of d's winning commit is the last one, and new since w. */
  ghost predicate JustCommitted(w: World, w': World, d: DocId, f: Fields) {
    && w.relays == w'.relays && w.opReads <= w'.opReads && w.t.posted == w'.t.posted
    && |w.t.sent| < |w'.t.sent| && |w'.t.sent| - 1 in w'.t.pending
    && var m := w'.t.sent[|w'.t.sent| - 1];
       m.doc == d && m.topic == DocumentExtracted && m.payload.AutoPost? && m.payload.fields == f
  }

  /** A dispatched document in review that has no result can still complete: the operator re-drives it, the message is
      relayed, a handler takes it, and the model's answer is sound and its key free. */
  lemma RetryCompletes(env: Env, v: World, w: World, d: DocId, script: Funnel.Script, f: Fields) returns (w': World)
    requires env.Valid() && Leads(env, ALL_RULES, v, w)
    requires d in w.t.docs && Sent(env, d) && w.t.docs[d].state == Review && w.t.docs[d].result.None?
    requires Answers(env, d, w.t.docs[d].docType, script, f) && !Violates(w.t.docs, d, f.seller, f.invoiceNo)
    ensures Leads(env, ALL_RULES, v, w') && Earns(w', d) && w'.t.docs[d].result == Some(HasFields(f))
    ensures JustCommitted(w, w', d, f)
  {
    hide Leads, Answers, Canonical, VerdictOf, Violates, Basic, JoinInv, StoreInv, NobodyHas, Fit, OpenInv;
    ReachedFacts(env, ALL_RULES, v, w);
    ReviewIdle(w, d);
    var w1, i := Reopen(env, ALL_RULES, v, w, d);
    ReachedFacts(env, ALL_RULES, v, w1);
    StoredFits(env, w1, d);
    var h := FreshId(w1.handlers.Keys);
    Take(env, ALL_RULES, v, w1, d, i, h);
    var w2 := Taken(env, w1, d, h);
    SameViolations(w.t.docs, w2.t.docs, d, f.seller, f.invoiceNo);
    KeyFree(w2.t.docs, d, f);
    ReadyOf(env, d, w.t.docs[d].docType, script, f);
    SoundAnswer(env, w2, d, w2.handlers[h].pc.row, script, f);
    var w3 := Decide(env, ALL_RULES, v, w2, h, script);
    SameViolations(w.t.docs, w3.t.docs, d, f.seller, f.invoiceNo);
    w' := ConcludeWith(env, ALL_RULES, v, w3, h);
  }

  lemma ResultBars(env: Env, v: World, w: World, d: DocId)
    requires Leads(env, ALL_RULES, v, w) && d in v.t.docs && v.t.docs[d].state != Complete && v.t.docs[d].result.Some?
    ensures !Earns(w, d)
  {
    hide Next, H1, H2, H3;
    var ws: seq<World>, acts: seq<Action>, m: nat :| Passes(env, ALL_RULES, v, w, ws, acts, m);
    forall k | 0 <= k < |acts| ensures H1(ws[k], acts[k]) { assert Obeys(ALL_RULES, ws[k], acts[k], ws[k + 1]); }
    FirstWriter.HeldBackNeedsOverride(env, ws, acts, m, |acts|, d);
  }

  /** Exactly when a forced re-drive is a retry at all: of a dispatched document in review, for which the
      model has a sound answer with a free key, some continuation within the hypotheses completes it without an
      override if and only if it has no result. */
  lemma RetryCompletesIff(env: Env, v: World, d: DocId, script: Funnel.Script, f: Fields)
    requires env.Valid() && Reachable(env, ALL_RULES, v) && d in v.t.docs && Sent(env, d) && v.t.docs[d].state == Review
    requires Answers(env, d, v.t.docs[d].docType, script, f) && !Violates(v.t.docs, d, f.seller, f.invoiceNo)
    ensures v.t.docs[d].result.None? <==> exists w :: Leads(env, ALL_RULES, v, w) && Earns(w, d)
  {
    hide Leads, Answers, Violates, Earns;
    if v.t.docs[d].result.None? {
      var w := RetryCompletes(env, v, v, d, script, f);
      assert Leads(env, ALL_RULES, v, w) && Earns(w, d);
    } else {
      forall w | Leads(env, ALL_RULES, v, w) ensures !Earns(w, d) { ResultBars(env, v, w, d); }
    }
  }

  // ---- A held-back document can take a key all the same ----

  /** Exhausted, parked in review, re-driven, answered soundly: its commit loses, and it now holds the key. */
  lemma LosesWithKey(env: Env, d: DocId, refusal: Funnel.Script, script: Funnel.Script, f: Fields) returns (w: World)
    requires env.Valid() && Known(env, d) && TierZeroDoc(env, d)
    requires ScriptRefuses(env, refusal) && Answers(env, d, env.sources[d].docType, script, f)
    ensures Reachable(env, ALL_RULES, w) && w.t.docs.Keys == {d} && w.handlers == map[]
    ensures w.t.docs[d].state == ExtractRunning && w.t.docs[d].result == Some(NoFields)
    ensures Keys.KeyOf(w.t.docs[d]) == (f.seller, f.invoiceNo)
  {
    hide Leads, Answers, ScriptRefuses, Canonical, VerdictOf, Violates, NobodyHas, Fit;
    var w0, rules := InitWorld(0), ALL_RULES;
    Initial(env, rules, 0);
    var w1, i := Upload(env, rules, w0, w0, d);
    AssembledFits(env, w1, d);
    Take(env, rules, w0, w1, d, i, 0);
    var w2 := Taken(env, w1, d, 0);
    RefusalReady(env, refusal);
    NoAnswer(env, w2, d, w2.handlers[0].pc.row, Canonical(env, d), refusal);
    var w3 := Decide(env, rules, w0, w2, 0, refusal);
    var w4 := Park(env, rules, w0, w3, 0);
    var w5, j := Reopen(env, rules, w0, w4, d);
    w := SecondTry(env, w0, w5, d, j, script, f);
    Arrived(env, rules, w0, w);
  }

  lemma RefusalReady(env: Env, script: Funnel.Script)
    requires ScriptRefuses(env, script)
    ensures Funnel.Ready(script, env.cfg.maxRepair)
  {
  }

  lemma SecondTry(env: Env, v: World, w: World, d: DocId, i: nat, script: Funnel.Script, f: Fields) returns (w': World)
    requires env.Valid() && Known(env, d) && Leads(env, ALL_RULES, v, w) && Told(w, d, i) && w.handlers == map[]
    requires w.t.docs.Keys == {d} && IsExtract(w.t.docs[d].state) && w.t.docs[d].result == Some(NoFields)
    requires w.t.docs[d].pageCount == Some(PageTotal(env, d)) && d in w.assembled && w.assembled[d] == Canonical(env, d)
    requires Answers(env, d, w.t.docs[d].docType, script, f)
    ensures Leads(env, ALL_RULES, v, w') && w'.t.docs.Keys == {d} && w'.handlers == map[]
    ensures w'.t.docs[d].state == ExtractRunning && w'.t.docs[d].result == Some(NoFields)
    ensures Keys.KeyOf(w'.t.docs[d]) == (f.seller, f.invoiceNo)
  {
    hide Leads, Answers, Canonical, VerdictOf, Violates, NobodyHas, Fit;
    AssembledFits(env, w, d);
    Take(env, ALL_RULES, v, w, d, i, 0);
    var w1 := Taken(env, w, d, 0);
    LoneDocument(w1, d, f);
    KeyFree(w1.t.docs, d, f);
    ReadyOf(env, d, w.t.docs[d].docType, script, f);
    SoundAnswer(env, w1, d, w1.handlers[0].pc.row, script, f);
    var w2 := Decide(env, ALL_RULES, v, w1, 0, script);
    LoneDocument(w2, d, f);
    w' := Lose(env, ALL_RULES, v, w2, 0);
    assert w'.handlers == map[];
  }

  /** A reachable commit that is refused although no document is complete and its dedupe gate passed: the key is held by
      a document in which the gates were exhausted, that was re-driven, and whose commit lost. */
  lemma LostKeyBlocks(env: Env, d: DocId, e: DocId, refusal: Funnel.Script, script: Funnel.Script, f: Fields)
    returns (w: World)
    requires env.Valid() && d != e && Known(env, d) && TierZeroDoc(env, d) && Known(env, e) && TierZeroDoc(env, e)
    requires ScriptRefuses(env, refusal) && f.seller.Some? && f.invoiceNo.Some?
    requires Answers(env, d, env.sources[d].docType, script, f) && Answers(env, e, env.sources[e].docType, script, f)
    ensures Reachable(env, ALL_RULES, w)
    ensures 0 in w.handlers && w.handlers[0].doc == e && w.handlers[0].pc.Decided? && w.handlers[0].pc.fields == Some(f)
    ensures Gates.DedupeGate(w.t.docs, e, f.seller, f.invoiceNo) != Fail
    ensures forall x | x in w.t.docs :: w.t.docs[x].state != Complete
    ensures Clash(w, w.handlers[0], true)
  {
    hide Leads, Answers, ScriptRefuses, Canonical, VerdictOf, Violates, Fit;
    var rules := ALL_RULES;
    var w0 := LosesWithKey(env, d, refusal, script, f);
    var w1, i := Upload(env, rules, w0, w0, e);
    AssembledFits(env, w1, e);
    Take(env, rules, w0, w1, e, i, 0);
    var w2 := Taken(env, w1, e, 0);
    ReadyOf(env, e, env.sources[e].docType, script, f);
    SoundAnswer(env, w2, e, w2.handlers[0].pc.row, script, f);
    w := Decide(env, rules, w0, w2, 0, script);
    Arrived(env, rules, w0, w);
    assert Keys.KeyOf(w.t.docs[d]) == (f.seller, f.invoiceNo);
    Keys.ViolatesIff(w.t.docs, e, f.seller, f.invoiceNo);
  }
}

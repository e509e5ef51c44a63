/** What accepting a review does over whole runs: how many document.extracted messages a document gets, and what the
    sink can post for it. */
module Overrides {
  import opened Types
  import opened Ledger
  import opened Sweeper
  import opened Stages
  import opened Protocol
  import opened Frames
  import opened Basics
  import opened Artifacts
  import opened Storage
  import opened Verdicts
  import opened Completing
  import opened Progress
  import opened Reopening
  import FirstWriter
  import Funnel

  // ---- How many messages there are ----

  ghost function ExtractedIds(w: World, d: DocId): set<nat> {
    set j: nat | j < |w.t.sent| && ExtractedSent(w, d, j)
  }

  ghost predicate Accepts(a: Action, d: DocId) {
    a.Recover? && a.rec.AcceptReview? && a.rec.seen.doc == d
  }

  ghost predicate IsComplete(w: World, d: DocId) {
    d in w.t.docs && w.t.docs[d].state == Complete
  }

  /** A step that finds d complete enqueues another document.extracted for it exactly when it is an accept of d. */
  lemma AnotherExtracted(env: Env, ws: seq<World>, acts: seq<Action>, n: nat, d: DocId)
    requires env.Valid() && IsRun(env, ws, acts) && Under1(ws, acts) && n < |acts| && IsComplete(ws[n], d)
    ensures ExtractedIds(ws[n + 1], d) ==
            ExtractedIds(ws[n], d) + (if Accepts(acts[n], d) then {|ws[n].t.sent|} else {})
  {
    hide Next, Under1, Safe;
    SafeRun(env, ws, acts, n);
    MessagesOnce(env, ws[n], acts[n], ws[n + 1], d);
  }

  lemma MessagesOnce(env: Env, w: World, a: Action, w': World, d: DocId)
    requires Safe(env, w) && Next(env, w, a) == Some(w') && IsComplete(w, d)
    ensures ExtractedIds(w', d) == ExtractedIds(w, d) + (if Accepts(a, d) then {|w.t.sent|} else {})
  {
    hide Next, NewMsgs, Safe;
    StepGrows(env, w, a, w');
    forall k: nat | k < |NewMsgs(env, w, a)| && NewMsgs(env, w, a)[k].topic == DocumentExtracted &&
                    NewMsgs(env, w, a)[k].doc == d
      ensures Accepts(a, d) && k == 0
    {
      OnlyAccept(env, w, a, w', d, k);
    }
    if Accepts(a, d) { AcceptMsgs(env, w, a, d); }
    forall j: nat | j < |w'.t.sent| && ExtractedSent(w', d, j)
      ensures j in ExtractedIds(w, d) || (Accepts(a, d) && j == |w.t.sent|)
    {
      if j < |w.t.sent| {
        assert ExtractedSent(w, d, j);
      } else {
        assert w'.t.sent[j] == NewMsgs(env, w, a)[j - |w.t.sent|];
      }
    }
    forall j: nat | j < |w.t.sent| && ExtractedSent(w, d, j) ensures ExtractedSent(w', d, j) { }
  }

  lemma AcceptMsgs(env: Env, w: World, a: Action, d: DocId)
    requires Accepts(a, d)
    ensures NewMsgs(env, w, a) == [Msg(d, DocumentExtracted, OperatorOverride, Accept)]
  {
  }

  lemma OnlyAccept(env: Env, w: World, a: Action, w': World, d: DocId, k: nat)
    requires Safe(env, w) && Next(env, w, a) == Some(w') && IsComplete(w, d)
    requires k < |NewMsgs(env, w, a)| && NewMsgs(env, w, a)[k].topic == DocumentExtracted &&
             NewMsgs(env, w, a)[k].doc == d
    ensures Accepts(a, d) && k == 0
  {
    hide NextText, NextRecover, NextBroker, DoStart, DoLoad, DoAssemble, DoAttempt, DoFunnel, DoFinish, DoReroute,
         DoCrash, Basic, PagesInv, FinalInv, TextMsgs, FinishTxMsgs, RedriveMsgs, ForceMsgs;
    NewExtracted(env, w, a, w', k);
    if a.Extract? { CommitElsewhere(w, a.ext, d, k); }
  }

  /** Under H1 no handler commits a complete document. */
  lemma CommitElsewhere(w: World, a: ExtractAction, d: DocId, k: nat)
    requires OpenInv(w) && IsComplete(w, d) && k < |ExtractMsgs(w, a)|
    ensures ExtractMsgs(w, a)[k].doc != d
  {
    hide Violates;
    assert OpenDoc(w, a.h);
  }

  /** A document that is not complete has no such message. */
  lemma NoneOpen(env: Env, w: World, d: DocId)
    requires FinalInv(env, w) && !IsComplete(w, d)
    ensures ExtractedIds(w, d) == {}
  {
    forall j: nat | j < |w.t.sent| ensures !ExtractedSent(w, d, j) {
      assert MsgFinal(w, w.t.sent[j]);
    }
  }

  /** The step that completes a document enqueues exactly one. */
  lemma FirstExtracted(env: Env, w: World, a: Action, w': World, d: DocId)
    requires Safe(env, w) && Next(env, w, a) == Some(w') && !IsComplete(w, d) && IsComplete(w', d)
    requires FinalOk(env, w', d)
    ensures ExtractedIds(w', d) == {|w.t.sent|}
  {
    hide Next, NewMsgs, Basic, PagesInv, OpenInv, FinalInv, Earned;
    NoneOpen(env, w, d);
    StepGrows(env, w, a, w');
    BecomesComplete(env, w, a, w', d);
    OneMessage(env, w, a);
    var j: nat :| ExtractedSent(w', d, j);
    assert forall k: nat | k < |w.t.sent| && ExtractedSent(w, d, k) :: k in ExtractedIds(w, d);
    assert forall k: nat | k < |w.t.sent| && ExtractedSent(w', d, k) :: ExtractedSent(w, d, k);
  }

  lemma OneMessage(env: Env, w: World, a: Action)
    requires (a.Extract? && a.ext.Finish?) || (a.Recover? && a.rec.AcceptReview?)
    ensures |NewMsgs(env, w, a)| <= 1
  {
    hide Violates;
  }

  /** The accepts of d, up to step n, that found it complete. */
  ghost function LateAccepts(ws: seq<World>, acts: seq<Action>, n: nat, d: DocId): nat
    requires |ws| == |acts| + 1 && n < |ws|
  {
    if n == 0 then 0
    else LateAccepts(ws, acts, n - 1, d) + (if Accepts(acts[n - 1], d) && IsComplete(ws[n - 1], d) then 1 else 0)
  }

  lemma {:induction false} CountsTogether(env: Env, ws: seq<World>, acts: seq<Action>, n: nat, d: DocId)
    requires env.Valid() && IsRun(env, ws, acts) && Under1(ws, acts) && n < |ws|
    ensures |ExtractedIds(ws[n], d)| == LateAccepts(ws, acts, n, d) + (if IsComplete(ws[n], d) then 1 else 0)
    ensures !IsComplete(ws[n], d) ==> LateAccepts(ws, acts, n, d) == 0
  {
    hide Next, Under1, Basic, PagesInv, OpenInv, FinalInv, ExtractedIds, FinalOk;
    SafeRun(env, ws, acts, n);
    if n == 0 {
      NoneOpen(env, ws[0], d);
    } else {
      CountsTogether(env, ws, acts, n - 1, d);
      SafeRun(env, ws, acts, n - 1);
      if IsComplete(ws[n - 1], d) {
        CompleteIsAbsorbing(env, ws, acts, n - 1, n, d);
        AnotherExtracted(env, ws, acts, n - 1, d);
        NewId(ws[n - 1], d);
      } else if IsComplete(ws[n], d) {
        FinalPart(env, ws[n], d);
        FirstExtracted(env, ws[n - 1], acts[n - 1], ws[n], d);
      } else {
        NoneOpen(env, ws[n], d);
      }
    }
  }

  lemma FinalPart(env: Env, w: World, d: DocId)
    requires FinalInv(env, w) && d in w.t.docs
    ensures FinalOk(env, w, d)
  {
  }

  lemma NewId(w: World, d: DocId)
    ensures |w.t.sent| !in ExtractedIds(w, d)
  {
  }

  /** How many document.extracted messages a document has at any point of any run: none while it is not complete, and
      one and one more for every accept that found it complete. So there are several exactly when an operator accepted
      a review that was over. */
  lemma ExtractedCount(env: Env, ws: seq<World>, acts: seq<Action>, n: nat, d: DocId)
    requires env.Valid() && IsRun(env, ws, acts) && Under1(ws, acts) && n < |ws|
    ensures |ExtractedIds(ws[n], d)| == if IsComplete(ws[n], d) then 1 + LateAccepts(ws, acts, n, d) else 0
  {
    CountsTogether(env, ws, acts, n, d);
  }

  // ---- A run with two of them ----

  lemma AcceptRead(env: Env, rules: Rules, v: World, w: World, r: OpRead, note: OperatorNote) returns (w': World)
    requires Leads(env, rules, v, w) && r in w.opReads && r.row.state == Review
    requires r.doc in w.t.docs && w.t.docs[r.doc].state in {Review, Complete}
    ensures Leads(env, rules, v, w') && w'.opReads == w.opReads && w'.relays == w.relays && w'.log == w.log
    ensures w'.t == w.t.(docs := w'.t.docs, sent := w'.t.sent, pending := w'.t.pending)
    ensures r.doc in w'.t.docs && w'.t.docs[r.doc].state == Complete
    ensures w'.t.docs[r.doc].gates == r.row.gates.(override := Some(note))
    ensures w'.t.docs[r.doc].result == w.t.docs[r.doc].result
    ensures w'.t.sent == w.t.sent + [Msg(r.doc, DocumentExtracted, OperatorOverride, Accept)]
    ensures w'.t.pending == w.t.pending + {|w.t.sent|}
  {
    hide Leads, NextText, NextExtract, NextBroker;
    w' := DoAcceptReview(w, r, note).value;
    ExtendFreely(env, rules, v, w, Recover(AcceptReview(r, note)), w');
  }

  /** From any world reached with d in review, two operators who both read the row and then both accept it bring d to
      two messages, within any rules. */
  lemma AcceptedTwice(env: Env, rules: Rules, v: World, w: World, d: DocId, note: OperatorNote)
    returns (w': World, j: nat, k: nat)
    requires Leads(env, rules, v, w) && d in w.t.docs && w.t.docs[d].state == Review
    ensures Leads(env, rules, v, w') && j != k && ExtractedSent(w', d, j) && ExtractedSent(w', d, k)
  {
    hide Leads, NextText, NextExtract, NextBroker;
    var r := OpRead(d, w.t.docs[d], d in w.assembled);
    var w1 := w.(opReads := w.opReads + {r});
    ExtendFreely(env, rules, v, w, Recover(OperatorRead(d)), w1);
    var w2 := AcceptRead(env, rules, v, w1, r, note);
    w' := AcceptRead(env, rules, v, w2, r, note);
    j, k := |w1.t.sent|, |w2.t.sent|;
  }

  // ---- What the sink can post ----

  /** Some accept of d came before n. */
  ghost predicate Accepted(acts: seq<Action>, n: nat, d: DocId)
    requires n <= |acts|
  {
    exists k | 0 <= k < n :: Accepts(acts[k], d)
  }

  /** The message carries d's result; or it comes from an accept, and carries none. */
  ghost predicate CarriesResult(w: World, d: DocId, payload: Payload, accepted: bool) {
    if payload.AutoPost? then d in w.t.docs && w.t.docs[d].result == Some(HasFields(payload.fields)) else accepted
  }

  ghost predicate PostedOk(w: World, d: DocId, accepted: bool) {
    && (forall j: nat | j < |w.t.sent| && ExtractedSent(w, d, j) :: CarriesResult(w, d, w.t.sent[j].payload, accepted))
    && (d in w.t.posted ==>
          (d in w.t.docs && w.t.docs[d].result == Some(w.t.posted[d].fields)) ||
          (w.t.posted[d].fields == NoFields && accepted))
  }

  lemma CommitCarries(w: World, h: nat, autoPost: bool, w': World, k: nat)
    requires DoFinish(w, h, autoPost) == Some(w') && k < |ExtractMsgs(w, Finish(h, autoPost))|
    ensures var m := ExtractMsgs(w, Finish(h, autoPost))[k];
      m.payload.AutoPost? && CarriesResult(w', m.doc, m.payload, false)
  {
    hide Violates;
  }

  lemma NewCarries(env: Env, w: World, a: Action, w': World, d: DocId, k: nat)
    requires Basic(env, w) && Next(env, w, a) == Some(w') && k < |NewMsgs(env, w, a)|
    requires NewMsgs(env, w, a)[k].topic == DocumentExtracted && NewMsgs(env, w, a)[k].doc == d
    ensures CarriesResult(w', d, NewMsgs(env, w, a)[k].payload, Accepts(a, d))
  {
    hide NextText, NextRecover, NextBroker, DoStart, DoLoad, DoAssemble, DoAttempt, DoFunnel, DoFinish, DoReroute,
         DoCrash, Basic, TextMsgs, FinishTxMsgs, RedriveMsgs, ForceMsgs;
    NewExtracted(env, w, a, w', k);
    if a.Extract? { CommitCarries(w, a.ext.h, a.ext.autoPost, w', k); }
  }

  lemma StillCarries(env: Env, w: World, a: Action, w': World, d: DocId, payload: Payload, accepted: bool)
    requires Next(env, w, a) == Some(w') && CarriesResult(w, d, payload, accepted)
    ensures CarriesResult(w', d, payload, accepted || Accepts(a, d))
  {
    hide Next;
    if payload.AutoPost? { FirstWriter.ResultStays(env, w, a, w', d); }
  }

  lemma MessagesCarry(env: Env, w: World, a: Action, w': World, d: DocId, accepted: bool, j: nat)
    requires Basic(env, w) && PostedOk(w, d, accepted) && Next(env, w, a) == Some(w')
    requires j < |w'.t.sent| && ExtractedSent(w', d, j)
    ensures CarriesResult(w', d, w'.t.sent[j].payload, accepted || Accepts(a, d))
  {
    hide Next, NewMsgs, Basic, CarriesResult, Accepts;
    StepGrows(env, w, a, w');
    if j < |w.t.sent| {
      assert ExtractedSent(w, d, j);
      StillCarries(env, w, a, w', d, w.t.sent[j].payload, accepted);
    } else {
      assert w'.t.sent[j] == NewMsgs(env, w, a)[j - |w.t.sent|];
      NewCarries(env, w, a, w', d, j - |w.t.sent|);
      CarriesMore(w', d, w'.t.sent[j].payload, Accepts(a, d), accepted || Accepts(a, d));
    }
  }

  lemma CarriesMore(w: World, d: DocId, payload: Payload, accepted: bool, more: bool)
    requires CarriesResult(w, d, payload, accepted) && (accepted ==> more)
    ensures CarriesResult(w, d, payload, more)
  {
  }

  lemma PostedStays(env: Env, w: World, a: Action, w': World, d: DocId, accepted: bool)
    requires Basic(env, w) && PostedOk(w, d, accepted) && Next(env, w, a) == Some(w')
    ensures PostedOk(w', d, accepted || Accepts(a, d))
  {
    hide Next, Basic, Accepts;
    forall j: nat | j < |w'.t.sent| && ExtractedSent(w', d, j)
      ensures CarriesResult(w', d, w'.t.sent[j].payload, accepted || Accepts(a, d))
    {
      hide CarriesResult;
      MessagesCarry(env, w, a, w', d, accepted, j);
    }
    OnlySinkPosts(env, w, a, w');
    if d in w.t.posted {
      if d in w.t.docs && w.t.docs[d].result.Some? { FirstWriter.ResultStays(env, w, a, w', d); }
    } else if d in w'.t.posted {
      assert ExtractedSent(w, d, a.bro.msg);
    }
  }

  lemma {:induction false} PostedRun(env: Env, ws: seq<World>, acts: seq<Action>, n: nat, d: DocId)
    requires env.Valid() && IsRun(env, ws, acts) && n < |ws|
    ensures PostedOk(ws[n], d, Accepted(acts, n, d))
  {
    hide Next, Basic, Accepts;
    if n > 0 {
      PostedRun(env, ws, acts, n - 1, d);
      BasicRun(env, ws, acts, n - 1);
      PostedStays(env, ws[n - 1], acts[n - 1], ws[n], d, Accepted(acts, n - 1, d));
      assert Accepted(acts, n, d) == (Accepted(acts, n - 1, d) || Accepts(acts[n - 1], d));
    }
  }

  /** Posted fields are the document's result, or none at all; and none only after an accept. With no hypothesis on the
      run, and whatever became of the document between the operator's read and the accept. */
  lemma PostedResultOrNothing(env: Env, ws: seq<World>, acts: seq<Action>, n: nat, d: DocId)
    requires env.Valid() && IsRun(env, ws, acts) && n < |ws| && d in ws[n].t.posted
    ensures (d in ws[n].t.docs && ws[n].t.docs[d].result == Some(ws[n].t.posted[d].fields)) ||
            (ws[n].t.posted[d].fields == NoFields && Accepted(acts, n, d))
  {
    hide Next, Accepts;
    PostedRun(env, ws, acts, n, d);
  }

  // ---- A stale accept ----

  /** An operator reads d in review; d is then re-driven and completes with f; then the accept goes through. */
  lemma StaleAccept(env: Env, v: World, d: DocId, script: Funnel.Script, f: Fields, note: OperatorNote)
    returns (w: World, j: nat)
    requires env.Valid() && Reachable(env, ALL_RULES, v)
    requires d in v.t.docs && Sent(env, d) && v.t.docs[d].state == Review && v.t.docs[d].result.None?
    requires Answers(env, d, v.t.docs[d].docType, script, f) && !Violates(v.t.docs, d, f.seller, f.invoiceNo)
    ensures Leads(env, ALL_RULES, v, w) && IsComplete(w, d) && w.t.docs[d].result == Some(HasFields(f))
    ensures w.t.docs[d].gates == v.t.docs[d].gates.(override := Some(note))
    ensures w.t.posted == v.t.posted && w.relays == v.relays && |v.t.sent| <= j && j + 1 < |w.t.sent|
    ensures ExtractedSent(w, d, j) && w.t.sent[j].payload.AutoPost? && w.t.sent[j].payload.fields == f
    ensures ExtractedSent(w, d, j + 1) && w.t.sent[j + 1].payload == OperatorOverride
    ensures {j, j + 1} <= w.t.pending
  {
    hide Leads, NextText, NextExtract, NextBroker, Answers, Violates;
    var r := OpRead(d, v.t.docs[d], d in v.assembled);
    var w0 := v.(opReads := v.opReads + {r});
    ExtendFreely(env, ALL_RULES, v, v, Recover(OperatorRead(d)), w0);
    var w1 := RetryCompletes(env, v, w0, d, script, f);
    j := |w1.t.sent| - 1;
    w := AcceptRead(env, ALL_RULES, v, w1, r, note);
  }

  lemma DeliverAndPost(env: Env, rules: Rules, v: World, w: World, d: DocId, j: nat) returns (w': World)
    requires env.Valid() && Leads(env, rules, v, w) && j in w.t.pending && j !in LockedRows(w)
    requires j < |w.t.sent| && ExtractedSent(w, d, j) && d !in w.t.posted
    ensures Leads(env, rules, v, w') && d in w'.t.posted && w'.t.docs == w.t.docs
    ensures w'.t.posted[d] == Posted(PostedFields(w.t.sent[j].payload))
  {
    hide Leads, NextText, NextExtract, NextRecover, LockedRows;
    var w1 := Deliver(env, rules, v, w, j);
    w' := w1.(t := Post(w1.t, w1.t.sent[j]));
    ExtendFreely(env, rules, v, w1, Broker(SinkPost(j)), w');
  }

  /** Either message may reach the sink first: after a stale accept there are two continuations, one that posts the
      result and one that posts nothing in its place. */
  lemma EitherIsPosted(env: Env, v: World, d: DocId, script: Funnel.Script, f: Fields, note: OperatorNote)
    returns (w: World, w': World)
    requires env.Valid() && Reachable(env, ALL_RULES, v)
    requires d in v.t.docs && Sent(env, d) && v.t.docs[d].state == Review && v.t.docs[d].result.None?
    requires Answers(env, d, v.t.docs[d].docType, script, f) && !Violates(v.t.docs, d, f.seller, f.invoiceNo)
    ensures Leads(env, ALL_RULES, v, w) && Leads(env, ALL_RULES, v, w') && w.t.docs == w'.t.docs
    ensures IsComplete(w, d) && w.t.docs[d].result == Some(HasFields(f))
    ensures w.t.docs[d].gates == v.t.docs[d].gates.(override := Some(note))
    ensures d in w.t.posted && w.t.posted[d] == Posted(HasFields(f))
    ensures d in w'.t.posted && w'.t.posted[d] == Posted(NoFields)
  {
    hide Leads, Answers, Violates, LockedRows, Basic;
    NotPostedYet(env, v, d);
    ReachedFacts(env, ALL_RULES, v, v);
    var w0, j := StaleAccept(env, v, d, script, f, note);
    NewRowFree(env, v, w0);
    w := DeliverAndPost(env, ALL_RULES, v, w0, d, j);
    w' := DeliverAndPost(env, ALL_RULES, v, w0, d, j + 1);
  }

  lemma NotPostedYet(env: Env, v: World, d: DocId)
    requires env.Valid() && Reachable(env, ALL_RULES, v) && d in v.t.docs && v.t.docs[d].state != Complete
    ensures d !in v.t.posted
  {
    hide Next, H1, H2, H3;
    var ws: seq<World>, acts: seq<Action>, m: nat :| Passes(env, ALL_RULES, v, v, ws, acts, m);
    forall k | 0 <= k < |acts| ensures H1(ws[k], acts[k]) { assert Obeys(ALL_RULES, ws[k], acts[k], ws[k + 1]); }
    if d in v.t.posted { PostedIsComplete(env, ws, acts, |acts|, d); }
  }
}

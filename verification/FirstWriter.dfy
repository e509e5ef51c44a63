/** First writer wins over whole runs, with any number of handlers at work on the same document. */
module FirstWriter {
  import opened Types
  import opened Ledger
  import opened Protocol
  import opened Frames
  import opened Basics
  import opened Joining
  import opened Verdicts
  import opened Completing

  // ---- The result is written once ----

  lemma RerouteKeepsResult(t: Tables, d: DocId, gates: Report, now: Time, e: DocId)
    requires e in t.docs
    ensures e in RouteWithoutWriting(t, d, gates, Review, now).docs
    ensures RouteWithoutWriting(t, d, gates, Review, now).docs[e].result == t.docs[e].result
  {
  }

  lemma ResultStays(env: Env, w: World, a: Action, w': World, d: DocId)
    requires Next(env, w, a) == Some(w') && d in w.t.docs && w.t.docs[d].result.Some?
    ensures d in w'.t.docs && w'.t.docs[d].result == w.t.docs[d].result
  {
    hide NextText, NextRecover, NextBroker, DoStart, DoLoad, DoAssemble, DoAttempt, DoFunnel, DoFinish, DoCrash,
         PcAfter, FinishTx, RouteWithoutWriting;
    if !a.Extract? {
      OthersVerdict(env, w, a, w', d);
    } else {
      ExtractVerdict(env, w, a.ext, w', d);
      if Ends(env, w, a.ext, d) {
        match a.ext
        case Finish(h, autoPost) =>
          ClashVerdict(env, w, h, autoPost, w');
          FinishVerdict(w.t, d, w.handlers[h].pc.fields, w.handlers[h].pc.report, autoPost, w.now, w'.t);
        case Reroute(h) => RerouteKeepsResult(w.t, d, w.handlers[h].pc.report, w.now, d);
      }
    }
  }

  /** extraction_result is written at most once and then never changes. */
  lemma {:induction false} ResultWrittenOnce(env: Env, ws: seq<World>, acts: seq<Action>, m: nat, n: nat, d: DocId)
    requires IsRun(env, ws, acts) && m <= n < |ws| && d in ws[m].t.docs && ws[m].t.docs[d].result.Some?
    ensures d in ws[n].t.docs && ws[n].t.docs[d].result == ws[m].t.docs[d].result
    decreases n - m
  {
    hide Next;
    if m < n {
      ResultWrittenOnce(env, ws, acts, m, n - 1, d);
      ResultStays(env, ws[n - 1], acts[n - 1], ws[n], d);
    }
  }

  // ---- One document.extracted from the commit path ----

  predicate CommitSent(w: World, d: DocId, j: nat) {
    j < |w.t.sent| && w.t.sent[j].doc == d && w.t.sent[j].cause == Commit
  }

  ghost predicate CommitOk(w: World, d: DocId) {
    && (forall j: nat | CommitSent(w, d, j) :: d in w.t.docs && w.t.docs[d].result.Some?)
    && (forall j: nat, k: nat | CommitSent(w, d, j) && CommitSent(w, d, k) :: j == k)
  }

  /** Only a handler's commit that finds no result enqueues such a message, and then a single one. */
  lemma NewCommit(env: Env, w: World, a: Action, w': World, k: nat)
    requires Basic(env, w) && Next(env, w, a) == Some(w') && k < |NewMsgs(env, w, a)| &&
             NewMsgs(env, w, a)[k].cause == Commit
    ensures |NewMsgs(env, w, a)| == 1
    ensures var d := NewMsgs(env, w, a)[k].doc;
      d in w.t.docs && w.t.docs[d].result.None? && d in w'.t.docs && w'.t.docs[d].result.Some?
  {
    hide NextText, NextRecover, NextBroker, DoStart, DoLoad, DoAssemble, DoAttempt, DoFunnel, DoFinish, DoReroute,
         DoCrash,
         TextMsgs, RecoverMsgs, Basic;
    match a
    case Text(x) => TextCauses(env, w, x);
    case Extract(x) => CommitWrites(env, w, x.h, x.autoPost, w');
    case Recover(x) => RecoverCauses(env, w, x);
    case Broker(x) =>
  }

  lemma CommitWrites(env: Env, w: World, h: nat, autoPost: bool, w': World)
    requires DoFinish(w, h, autoPost) == Some(w') && ExtractMsgs(w, Finish(h, autoPost)) != []
    ensures h in w.handlers && |ExtractMsgs(w, Finish(h, autoPost))| == 1
    ensures ExtractMsgs(w, Finish(h, autoPost))[0].doc == w.handlers[h].doc
    ensures var d := w.handlers[h].doc;
      d in w.t.docs && w.t.docs[d].result.None? && d in w'.t.docs && w'.t.docs[d].result.Some?
  {
    hide Violates;
  }

  lemma CommitStep(env: Env, w: World, a: Action, w': World, d: DocId)
    requires Basic(env, w) && CommitOk(w, d) && Next(env, w, a) == Some(w')
    ensures CommitOk(w', d)
  {
    hide Next, NewMsgs, Basic;
    StepGrows(env, w, a, w');
    if d in w.t.docs && w.t.docs[d].result.Some? { ResultStays(env, w, a, w', d); }
    forall j: nat | CommitSent(w', d, j)
      ensures d in w'.t.docs && w'.t.docs[d].result.Some?
      ensures j >= |w.t.sent| ==> (forall k: nat | CommitSent(w', d, k) :: j == k)
    {
      if j < |w.t.sent| {
        assert CommitSent(w, d, j);
      } else {
        assert w'.t.sent[j] == NewMsgs(env, w, a)[j - |w.t.sent|];
        NewCommit(env, w, a, w', j - |w.t.sent|);
        forall k: nat | CommitSent(w', d, k) ensures j == k {
          assert !CommitSent(w, d, k);
        }
      }
    }
    forall j: nat, k: nat | CommitSent(w', d, j) && CommitSent(w', d, k) ensures j == k {
      if j < |w.t.sent| && k < |w.t.sent| { assert CommitSent(w, d, j) && CommitSent(w, d, k); }
    }
  }

  lemma {:induction false} CommitRun(env: Env, ws: seq<World>, acts: seq<Action>, n: nat, d: DocId)
    requires env.Valid() && IsRun(env, ws, acts) && n < |ws|
    ensures CommitOk(ws[n], d)
  {
    hide Next, Basic;
    if n > 0 {
      CommitRun(env, ws, acts, n - 1, d);
      BasicRun(env, ws, acts, n - 1);
      CommitStep(env, ws[n - 1], acts[n - 1], ws[n], d);
    }
  }

  /** The commit path enqueues at most one document.extracted per document, and only with a result in place. */
  lemma AtMostOneCommitMessage(env: Env, ws: seq<World>, acts: seq<Action>, n: nat, d: DocId)
    requires env.Valid() && IsRun(env, ws, acts) && n < |ws|
    ensures forall j: nat | CommitSent(ws[n], d, j) :: d in ws[n].t.docs && ws[n].t.docs[d].result.Some?
    ensures forall j: nat, k: nat | CommitSent(ws[n], d, j) && CommitSent(ws[n], d, k) :: j == k
  {
    hide Next;
    CommitRun(env, ws, acts, n, d);
  }

  // ---- A losing commit ----

  lemma LosingTables(t: Tables, d: DocId, fields: Option<Fields>, report: Report, autoPost: bool, now: Time, t': Tables)
    requires d in t.docs && t.docs[d].result.Some? && FinishTx(t, d, fields, report, autoPost, now) == Some(t')
    ensures t' == t.(docs := t'.docs) && d in t'.docs
    ensures t'.docs == t.docs[d := t.docs[d].(vendor := t'.docs[d].vendor, invoiceNo := t'.docs[d].invoiceNo)]
  {
    hide Violates;
  }

  /** A commit that finds a result already written leaves state, result, gate results, outbox and every other row
      as they were. */
  lemma LosingCommitIsQuiet(env: Env, w: World, h: nat, autoPost: bool, w': World)
    requires h in w.handlers && w.handlers[h].doc in w.t.docs && w.t.docs[w.handlers[h].doc].result.Some?
    requires Next(env, w, Extract(Finish(h, autoPost))) == Some(w')
    ensures w'.t == w.t.(docs := w'.t.docs) && w.handlers[h].doc in w'.t.docs
    ensures var d := w.handlers[h].doc;
      w'.t.docs == w.t.docs[d := w.t.docs[d].(vendor := w'.t.docs[d].vendor, invoiceNo := w'.t.docs[d].invoiceNo)]
  {
    hide DoFinish, PcAfter, FinishTx;
    ClashVerdict(env, w, h, autoPost, w');
    if PcAfter(env, w, Finish(h, autoPost)).None? {
      LosingTables(w.t, w.handlers[h].doc, w.handlers[h].pc.fields, w.handlers[h].pc.report, autoPost, w.now, w'.t);
    }
  }

  /** Exactly when a losing commit changes nothing at all: unless it was about to complete the document with another
      business key. The key columns are written outside the first-writer guard. */
  lemma LosingCommitKey(t: Tables, d: DocId, fields: Option<Fields>, report: Report, autoPost: bool, now: Time,
      t': Tables)
    requires d in t.docs && t.docs[d].result.Some? && FinishTx(t, d, fields, report, autoPost, now) == Some(t')
    ensures t' == t <==>
              fields.None? || !autoPost || (t.docs[d].vendor == fields.value.seller &&
                  t.docs[d].invoiceNo == fields.value.invoiceNo)
  {
    hide Violates;
    if fields.Some? && autoPost {
      assert t'.docs[d].vendor == fields.value.seller && t'.docs[d].invoiceNo == fields.value.invoiceNo;
      if t.docs[d].vendor == fields.value.seller && t.docs[d].invoiceNo == fields.value.invoiceNo {
        assert t'.docs == t.docs;
      }
    }
  }

  // ---- What a result without completion forbids ----

  ghost predicate Held(w: World, d: DocId) {
    d in w.t.docs && w.t.docs[d].result.Some? && (w.t.docs[d].state == Complete ==> Granted(w, d))
  }

  lemma HeldStep(env: Env, w: World, a: Action, w': World, d: DocId)
    requires OpenInv(w) && Held(w, d) && Next(env, w, a) == Some(w')
    ensures Held(w', d)
  {
    hide OpenInv, NextText, NextRecover, NextBroker, DoStart, DoLoad, DoAssemble, DoAttempt, DoFunnel, DoFinish,
         DoReroute, DoCrash, FinishTx;
    ResultStays(env, w, a, w', d);
    if w.t.docs[d].state == Complete {
      CompleteKept(env, w, a, w', d);
    } else if w'.t.docs[d].state == Complete {
      BecomesComplete(env, w, a, w', d);
      match a
      case Extract(x) =>
        ClashVerdict(env, w, x.h, x.autoPost, w');
        if PcAfter(env, w, x).None? {
          FinishVerdict(w.t, d, w.handlers[x.h].pc.fields, w.handlers[x.h].pc.report, x.autoPost, w.now, w'.t);
        }
      case Recover(x) => AcceptedFinal(env, w, x, w', d);
    }
  }

  /** A document that holds a result without being complete (the gates were exhausted, or auto-posting was switched
      off) can never complete by itself again, however often it is re-driven: only an operator's override completes
      it. */
  lemma {:induction false} HeldBackNeedsOverride(env: Env, ws: seq<World>, acts: seq<Action>, m: nat, n: nat, d: DocId)
    requires IsRun(env, ws, acts) && Under1(ws, acts) && m <= n < |ws|
    requires d in ws[m].t.docs && ws[m].t.docs[d].result.Some? && ws[m].t.docs[d].state != Complete
    ensures Held(ws[n], d)
    decreases n - m
  {
    hide Next, Under1;
    if m < n {
      HeldBackNeedsOverride(env, ws, acts, m, n - 1, d);
      OpenRun(env, ws, acts, n - 1);
      HeldStep(env, ws[n - 1], acts[n - 1], ws[n], d);
    }
  }
}

/** Who holds a business key. A row's key is that of its document's last auto-posting commit, winning or losing; so a
    row that is not complete can hold a key, and stand in the way of another document. */
module Keys {
  import opened Types
  import opened Ledger
  import opened Protocol
  import opened Frames
  import opened Basics
  import opened Artifacts
  import opened Verdicts
  import opened Completing

  type Key = (Option<string>, Option<string>)

  const NO_KEY: Key := (None, None)

  function KeyOf(doc: Doc): Key {
    (doc.vendor, doc.invoiceNo)
  }

  /** The step commits d with fields to post, and the unique index lets it through. */
  ghost predicate KeyWrite(w: World, a: Action, d: DocId) {
    && a.Extract? && a.ext.Finish? && a.ext.autoPost
    && a.ext.h in w.handlers && w.handlers[a.ext.h].doc == d && w.handlers[a.ext.h].pc.Decided?
    && w.handlers[a.ext.h].pc.fields.Some? && !Clash(w, w.handlers[a.ext.h], true)
  }

  ghost function Written(w: World, a: Action, d: DocId): Key
    requires KeyWrite(w, a, d)
  {
    var f := w.handlers[a.ext.h].pc.fields.value;
    (f.seller, f.invoiceNo)
  }

  /** The commit finds a result already written. */
  ghost predicate LosingWrite(w: World, a: Action, d: DocId) {
    KeyWrite(w, a, d) && d in w.t.docs && w.t.docs[d].result.Some?
  }

  // ---- One step ----

  lemma FinishKey(t: Tables, d: DocId, fields: Option<Fields>, report: Report, autoPost: bool, now: Time, t': Tables)
    requires FinishTx(t, d, fields, report, autoPost, now) == Some(t') && d in t.docs
    ensures d in t'.docs
    ensures KeyOf(t'.docs[d]) ==
              if fields.Some? && autoPost then (fields.value.seller, fields.value.invoiceNo) else KeyOf(t.docs[d])
  {
    hide Violates;
  }

  lemma RerouteKey(t: Tables, d: DocId, gates: Report, now: Time, e: DocId)
    requires e in t.docs
    ensures e in RouteWithoutWriting(t, d, gates, Review, now).docs
    ensures KeyOf(RouteWithoutWriting(t, d, gates, Review, now).docs[e]) == KeyOf(t.docs[e])
  {
  }

  lemma ExtractKey(env: Env, w: World, a: ExtractAction, w': World, d: DocId)
    requires NextExtract(env, w, a) == Some(w') && d in w.t.docs
    ensures d in w'.t.docs
    ensures KeyOf(w'.t.docs[d]) == if KeyWrite(w, Extract(a), d) then Written(w, Extract(a), d) else KeyOf(w.t.docs[d])
  {
    hide DoStart, DoLoad, DoAssemble, DoAttempt, DoFunnel, DoFinish, DoCrash, FinishTx, RouteWithoutWriting, PcAfter,
         Violates;
    ExtractVerdict(env, w, a, w', d);
    match a
    case Finish(h, autoPost) =>
      ClashVerdict(env, w, h, autoPost, w');
      FinishPc(env, w, h, autoPost);
      if PcAfter(env, w, a).None? && w.handlers[h].doc == d {
        FinishKey(w.t, d, w.handlers[h].pc.fields, w.handlers[h].pc.report, autoPost, w.now, w'.t);
      }
    case Reroute(h) => RerouteKey(w.t, w.handlers[h].doc, w.handlers[h].pc.report, w.now, d);
    case _ =>
  }

  lemma FinishPc(env: Env, w: World, h: nat, autoPost: bool)
    requires Enabled(env, w, Finish(h, autoPost))
    ensures PcAfter(env, w, Finish(h, autoPost)).None? <==> !Clash(w, w.handlers[h], autoPost)
    ensures w.handlers[h].pc.Decided?
  {
    hide Clash;
  }

  lemma NewRowKeyless(env: Env, w: World, a: Action, w': World, d: DocId)
    requires Next(env, w, a) == Some(w') && d !in w.t.docs && d in w'.t.docs
    ensures KeyOf(w'.t.docs[d]) == NO_KEY
  {
    hide NextText, NextExtract, NextRecover, NextBroker, TextMsgs, RecoverMsgs, ExtractMsgs, SameButRecovery,
         SameButVerdict, HandlerFrame;
    match a
    case Text(x) =>
      TriageOnly(env, w, x, w', d);
      TriagedKeyless(env, w, x, w', d);
    case Extract(x) => ExtractSteps(env, w, x, w');
    case Recover(x) => RecoverSteps(env, w, x, w');
    case Broker(x) => BrokerSteps(w, x, w');
  }

  lemma TriagedKeyless(env: Env, w: World, a: TextAction, w': World, d: DocId)
    requires NextText(env, w, a) == Some(w') && a.Triage? && d !in w.t.docs && d in w'.t.docs
    ensures KeyOf(w'.t.docs[d]) == NO_KEY
  {
    hide DispatchMsg;
  }

  lemma KeyStep(env: Env, w: World, a: Action, w': World, d: DocId)
    requires Next(env, w, a) == Some(w') && d in w'.t.docs
    ensures KeyOf(w'.t.docs[d]) ==
              if d !in w.t.docs then NO_KEY else if KeyWrite(w, a, d) then Written(w, a, d) else KeyOf(w.t.docs[d])
  {
    hide NextText, NextExtract, NextRecover, NextBroker, Clash, KeyWrite;
    if d !in w.t.docs {
      NewRowKeyless(env, w, a, w', d);
    } else if a.Extract? {
      ExtractKey(env, w, a.ext, w', d);
    } else {
      OthersVerdict(env, w, a, w', d);
      NotAKeyWrite(w, a, d);
    }
  }

  lemma NotAKeyWrite(w: World, a: Action, d: DocId)
    requires !a.Extract?
    ensures !KeyWrite(w, a, d)
  {
  }

  // ---- The history ----

  /** The key of the last key-writing commit of d before step n. */
  ghost function LastKey(ws: seq<World>, acts: seq<Action>, n: nat, d: DocId): Key
    requires |ws| == |acts| + 1 && n < |ws|
  {
    if n == 0 then NO_KEY
    else if KeyWrite(ws[n - 1], acts[n - 1], d) then Written(ws[n - 1], acts[n - 1], d)
    else LastKey(ws, acts, n - 1, d)
  }

  /** In every run each row holds exactly the key its document's last key-writing commit wrote, won or lost. */
  lemma {:induction false} KeyIsLastWritten(env: Env, ws: seq<World>, acts: seq<Action>, n: nat, d: DocId)
    requires env.Valid() && IsRun(env, ws, acts) && n < |ws|
    ensures (if d in ws[n].t.docs then KeyOf(ws[n].t.docs[d]) else NO_KEY) == LastKey(ws, acts, n, d)
  {
    hide Next, Basic, KeyWrite, NewMsgs;
    if n > 0 {
      var w, a, w' := ws[n - 1], acts[n - 1], ws[n];
      KeyIsLastWritten(env, ws, acts, n - 1, d);
      BasicRun(env, ws, acts, n - 1);
      StepGrows(env, w, a, w');
      if KeyWrite(w, a, d) { WriterKnown(env, w, a, d); }
      if d in w'.t.docs { KeyStep(env, w, a, w', d); }
    }
  }

  lemma WriterKnown(env: Env, w: World, a: Action, d: DocId)
    requires Basic(env, w) && KeyWrite(w, a, d)
    ensures d in w.t.docs
  {
    hide Basic, Clash;
    HandlerDoc(env, w, a.ext.h);
  }

  /** The commit that wrote the key in force. */
  lemma {:induction false} LastWriter(ws: seq<World>, acts: seq<Action>, n: nat, d: DocId) returns (k: nat)
    requires |ws| == |acts| + 1 && n < |ws| && LastKey(ws, acts, n, d) != NO_KEY
    ensures k < n && KeyWrite(ws[k], acts[k], d) && Written(ws[k], acts[k], d) == LastKey(ws, acts, n, d)
  {
    hide KeyWrite;
    if KeyWrite(ws[n - 1], acts[n - 1], d) {
      k := n - 1;
    } else {
      k := LastWriter(ws, acts, n - 1, d);
    }
  }

  /** A commit that writes the key of a document without a result completes it. */
  lemma WinningWrite(env: Env, w: World, a: Action, w': World, d: DocId)
    requires Next(env, w, a) == Some(w') && KeyWrite(w, a, d) && d in w.t.docs && w.t.docs[d].result.None?
    ensures d in w'.t.docs && w'.t.docs[d].state == Complete
  {
    hide NextText, NextRecover, NextBroker, DoFinish, FinishTx, PcAfter, Violates;
    var h := a.ext.h;
    ClashVerdict(env, w, h, true, w');
    FinishPc(env, w, h, true);
    FinishVerdict(w.t, d, w.handlers[h].pc.fields, w.handlers[h].pc.report, true, w.now, w'.t);
  }

  // ---- The theorems ----

  /** Some step before n was a losing commit of d that wrote this key. */
  ghost predicate LostWith(ws: seq<World>, acts: seq<Action>, n: nat, d: DocId, key: Key)
    requires |ws| == |acts| + 1 && n < |ws|
  {
    exists k: nat :: LostAt(ws, acts, n, d, key, k)
  }

  ghost predicate LostAt(ws: seq<World>, acts: seq<Action>, n: nat, d: DocId, key: Key, k: nat)
    requires |ws| == |acts| + 1 && n < |ws|
  {
    k < n && LosingWrite(ws[k], acts[k], d) && Written(ws[k], acts[k], d) == key
  }

  /** Under H1 a row that is not complete holds a key only from a commit of its own document that lost. */
  lemma IncompleteKeyWasLost(env: Env, ws: seq<World>, acts: seq<Action>, n: nat, d: DocId)
    requires env.Valid() && IsRun(env, ws, acts) && Under1(ws, acts) && n < |ws|
    requires d in ws[n].t.docs && ws[n].t.docs[d].state != Complete && KeyOf(ws[n].t.docs[d]) != NO_KEY
    ensures LostWith(ws, acts, n, d, KeyOf(ws[n].t.docs[d]))
  {
    hide Next, Under1, KeyWrite, Basic;
    KeyIsLastWritten(env, ws, acts, n, d);
    var k := LastWriter(ws, acts, n, d);
    BasicRun(env, ws, acts, k);
    WriterKnown(env, ws[k], acts[k], d);
    if ws[k].t.docs[d].result.None? {
      WinningWrite(env, ws[k], acts[k], ws[k + 1], d);
      CompleteIsAbsorbing(env, ws, acts, k + 1, n, d);
    }
    assert LosingWrite(ws[k], acts[k], d);
    assert LostAt(ws, acts, n, d, KeyOf(ws[n].t.docs[d]), k);
  }

  /** ... and such a commit leaves exactly that: the key in the row, the state and the result as they were, the document
      not complete. */
  lemma LosingWriteHoldsKey(env: Env, ws: seq<World>, acts: seq<Action>, n: nat, d: DocId)
    requires env.Valid() && IsRun(env, ws, acts) && Under1(ws, acts) && n < |acts| && LosingWrite(ws[n], acts[n], d)
    ensures d in ws[n + 1].t.docs && ws[n + 1].t.docs[d].state == ws[n].t.docs[d].state != Complete
    ensures KeyOf(ws[n + 1].t.docs[d]) == Written(ws[n], acts[n], d)
    ensures ws[n + 1].t.docs[d].result == ws[n].t.docs[d].result
  {
    hide NextText, NextExtract, NextRecover, NextBroker, Under1, Basic, Violates;
    OpenRun(env, ws, acts, n);
    var w, a, w' := ws[n], acts[n], ws[n + 1];
    assert Next(env, w, a) == Some(w');
    assert OpenDoc(w, a.ext.h);
    LosingVerdict(env, w, a, w', d);
    KeyStep(env, w, a, w', d);
  }

  lemma LosingVerdict(env: Env, w: World, a: Action, w': World, d: DocId)
    requires Next(env, w, a) == Some(w') && LosingWrite(w, a, d)
    ensures d in w'.t.docs && w'.t.docs[d].state == w.t.docs[d].state && w'.t.docs[d].result == w.t.docs[d].result
  {
    hide NextText, NextRecover, NextBroker, DoFinish, FinishTx, PcAfter, Violates;
    var h := a.ext.h;
    ClashVerdict(env, w, h, true, w');
    FinishPc(env, w, h, true);
    FinishVerdict(w.t, d, w.handlers[h].pc.fields, w.handlers[h].pc.report, true, w.now, w'.t);
  }

  /** The row stands in the way of a commit of d with this key. */
  ghost predicate InTheWay(w: World, d: DocId, key: Key, e: DocId) {
    e in w.t.docs && e != d && KeyOf(w.t.docs[e]) == key && key.0.Some? && key.1.Some?
  }

  lemma ViolatesIff(docs: map<DocId, Doc>, d: DocId, vendor: Option<string>, invoiceNo: Option<string>)
    requires d in docs
    ensures Violates(docs, d, vendor, invoiceNo) <==>
              vendor.Some? && invoiceNo.Some? && exists e ::
                  e in docs && e != d && KeyOf(docs[e]) == (vendor, invoiceNo)
  {
    var docs' := docs[d := docs[d].(vendor := vendor, invoiceNo := invoiceNo)];
    if vendor.Some? && invoiceNo.Some? {
      forall e | e in docs && e != d && KeyOf(docs[e]) == (vendor, invoiceNo) ensures KeyClash(docs', d, e) {
      }
    }
  }

  /** A commit is refused exactly when another row holds its key; and under H1 that row is complete, or holds it from a
      losing commit of its own. */
  lemma RefusedBecause(env: Env, ws: seq<World>, acts: seq<Action>, n: nat, h: nat)
    requires env.Valid() && IsRun(env, ws, acts) && Under1(ws, acts) && n < |ws|
    requires h in ws[n].handlers && ws[n].handlers[h].pc.Decided? && ws[n].handlers[h].pc.fields.Some?
    ensures var x := ws[n].handlers[h];
      var key := (x.pc.fields.value.seller, x.pc.fields.value.invoiceNo);
      && (Clash(ws[n], x, true) <==> exists e :: InTheWay(ws[n], x.doc, key, e))
      && (forall e | InTheWay(ws[n], x.doc, key, e) ::
            ws[n].t.docs[e].state == Complete || LostWith(ws, acts, n, e, key))
  {
    hide Next, Under1, Basic, Violates, LostWith;
    var x := ws[n].handlers[h];
    var f := x.pc.fields.value;
    BasicRun(env, ws, acts, n);
    HandlerDoc(env, ws[n], h);
    ViolatesIff(ws[n].t.docs, x.doc, f.seller, f.invoiceNo);
    if f.seller.Some? && f.invoiceNo.Some? {
      if e :| e in ws[n].t.docs && e != x.doc && KeyOf(ws[n].t.docs[e]) == (f.seller, f.invoiceNo) {
        assert InTheWay(ws[n], x.doc, (f.seller, f.invoiceNo), e);
      }
    }
    forall e | InTheWay(ws[n], x.doc, (f.seller, f.invoiceNo), e)
      ensures ws[n].t.docs[e].state == Complete || LostWith(ws, acts, n, e, (f.seller, f.invoiceNo))
    {
      if ws[n].t.docs[e].state != Complete { IncompleteKeyWasLost(env, ws, acts, n, e); }
    }
  }
}

/** No invoice is completed twice, although the dedupe gate is only a read. */
module Unique {
  import opened Types
  import opened Ledger
  import opened Protocol
  import opened Frames
  import opened Basics
  import opened Verdicts
  import opened Completing

  predicate SameBusinessKey(a: Doc, b: Doc) {
    a.vendor == b.vendor && a.invoiceNo == b.invoiceNo
  }

  /** The row is as it was, or has no vendor yet. */
  ghost predicate KeyKept(docs: map<DocId, Doc>, docs': map<DocId, Doc>, e: DocId)
    requires e in docs'
  {
    docs'[e].vendor.None? || (e in docs && SameBusinessKey(docs[e], docs'[e]))
  }

  lemma UniqueStays(docs: map<DocId, Doc>, docs': map<DocId, Doc>)
    requires UniqueIndex(docs) && forall e | e in docs' :: KeyKept(docs, docs', e)
    ensures UniqueIndex(docs')
  {
    forall d, e | d in docs' && e in docs' ensures !KeyClash(docs', d, e) {
      assert KeyKept(docs, docs', d) && KeyKept(docs, docs', e);
      assert d in docs && e in docs ==> !KeyClash(docs, d, e);
    }
  }

  lemma UniqueUpdate(docs: map<DocId, Doc>, d: DocId, vendor: Option<string>, invoiceNo: Option<string>)
    requires UniqueIndex(docs) && d in docs && !Violates(docs, d, vendor, invoiceNo)
    ensures UniqueIndex(docs[d := docs[d].(vendor := vendor, invoiceNo := invoiceNo)])
  {
    var docs' := docs[d := docs[d].(vendor := vendor, invoiceNo := invoiceNo)];
    forall x, y | x in docs' && y in docs' ensures !KeyClash(docs', x, y) {
      if x != d && y != d {
        assert !KeyClash(docs, x, y);
      } else if x == d {
        assert y in docs;
      } else {
        assert x in docs;
        assert !KeyClash(docs', d, x);
      }
    }
  }

  lemma CommitKeys(t: Tables, d: DocId, result: Extraction, gates: Report, final: DocState, payload: Option<Payload>,
      now: Time)
    ensures forall e | e in CommitExtraction(t, d, result, gates, final, payload, now).0.docs ::
              KeyKept(t.docs, CommitExtraction(t, d, result, gates, final, payload, now).0.docs, e)
  {
  }

  lemma FinishUnique(t: Tables, d: DocId, fields: Option<Fields>, report: Report, autoPost: bool, now: Time, t': Tables)
    requires UniqueIndex(t.docs) && d in t.docs && FinishTx(t, d, fields, report, autoPost, now) == Some(t')
    ensures UniqueIndex(t'.docs)
  {
    hide UniqueIndex, CommitExtraction, KeyKept, Violates;
    if fields.None? {
      CommitKeys(t, d, NoFields, report, Review, None, now);
      UniqueStays(t.docs, t'.docs);
    } else if !autoPost {
      CommitKeys(t, d, HasFields(fields.value), report.(killSwitch := Some(Fail)), Review, None, now);
      UniqueStays(t.docs, t'.docs);
    } else {
      var f := fields.value;
      var t1 := SetBusinessKey(t, d, f.seller, f.invoiceNo);
      UniqueUpdate(t.docs, d, f.seller, f.invoiceNo);
      CommitKeys(t1, d, HasFields(f), report, Complete, Some(AutoPost(f, report)), now);
      UniqueStays(t1.docs, t'.docs);
    }
  }

  lemma ExtractUnique(env: Env, w: World, a: ExtractAction, w': World)
    requires Basic(env, w) && UniqueIndex(w.t.docs) && NextExtract(env, w, a) == Some(w')
    ensures UniqueIndex(w'.t.docs)
  {
    hide DoStart, DoLoad, DoAssemble, DoAttempt, DoFunnel, DoFinish, DoCrash, ExtractMsgs, HandlerFrame, SameButVerdict,
         UniqueIndex, Basic, PcAfter, Moved;
    ExtractSteps(env, w, a, w');
    if a.Finish? {
      FinishStepUnique(env, w, a.h, a.autoPost, w');
    } else {
      forall e | e in w'.t.docs ensures KeyKept(w.t.docs, w'.t.docs, e) {
        ExtractVerdict(env, w, a, w', e);
        HandlersAfter(env, w, a, w');
      }
      UniqueStays(w.t.docs, w'.t.docs);
    }
  }

  lemma FinishStepUnique(env: Env, w: World, h: nat, autoPost: bool, w': World)
    requires Basic(env, w) && UniqueIndex(w.t.docs) && DoFinish(w, h, autoPost) == Some(w')
    ensures UniqueIndex(w'.t.docs)
  {
    hide Basic, UniqueIndex, FinishTx, Clash;
    ClashVerdict(env, w, h, autoPost, w');
    if PcAfter(env, w, Finish(h, autoPost)).None? {
      HandlerIn(env, w, h);
      FinishUnique(w.t, w.handlers[h].doc, w.handlers[h].pc.fields, w.handlers[h].pc.report, autoPost, w.now, w'.t);
    }
  }

  lemma HandlerIn(env: Env, w: World, h: nat)
    requires Basic(env, w) && h in w.handlers
    ensures w.handlers[h].doc in w.t.docs
  {
    assert HandlerRowOk(env, w, h);
  }

  lemma UniqueStep(env: Env, w: World, a: Action, w': World)
    requires Basic(env, w) && UniqueIndex(w.t.docs) && Next(env, w, a) == Some(w')
    ensures UniqueIndex(w'.t.docs)
  {
    hide NextText, NextExtract, NextRecover, NextBroker, Basic, UniqueIndex;
    if a.Extract? {
      ExtractUnique(env, w, a.ext, w');
    } else {
      forall e | e in w'.t.docs ensures KeyKept(w.t.docs, w'.t.docs, e) {
        if e in w.t.docs {
          OthersVerdict(env, w, a, w', e);
        } else {
          NewRowKey(env, w, a, w', e);
        }
      }
      UniqueStays(w.t.docs, w'.t.docs);
    }
  }

  lemma NewRowKey(env: Env, w: World, a: Action, w': World, e: DocId)
    requires Next(env, w, a) == Some(w') && !a.Extract? && e in w'.t.docs && e !in w.t.docs
    ensures w'.t.docs[e].vendor.None?
  {
    hide NextText, NextRecover, NextBroker, RecoverMsgs, SameButRecovery;
    match a
    case Text(x) => TriageOnly(env, w, x, w', e);
    case Recover(x) => RecoverSteps(env, w, x, w');
    case Broker(x) => BrokerSteps(w, x, w');
  }

  /** The index holds throughout every run, with no hypothesis. */
  lemma {:induction false} IndexHolds(env: Env, ws: seq<World>, acts: seq<Action>, n: nat)
    requires env.Valid() && IsRun(env, ws, acts) && n < |ws|
    ensures UniqueIndex(ws[n].t.docs)
  {
    hide Next, Basic;
    if n > 0 {
      IndexHolds(env, ws, acts, n - 1);
      BasicRun(env, ws, acts, n - 1);
      UniqueStep(env, ws[n - 1], acts[n - 1], ws[n]);
    }
  }

  /** The other half of the design: a commit that the index refuses changes no table, and the handler's next write
      parks the document in review with a dedupe failure and leaves its result as it was. */
  lemma ClashGoesToReview(env: Env, w: World, h: nat, autoPost: bool, w': World, w'': World)
    requires Basic(env, w) && h in w.handlers && w.handlers[h].pc.Decided? && Clash(w, w.handlers[h], autoPost)
    requires Next(env, w, Extract(Finish(h, autoPost))) == Some(w') && Next(env, w', Extract(Reroute(h))) == Some(w'')
    ensures w'.t == w.t && w.handlers[h].doc in w.t.docs && w.handlers[h].doc in w''.t.docs
    ensures var d := w.handlers[h].doc;
      && w''.t.docs[d].state == Review && w''.t.docs[d].gates.dedupe == Some(Fail)
      && w''.t.docs[d].result == w.t.docs[d].result && w''.t.sent == w.t.sent && h !in w''.handlers
  {
    hide Basic, FinishTx, Violates;
    HandlerIn(env, w, h);
    ClashVerdict(env, w, h, autoPost, w');
  }

  /** No invoice completed twice: two different complete documents that no operator granted never hold results with
      the same seller and invoice number, both present. */
  lemma NoInvoiceTwice(env: Env, ws: seq<World>, acts: seq<Action>, n: nat, d: DocId, e: DocId)
    requires env.Valid() && IsRun(env, ws, acts) && Under1(ws, acts) && n < |ws| && d != e
    requires d in ws[n].t.docs && ws[n].t.docs[d].state == Complete && ws[n].t.docs[d].gates.override.None?
    requires e in ws[n].t.docs && ws[n].t.docs[e].state == Complete && ws[n].t.docs[e].gates.override.None?
    ensures var rd, re := ws[n].t.docs[d].result, ws[n].t.docs[e].result;
      && rd.Some? && rd.value.HasFields? && re.Some? && re.value.HasFields?
      && var f, g := rd.value.fields, re.value.fields;
         !(f.seller.Some? && f.invoiceNo.Some? && f.seller == g.seller && f.invoiceNo == g.invoiceNo)
  {
    hide Next, Under1, Basic, OpenInv, Backed, MsgFinal, PostFinal, HandlerSound;
    SafeRun(env, ws, acts, n);
    IndexHolds(env, ws, acts, n);
    var w := ws[n];
    assert FinalOk(env, w, d) && FinalOk(env, w, e);
    assert !KeyClash(w.t.docs, d, e);
  }
}

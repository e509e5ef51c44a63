/** The ledger as the program runs it: an object whose tables the statements update in place. */
module Database {
  import opened Types
  import opened Ledger

  /** `outbox` holds the rows not yet deleted, `nextId` is its sequence; `sent` remembers every row inserted. */
  class Database {
    var docs: map<DocId, Doc>
    var shards: map<DocId, set<nat>>
    var outbox: map<nat, Msg>
    var nextId: nat
    var posted: map<DocId, Posted>
    ghost var sent: seq<Msg>

    ghost predicate Valid()
      reads this
    {
      nextId == |sent| && forall i | i in outbox :: i < |sent| && outbox[i] == sent[i]
    }

    /** The abstract tables. */
    ghost function View(): Tables
      reads this
    {
      Tables(docs, shards, sent, outbox.Keys, posted)
    }

    constructor ()
      ensures Valid() && View() == EMPTY_TABLES
    {
      docs, shards, outbox, nextId, posted, sent := map[], map[], map[], 0, map[], [];
    }

    method Transition(d: DocId, to: DocState, from: set<DocState>, now: Time) returns (ok: bool)
      requires Valid()
      modifies this`docs
      ensures Valid()
      ensures ok <==> Ledger.Transition(old(View()), d, to, from, now).Some?
      ensures View() == if ok then Ledger.Transition(old(View()), d, to, from, now).value else old(View())
    {
      ok := d in docs && (docs[d].state in from || docs[d].state == to);
      if ok {
        docs := docs[d := docs[d].(state := to, updatedAt := now)];
      }
    }

    method Enqueue(m: Msg)
      requires Valid()
      modifies this`outbox, this`nextId, this`sent
      ensures Valid() && View() == Ledger.Enqueue(old(View()), m)
    {
      outbox := outbox[nextId := m];
      nextId := nextId + 1;
      sent := sent + [m];
    }

    method EnqueueMany(ms: seq<Msg>)
      requires Valid()
      modifies this`outbox, this`nextId, this`sent
      ensures Valid() && View() == EnqueueAll(old(View()), ms)
    {
      ghost var was := View();
      assert ms[..0] == [];
      EnqueueNothing(was);
      for k := 0 to |ms|
        invariant Valid()
        invariant View() == EnqueueAll(was, ms[..k])
      {
        assert ms[..k + 1] == ms[..k] + [ms[k]];
        EnqueueSnoc(was, ms[..k], ms[k]);
        Enqueue(ms[k]);
      }
      assert ms[..|ms|] == ms;
    }

    method InsertInitialDocument(d: DocId, doc: Doc) returns (inserted: bool)
      requires Valid()
      modifies this`docs
      ensures Valid()
      ensures inserted <==> InsertDocument(old(View()), d, doc).Some?
      ensures View() == if inserted then InsertDocument(old(View()), d, doc).value else old(View())
    {
      inserted := d !in docs;
      if inserted {
        docs := docs[d := doc];
      }
    }

    /** conn.rollback(): every table as it was when the transaction began. */
    method Rollback(savedDocs: map<DocId, Doc>, savedShards: map<DocId, set<nat>>, savedOutbox: map<nat, Msg>,
        savedId: nat, ghost savedSent: seq<Msg>)
      requires savedId == |savedSent| && forall i | i in savedOutbox ::
          i < |savedSent| && savedOutbox[i] == savedSent[i]
      modifies this`docs, this`shards, this`outbox, this`nextId, this`sent
      ensures Valid() && View() == Tables(savedDocs, savedShards, savedSent, savedOutbox.Keys, posted)
    {
      docs, shards, outbox, nextId, sent := savedDocs, savedShards, savedOutbox, savedId, savedSent;
    }

    /** The scatter-gather join in one transaction; aborted is the rolled-back winner. */
    method RecordShardAndMaybeJoin(d: DocId, idx: nat, now: Time) returns (aborted: bool, won: bool)
      requires Valid()
      modifies this
      ensures Valid()
      ensures aborted <==> RecordShard(old(View()), d, idx, now).Aborted?
      ensures aborted ==> View() == old(View()) && !won
      ensures !aborted ==> RecordShard(old(View()), d, idx, now) == Done(View(), won)
    {
      if d !in docs {
        return true, false;
      }
      var present := if d in shards then shards[d] else {};
      if idx in present {
        return false, false;
      }
      var savedDocs, savedShards := docs, shards;
      shards := shards[d := present + {idx}];
      docs := docs[d := docs[d].(shardsDone := docs[d].shardsDone + 1)];
      won := docs[d].shardsDone == docs[d].shardsTotal;
      if won {
        var ok := Transition(d, ExtractPending, {TextRunning}, now);
        if !ok {
          Rollback(savedDocs, savedShards, outbox, nextId, sent);
          return true, false;
        }
        Enqueue(Msg(d, OcrCompleted, JustId, Join));
      }
      aborted := false;
    }

    method MissingShards(d: DocId, shardsTotal: nat) returns (missing: seq<nat>)
      ensures missing == Missing(Recorded(View(), d), shardsTotal)
    {
      var present := if d in shards then shards[d] else {};
      missing := [];
      for i := 0 to shardsTotal
        invariant missing == Missing(present, i)
      {
        if i !in present {
          missing := missing + [i];
        }
      }
    }

    method CommitExtractionResult(d: DocId, result: Extraction, gates: Report, final: DocState,
        payload: Option<Payload>, now: Time) returns (won: bool)
      requires Valid()
      modifies this
      ensures Valid() && (View(), won) == CommitExtraction(old(View()), d, result, gates, final, payload, now)
    {
      won := d in docs && docs[d].result.None?;
      if won {
        docs := docs[d := docs[d].(result := Some(result), gates := gates, state := final, updatedAt := now)];
        if payload.Some? {
          Enqueue(Msg(d, DocumentExtracted, payload.value, Commit));
        }
      }
    }

    method RouteWithoutWriting(d: DocId, gates: Report, final: DocState, now: Time)
      requires Valid()
      modifies this`docs
      ensures Valid() && View() == Ledger.RouteWithoutWriting(old(View()), d, gates, final, now)
    {
      if d in docs {
        docs := docs[d := docs[d].(gates := gates, state := final, updatedAt := now)];
      }
    }

    /** Sets vendor and invoice_no; false is the index refusing the row, which changes nothing. */
    method UpdateBusinessKey(d: DocId, vendor: Option<string>, invoiceNo: Option<string>) returns (ok: bool)
      requires Valid()
      modifies this`docs
      ensures Valid()
      ensures ok <==> !Violates(old(docs), d, vendor, invoiceNo)
      ensures View() == if ok then SetBusinessKey(old(View()), d, vendor, invoiceNo) else old(View())
    {
      if d !in docs {
        return true;
      }
      var updated := docs[d := docs[d].(vendor := vendor, invoiceNo := invoiceNo)];
      ok := !exists e | e in docs :: KeyClash(updated, d, e);
      if ok {
        docs := updated;
      }
    }

    /** The completing transaction of the extraction handler; violation is the aborted one. */
    method CommitComplete(d: DocId, f: Fields, gates: Report, now: Time) returns (violation: bool, won: bool)
      requires Valid()
      modifies this
      ensures Valid()
      ensures violation <==> CompleteTx(old(View()), d, f, gates, now).None?
      ensures violation ==> View() == old(View()) && !won
      ensures !violation ==> (View(), won) == CompleteTx(old(View()), d, f, gates, now).value
    {
      var ok := UpdateBusinessKey(d, f.seller, f.invoiceNo);
      if !ok {
        return true, false;
      }
      won := CommitExtractionResult(d, HasFields(f), gates, Complete, Some(AutoPost(f, gates)), now);
      violation := false;
    }

    method CountAttempt(d: DocId)
      requires Valid()
      modifies this`docs
      ensures Valid() && View() == Ledger.CountAttempt(old(View()), d)
    {
      if d in docs {
        docs := docs[d := docs[d].(extractAttempts := docs[d].extractAttempts + 1)];
        docs := docs[d := docs[d].(repairAttempts := 0)];
      }
    }

    method CountRepairs(d: DocId, n: nat)
      requires Valid()
      modifies this`docs
      ensures Valid() && View() == Ledger.CountRepairs(old(View()), d, n)
    {
      if d in docs {
        docs := docs[d := docs[d].(repairAttempts := docs[d].repairAttempts + n)];
      }
    }

    /** The sink: INSERT ... ON CONFLICT DO NOTHING. */
    method HandleDocumentExtracted(m: Msg) returns (inserted: bool)
      requires Valid()
      modifies this`posted
      ensures Valid() && View() == Post(old(View()), m)
      ensures inserted <==> m.doc !in old(posted)
    {
      inserted := m.doc !in posted;
      if inserted {
        posted := posted[m.doc := Posted(PostedFields(m.payload))];
      }
    }
  }
}

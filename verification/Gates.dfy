/** The quality gates that run on a schema-valid extraction. */
module Gates {
  import opened Types
  import Money
  import Iban

  function LowerChar(c: char): char {
    if 'A' <= c <= 'Z' then c - 'A' + 'a' else c
  }

  function Lower(s: string): string {
    seq(|s|, i requires 0 <= i < |s| => LowerChar(s[i]))
  }

  predicate OccursAt(text: string, s: string, k: nat) {
    k + |s| <= |text| && text[k..k + |s|] == s
  }

  /** s in text */
  predicate Contains(text: string, s: string) {
    exists k: nat | k <= |text| :: OccursAt(text, s, k)
  }

  /** Each capital becomes its small letter; nothing else changes. */
  lemma LowerCase(s: string)
    ensures |Lower(s)| == |s|
    ensures forall i, k | 0 <= i < |s| && 0 <= k < |Iban.CAPITAL| && s[i] == Iban.CAPITAL[k] ::
              Lower(s)[i] == Iban.SMALL[k]
    ensures forall i | 0 <= i < |s| && s[i] !in Iban.CAPITAL :: Lower(s)[i] == s[i]
  {
    Capitals();
  }

  lemma Capitals()
    ensures |Iban.CAPITAL| == |Iban.SMALL| == 26
    ensures forall k | 0 <= k < 26 :: Iban.CAPITAL[k] == 'A' + k as char && Iban.SMALL[k] == 'a' + k as char
    ensures forall c: char | 'A' <= c <= 'Z' :: c in Iban.CAPITAL
  {
    forall c: char | 'A' <= c <= 'Z' ensures c in Iban.CAPITAL {
      assert Iban.CAPITAL[c as int - 'A' as int] == c;
    }
  }

  ghost predicate Surrounded(text: string, before: string, s: string, after: string) {
    text == before + s + after
  }

  /** Containment is being a contiguous part. */
  lemma ContainsIff(text: string, s: string)
    ensures Contains(text, s) <==> exists before, after :: Surrounded(text, before, s, after)
  {
    if Contains(text, s) {
      var k: nat :| k <= |text| && OccursAt(text, s, k);
      assert Surrounded(text, text[..k], s, text[k + |s|..]);
    }
    if before, after :| Surrounded(text, before, s, after) {
      assert OccursAt(text, s, |before|);
    }
  }

  // ---- Grounding ----

  /** An absent or empty value needs no support; any other must occur, whatever its case. */
  predicate NameGrounded(v: Option<string>, text: string) {
    v.None? || v.value == "" || Contains(Lower(text), Lower(v.value))
  }

  /** What support means for a name: lowered, it is a contiguous part of the lowered text. */
  lemma NameGroundedIff(v: Option<string>, text: string)
    ensures NameGrounded(v, text) <==>
              v.None? || v.value == "" ||
              exists before, after :: Surrounded(Lower(text), before, Lower(v.value), after)
  {
    if v.Some? { ContainsIff(Lower(text), Lower(v.value)); }
  }

  predicate TotalGrounded(total: Option<int>, text: string) {
    total.None? || exists r | r in Money.MoneyReprs(total.value) :: Contains(text, r)
  }

  predicate Grounded(f: Fields, text: string) {
    NameGrounded(f.invoiceNo, text) && NameGrounded(f.seller, text) && TotalGrounded(f.total, text)
  }

  function GroundingGate(f: Fields, text: string): Outcome {
    if Grounded(f, text) then Pass else Fail
  }

  /** The gate as written: it collects the names of the unsupported fields, in order. */
  method Grounding(f: Fields, text: string) returns (outcome: Outcome, missing: seq<string>)
    ensures outcome == GroundingGate(f, text)
    ensures outcome == Pass <==> missing == []
    ensures "invoice_no" in missing <==> !NameGrounded(f.invoiceNo, text)
    ensures "seller" in missing <==> !NameGrounded(f.seller, text)
    ensures "total_cents" in missing <==> !TotalGrounded(f.total, text)
  {
    missing := [];
    var lowered := Lower(text);
    var checks := [("invoice_no", f.invoiceNo), ("seller", f.seller)];
    for k := 0 to |checks|
      invariant k >= 1 ==> (missing == [] <==> (NameGrounded(f.invoiceNo, text) &&
                (k >= 2 ==> NameGrounded(f.seller, text))))
      invariant "total_cents" !in missing
      invariant k == 0 ==> missing == []
      invariant "invoice_no" in missing <==> k >= 1 && !NameGrounded(f.invoiceNo, text)
      invariant "seller" in missing <==> k >= 2 && !NameGrounded(f.seller, text)
    {
      var (key, val) := checks[k];
      if val.Some? && val.value != "" && !Contains(lowered, Lower(val.value)) {
        missing := missing + [key];
      }
    }
    if f.total.Some? && !TotalGrounded(f.total, text) {
      missing := missing + ["total_cents"];
    }
    outcome := if missing != [] then Fail else Pass;
  }

  /** A total read off the text in any printed form is accepted by the gate. */
  lemma GroundingAcceptsReadTotal(text: string, c: int, r: string)
    requires r in Money.MoneyReprs(c) && Contains(text, r)
    ensures Money.ToCents(r).Some? && TotalGrounded(Money.ToCents(r), text)
  {
    Money.ParseThenPrint(c, r);
  }

  // ---- Arithmetic ----

  function SumAmounts(items: seq<LineItem>): int {
    if items == [] then 0 else SumAmounts(items[..|items| - 1]) + items[|items| - 1].amount
  }

  /** Summing is a homomorphism that gives one item its amount. */
  lemma {:induction false} SumConcat(a: seq<LineItem>, b: seq<LineItem>)
    ensures SumAmounts(a + b) == SumAmounts(a) + SumAmounts(b)
    ensures |a| == 1 ==> SumAmounts(a) == a[0].amount
  {
    if b == [] {
      assert a + b == a;
    } else {
      SumConcat(a, b[..|b| - 1]);
      assert (a + b)[..|a + b| - 1] == a + b[..|b| - 1];
    }
  }

  function OrZero(v: Option<int>): int {
    if v.Some? then v.value else 0
  }

  function ArithmeticGate(docType: DocType, f: Fields): Outcome {
    if !docType.Invoice? then NotApplicable
    else if f.lineItems.None? || f.lineItems.value == [] then Inconclusive
    else
      var computed := SumAmounts(f.lineItems.value);
      if f.subtotal.Some? && f.subtotal.value != computed then Fail
      else if f.total.None? then Inconclusive
      else if f.total.value != computed + OrZero(f.tax) then Fail
      else Pass
  }

  /** What a verified invoice means: nothing the model leaves out counts as verified. */
  predicate AddsUp(f: Fields) {
    && f.lineItems.Some? && f.lineItems.value != []
    && f.total == Some(SumAmounts(f.lineItems.value) + OrZero(f.tax))
    && (f.subtotal.Some? ==> f.subtotal.value == SumAmounts(f.lineItems.value))
  }

  lemma ArithmeticPasses(docType: DocType, f: Fields)
    ensures ArithmeticGate(docType, f) == Pass <==> docType.Invoice? && AddsUp(f)
    ensures AddsUp(f) <==>
      && f.lineItems.Some? && f.lineItems.value != [] && f.total.Some?
      && f.total.value - SumAmounts(f.lineItems.value) == (if f.tax.Some? then f.tax.value else 0)
      && (f.subtotal.Some? ==> f.subtotal.value == SumAmounts(f.lineItems.value))
    ensures ArithmeticGate(docType, f) == NotApplicable <==> !docType.Invoice?
    ensures ArithmeticGate(docType, f) == Inconclusive <==>
              docType.Invoice? &&
              (f.lineItems.None? || f.lineItems.value == [] ||
               (f.total.None? && (f.subtotal.Some? ==> f.subtotal.value == SumAmounts(f.lineItems.value))))
  {
  }

  // ---- Business dedupe: a read of the table, nothing more ----

  predicate IsDuplicate(docs: map<DocId, Doc>, d: DocId, vendor: Option<string>, invoiceNo: Option<string>,
      other: DocId) {
    other in docs && other != d && docs[other].state == Complete &&
    docs[other].vendor == vendor && docs[other].invoiceNo == invoiceNo
  }

  function DedupeGate(docs: map<DocId, Doc>, d: DocId, vendor: Option<string>, invoiceNo: Option<string>): Outcome {
    if vendor.None? || vendor.value == "" || invoiceNo.None? || invoiceNo.value == "" then NotApplicable
    else if exists other | other in docs :: IsDuplicate(docs, d, vendor, invoiceNo, other) then Fail
    else Pass
  }

  // ---- Which outcomes stop a document ----

  predicate Blocks(o: Outcome) {
    o == Fail || o == Inconclusive
  }

  datatype GateSet = GateSet(grounding: Outcome, arithmetic: Outcome, ibanCheck: Outcome, dedupe: Outcome)

  function RunAll(docs: map<DocId, Doc>, d: DocId, docType: DocType, f: Fields, text: string): GateSet {
    GateSet(
      GroundingGate(f, text),
      ArithmeticGate(docType, f),
      Iban.IbanGate(f.iban),
      DedupeGate(docs, d, f.seller, f.invoiceNo))
  }

  /** grounding, arithmetic and business_dedupe block on fail and on inconclusive; iban_mod97 never blocks. */
  predicate Cleared(g: GateSet) {
    !Blocks(g.grounding) && !Blocks(g.arithmetic) && !Blocks(g.dedupe)
  }

  /** What clearing the gates says about the fields. */
  ghost predicate Sound(docType: DocType, f: Fields, text: string) {
    Grounded(f, text) && (docType.Invoice? ==> AddsUp(f))
  }

  predicate HasKey(f: Fields) {
    f.seller.Some? && f.seller.value != "" && f.invoiceNo.Some? && f.invoiceNo.value != ""
  }

  /** Another document is complete with this business key, and the key is not empty. */
  ghost predicate HeldByOther(docs: map<DocId, Doc>, d: DocId, f: Fields) {
    HasKey(f) &&
    exists e ::
      e in docs && e != d && docs[e].state == Complete && docs[e].vendor == f.seller && docs[e].invoiceNo == f.invoiceNo
  }

  /** What the dedupe gate answers: it does not apply to an incomplete key, and fails exactly on a key that is held. */
  lemma DedupeIff(docs: map<DocId, Doc>, d: DocId, f: Fields)
    ensures DedupeGate(docs, d, f.seller, f.invoiceNo) == NotApplicable <==>
              f.seller.None? || f.seller.value == "" || f.invoiceNo.None? || f.invoiceNo.value == ""
    ensures DedupeGate(docs, d, f.seller, f.invoiceNo) == Fail <==> HeldByOther(docs, d, f)
    ensures DedupeGate(docs, d, f.seller, f.invoiceNo) != Inconclusive
  {
    if HeldByOther(docs, d, f) {
      var e :| e in docs && e != d && docs[e].state == Complete && docs[e].vendor == f.seller &&
        docs[e].invoiceNo == f.invoiceNo;
      assert IsDuplicate(docs, d, f.seller, f.invoiceNo, e);
    }
  }

  /** Fields clear the gates exactly when they are sound for the text and no other complete document holds their
      business key. The IBAN check never blocks. */
  lemma ClearedIffSound(docs: map<DocId, Doc>, d: DocId, docType: DocType, f: Fields, text: string)
    ensures Cleared(RunAll(docs, d, docType, f, text)) <==> Sound(docType, f, text) && !HeldByOther(docs, d, f)
  {
    hide Grounded, AddsUp, DedupeGate, HeldByOther;
    ArithmeticPasses(docType, f);
    ArithmeticRange(docType, f);
    DedupeIff(docs, d, f);
  }

  /** The outcomes that are stored when the gates are cleared. */
  lemma ClearedOutcomes(docs: map<DocId, Doc>, d: DocId, docType: DocType, f: Fields, text: string)
    requires Cleared(RunAll(docs, d, docType, f, text))
    ensures var g := RunAll(docs, d, docType, f, text);
      && g.grounding == Pass && g.arithmetic == (if docType.Invoice? then Pass else NotApplicable)
      && g.ibanCheck == Iban.IbanGate(f.iban) && g.dedupe in {Pass, NotApplicable}
  {
    hide Grounded, AddsUp, DedupeGate;
    ArithmeticPasses(docType, f);
    ArithmeticRange(docType, f);
    DedupeIff(docs, d, f);
  }

  lemma ArithmeticRange(docType: DocType, f: Fields)
    ensures ArithmeticGate(docType, f) != Pass && docType.Invoice? ==> Blocks(ArithmeticGate(docType, f))
  {
  }
}

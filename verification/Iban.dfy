/** The MOD 97-10 check of ISO/IEC 7064, as the IBAN gate computes it. */
module Iban {
  import opened Types
  import Money

  function Upper(c: char): char {
    if 'a' <= c <= 'z' then c - 'a' + 'A' else c
  }

  function RemoveSpaces(s: string): string {
    if s == "" then "" else (if s[0] == ' ' then "" else [s[0]]) + RemoveSpaces(s[1..])
  }

  function UpperAll(s: string): string {
    seq(|s|, i requires 0 <= i < |s| => Upper(s[i]))
  }

  function Clean(s: string): string {
    UpperAll(RemoveSpaces(s))
  }

  const SMALL := "abcdefghijklmnopqrstuvwxyz"
  const CAPITAL := "ABCDEFGHIJKLMNOPQRSTUVWXYZ"

  lemma {:induction false} RemoveSpacesConcat(a: string, b: string)
    ensures RemoveSpaces(a + b) == RemoveSpaces(a) + RemoveSpaces(b)
  {
    if a == "" {
      assert a + b == b;
    } else {
      RemoveSpacesConcat(a[1..], b);
      assert (a + b)[1..] == a[1..] + b;
      var head := if a[0] == ' ' then "" else [a[0]];
      assert head + (RemoveSpaces(a[1..]) + RemoveSpaces(b)) == head + RemoveSpaces(a[1..]) + RemoveSpaces(b);
    }
  }

  lemma UpperAllConcat(a: string, b: string)
    ensures UpperAll(a + b) == UpperAll(a) + UpperAll(b)
  {
  }

  lemma RemoveOne(c: char)
    ensures RemoveSpaces([c]) == if c == ' ' then "" else [c]
  {
    assert [c][1..] == "";
  }

  /** Cleaning goes character by character: blanks go, small letters become capitals, the rest stays. */
  lemma CleanEach(a: string, c: char, b: string)
    ensures Clean(a + b) == Clean(a) + Clean(b)
    ensures Clean([c]) == if c == ' ' then "" else [Upper(c)]
  {
    hide RemoveSpaces, Upper;
    RemoveSpacesConcat(a, b);
    UpperAllConcat(RemoveSpaces(a), RemoveSpaces(b));
    RemoveOne(c);
  }

  lemma UpperIs(c: char)
    ensures |SMALL| == |CAPITAL| == 26
    ensures forall k | 0 <= k < 26 && SMALL[k] == c :: Upper(c) == CAPITAL[k]
    ensures c !in SMALL ==> Upper(c) == c
  {
    assert forall k | 0 <= k < 26 :: SMALL[k] == 'a' + k as char && CAPITAL[k] == 'A' + k as char;
    if 'a' <= c <= 'z' { assert SMALL[c as int - 'a' as int] == c; }
  }

  predicate IsLetter(c: char) {
    'A' <= c <= 'Z'
  }

  predicate ValidChar(c: char) {
    Money.IsDigit(c) || IsLetter(c)
  }

  predicate Alphanumeric(s: string) {
    forall i | 0 <= i < |s| :: ValidChar(s[i])
  }

  /** int(c, 36) */
  function CharValue(c: char): nat
    requires ValidChar(c)
  {
    if Money.IsDigit(c) then (c - '0') as nat else (c - 'A') as nat + 10
  }

  const BASE_36 := "0123456789ABCDEFGHIJKLMNOPQRSTUVWXYZ"

  /** A character's value is its place in the alphabet of base 36. */
  lemma ValueIsPlace(c: char)
    requires ValidChar(c)
    ensures |BASE_36| == 36 && CharValue(c) < 36 && BASE_36[CharValue(c)] == c
  {
    assert forall k | 0 <= k < 10 :: BASE_36[k] == '0' + k as char;
    assert forall k | 10 <= k < 36 :: BASE_36[k] == 'A' + (k - 10) as char;
  }

  /** ... and only the characters of that alphabet have one. */
  lemma PlaceIsValid(k: nat)
    requires k < |BASE_36|
    ensures ValidChar(BASE_36[k])
  {
    assert k < 10 ==> BASE_36[k] == '0' + k as char;
    assert k >= 10 ==> BASE_36[k] == 'A' + (k - 10) as char;
  }

  /** The first four characters moved to the end. */
  function Rearrange(s: string): string {
    if |s| <= 4 then s else s[4..] + s[..4]
  }

  /** Four places to the left, round the end. */
  lemma RearrangeRotates(s: string, k: nat)
    requires k < |s| && |s| >= 4
    ensures |Rearrange(s)| == |s| && Rearrange(s)[k] == if k + 4 < |s| then s[k + 4] else s[k + 4 - |s|]
  {
  }

  /** How many decimal digits a character contributes: 10 or 100 as a factor. */
  function Width(c: char): nat {
    if Money.IsDigit(c) then 10 else 100
  }

  /** The decimal numerals of the characters' values, one after the other. */
  function Numeral(s: string): string
    requires Alphanumeric(s)
  {
    if s == "" then "" else Numeral(s[..|s| - 1]) + Money.Digits(CharValue(s[|s| - 1]))
  }

  /** The number that numeral denotes, read character by character. */
  function BigNumber(s: string): nat
    requires Alphanumeric(s)
  {
    if s == "" then 0
    else BigNumber(s[..|s| - 1]) * Width(s[|s| - 1]) + CharValue(s[|s| - 1])
  }

  function IbanGate(iban: Option<string>): Outcome {
    if iban.None? || iban.value == "" then NotApplicable
    else
      var cleaned := Clean(iban.value);
      if cleaned == "" || !Alphanumeric(cleaned) then Fail
      else
        NumeralIsBig(Rearrange(cleaned));
        if Money.Value(Numeral(Rearrange(cleaned))) % 97 == 1 then Pass else Fail
  }

  // ---- The number the joined numerals denote ----

  lemma DigitsSnoc(ds: string, c: char)
    requires Money.AllDigits(ds) && ValidChar(c)
    ensures Money.AllDigits(ds + Money.Digits(CharValue(c)))
    ensures Money.Value(ds + Money.Digits(CharValue(c))) == Money.Value(ds) * Width(c) + CharValue(c)
  {
    hide Money.Value;
    var v := CharValue(c);
    if v < 10 {
      Money.ValueSnoc(ds, Money.DigitChar(v));
    } else {
      var tens, units := Money.DigitChar(v / 10), Money.DigitChar(v % 10);
      assert Money.Digits(v) == [tens] + [units];
      assert ds + ([tens] + [units]) == ds + [tens] + [units];
      Money.ValueSnoc(ds, tens);
      Money.ValueSnoc(ds + [tens], units);
    }
  }

  /** Joining the numerals and parsing the result gives the number of the recurrence, for strings of any length. */
  lemma {:induction false} NumeralIsBig(s: string)
    requires Alphanumeric(s)
    ensures Money.AllDigits(Numeral(s)) && Money.Value(Numeral(s)) == BigNumber(s)
  {
    if s != "" {
      NumeralIsBig(s[..|s| - 1]);
      DigitsSnoc(Numeral(s[..|s| - 1]), s[|s| - 1]);
    }
  }

  // ---- The big-integer test is a character-by-character fold ----

  /** Reads the string from the left, keeping only a remainder below 97. */
  function Fold(s: string, acc: nat): (r: nat)
    requires Alphanumeric(s) && acc < 97
    ensures r < 97
  {
    if s == "" then acc
    else Fold(s[1..], (acc * Width(s[0]) + CharValue(s[0])) % 97)
  }

  /** Appending to a number that has already been read: base * 10^digits(s) + number(s). */
  function Append(base: nat, s: string): nat
    requires Alphanumeric(s)
    decreases |s|
  {
    if s == "" then base else Append(base * Width(s[0]) + CharValue(s[0]), s[1..])
  }

  lemma ModStep(a: nat, b: nat, w: nat, v: nat)
    requires a % 97 == b % 97
    ensures (a * w + v) % 97 == (b * w + v) % 97
  {
    var k := a / 97 - b / 97;
    assert a - b == 97 * k;
    assert a * w - b * w == (a - b) * w == 97 * (k * w);
    SameResidue(a * w + v, b * w + v, k * w);
  }

  lemma SameResidue(x: int, y: int, k: int)
    requires x - y == 97 * k
    ensures x % 97 == y % 97
  {
  }

  lemma {:induction false} FoldIsAppend(s: string, base: nat, acc: nat)
    requires Alphanumeric(s) && acc < 97 && acc == base % 97
    ensures Fold(s, acc) == Append(base, s) % 97
    decreases |s|
  {
    if s != "" {
      ModStep(base, acc, Width(s[0]), CharValue(s[0]));
      FoldIsAppend(s[1..], base * Width(s[0]) + CharValue(s[0]), (acc * Width(s[0]) + CharValue(s[0])) % 97);
    }
  }

  lemma {:induction false} AppendSnoc(base: nat, s: string, c: char)
    requires Alphanumeric(s) && ValidChar(c)
    ensures Alphanumeric(s + [c])
    ensures Append(base, s + [c]) == Append(base, s) * Width(c) + CharValue(c)
    decreases |s|
  {
    if s == "" {
      assert s + [c] == [c];
      assert [c][1..] == "";
      assert Append(base, [c]) == Append(base * Width(c) + CharValue(c), "");
    } else {
      AppendSnoc(base * Width(s[0]) + CharValue(s[0]), s[1..], c);
      assert (s + [c])[1..] == s[1..] + [c];
    }
  }

  lemma {:induction false} AppendIsBig(s: string)
    requires Alphanumeric(s)
    ensures Append(0, s) == BigNumber(s)
  {
    if s != "" {
      var init, c := s[..|s| - 1], s[|s| - 1];
      AppendIsBig(init);
      AppendSnoc(0, init, c);
      assert init + [c] == s;
    }
  }

  /** The remainder of the number that the joined numerals denote is that of a left-to-right fold over the characters,
      for strings of any length. */
  lemma BigEqualsFold(s: string)
    requires Alphanumeric(s)
    ensures Money.AllDigits(Numeral(s)) && Money.Value(Numeral(s)) % 97 == BigNumber(s) % 97 == Fold(s, 0)
  {
    NumeralIsBig(s);
    FoldIsAppend(s, 0, 0);
    AppendIsBig(s);
  }

  // ---- Error detection ----

  lemma Residue(x: int, y: int)
    requires x % 97 == y % 97
    ensures x - y == 97 * (x / 97 - y / 97)
  {
  }

  /** A factor of 10 or 100 cannot bring two different remainders together:
      10 * 68 = 7 * 97 + 1 and 100 * 65 = 67 * 97 + 1. */
  lemma StepInjective(x: nat, y: nat, w: nat, v: nat)
    requires w == 10 || w == 100
    requires (x * w + v) % 97 == (y * w + v) % 97
    ensures x % 97 == y % 97
  {
    Residue(x * w + v, y * w + v);
    var k := (x * w + v) / 97 - (y * w + v) / 97;
    var d: int := x - y;
    if w == 10 {
      assert d == 97 * (68 * k - 7 * d);
      SameResidue(x, y, 68 * k - 7 * d);
    } else {
      assert d == 97 * (65 * k - 67 * d);
      SameResidue(x, y, 65 * k - 67 * d);
    }
  }

  /** Two numbers closer than 97 with the same remainder are equal. */
  lemma CloseResidues(x: int, y: int)
    requires x % 97 == y % 97 && -97 < x - y < 97
    ensures x == y
  {
  }

  lemma {:induction false} TailInjective(s: string, a: nat, b: nat)
    requires Alphanumeric(s)
    requires Append(a, s) % 97 == Append(b, s) % 97
    ensures a % 97 == b % 97
    decreases |s|
  {
    if s != "" {
      var w, v := Width(s[0]), CharValue(s[0]);
      TailInjective(s[1..], a * w + v, b * w + v);
      StepInjective(a, b, w, v);
    }
  }

  lemma {:induction false} AppendSplit(base: nat, s: string, t: string)
    requires Alphanumeric(s) && Alphanumeric(t)
    ensures Alphanumeric(s + t)
    ensures Append(base, s + t) == Append(Append(base, s), t)
    decreases |s|
  {
    if s == "" {
      assert s + t == t;
    } else {
      AppendSplit(base * Width(s[0]) + CharValue(s[0]), s[1..], t);
      assert (s + t)[1..] == s[1..] + t;
    }
  }

  predicate SameKind(a: char, b: char) {
    (Money.IsDigit(a) && Money.IsDigit(b)) || (IsLetter(a) && IsLetter(b))
  }

  /** Two strings that differ in an infix of equal width and different value modulo 97. */
  lemma InfixDetected(pre: string, x: string, y: string, post: string)
    requires Alphanumeric(pre) && Alphanumeric(post) && Alphanumeric(x) && Alphanumeric(y)
    requires Append(Append(0, pre), x) % 97 != Append(Append(0, pre), y) % 97
    ensures Alphanumeric(pre + x + post) && Alphanumeric(pre + y + post)
    ensures BigNumber(pre + x + post) % 97 != BigNumber(pre + y + post) % 97
  {
    AppendSplit(0, pre, x);
    AppendSplit(0, pre, y);
    AppendSplit(0, pre + x, post);
    AppendSplit(0, pre + y, post);
    AppendIsBig(pre + x + post);
    AppendIsBig(pre + y + post);
    if BigNumber(pre + x + post) % 97 == BigNumber(pre + y + post) % 97 {
      TailInjective(post, Append(0, pre + x), Append(0, pre + y));
    }
  }

  /** Replacing one digit by another digit, or one letter by another letter, changes the remainder. */
  lemma SubstitutionDetected(s: string, i: nat, c: char)
    requires Alphanumeric(s) && i < |s| && SameKind(s[i], c) && c != s[i]
    ensures Alphanumeric(s[i := c])
    ensures BigNumber(s[i := c]) % 97 != BigNumber(s) % 97
  {
    var pre, post := s[..i], s[i + 1..];
    assert s == pre + [s[i]] + post && s[i := c] == pre + [c] + post;
    var b := Append(0, pre);
    AppendOne(b, c);
    AppendOne(b, s[i]);
    OneDiffers(b, c, s[i]);
    InfixDetected(pre, [c], [s[i]], post);
  }

  lemma AppendOne(b: nat, c: char)
    requires ValidChar(c)
    ensures Append(b, [c]) == b * Width(c) + CharValue(c)
  {
    assert [c][1..] == "";
  }

  lemma OneDiffers(b: nat, c: char, e: char)
    requires SameKind(c, e) && c != e
    ensures (b * Width(c) + CharValue(c)) % 97 != (b * Width(e) + CharValue(e)) % 97
  {
    var x, y := b * Width(c) + CharValue(c), b * Width(e) + CharValue(e);
    if x % 97 == y % 97 {
      CloseResidues(x, y);
    }
  }

  lemma TwoDiffer(b: nat, a: char, c: char)
    requires SameKind(a, c) && a != c
    ensures ((b * Width(a) + CharValue(a)) * Width(c) + CharValue(c)) % 97
         != ((b * Width(c) + CharValue(c)) * Width(a) + CharValue(a)) % 97
  {
    var d: int := CharValue(a) - CharValue(c);
    if Money.IsDigit(a) {
      var x, y := (b * 10 + CharValue(a)) * 10 + CharValue(c), (b * 10 + CharValue(c)) * 10 + CharValue(a);
      assert x - y == 9 * d;
      if x % 97 == y % 97 {
        CloseResidues(x, y);
      }
    } else {
      var x, y := (b * 100 + CharValue(a)) * 100 + CharValue(c), (b * 100 + CharValue(c)) * 100 + CharValue(a);
      assert x - y == 99 * d;
      if x % 97 == y % 97 {
        SameResidue(x - 97 * d, x, -d);
        CloseResidues(x - 97 * d, y);
      }
    }
  }

  /** Swapping two different adjacent digits, or two different adjacent letters, changes the remainder. */
  lemma TranspositionDetected(s: string, i: nat)
    requires Alphanumeric(s) && i + 1 < |s| && SameKind(s[i], s[i + 1]) && s[i] != s[i + 1]
    ensures Alphanumeric(s[i := s[i + 1]][i + 1 := s[i]])
    ensures BigNumber(s[i := s[i + 1]][i + 1 := s[i]]) % 97 != BigNumber(s) % 97
  {
    var pre, post := s[..i], s[i + 2..];
    var a, c := s[i], s[i + 1];
    assert s == pre + [a, c] + post && s[i := c][i + 1 := a] == pre + [c, a] + post;
    var b := Append(0, pre);
    AppendTwo(b, a, c);
    AppendTwo(b, c, a);
    TwoDiffer(b, a, c);
    InfixDetected(pre, [c, a], [a, c], post);
  }

  lemma AppendTwo(b: nat, c: char, e: char)
    requires ValidChar(c) && ValidChar(e)
    ensures Alphanumeric([c, e])
    ensures Append(b, [c, e]) == (b * Width(c) + CharValue(c)) * Width(e) + CharValue(e)
  {
    assert [c, e][1..] == [e] && [e][1..] == "";
    assert Append(b * Width(c) + CharValue(c), [e]) == Append((b * Width(c) + CharValue(c)) * Width(e) + CharValue(e),
        "");
  }

  /** The gate's verdict on a string, blanks and lower case included. */
  lemma GateVerdict(s: string)
    ensures IbanGate(Some(s)) == Pass <==>
              Clean(s) != "" && Alphanumeric(Clean(s)) && BigNumber(Rearrange(Clean(s))) % 97 == 1
    ensures Clean(s) != "" && IbanGate(Some(s)) != Pass ==> IbanGate(Some(s)) == Fail
  {
    if Alphanumeric(Clean(s)) { NumeralIsBig(Rearrange(Clean(s))); }
  }

  /** However they are written, with blanks and in either case: an IBAN that passes the gate fails it after replacing
      one of its digits by another digit, or one of its letters by another letter. */
  lemma GateCatchesSubstitution(s: string, t: string, i: nat, c: char)
    requires IbanGate(Some(s)) == Pass
    requires i < |Clean(s)| && SameKind(Clean(s)[i], c) && c != Clean(s)[i] && Clean(t) == Clean(s)[i := c]
    ensures IbanGate(Some(t)) == Fail
  {
    GateVerdict(s);
    GateVerdict(t);
    hide Clean, IbanGate, BigNumber;
    var clean := Clean(s);
    var j := if |clean| <= 4 then i else if i < 4 then |clean| - 4 + i else i - 4;
    RearrangeUpdate(clean, i, j, c);
    SubstitutionDetected(Rearrange(clean), j, c);
  }

  lemma RearrangeUpdate(s: string, i: nat, j: nat, c: char)
    requires i < |s| && j == (if |s| <= 4 then i else if i < 4 then |s| - 4 + i else i - 4)
    ensures j < |Rearrange(s)| && Rearrange(s)[j] == s[i] && Rearrange(s[i := c]) == Rearrange(s)[j := c]
    ensures Alphanumeric(s) ==> Alphanumeric(Rearrange(s))
  {
  }

  /** ... and after any swap of two different neighbours of one kind in its rearranged form. */
  lemma GateCatchesTransposition(s: string, t: string, i: nat)
    requires IbanGate(Some(s)) == Pass && |Clean(t)| == |Clean(s)| && i + 1 < |Clean(s)|
    requires var r := Rearrange(Clean(s));
      SameKind(r[i], r[i + 1]) && r[i] != r[i + 1] && Rearrange(Clean(t)) == r[i := r[i + 1]][i + 1 := r[i]]
    ensures IbanGate(Some(t)) == Fail
  {
    GateVerdict(s);
    GateVerdict(t);
    hide Clean, IbanGate, BigNumber;
    TranspositionDetected(Rearrange(Clean(s)), i);
  }
}

/** Printing an amount of cents the four ways grounding looks for, and reading one back.
    Amounts are exact decimals. */
module Money {
  import opened Types

  // ---- Printing ----

  function DigitChar(n: nat): char
    requires n < 10
  {
    '0' + n as char
  }

  predicate IsDigit(c: char) {
    '0' <= c <= '9'
  }

  function Digits(n: nat): string {
    if n < 10 then [DigitChar(n)] else Digits(n / 10) + [DigitChar(n % 10)]
  }

  /** Thousands separators, from the right. */
  function Group(ds: string): string {
    if |ds| <= 3 then ds else Group(ds[..|ds| - 3]) + "," + ds[|ds| - 3..]
  }

  function Decimals(cents: nat): string {
    "." + [DigitChar(cents / 10 % 10)] + [DigitChar(cents % 10)]
  }

  function Plain(cents: nat): string {
    Digits(cents / 100) + Decimals(cents)
  }

  function Grouped(cents: nat): string {
    Group(Digits(cents / 100)) + Decimals(cents)
  }

  function Abs(c: int): (r: int)
    ensures r >= 0
  {
    if c < 0 then -c else c
  }

  function Sign(c: int): string {
    if c < 0 then "-" else ""
  }

  function MoneyReprs(cents: int): set<string> {
    var m := Abs(cents);
    { Sign(cents) + Plain(m), Sign(cents) + Grouped(m), Plain(m), "(" + Grouped(m) + ")" }
  }

  // ---- Parsing ----

  const WHITESPACE: set<char> := {' ', '\t', '\n', '\r', '\U{0B}', '\U{0C}'}
  const SIGNS: set<char> := {'(', ')', '-'}

  function LStrip(s: string, chars: set<char>): string {
    if s != "" && s[0] in chars then LStrip(s[1..], chars) else s
  }

  function RStrip(s: string, chars: set<char>): string {
    if s != "" && s[|s| - 1] in chars then RStrip(s[..|s| - 1], chars) else s
  }

  function Strip(s: string, chars: set<char>): string {
    RStrip(LStrip(s, chars), chars)
  }

  function RemoveCommas(s: string): string {
    if s == "" then ""
    else if s[0] == ',' then RemoveCommas(s[1..])
    else [s[0]] + RemoveCommas(s[1..])
  }

  predicate AllDigits(s: string) {
    forall i | 0 <= i < |s| :: IsDigit(s[i])
  }

  function Value(ds: string): nat
    requires AllDigits(ds)
  {
    if ds == "" then 0 else Value(ds[..|ds| - 1]) * 10 + (ds[|ds| - 1] - '0') as nat
  }

  /** Reading `text` gives `cents`. */
  predicate ReadsAs(text: string, cents: int) {
    ToCents(text) == Some(cents)
  }

  /** The number of cents in `digits.dd`; None for every other shape. */
  function Number(s: string): Option<nat> {
    if |s| >= 3 && s[|s| - 3] == '.' && AllDigits(s[..|s| - 3] + s[|s| - 2..])
    then Some(Value(s[..|s| - 3] + s[|s| - 2..]))
    else None
  }

  function ToCents(text: string): Option<int> {
    var cleaned := Strip(LStrip(Strip(text, WHITESPACE), {'$'}), WHITESPACE);
    var negative := cleaned != "" && (cleaned[0] == '(' || cleaned[0] == '-');
    match Number(RemoveCommas(Strip(cleaned, SIGNS)))
    case None => None
    case Some(n) =>
      var cents: int := n;
      Some(if negative then -cents else cents)
  }

  // ---- The digits ----

  lemma {:induction false} DigitsValue(n: nat)
    ensures Digits(n) != "" && AllDigits(Digits(n)) && Value(Digits(n)) == n
  {
    if n < 10 {
      assert Digits(n)[..0] == "";
    } else {
      DigitsValue(n / 10);
      var ds := Digits(n);
      assert ds[..|ds| - 1] == Digits(n / 10);
    }
  }

  lemma {:induction false} RemoveCommasSplit(a: string, b: string)
    ensures RemoveCommas(a + b) == RemoveCommas(a) + RemoveCommas(b)
  {
    if a == "" {
      assert a + b == b;
    } else {
      RemoveCommasSplit(a[1..], b);
      assert (a + b)[1..] == a[1..] + b && (a + b)[0] == a[0];
      var ra, rb := RemoveCommas(a[1..]), RemoveCommas(b);
      assert [a[0]] + (ra + rb) == ([a[0]] + ra) + rb;
    }
  }

  lemma {:induction false} RemoveCommasNone(s: string)
    requires ',' !in s
    ensures RemoveCommas(s) == s
  {
    if s != "" {
      RemoveCommasNone(s[1..]);
    }
  }

  lemma {:induction false} GroupRemoved(ds: string)
    requires AllDigits(ds)
    ensures RemoveCommas(Group(ds)) == ds
    ensures ds != "" ==> Group(ds) != "" && IsDigit(Group(ds)[0])
  {
    if |ds| <= 3 {
      RemoveCommasNone(ds);
    } else {
      var l, r := ds[..|ds| - 3], ds[|ds| - 3..];
      GroupRemoved(l);
      CommaRemoved(Group(l), r);
      assert l + r == ds;
    }
  }

  lemma CommaRemoved(l: string, r: string)
    requires AllDigits(r)
    ensures RemoveCommas(l + "," + r) == RemoveCommas(l) + r
  {
    RemoveCommasNone(r);
    assert l + "," + r == l + ("," + r);
    RemoveCommasSplit(l, "," + r);
    assert ("," + r)[1..] == r;
  }

  // ---- Shapes the parser strips exactly ----

  /** Starts and ends with a digit, and reads as `n` cents once the commas are gone. */
  ghost predicate Reads(s: string, n: int) {
    s != "" && IsDigit(s[0]) && IsDigit(s[|s| - 1]) && Number(RemoveCommas(s)).Some? &&
        Number(RemoveCommas(s)).value == n
  }

  lemma CentsDigits(cents: nat)
    ensures cents == (cents / 100 * 10 + cents / 10 % 10) * 10 + cents % 10
  {
  }

  lemma DigitsRead(cents: nat)
    ensures Number(Digits(cents / 100) + Decimals(cents)) == Some(cents)
  {
    hide Number;
    DigitsValue(cents / 100);
    NumberOf(Digits(cents / 100), DigitChar(cents / 10 % 10), DigitChar(cents % 10));
    CentsDigits(cents);
  }

  /** Whole units with or without separators, then the decimals. */
  lemma UnitsRead(units: string, cents: nat)
    requires units != "" && IsDigit(units[0]) && RemoveCommas(units) == Digits(cents / 100)
    ensures Reads(units + Decimals(cents), cents)
  {
    hide Number, Digits;
    DigitsRead(cents);
    RemoveCommasNone(Decimals(cents));
    RemoveCommasSplit(units, Decimals(cents));
    assert (units + Decimals(cents))[|units| + 2] == DigitChar(cents % 10);
  }

  lemma PrintedReads(cents: nat)
    ensures Reads(Plain(cents), cents) && Reads(Grouped(cents), cents)
  {
    hide Reads, Digits, Decimals, Group;
    var ds := Digits(cents / 100);
    DigitsValue(cents / 100);
    GroupRemoved(ds);
    RemoveCommasNone(ds);
    UnitsRead(ds, cents);
    UnitsRead(Group(ds), cents);
  }

  lemma ValueSnoc(ds: string, c: char)
    requires AllDigits(ds) && IsDigit(c)
    ensures AllDigits(ds + [c]) && Value(ds + [c]) == Value(ds) * 10 + (c - '0') as nat
  {
    assert (ds + [c])[..|ds|] == ds;
  }

  lemma NumberSplit(ds: string, two: string)
    requires |two| == 2
    ensures Number(ds + ("." + two)) == if AllDigits(ds + two) then Some(Value(ds + two)) else None
  {
    hide Value, AllDigits;
    var s := ds + ("." + two);
    assert s[..|s| - 3] == ds;
    assert s[|s| - 2..] == two;
    assert s[|s| - 3] == '.';
  }

  lemma NumberOf(ds: string, a: char, b: char)
    requires AllDigits(ds) && IsDigit(a) && IsDigit(b)
    ensures Number(ds + ("." + [a] + [b])) == Some((Value(ds) * 10 + (a - '0') as nat) * 10 + (b - '0') as nat)
  {
    ValueSnoc(ds, a);
    ValueSnoc(ds + [a], b);
    hide *;
    NumberSplit(ds, [a] + [b]);
    assert ds + ([a] + [b]) == ds + [a] + [b];
    assert "." + [a] + [b] == "." + ([a] + [b]);
  }

  lemma StripNothing(s: string, chars: set<char>)
    requires s == "" || (s[0] !in chars && s[|s| - 1] !in chars)
    ensures Strip(s, chars) == s
  {
  }

  lemma ReadsPlain(s: string, n: int)
    requires Reads(s, n)
    ensures ReadsAs(s, n) && ReadsAs("$" + s, n)
  {
    StripNothing("$" + s, WHITESPACE);
    assert ("$" + s)[1..] == s;
    assert LStrip("$" + s, {'$'}) == LStrip(s, {'$'}) == s;
    StripNothing(s, WHITESPACE);
    StripNothing(s, SIGNS);
    assert ToCents(s) == ToCents("$" + s);
  }

  lemma ReadsMinus(s: string, n: int)
    requires Reads(s, n)
    ensures ReadsAs("-" + s, -n) && ReadsAs("$" + ("-" + s), -n)
  {
    var m := "-" + s;
    StripNothing("$" + m, WHITESPACE);
    assert ("$" + m)[1..] == m;
    StripNothing(m, WHITESPACE);
    assert m[1..] == s;
    assert LStrip(m, SIGNS) == LStrip(s, SIGNS) == s;
    StripNothing(s, SIGNS);
  }

  lemma StripParens(s: string)
    requires s != "" && IsDigit(s[0]) && IsDigit(s[|s| - 1])
    ensures Strip("(" + s + ")", SIGNS) == s
  {
    var p, q := "(" + s + ")", s + ")";
    assert p[1..] == q && q[0] == s[0];
    assert LStrip(p, SIGNS) == LStrip(q, SIGNS) == q;
    assert q[..|q| - 1] == s;
    assert RStrip(q, SIGNS) == RStrip(s, SIGNS) == s;
  }

  lemma ReadsParens(s: string, n: int)
    requires Reads(s, n)
    ensures ReadsAs("(" + s + ")", -n)
  {
    var p := "(" + s + ")";
    assert p[0] == '(' && p[|p| - 1] == ')';
    StripNothing(p, WHITESPACE);
    StripParens(s);
  }

  lemma SignedReads(c: int, s: string)
    requires Reads(s, Abs(c))
    ensures ReadsAs(Sign(c) + s, c) && ReadsAs("$" + (Sign(c) + s), c)
  {
    if c < 0 {
      ReadsMinus(s, Abs(c));
    } else {
      ReadsPlain(s, c);
      assert "" + s == s;
    }
  }

  /** The signed and the unsigned forms read back as the amount and its absolute value. */
  lemma PrintThenParse(c: int)
    ensures ReadsAs(Sign(c) + Plain(Abs(c)), c) && ReadsAs("$" + (Sign(c) + Plain(Abs(c))), c)
    ensures ReadsAs(Sign(c) + Grouped(Abs(c)), c) && ReadsAs("$" + (Sign(c) + Grouped(Abs(c))), c)
    ensures ReadsAs(Plain(Abs(c)), Abs(c))
  {
    hide Reads, ReadsAs, Grouped, Plain;
    PrintedReads(Abs(c));
    SignedReads(c, Plain(Abs(c)));
    SignedReads(c, Grouped(Abs(c)));
    ReadsPlain(Plain(Abs(c)), Abs(c));
  }

  /** The parenthesised form reads back as minus the absolute value. */
  lemma ParenthesesParse(c: int)
    ensures ReadsAs("(" + Grouped(Abs(c)) + ")", -Abs(c))
  {
    hide Reads, ReadsAs, Grouped, Plain;
    PrintedReads(Abs(c));
    ReadsParens(Grouped(Abs(c)), Abs(c));
  }

  lemma ReprsHave(n: int)
    ensures Plain(Abs(n)) in MoneyReprs(n) && "(" + Grouped(Abs(n)) + ")" in MoneyReprs(n)
  {
    hide Plain, Grouped;
  }

  /** Whatever amount is read from a printed form, that form is among the printed forms of the amount. */
  lemma ParseThenPrint(c: int, r: string)
    requires r in MoneyReprs(c)
    ensures ToCents(r).Some? && Abs(ToCents(r).value) == Abs(c)
    ensures r in MoneyReprs(ToCents(r).value)
  {
    hide Plain, Grouped, ToCents;
    PrintThenParse(c);
    ParenthesesParse(c);
    ReprsHave(Abs(c));
    ReprsHave(-Abs(c));
  }

  // ---- What surrounds a number does not matter ----

  predicate Only(s: string, chars: set<char>) {
    forall i | 0 <= i < |s| :: s[i] in chars
  }

  lemma {:induction false} LStripFront(a: string, s: string, chars: set<char>)
    requires Only(a, chars)
    ensures LStrip(a + s, chars) == LStrip(s, chars)
  {
    if a == "" {
      assert a + s == s;
    } else {
      LStripFront(a[1..], s, chars);
      assert (a + s)[1..] == a[1..] + s;
    }
  }

  lemma {:induction false} RStripBack(s: string, b: string, chars: set<char>)
    requires Only(b, chars)
    ensures RStrip(s + b, chars) == RStrip(s, chars)
  {
    if b == "" {
      assert s + b == s;
    } else {
      RStripBack(s, b[..|b| - 1], chars);
      assert (s + b)[..|s + b| - 1] == s + b[..|b| - 1];
    }
  }

  lemma {:induction false} LStripKeeps(s: string, b: string, chars: set<char>)
    requires Only(b, chars)
    ensures RStrip(LStrip(s + b, chars), chars) == RStrip(LStrip(s, chars), chars)
  {
    if s == "" {
      assert s + b == b && b + "" == b;
      LStripFront(b, "", chars);
    } else if s[0] in chars {
      LStripKeeps(s[1..], b, chars);
      assert (s + b)[1..] == s[1..] + b;
    } else {
      RStripBack(s, b, chars);
    }
  }

  lemma StripPadding(a: string, s: string, b: string, chars: set<char>)
    requires Only(a, chars) && Only(b, chars)
    ensures Strip(a + s + b, chars) == Strip(s, chars)
  {
    assert a + s + b == a + (s + b);
    LStripFront(a, s + b, chars);
    LStripKeeps(s, b, chars);
  }

  /** White space around an amount is ignored. */
  lemma WhitespaceIgnored(a: string, s: string, b: string)
    requires Only(a, WHITESPACE) && Only(b, WHITESPACE)
    ensures ToCents(a + s + b) == ToCents(s)
  {
    hide Strip, Only;
    StripPadding(a, s, b, WHITESPACE);
  }

  /** ... and so it is between a dollar sign and the rest. */
  lemma DollarIgnored(a: string, s: string)
    requires Only(a, WHITESPACE) && s != "" && s[0] !in WHITESPACE && s[0] != '$' && s[|s| - 1] !in WHITESPACE
    ensures ToCents("$" + a + s) == ToCents(s)
  {
    var t := "$" + a + s;
    StripNothing(t, WHITESPACE);
    StripNothing(s, WHITESPACE);
    DollarOnce(a, s);
    StripPadding(a, s, "", WHITESPACE);
    assert a + s + "" == a + s;
    hide Strip, LStrip, Only;
    assert Strip(LStrip(Strip(t, WHITESPACE), {'$'}), WHITESPACE) == s;
    assert Strip(LStrip(Strip(s, WHITESPACE), {'$'}), WHITESPACE) == s;
  }

  lemma DollarOnce(a: string, s: string)
    requires Only(a, WHITESPACE) && s != "" && s[0] != '$'
    ensures LStrip("$" + a + s, {'$'}) == a + s && LStrip(s, {'$'}) == s
  {
    assert ("$" + a + s)[1..] == a + s;
    if a != "" { assert (a + s)[0] == a[0]; } else { assert a + s == s; }
  }

  // ---- What the printed forms are ----

  /** A decimal numeral of n without superfluous zeros. */
  predicate IsUnits(s: string, n: nat) {
    s != "" && AllDigits(s) && (|s| > 1 ==> s[0] != '0') && Value(s) == n
  }

  /** Commas stand exactly before each full group of three from the right. */
  predicate CommasAt(g: string) {
    |g| % 4 != 0 && forall i | 0 <= i < |g| :: g[i] == ',' <==> (|g| - i) % 4 == 0
  }

  /** g is ds with thousands separators. */
  predicate HasSeparators(g: string, ds: string) {
    RemoveCommas(g) == ds && CommasAt(g)
  }

  predicate IsCents(s: string, cents: nat) {
    |s| == 3 && s[0] == '.' && AllDigits(s[1..]) && Value(s[1..]) == cents % 100
  }

  /** Whole units, a point and two digits. */
  predicate IsAmount(s: string, cents: nat) {
    |s| > 3 && IsUnits(s[..|s| - 3], cents / 100) && IsCents(s[|s| - 3..], cents)
  }

  /** The same with separators. */
  predicate IsGroupedAmount(s: string, cents: nat) {
    && |s| > 3 && IsCents(s[|s| - 3..], cents)
    && IsUnits(RemoveCommas(s[..|s| - 3]), cents / 100)
    && HasSeparators(s[..|s| - 3], RemoveCommas(s[..|s| - 3]))
  }

  lemma {:induction false} ValuePositive(s: string)
    requires s != "" && AllDigits(s) && s[0] != '0'
    ensures Value(s) >= 1
  {
    if |s| > 1 {
      ValuePositive(s[..|s| - 1]);
    } else {
      assert s[..0] == "";
    }
  }

  lemma {:induction false} UnitsAreDigits(s: string, n: nat)
    requires IsUnits(s, n)
    ensures s == Digits(n)
  {
    var init, last := s[..|s| - 1], s[|s| - 1];
    assert s == init + [last];
    if |s| == 1 {
      assert init == "";
    } else {
      ValuePositive(init);
      UnitsAreDigits(init, n / 10);
    }
  }

  lemma {:induction false} DigitsAreUnits(n: nat)
    ensures IsUnits(Digits(n), n)
  {
    DigitsValue(n);
    if n >= 10 {
      DigitsValue(n / 10);
      DigitsAreUnits(n / 10);
      assert Digits(n)[0] == Digits(n / 10)[0];
      if n >= 100 {
        DigitsValue(n / 100);
        assert |Digits(n / 10)| == |Digits(n / 10 / 10)| + 1;
      }
    }
  }

  lemma CommasShort(g: string)
    requires 1 <= |g| <= 3
    ensures CommasAt(g) <==> ',' !in g
  {
    if CommasAt(g) {
      forall i | 0 <= i < |g| ensures g[i] != ',' { }
    }
  }

  lemma FourMore(n: int)
    ensures (n + 4) % 4 == 0 <==> n % 4 == 0
  {
  }

  lemma CommasLonger(l: string, r: string)
    requires |r| == 3
    ensures CommasAt(l + "," + r) <==> CommasAt(l) && ',' !in r
  {
    var g := l + "," + r;
    FourMore(|l|);
    forall i | 0 <= i < |l| ensures g[i] == l[i] && ((|g| - i) % 4 == 0 <==> (|l| - i) % 4 == 0) {
      FourMore(|l| - i);
    }
    forall i | 0 <= i < 3 ensures g[|l| + 1 + i] == r[i] { }
    assert g[|l|] == ',';
    if CommasAt(g) {
      forall i | 0 <= i < |l| ensures l[i] == ',' <==> (|l| - i) % 4 == 0 { assert g[i] == l[i]; }
      forall i | 0 <= i < 3 ensures r[i] != ',' { assert g[|l| + 1 + i] == r[i]; }
    }
  }

  lemma DigitsHaveNoComma(s: string)
    requires AllDigits(s)
    ensures ',' !in s
  {
  }

  lemma {:induction false} GroupSeparates(ds: string)
    requires ds != "" && AllDigits(ds)
    ensures HasSeparators(Group(ds), ds)
  {
    hide CommasAt, RemoveCommas;
    GroupRemoved(ds);
    DigitsHaveNoComma(ds);
    if |ds| > 3 {
      GroupSeparates(ds[..|ds| - 3]);
      CommasLonger(Group(ds[..|ds| - 3]), ds[|ds| - 3..]);
    } else {
      CommasShort(ds);
    }
  }

  lemma FirstIsNoComma(g: string)
    requires CommasAt(g)
    ensures g != "" && g[0] != ','
  {
  }

  lemma KeepsFirst(g: string)
    requires g != "" && g[0] != ','
    ensures RemoveCommas(g) != ""
  {
  }

  lemma {:induction false} SeparatorsGroup(g: string, ds: string)
    requires HasSeparators(g, ds) && AllDigits(ds)
    ensures g == Group(ds)
  {
    hide CommasAt, RemoveCommas;
    FirstIsNoComma(g);
    if |g| <= 3 {
      CommasShort(g);
      RemoveCommasNone(g);
    } else {
      var l, r := g[..|g| - 4], g[|g| - 3..];
      FourthIsComma(g);
      assert g == l + "," + r;
      CommasLonger(l, r);
      FirstIsNoComma(l);
      KeepsFirst(l);
      SplitComma(l, r);
      SeparatorsGroup(l, RemoveCommas(l));
      assert ds[..|ds| - 3] == RemoveCommas(l) && ds[|ds| - 3..] == r;
    }
  }

  lemma FourthIsComma(g: string)
    requires CommasAt(g) && |g| > 3
    ensures g[|g| - 4] == ','
  {
    assert (|g| - (|g| - 4)) % 4 == 0;
  }

  /** What is left of a number whose last group is r. */
  lemma SplitComma(l: string, r: string)
    requires ',' !in r && AllDigits(RemoveCommas(l + "," + r))
    ensures RemoveCommas(l + "," + r) == RemoveCommas(l) + r && AllDigits(RemoveCommas(l))
  {
    RemoveCommasNone(r);
    FirstComma(r);
    hide RemoveCommas, AllDigits;
    assert l + "," + r == l + ("," + r);
    RemoveCommasSplit(l, "," + r);
    DigitsFront(RemoveCommas(l), r);
  }

  lemma FirstComma(r: string)
    ensures RemoveCommas("," + r) == RemoveCommas(r)
  {
    assert ("," + r)[1..] == r;
  }

  lemma DigitsFront(a: string, b: string)
    requires AllDigits(a + b)
    ensures AllDigits(a)
  {
    forall i | 0 <= i < |a| ensures IsDigit(a[i]) { assert a[i] == (a + b)[i]; }
  }

  lemma TwoDigits(a: char, b: char)
    requires IsDigit(a) && IsDigit(b)
    ensures AllDigits([a, b]) && Value([a, b]) == (a - '0') as nat * 10 + (b - '0') as nat
  {
    assert [a, b][..1] == [a] && [a][..0] == "";
    assert Value([a]) == (a - '0') as nat;
  }

  lemma CentsAreDecimals(s: string, cents: nat)
    ensures IsCents(s, cents) <==> s == Decimals(cents)
  {
    hide Value;
    var a, b := DigitChar(cents / 10 % 10), DigitChar(cents % 10);
    assert Decimals(cents)[1..] == [a, b];
    TwoDigits(a, b);
    assert cents % 100 == cents / 10 % 10 * 10 + cents % 10;
    if IsCents(s, cents) {
      assert s[1..] == [s[1], s[2]] && s == [s[0], s[1], s[2]];
      assert IsDigit(s[1..][0]) && IsDigit(s[1..][1]);
      TwoDigits(s[1], s[2]);
      assert s[1] == a && s[2] == b;
    }
  }

  lemma AmountIsPlain(s: string, cents: nat)
    ensures IsAmount(s, cents) <==> s == Plain(cents)
  {
    hide IsCents, Decimals, IsUnits;
    var t := Plain(cents);
    CentsLength(cents);
    DigitsAreUnits(cents / 100);
    CentsAreDecimals(Decimals(cents), cents);
    UnitsNotEmpty(Digits(cents / 100), cents / 100);
    assert t[..|t| - 3] == Digits(cents / 100) && t[|t| - 3..] == Decimals(cents);
    if IsAmount(s, cents) {
      UnitsAreDigits(s[..|s| - 3], cents / 100);
      CentsAreDecimals(s[|s| - 3..], cents);
      assert s == s[..|s| - 3] + s[|s| - 3..];
    }
  }

  lemma CentsLength(cents: nat)
    ensures |Decimals(cents)| == 3
  {
  }

  lemma UnitsNotEmpty(s: string, n: nat)
    requires IsUnits(s, n)
    ensures s != "" && AllDigits(s)
  {
  }

  lemma GroupedAmountIsGrouped(s: string, cents: nat)
    ensures IsGroupedAmount(s, cents) <==> s == Grouped(cents)
  {
    hide IsCents, Decimals, IsUnits, HasSeparators, Group, Digits, RemoveCommas;
    var t, ds := Grouped(cents), Digits(cents / 100);
    CentsLength(cents);
    DigitsAreUnits(cents / 100);
    UnitsNotEmpty(ds, cents / 100);
    CentsAreDecimals(Decimals(cents), cents);
    GroupRemoved(ds);
    GroupSeparates(ds);
    assert t[..|t| - 3] == Group(ds) && t[|t| - 3..] == Decimals(cents);
    if IsGroupedAmount(s, cents) {
      UnitsAreDigits(RemoveCommas(s[..|s| - 3]), cents / 100);
      SeparatorsGroup(s[..|s| - 3], ds);
      CentsAreDecimals(s[|s| - 3..], cents);
      assert s == s[..|s| - 3] + s[|s| - 3..];
    }
  }

  /** r is a printed form of the amount, around the plain or the grouped numeral s of its absolute value. */
  predicate IsPrintedForm(r: string, s: string, cents: int) {
    || (IsAmount(s, Abs(cents)) && (r == s || (cents < 0 && r == "-" + s)))
    || (IsGroupedAmount(s, Abs(cents)) && (r == (if cents < 0 then "-" + s else s) || r == "(" + s + ")"))
  }

  /** The printed forms are exactly these: the plain numeral with and without its sign, the grouped one with its sign,
      and the grouped one in parentheses. */
  lemma PrintedForms(c: int, r: string)
    ensures r in MoneyReprs(c) <==> exists s :: IsPrintedForm(r, s, c)
  {
    hide IsAmount, IsGroupedAmount, Plain, Grouped;
    var m := Abs(c);
    AmountIsPlain(Plain(m), m);
    GroupedAmountIsGrouped(Grouped(m), m);
    assert "" + Plain(m) == Plain(m) && "" + Grouped(m) == Grouped(m);
    if r in MoneyReprs(c) {
      assert IsPrintedForm(r, Plain(m), c) || IsPrintedForm(r, Grouped(m), c);
    }
    if s :| IsPrintedForm(r, s, c) {
      AmountIsPlain(s, m);
      GroupedAmountIsGrouped(s, m);
    }
  }
}

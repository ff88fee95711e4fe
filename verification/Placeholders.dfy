/** The rewriting of `?` placeholders to PostgreSQL's numbered ones, against a lexer of numbered placeholders. */
module Placeholders {

  predicate IsDigit(c: char) {
    '0' <= c <= '9'
  }

  function Digit(n: nat): (c: char)
    requires n < 10
    ensures IsDigit(c)
  {
    '0' + n as char
  }

  function Worth(c: char): (n: nat)
    requires IsDigit(c)
    ensures n < 10 && Digit(n) == c
  {
    (c - '0') as nat
  }

  function Decimal(n: nat): (ds: string)
    ensures ds != [] && forall c | c in ds :: IsDigit(c)
  {
    if n < 10 then [Digit(n)] else Decimal(n / 10) + [Digit(n % 10)]
  }

  function Value(ds: string): nat
    requires forall c | c in ds :: IsDigit(c)
  {
    if ds == [] then 0
    else
      var last := ds[|ds| - 1];
      assert last in ds;
      10 * Value(ds[..|ds| - 1]) + Worth(last)
  }

  /** No number but zero starts with a zero, so the digits are the usual ones. */
  lemma {:induction false} NoLeadingZero(n: nat)
    ensures Decimal(n)[0] == '0' ==> n == 0 && Decimal(n) == "0"
  {
    if n >= 10 {
      NoLeadingZero(n / 10);
    }
  }

  lemma {:induction false} ValueOfDecimal(n: nat)
    ensures Value(Decimal(n)) == n
  {
    if n >= 10 {
      ValueOfDecimal(n / 10);
      assert Decimal(n)[..|Decimal(n)| - 1] == Decimal(n / 10);
    }
  }

  lemma {:induction false} LongerIsLarger(ds: string, more: string)
    requires forall c | c in ds + more :: IsDigit(c)
    requires (forall c | c in ds :: IsDigit(c)) && Value(ds) > 0 && more != []
    ensures Value(ds + more) > Value(ds)
  {
    var init := more[..|more| - 1];
    assert (ds + more)[..|ds + more| - 1] == ds + init;
    if init == [] {
      assert ds + init == ds;
    } else {
      LongerIsLarger(ds, init);
    }
  }

  // ----- what PostgreSQL reads

  datatype Token = Char(c: char) | Param(number: nat)

  function DigitRun(s: string): (k: nat)
    ensures k <= |s| && (forall c | c in s[..k] :: IsDigit(c)) && (k < |s| ==> !IsDigit(s[k]))
  {
    if s == [] || !IsDigit(s[0]) then 0
    else
      var k := 1 + DigitRun(s[1..]);
      assert s[..k] == [s[0]] + s[1..][..k - 1];
      k
  }

  /** A dollar sign followed by digits is a parameter. */
  function Lex(s: string): seq<Token> {
    if s == [] then []
    else if s[0] == '$' && DigitRun(s[1..]) > 0 then
      var k := DigitRun(s[1..]);
      [Param(Value(s[1..][..k]))] + Lex(s[1..][k..])
    else [Char(s[0])] + Lex(s[1..])
  }

  // ----- what is meant: the question marks are the parameters n, n + 1, ..

  function Numbered(query: string, n: nat): seq<Token> {
    if query == [] then []
    else if query[0] == '?' then [Param(n)] + Numbered(query[1..], n + 1)
    else [Char(query[0])] + Numbered(query[1..], n)
  }

  lemma {:induction false} NumberedInjective(query: string, other: string, n: nat)
    requires Numbered(query, n) == Numbered(other, n)
    ensures query == other
  {
    if query != [] && other != [] {
      var n' := if query[0] == '?' then n + 1 else n;
      assert Numbered(query, n)[0] == Numbered(other, n)[0];
      assert Numbered(query, n)[1..] == Numbered(other, n)[1..];
      NumberedInjective(query[1..], other[1..], n');
    }
  }

  // ----- what is written

  function Bound(query: string, n: nat): string {
    if query == [] then []
    else if query[0] == '?' then "$" + Decimal(n) + Bound(query[1..], n + 1)
    else [query[0]] + Bound(query[1..], n)
  }

  lemma BoundStep(query: string, i: nat, n: nat)
    requires i < |query|
    ensures Bound(query[i..], n) ==
            if query[i] == '?' then ("$" + Decimal(n)) + Bound(query[i + 1..], n + 1)
            else [query[i]] + Bound(query[i + 1..], n)
  {
    assert query[i..][1..] == query[i + 1..];
  }

  lemma Regroup(built: string, piece: string, rest: string)
    ensures built + (piece + rest) == (built + piece) + rest
  {
  }

  method Bind(query: string) returns (built: string)
    ensures built == Bound(query, 1)
  {
    built := "";
    var placeholder := 1;
    for i := 0 to |query|
      invariant placeholder >= 1 && built + Bound(query[i..], placeholder) == Bound(query, 1)
    {
      hide Bound; hide Decimal;
      BoundStep(query, i, placeholder);
      if query[i] == '?' {
        Regroup(built, "$" + Decimal(placeholder), Bound(query[i + 1..], placeholder + 1));
        built := built + ("$" + Decimal(placeholder));
        placeholder := placeholder + 1;
      } else {
        Regroup(built, [query[i]], Bound(query[i + 1..], placeholder));
        built := built + [query[i]];
      }
    }
  }

  // ----- the two agree exactly on clear queries

  /** A question mark or a dollar sign directly followed by a digit. */
  predicate Risky(query: string, i: nat)
    requires i < |query|
  {
    (query[i] == '?' || query[i] == '$') && i + 1 < |query| && IsDigit(query[i + 1])
  }

  predicate Clear(query: string) {
    forall i | 0 <= i < |query| :: !Risky(query, i)
  }

  lemma ClearTail(query: string)
    requires query != []
    ensures Clear(query) <==> Clear(query[1..]) && !Risky(query, 0)
  {
    var rest := query[1..];
    assert forall i | 0 <= i < |rest| :: Risky(rest, i) == Risky(query, i + 1);
    if Clear(rest) && !Risky(query, 0) {
      forall i | 0 <= i < |query| ensures !Risky(query, i) {
        assert i > 0 ==> Risky(rest, i - 1) == Risky(query, i);
      }
    }
  }

  lemma BoundStart(query: string, n: nat)
    ensures DigitRun(Bound(query, n)) > 0 <==> query != [] && IsDigit(query[0])
  {
  }

  lemma {:induction false} DigitRunAppend(ds: string, rest: string)
    requires forall c | c in ds :: IsDigit(c)
    ensures DigitRun(ds + rest) == |ds| + DigitRun(rest)
  {
    if ds == [] {
      assert ds + rest == rest;
    } else {
      DigitRunAppend(ds[1..], rest);
      assert (ds + rest)[1..] == ds[1..] + rest;
    }
  }

  lemma LexDollar(s: string)
    requires DigitRun(s) > 0
    ensures var k := DigitRun(s); Lex("$" + s) == [Param(Value(s[..k]))] + Lex(s[k..])
  {
    assert ("$" + s)[1..] == s;
  }

  lemma Slices(ds: string, rest: string, k: nat)
    requires k <= |rest|
    ensures (ds + rest)[..|ds| + k] == ds + rest[..k] && (ds + rest)[|ds| + k..] == rest[k..]
    ensures k == 0 ==> ds + rest[..k] == ds
  {
  }

  /** The digits after the number just written, if any, make another number of it. */
  lemma NumberRead(n: nat, rest: string)
    requires n > 0
    ensures var s := Decimal(n) + rest;
            && s[DigitRun(s)..] == rest[DigitRun(rest)..]
            && DigitRun(s) > 0
            && (Value(s[..DigitRun(s)]) == n <==> DigitRun(rest) == 0)
  {
    var ds, k := Decimal(n), DigitRun(rest);
    DigitRunAppend(ds, rest);
    ValueOfDecimal(n);
    Slices(ds, rest, k);
    hide *;
    if k > 0 {
      LongerIsLarger(ds, rest[..k]);
    }
  }

  /** A parameter reads as written iff no digit follows it. */
  lemma LexParam(n: nat, rest: string)
    requires n > 0
    ensures var tokens := Lex("$" + Decimal(n) + rest);
            && (DigitRun(rest) == 0 ==> tokens == [Param(n)] + Lex(rest))
            && (DigitRun(rest) > 0 ==> tokens != [] && tokens[0] != Param(n))
  {
    hide Value; hide Decimal; hide DigitRun; hide Lex;
    var s := Decimal(n) + rest;
    assert "$" + Decimal(n) + rest == "$" + s;
    NumberRead(n, rest);
    LexDollar(s);
    assert rest[0..] == rest;
  }

  lemma LexChar(c: char, rest: string)
    ensures c == '$' && DigitRun(rest) > 0 ==> Lex([c] + rest) != [] && Lex([c] + rest)[0] != Char(c)
    ensures !(c == '$' && DigitRun(rest) > 0) ==> Lex([c] + rest) == [Char(c)] + Lex(rest)
  {
    assert ([c] + rest)[1..] == rest;
  }

  lemma SameTokens(x: Token, xs: seq<Token>, ys: seq<Token>)
    ensures [x] + xs == [x] + ys <==> xs == ys
  {
    assert ([x] + xs)[1..] == xs && ([x] + ys)[1..] == ys;
  }

  /** PostgreSQL reads the rewritten query as the original text with its question marks numbered in order if and only if
      no question mark and no dollar sign in it is directly followed by a digit. */
  lemma {:induction false} BoundReadsAsNumbered(query: string, n: nat)
    requires n > 0
    ensures Lex(Bound(query, n)) == Numbered(query, n) <==> Clear(query)
  {
    if query != [] {
      var rest := query[1..];
      ClearTail(query);
      hide Clear; hide Lex; hide DigitRun;
      var n' := if query[0] == '?' then n + 1 else n;
      BoundReadsAsNumbered(rest, n');
      BoundStart(rest, n');
      if query[0] == '?' {
        LexParam(n, Bound(rest, n'));
        SameTokens(Param(n), Lex(Bound(rest, n')), Numbered(rest, n'));
      } else {
        LexChar(query[0], Bound(rest, n'));
        SameTokens(Char(query[0]), Lex(Bound(rest, n')), Numbered(rest, n'));
      }
    }
  }

  /** Clear queries can be told apart after rewriting. */
  lemma BoundInjective(query: string, other: string)
    requires Clear(query) && Clear(other) && Bound(query, 1) == Bound(other, 1)
    ensures query == other
  {
    BoundReadsAsNumbered(query, 1);
    BoundReadsAsNumbered(other, 1);
    NumberedInjective(query, other, 1);
  }

  /** Queries that are not clear can collide. */
  lemma UnclearCollision()
    ensures Bound("?1", 1) == Bound("$11", 1) && !Clear("?1") && !Clear("$11")
  {
    assert Decimal(1) == "1";
    assert "?1"[1..] == "1" && "$11"[1..] == "11" && "11"[1..] == "1" && "1"[1..] == "";
    assert Risky("?1", 0) && Risky("$11", 0);
  }
}

/** Strings as the program's Python code sees them: sequences of Unicode scalar
    values, compared by code point. */
module Text {

  datatype Option<+T> = None | Some(value: T)

  datatype Result<+T, +E> = Ok(value: T) | Err(error: E)

  /** Exactly the characters that `str.isspace` accepts (also `\s` and `strip`). */
  predicate IsSpace(c: char) {
    var n := c as int;
    || 9 <= n <= 13 || 28 <= n <= 32 || n == 0x85 || n == 0xa0 || n == 0x1680
    || 0x2000 <= n <= 0x200a || n == 0x2028 || n == 0x2029 || n == 0x202f || n == 0x205f || n == 0x3000
  }

  /** The characters at which `str.splitlines` breaks a line. */
  predicate IsLineBreak(c: char) {
    var n := c as int;
    10 <= n <= 13 || 28 <= n <= 30 || n == 0x85 || n == 0x2028 || n == 0x2029
  }

  predicate IsDigit(c: char) { '0' <= c <= '9' }

  predicate All(s: string, p: char -> bool) { forall i :: 0 <= i < |s| ==> p(s[i]) }

  predicate StartsWith(s: string, prefix: string) { |prefix| <= |s| && s[..|prefix|] == prefix }

  /** How many leading characters of `s` satisfy `p`. */
  function Span(s: string, p: char -> bool): (n: nat)
    ensures n <= |s|
    ensures All(s[..n], p)
    ensures n < |s| ==> !p(s[n])
  {
    if s == [] || !p(s[0]) then 0
    else
      var n := 1 + Span(s[1..], p);
      assert forall i :: 0 <= i < n ==> s[..n][i] == if i == 0 then s[0] else s[1..][..n - 1][i - 1];
      n
  }

  lemma {:induction false} SpanAppend(a: string, rest: string, p: char -> bool)
    requires All(a, p)
    requires rest == [] || !p(rest[0])
    ensures Span(a + rest, p) == |a|
    ensures (a + rest)[..|a|] == a && (a + rest)[|a|..] == rest
  {
    if a == [] {
      assert a + rest == rest;
    } else {
      SpanAppend(a[1..], rest, p);
      assert (a + rest)[1..] == a[1..] + rest;
    }
  }

  /** What does not start with the alphabet does not lengthen a span. */
  lemma {:induction false} SpanExtends(s: string, rest: string, p: char -> bool)
    requires rest == [] || !p(rest[0])
    ensures Span(s + rest, p) == Span(s, p)
  {
    if s == [] {
      assert s + rest == rest;
    } else {
      assert (s + rest)[1..] == s[1..] + rest;
      if p(s[0]) { SpanExtends(s[1..], rest, p); }
    }
  }

  /** Two tokens over one alphabet, each followed by something outside it, are equal when the texts are. */
  lemma TokensAgree(a: string, ra: string, b: string, rb: string, p: char -> bool)
    requires All(a, p) && All(b, p)
    requires ra == [] || !p(ra[0])
    requires rb == [] || !p(rb[0])
    requires a + ra == b + rb
    ensures a == b && ra == rb
  {
    SpanAppend(a, ra, p);
    SpanAppend(b, rb, p);
  }

  lemma Regroup<T>(a: seq<T>, b: seq<T>, c: seq<T>)
    ensures (a + b) + c == a + (b + c)
  {
  }

  // ---------------------------------------------------------------- lines

  /** Every line followed by a newline. */
  function Concat(lines: seq<string>): string {
    if lines == [] then "" else lines[0] + "\n" + Concat(lines[1..])
  }

  lemma {:induction false} ConcatPlus(a: seq<string>, b: seq<string>)
    ensures Concat(a + b) == Concat(a) + Concat(b)
  {
    if a == [] {
      assert a + b == b;
    } else {
      assert (a + b)[1..] == a[1..] + b;
      ConcatPlus(a[1..], b);
    }
  }

  // ---------------------------------------------------------------- strip

  function StripLeft(s: string): (r: string) {
    if s != [] && IsSpace(s[0]) then StripLeft(s[1..]) else s
  }

  function StripRight(s: string): (r: string) {
    if s != [] && IsSpace(s[|s| - 1]) then StripRight(s[..|s| - 1]) else s
  }

  /** `str.strip()` */
  function Strip(s: string): (r: string) { StripRight(StripLeft(s)) }

  predicate Stripped(s: string) {
    s != [] ==> !IsSpace(s[0]) && !IsSpace(s[|s| - 1])
  }

  lemma {:induction false} StripLeftFacts(s: string)
    ensures var r := StripLeft(s); |r| <= |s| && r == s[|s| - |r|..] && (r != [] ==> !IsSpace(r[0]))
    ensures All(s[..|s| - |StripLeft(s)|], IsSpace)
  {
    if s != [] && IsSpace(s[0]) {
      StripLeftFacts(s[1..]);
      var k := |s| - |StripLeft(s)|;
      assert s[..k] == [s[0]] + s[1..][..k - 1];
    }
  }

  lemma {:induction false} StripRightFacts(s: string)
    ensures var r := StripRight(s); |r| <= |s| && r == s[..|r|] && (r != [] ==> !IsSpace(r[|r| - 1]))
    ensures All(s[|StripRight(s)|..], IsSpace)
  {
    if s != [] && IsSpace(s[|s| - 1]) {
      var n, k := |s| - 1, |StripRight(s)|;
      StripRightFacts(s[..n]);
      assert s[k..] == s[..n][k..] + [s[n]];
    }
  }

  /** The result of `strip` is a stripped piece of the text, and stripped text is its own result. */
  lemma StripFacts(s: string)
    ensures Stripped(Strip(s))
    ensures exists i, j :: 0 <= i <= j <= |s| && Strip(s) == s[i..j]
    ensures Stripped(s) ==> Strip(s) == s
    ensures Strip(Strip(s)) == Strip(s)
  {
    StripLeftFacts(s);
    var l := StripLeft(s);
    StripRightFacts(l);
    var r := StripRight(l);
    assert r == s[|s| - |l|..|s| - |l| + |r|];
    if r != [] { assert r[0] == l[0]; }
  }

  /** Only spaces are cut off. */
  lemma StripSides(s: string) returns (a: string, b: string)
    ensures s == a + Strip(s) + b && All(a, IsSpace) && All(b, IsSpace)
  {
    StripLeftFacts(s);
    var l := StripLeft(s);
    StripRightFacts(l);
    a, b := s[..|s| - |l|], l[|Strip(s)|..];
  }

  // ---------------------------------------------------------------- decimal integers

  function DigitChar(d: nat): (c: char)
    requires d < 10
    ensures IsDigit(c) && DigitValue(c) == d
  {
    '0' + d as char
  }

  function DigitValue(c: char): nat requires IsDigit(c) { (c - '0') as int }

  /** Decimal digits of a natural number, as `str(n)` writes them. */
  function PrintNat(n: nat): (s: string)
    ensures s != [] && All(s, IsDigit)
    ensures n > 0 ==> s[0] != '0'
    ensures n == 0 ==> s == "0"
  {
    if n < 10 then [DigitChar(n)] else PrintNat(n / 10) + [DigitChar(n % 10)]
  }

  /** The number a digit string denotes. */
  function NatOf(s: string): nat
    requires All(s, IsDigit)
  {
    if s == [] then 0 else 10 * NatOf(s[..|s| - 1]) + DigitValue(s[|s| - 1])
  }

  /** Decimal: one more digit counts the others ten times. */
  lemma NatOfDigits(s: string, c: char)
    requires All(s, IsDigit) && '0' <= c <= '9'
    ensures NatOf(s + [c]) == 10 * NatOf(s) + (c as int - 48) && NatOf("") == 0
  {
    assert (s + [c])[..|s|] == s;
  }

  lemma {:induction false} NatOfPrintNat(n: nat)
    ensures NatOf(PrintNat(n)) == n
  {
    if n >= 10 {
      NatOfPrintNat(n / 10);
      var s := PrintNat(n);
      assert s[..|s| - 1] == PrintNat(n / 10);
    } else {
      assert PrintNat(n)[..0] == [];
    }
  }

  /** `str(n)` for any integer. */
  function PrintInt(n: int): (s: string)
    ensures s != []
  {
    if n < 0 then "-" + PrintNat(-n) else PrintNat(n)
  }

  lemma PrintIntInjective(m: int, n: int)
    requires PrintInt(m) == PrintInt(n)
    ensures m == n
  {
    if m < 0 { assert PrintInt(m)[1..] == PrintNat(-m); NatOfPrintNat(-m); } else { NatOfPrintNat(m); }
    if n < 0 { assert PrintInt(n)[1..] == PrintNat(-n); NatOfPrintNat(-n); } else { NatOfPrintNat(n); }
  }

  // ---------------------------------------------------------------- order by code point

  /** `a < b` on Python strings. */
  predicate Less(a: string, b: string)
  {
    b != [] && (a == [] || a[0] < b[0] || (a[0] == b[0] && Less(a[1..], b[1..])))
  }

  predicate AtMost(a: string, b: string) { !Less(b, a) }

  lemma {:induction false} LessTransitive(a: string, b: string, c: string)
    requires AtMost(a, b) && AtMost(b, c)
    ensures AtMost(a, c)
    ensures Less(a, b) || Less(b, c) ==> Less(a, c)
  {
    if a != [] && b != [] && c != [] && a[0] == b[0] == c[0] {
      LessTransitive(a[1..], b[1..], c[1..]);
    }
  }

  /** The first place where the texts differ decides; a text comes before its continuations. */
  predicate DiffersAt(a: string, b: string, k: nat) {
    && k <= |a| && k < |b| && a[..k] == b[..k]
    && (k == |a| || a[k] < b[k])
  }

  lemma SameFirst(a: string, b: string, k: nat)
    requires DiffersAt(a, b, k)
    ensures k > 0 ==> a[0] == b[0]
  {
    if k > 0 { assert a[..k][0] == b[..k][0]; }
  }

  lemma {:induction false} LessMeans(a: string, b: string)
    ensures Less(a, b) <==> exists k: nat :: DiffersAt(a, b, k)
  {
    if b != [] && a == [] {
      assert DiffersAt(a, b, 0);
    } else if b != [] && a[0] < b[0] {
      assert DiffersAt(a, b, 0);
    } else if b != [] && a[0] == b[0] {
      LessMeans(a[1..], b[1..]);
      if k: nat :| DiffersAt(a[1..], b[1..], k) {
        assert a[..k + 1] == [a[0]] + a[1..][..k] && b[..k + 1] == [b[0]] + b[1..][..k];
        assert DiffersAt(a, b, k + 1);
      }
      if k: nat :| DiffersAt(a, b, k) {
        assert k > 0;
        assert a[1..][..k - 1] == a[..k][1..] && b[1..][..k - 1] == b[..k][1..];
        assert DiffersAt(a[1..], b[1..], k - 1);
      }
    } else {
      forall k: nat | DiffersAt(a, b, k) ensures k > 0 ==> a[0] == b[0] { SameFirst(a, b, k); }
    }
  }

  lemma {:induction false} LessTotal(a: string, b: string)
    ensures Less(a, b) || Less(b, a) || a == b
    ensures !(Less(a, b) && Less(b, a))
    ensures !Less(a, a)
  {
    if a != [] { LessTotal(a[1..], a[1..]); }
    if a != [] && b != [] && a[0] == b[0] {
      LessTotal(a[1..], b[1..]);
      assert a == [a[0]] + a[1..] && b == [b[0]] + b[1..];
    }
  }

  // ---------------------------------------------------------------- reading item by item

  /** `f` of every item, or nothing as soon as one item has none. */
  function Traverse<A, B>(xs: seq<A>, f: A -> Option<B>): Option<seq<B>> {
    if xs == [] then Some([])
    else
      var first, others := f(xs[0]), Traverse(xs[1..], f);
      if first.None? || others.None? then None else Some([first.value] + others.value)
  }

  lemma {:induction false} TraverseFacts<A, B>(xs: seq<A>, f: A -> Option<B>)
    ensures Traverse(xs, f).Some? <==> forall i :: 0 <= i < |xs| ==> f(xs[i]).Some?
    ensures Traverse(xs, f).Some? ==> |Traverse(xs, f).value| == |xs|
    ensures Traverse(xs, f).Some? ==> forall i :: 0 <= i < |xs| ==> f(xs[i]) == Some(Traverse(xs, f).value[i])
  {
    if xs != [] {
      TraverseFacts(xs[1..], f);
      assert forall i :: 0 < i < |xs| ==> xs[i] == xs[1..][i - 1];
    }
  }

  /** The items come out as `ys` exactly when each does. */
  lemma TraverseIs<A, B>(xs: seq<A>, f: A -> Option<B>, ys: seq<B>)
    requires |xs| == |ys|
    ensures Traverse(xs, f) == Some(ys) <==> forall i :: 0 <= i < |xs| ==> f(xs[i]) == Some(ys[i])
  {
    TraverseFacts(xs, f);
    if forall i :: 0 <= i < |xs| ==> f(xs[i]) == Some(ys[i]) {
      assert Traverse(xs, f).value == ys;
    }
  }

  lemma {:induction false} TraverseAgrees<A, B, C>(xs: seq<A>, f: A -> Option<C>, ys: seq<B>, g: B -> Option<C>)
    requires |xs| == |ys| && forall i :: 0 <= i < |xs| ==> f(xs[i]) == g(ys[i])
    ensures Traverse(xs, f) == Traverse(ys, g)
  {
    if xs != [] { TraverseAgrees(xs[1..], f, ys[1..], g); }
  }

  lemma {:induction false} TraverseSplit<A, B>(xs: seq<A>, f: A -> Option<B>, done: seq<B>, k: nat)
    requires k <= |xs| && Traverse(xs[..k], f) == Some(done)
    ensures k < |xs| && f(xs[k]).Some? ==> Traverse(xs[..k + 1], f) == Some(done + [f(xs[k]).value])
    ensures k < |xs| && f(xs[k]).None? ==> Traverse(xs, f) == None
  {
    TraverseFacts(xs[..k], f);
    if k < |xs| {
      TraverseFacts(xs, f);
      if f(xs[k]).Some? {
        TraverseIs(xs[..k + 1], f, done + [f(xs[k]).value]);
      }
    }
  }
}

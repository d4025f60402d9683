/** `execution.py`: the canonical bytes and the fingerprint of an execution plan. */
module PlanIdentity {
  import opened Text
  import opened Sorting
  import opened Json
  import opened CanonicalOrder
  import opened JsonReader

  // ---------------------------------------------------------------- compact JSON text

  function HexChar(d: nat): char
    requires d < 16
  {
    if d < 10 then '0' + d as char else 'a' + (d - 10) as char
  }

  /** One character of a JSON string as `json.dumps(ensure_ascii=False)` writes it (RFC 8259 section 7). */
  function EscapeChar(c: char): (r: string)
    ensures r != [] && r[0] != '"'
  {
    if c == '"' then "\\\""
    else if c == '\\' then "\\\\"
    else if c == '\n' then "\\n"
    else if c == '\r' then "\\r"
    else if c == '\t' then "\\t"
    else if c as int == 12 then "\\f"
    else if c as int == 8 then "\\b"
    else if c as int < 0x20 then "\\u00" + [HexChar(c as int / 16), HexChar(c as int % 16)]
    else [c]
  }

  /** The text of a value followed by `tail`; writing the tail along keeps every
      definition a plain left-to-right emission. */
  function Render(j: Json, tail: string): string {
    match j
    case Null => "null" + tail
    case Bool(b) => (if b then "true" else "false") + tail
    case Int(n) => PrintInt(n) + tail
    case Float(t) => t + tail
    case Str(s) => Quote(s, tail)
    case List(items) => "[" + RenderItems(items, "]" + tail)
    case Object(ms) => "{" + RenderMembers(ms, "}" + tail)
  }

  function Quote(s: string, tail: string): string { "\"" + Escape(s, "\"" + tail) }

  function Escape(s: string, tail: string): string {
    if s == [] then tail else EscapeChar(s[0]) + Escape(s[1..], tail)
  }

  function RenderItems(items: seq<Json>, tail: string): string {
    if items == [] then tail
    else if |items| == 1 then Render(items[0], tail)
    else Render(items[0], "," + RenderItems(items[1..], tail))
  }

  function RenderMembers(ms: seq<Member>, tail: string): string {
    if ms == [] then tail
    else if |ms| == 1 then RenderMember(ms[0], tail)
    else RenderMember(ms[0], "," + RenderMembers(ms[1..], tail))
  }

  function RenderMember(m: Member, tail: string): string {
    Quote(m.key, ":" + Render(m.value, tail))
  }

  /** `json.dumps(value, ensure_ascii=False, sort_keys=True, separators=(",", ":"))` */
  function Dumps(j: Json): string { Render(Arrange(j, KeyOf), "") }

  // ---------------------------------------------------------------- reading it back

  lemma SameStart<T>(p: seq<T>, x: seq<T>, q: seq<T>, y: seq<T>)
    requires |p| == |q| && p + x == q + y
    ensures p == q && x == y
  {
    assert (p + x)[..|p|] == p && (q + y)[..|q|] == q;
    assert (p + x)[|p|..] == x && (q + y)[|q|..] == y;
  }

  /** What may follow a value inside a text. */
  predicate Stop(r: string) { r == [] || r[0] == ',' || r[0] == ']' || r[0] == '}' }

  lemma HexRead(d: nat)
    requires d < 16
    ensures IsHex(HexChar(d)) && HexValue(HexChar(d)) == d
  {
  }

  /** An escaped control character is read as that character. */
  lemma ControlRead(c: char, x: string)
    requires c < ' '
    ensures ReadEscape("u00" + [HexChar(c as int / 16), HexChar(c as int % 16)] + x) == Got(c, x)
  {
    var a, b := HexChar(c as int / 16), HexChar(c as int % 16);
    HexRead(c as int / 16);
    HexRead(c as int % 16);
    var s := "u00" + [a, b] + x;
    assert s[0] == 'u' && s[1] == '0' && s[2] == '0' && s[3] == a && s[4] == b;
    assert s[1..][0] == '0' && s[1..][1] == '0' && s[1..][2] == a && s[1..][3] == b;
    assert FourHex(s[1..]) == Some(c as int);
    assert s[5..] == x;
  }

  lemma PlainRead(c: char, x: string)
    requires !(c < ' ') && c != '"' && c != '\\'
    ensures ReadString([c] + x) == (var r := ReadString(x); if r.Stuck? then Stuck else Got([c] + r.value, r.rest))
  {
    assert ([c] + x)[1..] == x;
  }

  lemma BackslashRead(e: string, c: char, x: string)
    requires ReadEscape(e + x) == Got(c, x)
    ensures ReadString("\\" + e + x) == (var r := ReadString(x); if r.Stuck? then Stuck else Got([c] + r.value, r.rest))
  {
    var s := "\\" + e + x;
    assert s[0] == '\\' && s[1..] == e + x;
  }

  lemma ShortRead(e: char, c: char, x: string)
    requires (e == '"' && c == '"') || (e == '\\' && c == '\\')
          || (e == 'n' && c as int == 10) || (e == 'r' && c as int == 13)
          || (e == 't' && c as int == 9) || (e == 'f' && c as int == 12) || (e == 'b' && c as int == 8)
    ensures ReadEscape([e] + x) == Got(c, x)
  {
    assert ([e] + x)[1..] == x;
  }

  /** One character, however it is written, is read as itself. */
  lemma CharRead(c: char, x: string)
    ensures var r := ReadString(x);
      ReadString(EscapeChar(c) + x) == if r.Stuck? then Stuck else Got([c] + r.value, r.rest)
  {
    var w := EscapeChar(c);
    if |w| == 1 {
      PlainRead(c, x);
    } else if |w| == 2 {
      ShortRead(w[1], c, x);
      assert w == "\\" + [w[1]];
      BackslashRead([w[1]], c, x);
    } else {
      ControlRead(c, x);
      var e := "u00" + [HexChar(c as int / 16), HexChar(c as int % 16)];
      assert w == "\\" + e;
      BackslashRead(e, c, x);
    }
  }

  lemma {:induction false} EscapeRead(s: string, x: string)
    ensures ReadString(Escape(s, "\"" + x)) == Got(s, x)
  {
    if s == [] {
      assert ("\"" + x)[1..] == x;
    } else {
      EscapeRead(s[1..], x);
      CharRead(s[0], Escape(s[1..], "\"" + x));
      assert [s[0]] + s[1..] == s;
    }
  }

  // numbers

  /** A token of number characters ends at what may follow a value. */
  lemma TokenRead(t: string, x: string)
    requires All(t, IsNumberChar) && Stop(x)
    ensures IntegerToken(t) ==> ReadNumber(t + x) == Got(Int(IntegerValue(t)), x)
    ensures !IntegerToken(t) && t != [] && FiniteToken(t) ==> ReadNumber(t + x) == Got(Float(t), x)
  {
    SpanAppend(t, x, IsNumberChar);
  }

  lemma PositiveToken(digits: string)
    requires digits != [] && All(digits, IsDigit) && (|digits| > 1 ==> digits[0] != '0')
    ensures IntegerToken(digits) && IntegerValue(digits) == NatOf(digits)
  {
    assert IsDigit(digits[0]);
  }

  lemma NegativeToken(digits: string)
    requires digits != [] && All(digits, IsDigit) && (|digits| > 1 ==> digits[0] != '0')
    ensures IntegerToken("-" + digits) && IntegerValue("-" + digits) == 0 - NatOf(digits)
  {
    assert ("-" + digits)[1..] == digits;
  }

  lemma IntToken(n: int)
    ensures IntegerToken(PrintInt(n)) && IntegerValue(PrintInt(n)) == n
  {
    if n < 0 {
      NatOfPrintNat(-n);
      NegativeToken(PrintNat(-n));
    } else {
      NatOfPrintNat(n);
      PositiveToken(PrintNat(n));
    }
  }

  lemma IntChars(n: int)
    ensures All(PrintInt(n), IsNumberChar)
  {
  }

  lemma IntRead(n: int, x: string)
    requires Stop(x)
    ensures ReadNumber(PrintInt(n) + x) == Got(Int(n), x)
  {
    IntToken(n);
    IntChars(n);
    TokenRead(PrintInt(n), x);
  }

  lemma ExponentChars(t: string)
    requires ExponentToken(t)
    ensures All(t, IsNumberChar)
  {
    var digits := if t[1] == '+' || t[1] == '-' then t[2..] else t[1..];
    forall i | 0 <= i < |t| ensures IsNumberChar(t[i]) {
      if |t| - |digits| <= i { assert t[i] == digits[i - (|t| - |digits|)]; }
    }
  }

  lemma JoinAll(a: string, b: string, t: string, p: char -> bool)
    requires t == a + b && All(a, p) && All(b, p)
    ensures All(t, p)
  {
  }

  lemma DotChars(t: string, n: nat)
    requires |t| > n && t[0] == '.' && All(t[1..][..n], IsDigit)
    ensures All(t[..n + 1], IsNumberChar)
  {
    var front, digits := t[..n + 1], t[1..][..n];
    forall i | 0 <= i < |front| ensures IsNumberChar(front[i]) {
      if i > 0 { assert front[i] == digits[i - 1]; }
    }
  }

  lemma FractionChars(t: string)
    requires FractionToken(t)
    ensures All(t, IsNumberChar) && t != [] && !IsDigit(t[0])
  {
    if ExponentToken(t) {
      ExponentChars(t);
    } else {
      var n := Span(t[1..], IsDigit);
      DotChars(t, n);
      var rest := t[1 + n..];
      if rest != [] { ExponentChars(rest); }
      JoinAll(t[..n + 1], rest, t, IsNumberChar);
    }
  }

  lemma DigitChars(s: string)
    requires All(s, IsDigit)
    ensures All(s, IsNumberChar)
  {
  }

  lemma TokenChars(digits: string, rest: string, u: string)
    requires u == digits + rest && All(digits, IsDigit) && All(rest, IsNumberChar) && rest != [] && !IsDigit(rest[0])
    ensures All(u, IsNumberChar) && !All(u, IsDigit)
  {
    DigitChars(digits);
    JoinAll(digits, rest, u, IsNumberChar);
    assert u[|digits|] == rest[0];
  }

  lemma SignedChars(t: string, u: string)
    requires t != [] && u == (if t[0] == '-' then t[1..] else t) && All(u, IsNumberChar) && !All(u, IsDigit)
    ensures All(t, IsNumberChar) && !IntegerToken(t)
  {
    if t[0] == '-' { JoinAll("-", u, t, IsNumberChar); }
  }

  lemma FiniteParts(t: string) returns (u: string, n: nat)
    requires FiniteToken(t)
    ensures t != [] && u == (if t[0] == '-' then t[1..] else t)
    ensures n <= |u| && All(u[..n], IsDigit) && FractionToken(u[n..])
  {
    u := if t[0] == '-' then t[1..] else t;
    n := Span(u, IsDigit);
  }

  lemma FiniteChars(t: string)
    requires FiniteToken(t)
    ensures All(t, IsNumberChar) && !IntegerToken(t)
  {
    var u, n := FiniteParts(t);
    FractionChars(u[n..]);
    TokenChars(u[..n], u[n..], u);
    SignedChars(t, u);
  }

  lemma FiniteRead(t: string, x: string)
    requires FiniteToken(t) && Stop(x)
    ensures ReadNumber(t + x) == Got(Float(t), x)
  {
    FiniteChars(t);
    FiniteStarts(t);
    TokenRead(t, x);
  }

  predicate NumberStart(c: char) { IsDigit(c) || c == '-' }

  lemma NotAWord(t: string)
    requires t != [] && NumberStart(t[0]) && !StartsWith(t, "-Infinity")
    ensures ReadWord(t) == ReadNumber(t)
  {
    NotFirst(t, "null");
    NotFirst(t, "true");
    NotFirst(t, "false");
    NotFirst(t, "NaN");
    NotFirst(t, "Infinity");
  }

  lemma NotFirst(s: string, p: string)
    requires p != [] && (s == [] || s[0] != p[0])
    ensures !StartsWith(s, p)
  {
    if |p| <= |s| { assert s[..|p|][0] == s[0]; }
  }

  lemma NotInfinity(t: string)
    requires |t| > 0 && (t[0] == '-' ==> |t| > 1 && IsDigit(t[1]))
    ensures !StartsWith(t, "-Infinity")
  {
    if |t| >= 9 { assert t[..9][0] == t[0] && t[..9][1] == t[1]; }
  }

  lemma WordRead(word: string, x: string, j: Json)
    requires (word == "null" && j == Null)
          || (word == "true" && j == Bool(true)) || (word == "false" && j == Bool(false))
          || (word == "NaN" && j == Float("NaN")) || (word == "Infinity" && j == Float("Infinity"))
          || (word == "-Infinity" && j == Float("-Infinity"))
    ensures ReadWord(word + x) == Got(j, x)
  {
    var s := word + x;
    assert s[..|word|] == word && s[|word|..] == x && s[0] == word[0];
    if word != "null" { NotFirst(s, "null"); }
    if word != "true" { NotFirst(s, "true"); }
    if word != "false" { NotFirst(s, "false"); }
    if word == "-Infinity" || word == "Infinity" { NotFirst(s, "NaN"); }
    if word == "-Infinity" { NotFirst(s, "Infinity"); }
  }

  lemma FiniteStarts(t: string)
    requires FiniteToken(t)
    ensures t != [] && NumberStart(t[0]) && (t[0] == '-' ==> |t| > 1 && IsDigit(t[1]))
  {
    var u := if t != [] && t[0] == '-' then t[1..] else t;
    assert u[..Span(u, IsDigit)][0] == u[0];
  }

  lemma IntStarts(n: int)
    ensures var t := PrintInt(n); NumberStart(t[0]) && (t[0] == '-' ==> |t| > 1 && IsDigit(t[1]))
  {
    if n < 0 { assert PrintInt(n)[1] == PrintNat(-n)[0]; }
  }

  /** A scalar that is no string. */
  predicate IsPlain(j: Json) { j.Null? || j.Bool? || j.Int? || j.Float? }

  lemma NumberTextRead(t: string, x: string)
    requires t != [] && NumberStart(t[0]) && (t[0] == '-' ==> |t| > 1 && IsDigit(t[1]))
    ensures ReadWord(t + x) == ReadNumber(t + x)
  {
    var s := t + x;
    assert s[0] == t[0] && (|t| > 1 ==> s[1] == t[1]);
    NotInfinity(s);
    NotAWord(s);
  }

  lemma PlainWordRead(j: Json, x: string)
    requires WellFormed(j) && IsPlain(j) && Stop(x)
    ensures ReadWord(Render(j, x)) == Got(j, x)
  {
    match j
    case Null => WordRead("null", x, j);
    case Bool(b) => WordRead(if b then "true" else "false", x, j);
    case Int(n) =>
      IntStarts(n);
      NumberTextRead(PrintInt(n), x);
      IntRead(n, x);
    case Float(t) =>
      if FiniteToken(t) {
        FiniteStarts(t);
        NumberTextRead(t, x);
        FiniteRead(t, x);
      } else {
        WordRead(t, x, j);
      }
  }

  /** The first character of a value's text: never a blank, a bracket that closes, or a comma. */
  predicate Opening(c: char) {
    c == '"' || c == '[' || c == '{' || NumberStart(c) || c == 'n' || c == 't' || c == 'f' || c == 'N' || c == 'I'
  }

  lemma RenderOpens(j: Json, x: string)
    requires WellFormed(j)
    ensures Render(j, x) != [] && Opening(Render(j, x)[0])
    ensures IsPlain(j) ==> Render(j, x)[0] != '"' && Render(j, x)[0] != '[' && Render(j, x)[0] != '{'
  {
    if j.Int? { IntStarts(j.n); }
    if j.Float? && FiniteToken(j.token) { FiniteStarts(j.token); }
  }

  lemma NothingToSkip(s: string)
    requires s == [] || !IsBlank(s[0])
    ensures Skip(s) == s
  {
  }

  lemma PlainValueRead(j: Json, x: string)
    requires WellFormed(j) && IsPlain(j) && Stop(x)
    ensures ReadValue(Render(j, x)) == Got(j, x)
  {
    RenderOpens(j, x);
    NothingToSkip(Render(j, x));
    PlainWordRead(j, x);
  }

  lemma StringValueRead(s: string, x: string)
    ensures ReadValue(Quote(s, x)) == Got(Str(s), x)
  {
    EscapeRead(s, x);
    NothingToSkip(Quote(s, x));
    assert Quote(s, x)[1..] == Escape(s, "\"" + x);
  }

  lemma ListValueRead(text: string, items: seq<Json>, x: string)
    requires ReadItems(text) == Got(items, x)
    ensures ReadValue("[" + text) == Got(List(items), x)
  {
    NothingToSkip("[" + text);
    assert ("[" + text)[1..] == text;
  }

  lemma ObjectValueRead(text: string, ms: seq<Member>, x: string)
    requires ReadMembers(text) == Got(ms, x)
    ensures ReadValue("{" + text) == Got(Object(ms), x)
  {
    NothingToSkip("{" + text);
    assert ("{" + text)[1..] == text;
  }

  /** A value's text, followed by what may follow a value, is read as that value. */
  lemma {:induction false} RenderRead(j: Json, x: string)
    requires WellFormed(j) && Stop(x)
    ensures ReadValue(Render(j, x)) == Got(j, x)
    decreases j, 0
  {
    if IsPlain(j) {
      PlainValueRead(j, x);
    } else if j.Str? {
      StringValueRead(j.s, x);
    } else if j.List? {
      ItemsRead(j.items, x);
      ListValueRead(RenderItems(j.items, "]" + x), j.items, x);
    } else {
      MembersRead(j.members, x);
      ObjectValueRead(RenderMembers(j.members, "}" + x), j.members, x);
    }
  }

  lemma NoItemsRead(x: string)
    ensures ReadItems("]" + x) == Got([], x)
  {
    NothingToSkip("]" + x);
    assert ("]" + x)[1..] == x;
  }

  lemma ItemsOpen(s: string)
    requires s != [] && Opening(s[0])
    ensures ReadItems(s) == ReadMoreItems(s)
  {
    NothingToSkip(s);
  }

  lemma LastItemRead(s: string, j: Json, x: string)
    requires ReadValue(s) == Got(j, "]" + x)
    ensures ReadMoreItems(s) == Got([j], x)
  {
    NothingToSkip("]" + x);
    assert ("]" + x)[1..] == x;
  }

  lemma NextItemRead(s: string, j: Json, text: string, others: seq<Json>, x: string)
    requires ReadValue(s) == Got(j, "," + text) && ReadMoreItems(text) == Got(others, x)
    ensures ReadMoreItems(s) == Got([j] + others, x)
  {
    NothingToSkip("," + text);
    assert ("," + text)[1..] == text;
  }

  lemma {:induction false} ItemsRead(items: seq<Json>, x: string)
    requires WellFormed(List(items))
    ensures ReadItems(RenderItems(items, "]" + x)) == Got(items, x)
    ensures items != [] ==> ReadMoreItems(RenderItems(items, "]" + x)) == Got(items, x)
    decreases items, 1
  {
    if items == [] {
      NoItemsRead(x);
    } else if |items| == 1 {
      var s := Render(items[0], "]" + x);
      RenderRead(items[0], "]" + x);
      RenderOpens(items[0], "]" + x);
      LastItemRead(s, items[0], x);
      ItemsOpen(s);
      assert items == [items[0]];
    } else {
      var text := RenderItems(items[1..], "]" + x);
      var s := Render(items[0], "," + text);
      RenderRead(items[0], "," + text);
      RenderOpens(items[0], "," + text);
      ItemsRead(items[1..], x);
      NextItemRead(s, items[0], text, items[1..], x);
      ItemsOpen(s);
      assert items == [items[0]] + items[1..];
    }
  }

  lemma NoMembersRead(x: string)
    ensures ReadMembers("}" + x) == Got([], x)
  {
    NothingToSkip("}" + x);
    assert ("}" + x)[1..] == x;
  }

  lemma MemberRead(m: Member, x: string)
    requires ReadValue(Render(m.value, x)) == Got(m.value, x)
    ensures ReadMember(RenderMember(m, x)) == Got(m, x)
    ensures ReadMembers(RenderMember(m, x)) == ReadMoreMembers(RenderMember(m, x))
  {
    var s, after := RenderMember(m, x), ":" + Render(m.value, x);
    EscapeRead(m.key, after);
    NothingToSkip(s);
    assert s[1..] == Escape(m.key, "\"" + after);
    NothingToSkip(after);
    assert after[1..] == Render(m.value, x);
  }

  lemma LastMemberRead(s: string, m: Member, x: string)
    requires ReadMember(s) == Got(m, "}" + x)
    ensures ReadMoreMembers(s) == Got([m], x)
  {
    NothingToSkip("}" + x);
    assert ("}" + x)[1..] == x;
  }

  lemma NextMemberRead(s: string, m: Member, text: string, others: seq<Member>, x: string)
    requires ReadMember(s) == Got(m, "," + text) && ReadMoreMembers(text) == Got(others, x)
    ensures ReadMoreMembers(s) == Got([m] + others, x)
  {
    NothingToSkip("," + text);
    assert ("," + text)[1..] == text;
  }

  lemma {:induction false} MembersRead(ms: seq<Member>, x: string)
    requires forall i :: 0 <= i < |ms| ==> WellFormed(ms[i].value)
    ensures ReadMembers(RenderMembers(ms, "}" + x)) == Got(ms, x)
    ensures ms != [] ==> ReadMoreMembers(RenderMembers(ms, "}" + x)) == Got(ms, x)
    decreases ms, 1
  {
    if ms == [] {
      NoMembersRead(x);
    } else if |ms| == 1 {
      RenderRead(ms[0].value, "}" + x);
      MemberRead(ms[0], "}" + x);
      LastMemberRead(RenderMember(ms[0], "}" + x), ms[0], x);
      assert ms == [ms[0]];
    } else {
      var text := RenderMembers(ms[1..], "}" + x);
      RenderRead(ms[0].value, "," + text);
      MemberRead(ms[0], "," + text);
      MembersRead(ms[1..], x);
      NextMemberRead(RenderMember(ms[0], "," + text), ms[0], text, ms[1..], x);
      assert ms == [ms[0]] + ms[1..];
    }
  }

  /** No text of one value, followed by something that may follow a value, is the text of another. */
  lemma RenderReadable(a: Json, x: string, b: Json, y: string)
    requires WellFormed(a) && WellFormed(b) && Stop(x) && Stop(y)
    requires Render(a, x) == Render(b, y)
    ensures a == b && x == y
  {
    RenderRead(a, x);
    RenderRead(b, y);
  }

  /** At every depth the keys of an object are in strictly increasing order of code points. */
  predicate KeysInOrder(j: Json) {
    match j
    case List(items) => forall i :: 0 <= i < |items| ==> KeysInOrder(items[i])
    case Object(ms) =>
      && (forall i :: 0 <= i < |ms| ==> KeysInOrder(ms[i].value))
      && (forall i, k :: 0 <= i < k < |ms| ==> Less(ms[i].key, ms[k].key))
    case _ => true
  }

  lemma {:induction false} ArrangedKeys(j: Json)
    requires WellFormed(j) && Arranged(j, KeyOf)
    ensures KeysInOrder(j)
  {
    match j
    case List(items) => forall i | 0 <= i < |items| ensures KeysInOrder(items[i]) { ArrangedKeys(items[i]); }
    case Object(ms) =>
      forall i | 0 <= i < |ms| ensures KeysInOrder(ms[i].value) { ArrangedKeys(ms[i].value); }
      forall i, k | 0 <= i < k < |ms| ensures Less(ms[i].key, ms[k].key) {
        assert KeyOf(ms[i]) != KeyOf(ms[k]);
        LessTotal(ms[i].key, ms[k].key);
      }
    case _ =>
  }

  /** The dumped text is JSON text: a reader that knows nothing of the writer reads the same value from it, with
      the keys of every object in order. */
  lemma DumpsIsRead(j: Json)
    requires WellFormed(j)
    ensures var k := ReadText(Dumps(j)); k.Some? && Denote(k.value) == Denote(j) && KeysInOrder(k.value)
  {
    ArrangeFacts(j, KeyOf);
    RenderRead(Arrange(j, KeyOf), "");
    ArrangedKeys(Arrange(j, KeyOf));
  }

  /** How long each character's text is, and which letters an escape in hexadecimal uses: with `CharRead`, this
      leaves one text for every character. */
  lemma EscapeLength(c: char)
    ensures var n := c as int;
      var short := n == 34 || n == 92 || (8 <= n <= 13 && n != 11);
      |EscapeChar(c)| == if short then 2 else if n < 32 then 6 else 1
    ensures forall i :: 0 <= i < |EscapeChar(c)| && |EscapeChar(c)| == 6 ==> !('A' <= EscapeChar(c)[i] <= 'F')
  {
  }

  // no blank outside a string

  /** Blanks stand only between a quotation mark and the next one that no backslash escapes. */
  predicate Compact(s: string, quoted: bool) {
    if s == [] then true
    else if !quoted then !IsBlank(s[0]) && Compact(s[1..], s[0] == '"')
    else if s[0] == '\\' then |s| > 1 ==> Compact(s[2..], true)
    else Compact(s[1..], s[0] != '"')
  }

  predicate IsDense(c: char) { !IsBlank(c) && c != '"' }

  lemma {:induction false} DenseCompact(t: string, x: string)
    requires All(t, IsDense) && Compact(x, false)
    ensures Compact(t + x, false)
  {
    if t == [] {
      assert t + x == x;
    } else {
      DenseCompact(t[1..], x);
      assert (t + x)[1..] == t[1..] + x;
    }
  }

  lemma {:induction false} QuotedCompact(t: string, x: string)
    requires (forall i :: 0 <= i < |t| ==> t[i] != '"' && t[i] != '\\') && Compact(x, true)
    ensures Compact(t + x, true)
  {
    if t == [] {
      assert t + x == x;
    } else {
      QuotedCompact(t[1..], x);
      assert (t + x)[1..] == t[1..] + x;
    }
  }

  lemma CharCompact(c: char, x: string)
    requires Compact(x, true)
    ensures Compact(EscapeChar(c) + x, true)
  {
    var w := EscapeChar(c);
    if |w| == 1 {
      QuotedCompact(w, x);
    } else {
      assert w[0] == '\\' && (w + x)[2..] == w[2..] + x;
      QuotedCompact(w[2..], x);
    }
  }

  lemma {:induction false} EscapeCompact(s: string, x: string)
    requires Compact(x, false)
    ensures Compact(Escape(s, "\"" + x), true)
  {
    if s == [] {
      assert ("\"" + x)[1..] == x;
    } else {
      EscapeCompact(s[1..], x);
      CharCompact(s[0], Escape(s[1..], "\"" + x));
    }
  }

  lemma QuoteCompact(s: string, x: string)
    requires Compact(x, false)
    ensures Compact(Quote(s, x), false)
  {
    EscapeCompact(s, x);
    assert Quote(s, x)[1..] == Escape(s, "\"" + x);
  }

  lemma NumberCompact(t: string, x: string)
    requires All(t, IsNumberChar) && Compact(x, false)
    ensures Compact(t + x, false)
  {
    assert All(t, IsDense) by { forall i | 0 <= i < |t| ensures IsDense(t[i]) { assert IsNumberChar(t[i]); } }
    DenseCompact(t, x);
  }

  lemma FloatCompact(t: string, x: string)
    requires FloatToken(t) && Compact(x, false)
    ensures Compact(t + x, false)
  {
    if FiniteToken(t) {
      FiniteChars(t);
      NumberCompact(t, x);
    } else {
      assert forall i :: 0 <= i < |t| ==> t[i] in "NaInfity-";
      assert All(t, IsDense);
      DenseCompact(t, x);
    }
  }

  lemma PlainCompact(j: Json, x: string)
    requires WellFormed(j) && IsPlain(j) && Compact(x, false)
    ensures Compact(Render(j, x), false)
  {
    if j.Null? {
      DenseCompact("null", x);
    } else if j.Bool? {
      DenseCompact(if j.b then "true" else "false", x);
    } else if j.Int? {
      IntChars(j.n);
      NumberCompact(PrintInt(j.n), x);
    } else {
      FloatCompact(j.token, x);
    }
  }

  lemma OneDense(c: char, x: string)
    requires IsDense(c) && Compact(x, false)
    ensures Compact([c] + x, false)
  {
    DenseCompact([c], x);
  }

  lemma {:induction false} RenderCompact(j: Json, x: string)
    requires WellFormed(j) && Compact(x, false)
    ensures Compact(Render(j, x), false)
    decreases j, 0
  {
    if IsPlain(j) {
      PlainCompact(j, x);
    } else if j.Str? {
      QuoteCompact(j.s, x);
    } else if j.List? {
      OneDense(']', x);
      ItemsCompact(j.items, "]" + x);
      OneDense('[', RenderItems(j.items, "]" + x));
    } else {
      OneDense('}', x);
      MembersCompact(j.members, "}" + x);
      OneDense('{', RenderMembers(j.members, "}" + x));
    }
  }

  lemma {:induction false} ItemsCompact(items: seq<Json>, x: string)
    requires WellFormed(List(items)) && Compact(x, false)
    ensures Compact(RenderItems(items, x), false)
    decreases items, 1
  {
    if |items| == 1 {
      RenderCompact(items[0], x);
    } else if items != [] {
      ItemsCompact(items[1..], x);
      OneDense(',', RenderItems(items[1..], x));
      RenderCompact(items[0], "," + RenderItems(items[1..], x));
    }
  }

  lemma MemberCompact(m: Member, x: string)
    requires Compact(Render(m.value, x), false)
    ensures Compact(RenderMember(m, x), false)
  {
    OneDense(':', Render(m.value, x));
    QuoteCompact(m.key, ":" + Render(m.value, x));
  }

  lemma {:induction false} MembersCompact(ms: seq<Member>, x: string)
    requires (forall i :: 0 <= i < |ms| ==> WellFormed(ms[i].value)) && Compact(x, false)
    ensures Compact(RenderMembers(ms, x), false)
    decreases ms, 1
  {
    if |ms| == 1 {
      RenderCompact(ms[0].value, x);
      MemberCompact(ms[0], x);
    } else if ms != [] {
      var after := "," + RenderMembers(ms[1..], x);
      MembersCompact(ms[1..], x);
      OneDense(',', RenderMembers(ms[1..], x));
      RenderCompact(ms[0].value, after);
      MemberCompact(ms[0], after);
    }
  }

  /** The dumped text has no blank outside a string. */
  lemma DumpsIsCompact(j: Json)
    requires WellFormed(j)
    ensures Compact(Dumps(j), false)
  {
    ArrangeFacts(j, KeyOf);
    RenderCompact(Arrange(j, KeyOf), "");
  }

  /** Two values have the same compact sorted text exactly when they are the same JSON value. */
  lemma DumpsInjective(a: Json, b: Json)
    requires WellFormed(a) && WellFormed(b)
    ensures Dumps(a) == Dumps(b) <==> Denote(a) == Denote(b)
  {
    ArrangeFacts(a, KeyOf);
    ArrangeFacts(b, KeyOf);
    if Dumps(a) == Dumps(b) {
      var c, d := Arrange(a, KeyOf), Arrange(b, KeyOf);
      RenderReadable(c, "", d, "");
    }
    ArrangeCanonical(a, b, KeyOf);
  }

  // ---------------------------------------------------------------- UTF-8

  type Byte = n: int | 0 <= n < 256

  function Utf8Char(c: char): (r: seq<Byte>)
    ensures 1 <= |r| <= 4
  {
    var n := c as int;
    if n < 0x80 then [n]
    else if n < 0x800 then [0xc0 + n / 64, 0x80 + n % 64]
    else if n < 0x10000 then [0xe0 + n / 4096, 0x80 + n / 64 % 64, 0x80 + n % 64]
    else [0xf0 + n / 262144, 0x80 + n / 4096 % 64, 0x80 + n / 64 % 64, 0x80 + n % 64]
  }

  function Utf8(s: string): seq<Byte> {
    if s == [] then [] else Utf8Char(s[0]) + Utf8(s[1..])
  }

  /** The first byte tells how many bytes a character takes. */
  function Width(first: Byte): nat {
    if first < 0x80 then 1 else if first < 0xe0 then 2 else if first < 0xf0 then 3 else 4
  }

  function Decode(r: seq<int>): int
    requires 1 <= |r| <= 4
  {
    match |r|
    case 1 => r[0]
    case 2 => (r[0] - 0xc0) * 64 + (r[1] - 0x80)
    case 3 => ((r[0] - 0xe0) * 64 + (r[1] - 0x80)) * 64 + (r[2] - 0x80)
    case _ => (((r[0] - 0xf0) * 64 + (r[1] - 0x80)) * 64 + (r[2] - 0x80)) * 64 + (r[3] - 0x80)
  }

  lemma Utf8CharDecodes(c: char)
    ensures Decode(Utf8Char(c)) == c as int
    ensures |Utf8Char(c)| == Width(Utf8Char(c)[0])
    ensures forall i :: 0 < i < |Utf8Char(c)| ==> 0x80 <= Utf8Char(c)[i] < 0xc0
    ensures |Utf8Char(c)| == 1 <==> c as int < 0x80
    ensures |Utf8Char(c)| == 2 <==> 0x80 <= c as int < 0x800
    ensures |Utf8Char(c)| == 4 <==> 0x10000 <= c as int
  {
    var n := c as int;
    assert n / 64 / 64 == n / 4096;
    assert n / 4096 / 64 == n / 262144;
    assert n == n / 64 * 64 + n % 64;
    assert n / 64 == n / 4096 * 64 + n / 64 % 64;
    assert n / 4096 == n / 262144 * 64 + n / 4096 % 64;
  }

  lemma Utf8CharReadable(c: char, x: seq<Byte>, d: char, y: seq<Byte>)
    requires Utf8Char(c) + x == Utf8Char(d) + y
    ensures c == d && x == y
  {
    Utf8CharDecodes(c);
    Utf8CharDecodes(d);
    assert (Utf8Char(c) + x)[0] == Utf8Char(c)[0] && (Utf8Char(d) + y)[0] == Utf8Char(d)[0];
    SameStart(Utf8Char(c), x, Utf8Char(d), y);
  }

  lemma {:induction false} Utf8Injective(s: string, t: string)
    requires Utf8(s) == Utf8(t)
    ensures s == t
  {
    if s != [] && t != [] {
      Utf8CharReadable(s[0], Utf8(s[1..]), t[0], Utf8(t[1..]));
      Utf8Injective(s[1..], t[1..]);
      assert s == [s[0]] + s[1..] && t == [t[0]] + t[1..];
    }
  }

  // ---------------------------------------------------------------- plans

  /** The public plan, its steps and observations as `msgspec.to_builtins` gives them. */
  datatype ExecutionPlan = ExecutionPlan(
    steps: seq<Json>, observations: seq<Json>, warnings: seq<string>, fingerprint: string)

  /** The two decisions the redaction pass takes: the replacement of a text found
      under a field name, and whether a field name is itself secret. */
  datatype Redactor = Redactor(text: (string, string) -> string, secret: string -> bool)

  const MARKER := "<redacted>"

  function Strings(ws: seq<string>): seq<Json> { seq(|ws|, i requires 0 <= i < |ws| => Str(ws[i])) }

  function ToBuiltins(p: ExecutionPlan): Json {
    Object([Member("steps", List(p.steps)), Member("observations", List(p.observations)),
            Member("warnings", List(Strings(p.warnings))), Member("fingerprint", Str(p.fingerprint))])
  }

  function WithoutFingerprint(j: Json): Json
    requires j.Object?
  {
    Object(DropFingerprint(j.members))
  }

  function DropFingerprint(ms: seq<Member>): seq<Member> {
    if ms == [] then []
    else (if ms[0].key != "fingerprint" then [ms[0]] else []) + DropFingerprint(ms[1..])
  }

  /** `redacted_projection`: keys stay, secret fields become the marker, texts go through the redactor. */
  function Redact(j: Json, field: string, r: Redactor): Json {
    match j
    case Str(s) => Str(r.text(s, field))
    case List(items) => List(seq(|items|, i requires 0 <= i < |items| => Redact(items[i], field, r)))
    case Object(ms) => Object(seq(|ms|, i requires 0 <= i < |ms| =>
      Member(ms[i].key, if r.secret(ms[i].key) then Str(MARKER) else Redact(ms[i].value, ms[i].key, r))))
    case _ => j
  }

  // where a place in the value is given by the positions that lead to it

  function At(j: Json, path: seq<nat>): Option<Json> {
    if path == [] then Some(j)
    else if j.List? && path[0] < |j.items| then At(j.items[path[0]], path[1..])
    else if j.Object? && path[0] < |j.members| then At(j.members[path[0]].value, path[1..])
    else None
  }

  /** The key of the innermost member that holds the place. */
  function FieldAt(j: Json, field: string, path: seq<nat>): string {
    if path == [] then field
    else if j.List? && path[0] < |j.items| then FieldAt(j.items[path[0]], field, path[1..])
    else if j.Object? && path[0] < |j.members| then
      FieldAt(j.members[path[0]].value, j.members[path[0]].key, path[1..])
    else field
  }

  /** The place is inside a member with a secret key, or is its value. */
  predicate Hidden(j: Json, path: seq<nat>, secret: string -> bool) {
    && path != []
    && ((j.List? && path[0] < |j.items| && Hidden(j.items[path[0]], path[1..], secret))
        || (j.Object? && path[0] < |j.members|
            && (secret(j.members[path[0]].key) || Hidden(j.members[path[0]].value, path[1..], secret))))
  }

  /** How a value outside every secret member is changed: only texts are. */
  predicate OnlyTextsChange(before: Json, after: Json, field: string, text: (string, string) -> string) {
    match before
    case Str(s) => after == Str(text(s, field))
    case List(items) => after.List? && |after.items| == |items|
    case Object(ms) =>
      after.Object? && |after.members| == |ms| && forall i :: 0 <= i < |ms| ==> after.members[i].key == ms[i].key
    case _ => after == before
  }

  /** Outside the secret members every place stays and only texts change; inside them nothing but the marker is left. */
  lemma {:induction false} RedactAt(j: Json, field: string, r: Redactor, path: seq<nat>)
    ensures !Hidden(j, path, r.secret) ==>
      var before, after := At(j, path), At(Redact(j, field, r), path);
      (before.Some? <==> after.Some?)
      && (before.Some? ==> OnlyTextsChange(before.value, after.value, FieldAt(j, field, path), r.text))
    ensures Hidden(j, path, r.secret) ==>
      var after := At(Redact(j, field, r), path);
      after == None || after == Some(Str("<redacted>"))
  {
    if path != [] {
      if j.List? && path[0] < |j.items| {
        RedactAt(j.items[path[0]], field, r, path[1..]);
      } else if j.Object? && path[0] < |j.members| {
        RedactAt(j.members[path[0]].value, j.members[path[0]].key, r, path[1..]);
      }
    }
  }

  /** The value of a secret member that no other secret member holds is the marker. */
  lemma {:induction false} SecretIsMarked(j: Json, field: string, r: Redactor, path: seq<nat>, last: nat)
    requires !Hidden(j, path, r.secret) && At(j, path).Some?
    requires var o := At(j, path).value; o.Object? && last < |o.members| && r.secret(o.members[last].key)
    ensures At(Redact(j, field, r), path + [last]) == Some(Str("<redacted>"))
  {
    if path == [] {
      assert (path + [last])[1..] == [];
    } else {
      assert (path + [last])[1..] == path[1..] + [last];
      if j.List? {
        SecretIsMarked(j.items[path[0]], field, r, path[1..], last);
      } else {
        SecretIsMarked(j.members[path[0]].value, j.members[path[0]].key, r, path[1..], last);
      }
    }
  }

  function Projection(p: ExecutionPlan, r: Redactor): Json {
    Redact(WithoutFingerprint(ToBuiltins(p)), "plan", r)
  }

  function CanonicalBytes(p: ExecutionPlan, r: Redactor): seq<Byte> { Utf8(Dumps(Projection(p, r))) }

  function Fingerprint(p: ExecutionPlan, r: Redactor, sha256: seq<Byte> -> string): string {
    sha256(CanonicalBytes(p, r))
  }

  function Attach(p: ExecutionPlan, r: Redactor, sha256: seq<Byte> -> string): ExecutionPlan {
    p.(fingerprint := Fingerprint(p, r, sha256))
  }

  predicate ValidPlan(p: ExecutionPlan) {
    && (forall i :: 0 <= i < |p.steps| ==> WellFormed(p.steps[i]))
    && (forall i :: 0 <= i < |p.observations| ==> WellFormed(p.observations[i]))
  }

  lemma {:induction false} RedactWellFormed(j: Json, field: string, r: Redactor)
    requires WellFormed(j)
    ensures WellFormed(Redact(j, field, r))
  {
    match j
    case List(items) =>
      forall i | 0 <= i < |items| ensures WellFormed(Redact(items[i], field, r)) {
        RedactWellFormed(items[i], field, r);
      }
    case Object(ms) =>
      var rs := Redact(j, field, r).members;
      forall i | 0 <= i < |ms| ensures WellFormed(rs[i].value) { RedactWellFormed(ms[i].value, ms[i].key, r); }
      forall i, k | 0 <= i < k < |rs| ensures KeyOf(rs[i]) != KeyOf(rs[k]) { assert KeyOf(ms[i]) != KeyOf(ms[k]); }
    case _ =>
  }

  lemma BuiltinsShape(p: ExecutionPlan)
    ensures WithoutFingerprint(ToBuiltins(p)) == Object([Member("steps", List(p.steps)),
      Member("observations", List(p.observations)), Member("warnings", List(Strings(p.warnings)))])
  {
    var ms := ToBuiltins(p).members;
    assert ms[1..] == [ms[1], ms[2], ms[3]] && ms[2..] == [ms[2], ms[3]] && ms[3..] == [ms[3]] && ms[4..] == [];
    assert DropFingerprint(ms[3..]) == [];
    assert DropFingerprint(ms[2..]) == [ms[2]];
    assert DropFingerprint(ms[1..]) == [ms[1], ms[2]];
  }

  lemma ProjectionWellFormed(p: ExecutionPlan, r: Redactor)
    requires ValidPlan(p)
    ensures WellFormed(Projection(p, r))
  {
    BuiltinsShape(p);
    var j := WithoutFingerprint(ToBuiltins(p));
    assert WellFormed(j.members[0].value) && WellFormed(j.members[1].value) && WellFormed(j.members[2].value);
    assert j.members[0].key[0] != j.members[1].key[0] && j.members[0].key[0] != j.members[2].key[0]
        && j.members[1].key[0] != j.members[2].key[0];
    RedactWellFormed(j, "plan", r);
  }

  /** The canonical bytes are compact JSON text in UTF-8 for the redacted projection, every object's keys in order. */
  lemma CanonicalBytesAreJson(p: ExecutionPlan, r: Redactor)
    requires ValidPlan(p)
    ensures exists s ::
      && Utf8(s) == CanonicalBytes(p, r) && Compact(s, false) && ReadText(s).Some?
      && Denote(ReadText(s).value) == Denote(Projection(p, r)) && KeysInOrder(ReadText(s).value)
  {
    ProjectionWellFormed(p, r);
    DumpsIsRead(Projection(p, r));
    DumpsIsCompact(Projection(p, r));
    assert Utf8(Dumps(Projection(p, r))) == CanonicalBytes(p, r);
  }

  /** Equal canonical bytes mean exactly: the redacted projections are the same JSON value. */
  lemma CanonicalBytesInjective(p: ExecutionPlan, q: ExecutionPlan, r: Redactor)
    requires ValidPlan(p) && ValidPlan(q)
    ensures CanonicalBytes(p, r) == CanonicalBytes(q, r) <==> Denote(Projection(p, r)) == Denote(Projection(q, r))
  {
    ProjectionWellFormed(p, r);
    ProjectionWellFormed(q, r);
    DumpsInjective(Projection(p, r), Projection(q, r));
    if CanonicalBytes(p, r) == CanonicalBytes(q, r) {
      Utf8Injective(Dumps(Projection(p, r)), Dumps(Projection(q, r)));
    }
  }

  /** Where redaction has nothing to hide, equal bytes mean equal plans up to the
      fingerprint and the key order inside steps and observations. */
  lemma UnredactedBytesIdentifyPlans(p: ExecutionPlan, q: ExecutionPlan, r: Redactor)
    requires ValidPlan(p) && ValidPlan(q)
    requires Projection(p, r) == WithoutFingerprint(ToBuiltins(p))
    requires Projection(q, r) == WithoutFingerprint(ToBuiltins(q))
    ensures CanonicalBytes(p, r) == CanonicalBytes(q, r) <==>
      && Denote(List(p.steps)) == Denote(List(q.steps))
      && Denote(List(p.observations)) == Denote(List(q.observations))
      && p.warnings == q.warnings
  {
    CanonicalBytesInjective(p, q, r);
    ProjectionWellFormed(p, r);
    ProjectionWellFormed(q, r);
    BuiltinsShape(p);
    BuiltinsShape(q);
    var a, b := Projection(p, r).members, Projection(q, r).members;
    assert Projection(p, r) == Object(a) && Projection(q, r) == Object(b);
    SameKeysMeaning(a, b);
    ThreeMeanings(a, b);
    if p.warnings != q.warnings && Denote(a[2].value) == Denote(b[2].value) { WarningsMeaning(p.warnings, q.warnings); }
  }

  lemma ThreeMeanings(a: seq<Member>, b: seq<Member>)
    requires |a| == |b| == 3
    ensures SameMeanings(a, b) <==>
      Denote(a[0].value) == Denote(b[0].value) && Denote(a[1].value) == Denote(b[1].value)
      && Denote(a[2].value) == Denote(b[2].value)
  {
  }

  lemma WarningsMeaning(v: seq<string>, w: seq<string>)
    requires Denote(List(Strings(v))) == Denote(List(Strings(w)))
    ensures v == w
  {
    var a, b := Denote(List(Strings(v))).items, Denote(List(Strings(w))).items;
    assert |a| == |v| && |b| == |w|;
    forall i | 0 <= i < |v| ensures v[i] == w[i] { assert a[i] == VStr(v[i]) && b[i] == VStr(w[i]); }
  }

  /** The fingerprint ignores whatever fingerprint the plan already carries, so attaching it is stable. */
  lemma FingerprintExcludesItself(p: ExecutionPlan, other: string, r: Redactor, sha256: seq<Byte> -> string)
    ensures Fingerprint(p.(fingerprint := other), r, sha256) == Fingerprint(p, r, sha256)
    ensures Attach(Attach(p, r, sha256), r, sha256) == Attach(p, r, sha256)
  {
    BuiltinsShape(p);
    BuiltinsShape(p.(fingerprint := other));
    BuiltinsShape(Attach(p, r, sha256));
  }
}

/** The part of TOML v1.0.0 that project manifests are written in: one statement a line,
    bare keys, `[table]` and `[table.child]` headers, basic strings, integers, floats,
    booleans and one-line arrays. Any other text is refused. */
module Toml {
  import opened Text

  datatype Value =
    | Str(text: string)
    | Int(number: int)
    | Float(token: string)
    | Bool(flag: bool)
    | Arr(items: seq<Value>)
    | Tab(entries: Table)

  datatype Entry = Entry(key: string, value: Value)

  /** A table in the order of its keys. */
  type Table = seq<Entry>

  datatype Section = Section(path: seq<string>, entries: Table)

  datatype Parsed<+T> = Fail | Parsed(value: T, rest: string)

  function Get(t: Table, key: string): Option<Value> {
    if t == [] then None else if t[0].key == key then Some(t[0].value) else Get(t[1..], key)
  }

  predicate Distinct(t: Table) { forall i, j :: 0 <= i < j < |t| ==> t[i].key != t[j].key }

  // ---------------------------------------------------------------- basic strings

  /** Control characters other than tab may not stand in a TOML line. */
  predicate Illegal(c: char) { (c < ' ' && c != '\t') || c == 127 as char }

  predicate CleanLine(line: string) { forall i :: 0 <= i < |line| ==> !Illegal(line[i]) }

  function Unescape(c: char): Option<char> {
    match c
    case 'b' => Some(8 as char)
    case 't' => Some('\t')
    case 'n' => Some('\n')
    case 'f' => Some(12 as char)
    case 'r' => Some('\r')
    case '"' => Some('"')
    case '\\' => Some('\\')
    case _ => None
  }

  /** The rest of a basic string, after its opening quotation mark. */
  function Basic(s: string): (r: Parsed<string>)
    ensures r.Parsed? ==> |r.rest| < |s|
  {
    if s == [] || Illegal(s[0]) then Fail
    else if s[0] == '"' then Parsed("", s[1..])
    else if s[0] == '\\' then
      if |s| == 1 || Unescape(s[1]).None? then Fail
      else
        var r := Basic(s[2..]);
        if r.Fail? then Fail else Parsed([Unescape(s[1]).value] + r.value, r.rest)
    else
      var r := Basic(s[1..]);
      if r.Fail? then Fail else Parsed([s[0]] + r.value, r.rest)
  }

  /** `s.replace(c, t)` for a one-character `c`. */
  function Replace(s: string, c: char, t: string): string {
    if s == [] then [] else (if s[0] == c then t else [s[0]]) + Replace(s[1..], c, t)
  }

  lemma {:induction false} ReplaceConcat(a: string, b: string, c: char, t: string)
    ensures Replace(a + b, c, t) == Replace(a, c, t) + Replace(b, c, t)
  {
    if a == [] {
      assert a + b == b;
    } else {
      assert (a + b)[1..] == a[1..] + b;
      ReplaceConcat(a[1..], b, c, t);
    }
  }

  /** Backslashes first, quotation marks second. */
  function Escape(s: string): string { Replace(Replace(s, '\\', "\\\\"), '"', "\\\"") }

  function EscapeChar(c: char): string {
    if c == '\\' then "\\\\" else if c == '"' then "\\\"" else [c]
  }

  /** The two replacements do not interfere: each character is escaped on its own. */
  lemma EscapeFirst(s: string)
    requires s != []
    ensures Escape(s) == EscapeChar(s[0]) + Escape(s[1..])
  {
    var head := if s[0] == '\\' then "\\\\" else [s[0]];
    ReplaceConcat(head, Replace(s[1..], '\\', "\\\\"), '"', "\\\"");
    assert Replace(head, '"', "\\\"") == EscapeChar(s[0]) by {
      assert head[1..] == if s[0] == '\\' then "\\" else "";
      if s[0] == '\\' { assert head[1..][1..] == []; }
    }
  }

  lemma BasicStep(c: char, next: string)
    requires !Illegal(c)
    ensures Basic(EscapeChar(c) + next)
         == (var r := Basic(next); if r.Fail? then Fail else Parsed([c] + r.value, r.rest))
  {
    var s := EscapeChar(c) + next;
    assert s[|EscapeChar(c)|..] == next;
    assert s[0] == EscapeChar(c)[0];
    if c == '\\' || c == '"' { assert s[1] == c; }
  }

  lemma BasicEnd(rest: string)
    ensures Basic("\"" + rest) == Parsed("", rest)
  {
    assert ("\"" + rest)[1..] == rest;
  }

  lemma EscapeSplit(s: string, tail: string)
    requires s != []
    ensures Escape(s) + tail == EscapeChar(s[0]) + (Escape(s[1..]) + tail)
  {
    EscapeFirst(s);
    Regroup(EscapeChar(s[0]), Escape(s[1..]), tail);
  }

  /** Reading an escaped text back gives the text. */
  lemma {:induction false} EscapeReadable(s: string, rest: string)
    requires CleanLine(s)
    ensures Basic(Escape(s) + ("\"" + rest)) == Parsed(s, rest)
  {
    var tail := "\"" + rest;
    if s == [] {
      assert Escape(s) + tail == tail;
      BasicEnd(rest);
    } else {
      EscapeSplit(s, tail);
      EscapeReadable(s[1..], rest);
      BasicStep(s[0], Escape(s[1..]) + tail);
      assert [s[0]] + s[1..] == s;
    }
  }

  // ---------------------------------------------------------------- numbers

  predicate NumberChar(c: char) { IsDigit(c) || c == '+' || c == '-' || c == '.' || c == 'e' || c == 'E' }

  function Unsigned(s: string): string { if s != [] && s[0] in "+-" then s[1..] else s }

  /** A decimal integer part: no leading zero. */
  predicate Whole(s: string) { s != [] && All(s, IsDigit) && (|s| > 1 ==> s[0] != '0') }

  predicate Exponent(s: string) {
    |s| > 1 && s[0] in "eE" && Unsigned(s[1..]) != [] && All(Unsigned(s[1..]), IsDigit)
  }

  predicate FractionOrExponent(s: string) {
    || Exponent(s)
    || (|s| > 1 && s[0] == '.' && Span(s[1..], IsDigit) > 0
        && (var rest := s[1 + Span(s[1..], IsDigit)..]; rest == [] || Exponent(rest)))
  }

  /** The text of a finite TOML float, which is also what `repr` writes for one. */
  predicate FloatToken(s: string) {
    && All(s, NumberChar)
    && var u := Unsigned(s);
       var n := Span(u, IsDigit);
       n > 0 && Whole(u[..n]) && FractionOrExponent(u[n..])
  }

  function ParseNumber(s: string): (r: Parsed<Value>)
    ensures r.Parsed? ==> |r.rest| < |s|
  {
    var n := Span(s, NumberChar);
    var token := s[..n];
    if token == [] then Fail
    else if Whole(Unsigned(token)) then
      var size: int := NatOf(Unsigned(token));
      Parsed(Int(if token[0] == '-' then -size else size), s[n..])
    else if FloatToken(token) then Parsed(Float(token), s[n..])
    else Fail
  }

  lemma IntStarts(n: int)
    ensures IsDigit(PrintInt(n)[0]) || PrintInt(n)[0] in "+-"
  {
  }

  lemma FloatStarts(t: string)
    requires FloatToken(t)
    ensures t != [] && (IsDigit(t[0]) || t[0] in "+-")
  {
    var u := Unsigned(t);
    var n := Span(u, IsDigit);
    assert u[0] == u[..n][0];
  }

  lemma IntReadable(n: int, tail: string)
    requires tail == [] || !NumberChar(tail[0])
    ensures ParseNumber(PrintInt(n) + tail) == Parsed(Int(n), tail)
    ensures IsDigit(PrintInt(n)[0]) || PrintInt(n)[0] in "+-"
  {
    IntStarts(n);
    var t := PrintInt(n);
    var digits := PrintNat(if n < 0 then -n else n);
    NatOfPrintNat(if n < 0 then -n else n);
    SpanAppend(t, tail, NumberChar);
    assert Unsigned(t) == digits;
    SingleZero(if n < 0 then -n else n);
  }

  lemma SingleZero(n: nat)
    ensures Whole(PrintNat(n))
  {
  }

  lemma FloatReadable(t: string, tail: string)
    requires FloatToken(t)
    requires tail == [] || !NumberChar(tail[0])
    ensures ParseNumber(t + tail) == Parsed(Float(t), tail)
    ensures IsDigit(t[0]) || t[0] in "+-"
  {
    SpanAppend(t, tail, NumberChar);
    var u := Unsigned(t);
    var n := Span(u, IsDigit);
    assert n < |u| && !IsDigit(u[n]);
    FloatStarts(t);
  }

  // ---------------------------------------------------------------- values

  predicate IsBlank(c: char) { c == ' ' || c == '\t' }

  function SkipBlank(s: string): (r: string)
    ensures |r| <= |s|
  {
    s[Span(s, IsBlank)..]
  }

  function ParseValue(s: string): (r: Parsed<Value>)
    ensures r.Parsed? ==> |r.rest| < |s|
    decreases |s|, 0
  {
    if s == [] then Fail
    else if s[0] == '"' then
      if StartsWith(s, "\"\"\"") then Fail
      else
        var r := Basic(s[1..]);
        if r.Fail? then Fail else Parsed(Str(r.value), r.rest)
    else if s[0] == '[' then
      var r := ParseItems(s[1..]);
      if r.Fail? then Fail else Parsed(Arr(r.value), r.rest)
    else if StartsWith(s, "true") then Parsed(Bool(true), s[4..])
    else if StartsWith(s, "false") then Parsed(Bool(false), s[5..])
    else ParseNumber(s)
  }

  /** The rest of an array; a comma may follow the last item. */
  function ParseItems(s: string): (r: Parsed<seq<Value>>)
    ensures r.Parsed? ==> |r.rest| < |s|
    decreases |s|, 1
  {
    var t := SkipBlank(s);
    if t != [] && t[0] == ']' then Parsed([], t[1..])
    else
      var first := ParseValue(t);
      if first.Fail? then Fail
      else
        var u := SkipBlank(first.rest);
        if u == [] then Fail
        else if u[0] == ']' then Parsed([first.value], u[1..])
        else if u[0] != ',' then Fail
        else
          var others := ParseItems(u[1..]);
          if others.Fail? then Fail else Parsed([first.value] + others.value, others.rest)
  }

  /** The values the manifest writer produces. */
  predicate Printable(v: Value) {
    match v
    case Str(s) => CleanLine(s)
    case Int(_) => true
    case Float(t) => FloatToken(t)
    case Bool(_) => true
    case Arr(items) => forall i :: 0 <= i < |items| ==> Printable(items[i])
    case Tab(_) => false
  }

  /** A value's text in front of `tail`; a table has none. */
  function Render(v: Value, tail: string): string
    decreases v, 0
  {
    match v
    case Str(s) => "\"" + (Escape(s) + ("\"" + tail))
    case Int(n) => PrintInt(n) + tail
    case Float(t) => t + tail
    case Bool(b) => (if b then "true" else "false") + tail
    case Arr(items) => "[" + RenderItems(items, "]" + tail)
    case Tab(_) => tail
  }

  function RenderItems(items: seq<Value>, tail: string): string
    decreases items, |items|
  {
    if items == [] then tail
    else Render(items[0], if |items| == 1 then tail else ", " + RenderItems(items[1..], tail))
  }

  predicate Closing(tail: string) { tail == [] || tail[0] == ',' || tail[0] == ']' }

  lemma StrReadable(t: string, tail: string)
    requires CleanLine(t) && Closing(tail)
    ensures ParseValue("\"" + (Escape(t) + ("\"" + tail))) == Parsed(Str(t), tail)
  {
    var s := "\"" + (Escape(t) + ("\"" + tail));
    EscapeReadable(t, tail);
    assert s[1..] == Escape(t) + ("\"" + tail);
    NotTripled(t, tail);
  }

  lemma NumberReadable(t: string, tail: string)
    requires t != [] && (IsDigit(t[0]) || t[0] in "+-")
    ensures ParseValue(t + tail) == ParseNumber(t + tail)
  {
    NotBoolean(t, tail);
  }

  lemma BoolReadable(b: bool, tail: string)
    ensures ParseValue((if b then "true" else "false") + tail) == Parsed(Bool(b), tail)
  {
    var word := if b then "true" else "false";
    var s := word + tail;
    assert s[..|word|] == word && s[|word|..] == tail;
    if !b { FirstDiffers(s, "true"); }
  }

  lemma ArrReadable(items: seq<Value>, text: string, tail: string)
    requires ParseItems(text) == Parsed(items, tail)
    ensures ParseValue("[" + text) == Parsed(Arr(items), tail)
  {
    assert ("[" + text)[1..] == text;
  }

  predicate StartsValue(s: string) { s != [] && !IsBlank(s[0]) && s[0] != ']' }

  lemma RenderStarts(v: Value, tail: string)
    requires Printable(v)
    ensures StartsValue(Render(v, tail))
  {
    match v
    case Str(_) =>
    case Int(n) => IntStarts(n);
    case Float(t) => FloatStarts(t);
    case Bool(_) =>
    case Arr(_) =>
  }

  /** A scalar's text is read as that scalar. */
  lemma ScalarReadable(v: Value, tail: string)
    requires Printable(v) && !v.Arr? && Closing(tail)
    ensures ParseValue(Render(v, tail)) == Parsed(v, tail)
  {
    if v.Str? {
      StrReadable(v.text, tail);
    } else if v.Int? {
      IntReadable(v.number, tail);
      NumberReadable(PrintInt(v.number), tail);
    } else if v.Float? {
      FloatReadable(v.token, tail);
      NumberReadable(v.token, tail);
    } else {
      BoolReadable(v.flag, tail);
    }
  }

  lemma {:induction false} ValueReadable(v: Value, tail: string)
    requires Printable(v) && Closing(tail)
    ensures ParseValue(Render(v, tail)) == Parsed(v, tail)
    decreases v, 0
  {
    if v.Arr? {
      ItemsReadable(v.items, tail);
      ArrReadable(v.items, RenderItems(v.items, "]" + tail), tail);
    } else {
      ScalarReadable(v, tail);
    }
  }

  lemma NotBoolean(t: string, tail: string)
    requires t != [] && (IsDigit(t[0]) || t[0] in "+-")
    ensures var s := t + tail; s[0] != '"' && s[0] != '[' && !StartsWith(s, "true") && !StartsWith(s, "false")
  {
    var s := t + tail;
    assert s[0] == t[0];
    FirstDiffers(s, "true");
    FirstDiffers(s, "false");
  }

  lemma FirstDiffers(s: string, prefix: string)
    requires prefix != [] && (s == [] || s[0] != prefix[0])
    ensures !StartsWith(s, prefix)
  {
    if |prefix| <= |s| { assert s[..|prefix|][0] == s[0]; }
  }

  lemma NotTripled(t: string, tail: string)
    requires Closing(tail)
    ensures !StartsWith("\"" + (Escape(t) + ("\"" + tail)), "\"\"\"")
  {
    var s := "\"" + (Escape(t) + ("\"" + tail));
    if |s| >= 3 {
      assert s[..3][1] == s[1] && s[..3][2] == s[2];
      if t == [] {
        assert s[2] == tail[0];
      } else {
        EscapeFirst(t);
        assert s[1] == EscapeChar(t[0])[0];
      }
    }
  }

  lemma SkipNothing(s: string)
    requires s == [] || !IsBlank(s[0])
    ensures SkipBlank(s) == s && SkipBlank(" " + s) == s
  {
    SpanAppend(" ", s, IsBlank);
    assert s[0..] == s;
  }

  /** One item of an array and what comes after it. */
  lemma ItemStep(s: string, v: Value, after: string)
    requires StartsValue(s)
    requires ParseValue(s) == Parsed(v, after)
    requires after != [] && (after[0] == ',' || after[0] == ']')
    ensures ParseItems(s) == ParseItems(" " + s)
    ensures after[0] == ']' ==> ParseItems(s) == Parsed([v], after[1..])
    ensures after[0] == ',' ==>
      ParseItems(s) == (var r := ParseItems(after[1..]); if r.Fail? then Fail else Parsed([v] + r.value, r.rest))
  {
    SkipNothing(s);
    SkipNothing(after);
  }

  lemma LastItem(s: string, v: Value, tail: string)
    requires StartsValue(s)
    requires ParseValue(s) == Parsed(v, "]" + tail)
    ensures ParseItems(s) == ParseItems(" " + s) == Parsed([v], tail)
  {
    ItemStep(s, v, "]" + tail);
    assert ("]" + tail)[1..] == tail;
  }

  lemma MoreItems(s: string, v: Value, others: string, vs: seq<Value>, tail: string)
    requires StartsValue(s)
    requires ParseValue(s) == Parsed(v, ", " + others) && ParseItems(" " + others) == Parsed(vs, tail)
    ensures ParseItems(s) == ParseItems(" " + s) == Parsed([v] + vs, tail)
  {
    ItemStep(s, v, ", " + others);
    assert (", " + others)[1..] == " " + others;
  }

  lemma NoItems(tail: string)
    ensures ParseItems("]" + tail) == ParseItems(" " + ("]" + tail)) == Parsed([], tail)
  {
    SkipNothing("]" + tail);
    assert ("]" + tail)[1..] == tail;
  }

  lemma {:induction false} ItemsReadable(items: seq<Value>, tail: string)
    requires forall i :: 0 <= i < |items| ==> Printable(items[i])
    ensures ParseItems(RenderItems(items, "]" + tail)) == Parsed(items, tail)
    ensures ParseItems(" " + RenderItems(items, "]" + tail)) == Parsed(items, tail)
    decreases items, |items|
  {
    var close := "]" + tail;
    if items == [] {
      NoItems(tail);
    } else if |items| == 1 {
      ValueReadable(items[0], close);
      RenderStarts(items[0], close);
      LastItem(Render(items[0], close), items[0], tail);
      assert [items[0]] == items;
    } else {
      var others := RenderItems(items[1..], close);
      ValueReadable(items[0], ", " + others);
      RenderStarts(items[0], ", " + others);
      ItemsReadable(items[1..], tail);
      MoreItems(Render(items[0], ", " + others), items[0], others, items[1..], tail);
      assert [items[0]] + items[1..] == items;
    }
  }

  // ---------------------------------------------------------------- lines

  datatype Line = Empty | Header(path: seq<string>) | Pair(entry: Entry)

  predicate KeyChar(c: char) { 'a' <= c <= 'z' || 'A' <= c <= 'Z' || IsDigit(c) || c == '_' || c == '-' }

  predicate BareKey(k: string) { k != [] && All(k, KeyChar) }

  /** Nothing but blanks and perhaps a comment remains. */
  predicate Ends(s: string) {
    var t := SkipBlank(s);
    t == [] || (t[0] == '#' && CleanLine(t))
  }

  /** The keys of a header up to its closing bracket. */
  function ParsePath(s: string): (r: Parsed<seq<string>>)
    decreases |s|
  {
    var t := SkipBlank(s);
    var n := Span(t, KeyChar);
    var u := SkipBlank(t[n..]);
    if n == 0 || u == [] then Fail
    else if u[0] == ']' then Parsed([t[..n]], u[1..])
    else if u[0] != '.' then Fail
    else
      var r := ParsePath(u[1..]);
      if r.Fail? then Fail else Parsed([t[..n]] + r.value, r.rest)
  }

  function ParsePair(s: string): Option<Line> {
    var n := Span(s, KeyChar);
    var u := SkipBlank(s[n..]);
    if n == 0 || u == [] || u[0] != '=' then None else ValueAt(s[..n], SkipBlank(u[1..]))
  }

  function ValueAt(key: string, text: string): Option<Line> {
    var v := ParseValue(text);
    if v.Fail? || !Ends(v.rest) then None else Some(Pair(Entry(key, v.value)))
  }

  function ParseLine(line: string): Option<Line> {
    if Ends(line) then Some(Empty)
    else
      var s := SkipBlank(line);
      if s != [] && s[0] == '[' then
        var p := ParsePath(s[1..]);
        if p.Fail? || !Ends(p.rest) then None else Some(Header(p.value))
      else ParsePair(s)
  }

  function RenderPath(path: seq<string>): string {
    if path == [] then "]"
    else path[0] + (if |path| == 1 then "]" else "." + RenderPath(path[1..]))
  }

  function RenderLine(line: Line): string {
    match line
    case Empty => ""
    case Header(path) => "[" + RenderPath(path)
    case Pair(e) => e.key + (" = " + Render(e.value, ""))
  }

  predicate BarePath(path: seq<string>) { path != [] && forall i :: 0 <= i < |path| ==> BareKey(path[i]) }

  predicate PrintableEntry(e: Entry) { BareKey(e.key) && Printable(e.value) }

  predicate PrintableLine(line: Line) {
    match line
    case Empty => true
    case Header(path) => BarePath(path)
    case Pair(e) => PrintableEntry(e)
  }

  lemma PathStep(key: string, after: string)
    requires BareKey(key) && after != [] && (after[0] == ']' || after[0] == '.')
    ensures after[0] == ']' ==> ParsePath(key + after) == Parsed([key], after[1..])
    ensures after[0] == '.' ==>
      ParsePath(key + after)
        == (var r := ParsePath(after[1..]); if r.Fail? then Fail else Parsed([key] + r.value, r.rest))
  {
    SpanAppend(key, after, KeyChar);
    assert (key + after)[0] == key[0];
    SkipNothing(key + after);
    SkipNothing(after);
  }

  lemma PathLast(key: string)
    requires BareKey(key)
    ensures ParsePath(key + "]") == Parsed([key], "")
  {
    PathStep(key, "]");
    assert "]"[1..] == "";
  }

  lemma PathMore(key: string, text: string, others: seq<string>)
    requires BareKey(key) && ParsePath(text) == Parsed(others, "")
    ensures ParsePath(key + ("." + text)) == Parsed([key] + others, "")
  {
    PathStep(key, "." + text);
    assert ("." + text)[1..] == text;
  }

  lemma {:induction false} PathReadable(path: seq<string>)
    requires BarePath(path)
    ensures ParsePath(RenderPath(path)) == Parsed(path, "")
  {
    if |path| == 1 {
      PathLast(path[0]);
      assert [path[0]] == path;
    } else {
      PathReadable(path[1..]);
      PathMore(path[0], RenderPath(path[1..]), path[1..]);
      assert [path[0]] + path[1..] == path;
    }
  }

  lemma EqualsSign(text: string)
    requires text != [] && !IsBlank(text[0])
    ensures var u := SkipBlank(" = " + text); u != [] && u[0] == '=' && SkipBlank(u[1..]) == text
  {
    SkipNothing("= " + text);
    assert " " + ("= " + text) == " = " + text;
    SkipNothing(text);
    assert ("= " + text)[1..] == " " + text;
  }

  lemma NothingEnds()
    ensures Ends("")
  {
  }

  lemma PairReadable(key: string, text: string, v: Value)
    requires BareKey(key) && text != [] && !IsBlank(text[0]) && ParseValue(text) == Parsed(v, "")
    ensures ParsePair(key + (" = " + text)) == Some(Pair(Entry(key, v)))
  {
    PairSplit(key, text);
    NothingEnds();
  }

  lemma PairSplit(key: string, text: string)
    requires BareKey(key) && text != [] && !IsBlank(text[0])
    ensures ParsePair(key + (" = " + text)) == ValueAt(key, text)
  {
    SpanAppend(key, " = " + text, KeyChar);
    EqualsSign(text);
  }

  lemma NotEmpty(s: string)
    requires s != [] && !IsBlank(s[0]) && s[0] != '#'
    ensures ParseLine(s)
         == if s[0] == '[' then (var p := ParsePath(s[1..]);
           if p.Fail? || !Ends(p.rest) then None else Some(Header(p.value)))
            else ParsePair(s)
  {
    SkipNothing(s);
  }

  /** Every printed line is read as what it was printed from. */
  lemma LineReadable(line: Line)
    requires PrintableLine(line)
    ensures ParseLine(RenderLine(line)) == Some(line)
  {
    var s := RenderLine(line);
    SkipNothing("");
    match line
    case Empty =>
    case Header(path) =>
      PathReadable(path);
      assert s[1..] == RenderPath(path);
      NotEmpty(s);
    case Pair(e) =>
      ValueReadable(e.value, "");
      RenderStarts(e.value, "");
      PairReadable(e.key, Render(e.value, ""), e.value);
      assert s[0] == e.key[0];
      NotEmpty(s);
  }

  // ---------------------------------------------------------------- documents

  function ParseLines(lines: seq<string>): Option<seq<Line>> { Traverse(lines, ParseLine) }

  function RenderLines(ls: seq<Line>): (lines: seq<string>)
    ensures |lines| == |ls| && forall i :: 0 <= i < |ls| ==> lines[i] == RenderLine(ls[i])
  {
    seq(|ls|, i requires 0 <= i < |ls| => RenderLine(ls[i]))
  }

  lemma LinesReadable(ls: seq<Line>)
    requires forall i :: 0 <= i < |ls| ==> PrintableLine(ls[i])
    ensures ParseLines(RenderLines(ls)) == Some(ls)
  {
    var lines := RenderLines(ls);
    forall i | 0 <= i < |ls| ensures ParseLine(lines[i]) == Some(ls[i]) { LineReadable(ls[i]); }
    TraverseIs(lines, ParseLine, ls);
  }

  /** The sections a sequence of lines makes up, the first one continuing `current`. */
  function Group(ls: seq<Line>, current: Section): seq<Section>
    decreases |ls|
  {
    if ls == [] then [current]
    else
      match ls[0]
      case Empty => Group(ls[1..], current)
      case Pair(e) => Group(ls[1..], current.(entries := current.entries + [e]))
      case Header(p) => [current] + Group(ls[1..], Section(p, []))
  }

  function Pairs(es: Table): seq<Line> { seq(|es|, i requires 0 <= i < |es| => Pair(es[i])) }

  /** Sections one after the other, each but the first after an empty line. */
  function LinesOf(ss: seq<Section>): seq<Line> {
    if ss == [] then []
    else [Header(ss[0].path)] + (Pairs(ss[0].entries) + (if |ss| == 1 then [] else [Empty] + LinesOf(ss[1..])))
  }

  predicate PrintableSection(s: Section) {
    BarePath(s.path) && forall i :: 0 <= i < |s.entries| ==> PrintableEntry(s.entries[i])
  }

  lemma {:induction false} GroupPairs(es: Table, rest: seq<Line>, current: Section)
    ensures Group(Pairs(es) + rest, current) == Group(rest, current.(entries := current.entries + es))
    decreases |es|
  {
    var ls := Pairs(es) + rest;
    if es == [] {
      assert ls == rest && current.entries + es == current.entries;
    } else {
      assert ls[1..] == Pairs(es[1..]) + rest;
      GroupPairs(es[1..], rest, current.(entries := current.entries + [es[0]]));
      assert current.entries + [es[0]] + es[1..] == current.entries + es;
    }
  }

  lemma GroupSection(s: Section, rest: seq<Line>, current: Section)
    ensures Group([Header(s.path)] + (Pairs(s.entries) + rest), current) == [current] + Group(rest, s)
  {
    var ls := [Header(s.path)] + (Pairs(s.entries) + rest);
    assert ls[1..] == Pairs(s.entries) + rest;
    GroupPairs(s.entries, rest, Section(s.path, []));
    assert [] + s.entries == s.entries;
  }

  lemma GroupEmpty(rest: seq<Line>, current: Section)
    ensures Group([Empty] + rest, current) == Group(rest, current)
  {
    assert ([Empty] + rest)[1..] == rest;
  }

  lemma {:induction false} GroupLines(ss: seq<Section>, current: Section)
    ensures Group(LinesOf(ss) + [Empty], current) == [current] + ss
    decreases |ss|
  {
    if ss == [] {
      assert LinesOf(ss) + [Empty] == [Empty] + [];
      GroupEmpty([], current);
    } else if |ss| == 1 {
      GroupSection(ss[0], [Empty], current);
      assert LinesOf(ss) + [Empty] == [Header(ss[0].path)] + (Pairs(ss[0].entries) + [Empty]);
      assert [Empty] + [] == [Empty];
      GroupEmpty([], ss[0]);
      assert [ss[0]] == ss;
    } else {
      var rest := LinesOf(ss[1..]) + [Empty];
      GroupSection(ss[0], [Empty] + rest, current);
      GroupEmpty(rest, ss[0]);
      GroupLines(ss[1..], ss[0]);
      assert LinesOf(ss) + [Empty] == [Header(ss[0].path)] + (Pairs(ss[0].entries) + ([Empty] + rest));
      assert [ss[0]] + ss[1..] == ss;
    }
  }

  lemma {:induction false} LinesPrintable(ss: seq<Section>)
    requires forall i :: 0 <= i < |ss| ==> PrintableSection(ss[i])
    ensures forall i :: 0 <= i < |LinesOf(ss)| ==> PrintableLine(LinesOf(ss)[i])
  {
    if ss != [] {
      LinesPrintable(ss[1..]);
      assert PrintableSection(ss[0]);
    }
  }

  // ---------------------------------------------------------------- text

  predicate NotNewline(c: char) { c != '\n' }

  function Split(text: string): seq<string>
    decreases |text|
  {
    var n := Span(text, NotNewline);
    if n == |text| then [text] else [text[..n]] + Split(text[n + 1..])
  }

  /** The reader takes a carriage return before a newline as part of the newline. */
  function Unix(text: string): string {
    if text == [] then []
    else if |text| > 1 && text[0] == '\r' && text[1] == '\n' then "\n" + Unix(text[2..])
    else [text[0]] + Unix(text[1..])
  }

  lemma {:induction false} UnixAlready(text: string)
    requires '\r' !in text
    ensures Unix(text) == text
  {
    if text != [] { UnixAlready(text[1..]); }
  }

  lemma SplitLine(line: string, rest: string)
    requires CleanLine(line)
    ensures Split(line + ("\n" + rest)) == [line] + Split(rest)
  {
    var text := line + ("\n" + rest);
    SpanAppend(line, "\n" + rest, NotNewline);
    assert text[|line| + 1..] == rest;
  }

  lemma ConcatFirst(lines: seq<string>)
    requires lines != []
    ensures Concat(lines) == lines[0] + ("\n" + Concat(lines[1..]))
  {
    Regroup(lines[0], "\n", Concat(lines[1..]));
  }

  predicate CleanLines(lines: seq<string>) { forall i :: 0 <= i < |lines| ==> CleanLine(lines[i]) }

  lemma {:induction false} NoReturn(lines: seq<string>)
    requires CleanLines(lines)
    ensures '\r' !in Concat(lines)
  {
    if lines != [] {
      ConcatFirst(lines);
      assert CleanLine(lines[0]);
      assert CleanLines(lines[1..]);
      NoReturn(lines[1..]);
    }
  }

  lemma {:induction false} SplitConcat(lines: seq<string>)
    requires CleanLines(lines)
    ensures Split(Concat(lines)) == lines + [""]
  {
    if lines != [] {
      ConcatFirst(lines);
      assert CleanLines(lines[1..]);
      SplitLine(lines[0], Concat(lines[1..]));
      SplitConcat(lines[1..]);
      Regroup([lines[0]], lines[1..], [""]);
      assert [lines[0]] + lines[1..] == lines;
    }
  }

  lemma {:induction false} EscapeClean(s: string)
    requires CleanLine(s)
    ensures CleanLine(Escape(s))
  {
    if s != [] {
      EscapeFirst(s);
      EscapeClean(s[1..]);
    }
  }

  lemma CleanPlus(a: string, b: string)
    requires CleanLine(a) && CleanLine(b)
    ensures CleanLine(a + b)
  {
  }

  lemma IntClean(n: int)
    ensures CleanLine(PrintInt(n))
  {
    var digits := PrintNat(if n < 0 then -n else n);
    assert forall i :: 0 <= i < |digits| ==> IsDigit(digits[i]);
    if n < 0 { CleanPlus("-", digits); }
  }

  lemma TokenClean(t: string)
    requires All(t, NumberChar)
    ensures CleanLine(t)
  {
  }

  lemma {:induction false} RenderClean(v: Value, tail: string)
    requires Printable(v) && CleanLine(tail)
    ensures CleanLine(Render(v, tail))
    decreases v, 0
  {
    match v
    case Str(s) =>
      EscapeClean(s);
      CleanPlus("\"", tail);
      CleanPlus(Escape(s), "\"" + tail);
      CleanPlus("\"", Escape(s) + ("\"" + tail));
    case Int(n) => IntClean(n); CleanPlus(PrintInt(n), tail);
    case Float(t) => TokenClean(t); CleanPlus(t, tail);
    case Bool(b) => CleanPlus(if b then "true" else "false", tail);
    case Arr(items) =>
      CleanPlus("]", tail);
      ItemsClean(items, "]" + tail);
      CleanPlus("[", RenderItems(items, "]" + tail));
  }

  lemma {:induction false} ItemsClean(items: seq<Value>, tail: string)
    requires (forall i :: 0 <= i < |items| ==> Printable(items[i])) && CleanLine(tail)
    ensures CleanLine(RenderItems(items, tail))
    decreases items, |items|
  {
    if items != [] {
      ItemsClean(items[1..], tail);
      RenderClean(items[0], if |items| == 1 then tail else ", " + RenderItems(items[1..], tail));
    }
  }

  lemma {:induction false} PathClean(path: seq<string>)
    requires BarePath(path)
    ensures CleanLine(RenderPath(path))
  {
    if |path| > 1 { PathClean(path[1..]); }
  }

  lemma LineClean(line: Line)
    requires PrintableLine(line)
    ensures CleanLine(RenderLine(line))
  {
    match line
    case Empty =>
    case Header(path) => PathClean(path);
    case Pair(e) => RenderClean(e.value, "");
  }

  /** A document's text: every line ends with a newline. */
  function Print(ss: seq<Section>): string { Concat(RenderLines(LinesOf(ss))) }

  function ParseSections(text: string): Option<seq<Section>> {
    var ls := ParseLines(Split(Unix(text)));
    if ls.None? then None else Some(Group(ls.value, Section([], [])))
  }

  /** Every printed list of sections is read back as it was, after the root table's own. */
  lemma PrintReadable(ss: seq<Section>)
    requires forall i :: 0 <= i < |ss| ==> PrintableSection(ss[i])
    ensures ParseSections(Print(ss)) == Some([Section([], [])] + ss)
  {
    var ls := LinesOf(ss);
    LinesPrintable(ss);
    forall i | 0 <= i < |ls| ensures CleanLine(RenderLines(ls)[i]) { LineClean(ls[i]); }
    SplitConcat(RenderLines(ls));
    NoReturn(RenderLines(ls));
    UnixAlready(Print(ss));
    assert RenderLines(ls) + [""] == RenderLines(ls + [Empty]);
    LinesReadable(ls + [Empty]);
    GroupLines(ss, Section([], []));
  }

  // ---------------------------------------------------------------- tables

  /** Add entries to the table at `path`, making the tables on the way; nothing is redefined. */
  function Define(t: Table, path: seq<string>, entries: Table): Option<Table>
    decreases |path|
  {
    if path == [] then
      if Distinct(t + entries) then Some(t + entries) else None
    else
      var i := IndexOf(t, path[0]);
      if i == |t| then
        var sub := Define([], path[1..], entries);
        if sub.None? then None else Some(t + [Entry(path[0], Tab(sub.value))])
      else if !t[i].value.Tab? then None
      else
        var sub := Define(t[i].value.entries, path[1..], entries);
        if sub.None? then None else Some(t[i := Entry(path[0], Tab(sub.value))])
  }

  function IndexOf(t: Table, key: string): (i: nat)
    ensures i <= |t|
    ensures i < |t| ==> t[i].key == key
    ensures forall j :: 0 <= j < i ==> t[j].key != key
  {
    if t == [] || t[0].key == key then 0 else 1 + IndexOf(t[1..], key)
  }

  function DefineAll(t: Table, ss: seq<Section>): Option<Table>
    decreases |ss|
  {
    if ss == [] then Some(t)
    else
      var u := Define(t, ss[0].path, ss[0].entries);
      if u.None? then None else DefineAll(u.value, ss[1..])
  }

  predicate DistinctPaths(ss: seq<Section>) { forall i, j :: 0 <= i < j < |ss| ==> ss[i].path != ss[j].path }

  /** `tomllib.loads` */
  function Parse(text: string): Option<Table> {
    var ss := ParseSections(text);
    if ss.None? || !DistinctPaths(ss.value) then None else DefineAll([], ss.value)
  }

  // ---------------------------------------------------------------- manifests edited by hand

  /** The escapes of a basic string and the codes they stand for; any other letter is refused. */
  lemma EscapesRead(e: char, rest: string)
    ensures var codes := map['b' := 8, 't' := 9, 'n' := 10, 'f' := 12, 'r' := 13, '"' := 34, '\\' := 92];
      var r := Basic(rest);
      Basic(['\\', e] + rest)
        == if e in codes && r.Parsed? then Parsed([codes[e] as char] + r.value, r.rest) else Fail
  {
    var s := ['\\', e] + rest;
    assert s[2..] == rest && s[0] == '\\' && s[1] == e;
  }

  lemma CommentRead(text: string)
    requires CleanLine(text)
    ensures ParseLine("#" + text) == Some(Empty)
  {
    var s := "#" + text;
    SkipNothing(s);
    assert CleanLine(s) by {
      forall i | 0 <= i < |s| ensures !Illegal(s[i]) { if i > 0 { assert s[i] == text[i - 1]; } }
    }
    assert Ends(s);
  }

  /** The text with every newline as a carriage return and a line feed. */
  function Dos(text: string): string {
    if text == [] then [] else (if text[0] == '\n' then "\r\n" else [text[0]]) + Dos(text[1..])
  }

  lemma {:induction false} UnixOfDos(text: string)
    requires '\r' !in text
    ensures Unix(Dos(text)) == text
  {
    if text != [] {
      var rest := Dos(text[1..]);
      UnixOfDos(text[1..]);
      if text[0] == '\n' {
        assert ("\r\n" + rest)[2..] == rest;
      } else {
        assert ([text[0]] + rest)[1..] == rest;
      }
    }
  }

  /** A manifest with such newlines is read as the one without. */
  lemma ReturnsIgnored(text: string)
    requires '\r' !in text
    ensures Parse(Dos(text)) == Parse(text)
  {
    UnixOfDos(text);
    UnixAlready(text);
  }
}

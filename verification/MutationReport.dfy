/** `scripts/mutation_report.py`: shard reports of mutation testing and their fail-closed aggregate. */
module MutationReport {
  import opened Text

  datatype Field = Total | Killed | Survived | Timeout | Suspicious | NotChecked

  datatype Counts = Counts(total: int, killed: int, survived: int, timeout: int, suspicious: int, notChecked: int)

  function NameOf(f: Field): string {
    match f
    case Total => "total"
    case Killed => "killed"
    case Survived => "survived"
    case Timeout => "timeout"
    case Suspicious => "suspicious"
    case NotChecked => "not checked"
  }

  function ValueOf(c: Counts, f: Field): int {
    match f
    case Total => c.total
    case Killed => c.killed
    case Survived => c.survived
    case Timeout => c.timeout
    case Suspicious => c.suspicious
    case NotChecked => c.notChecked
  }

  const START := "=== mutation report ==="
  const END := "=== end mutation report ==="
  const HEADING := "=== mutmut results ==="
  const TARGET := "target="
  const SHARD := "shard="

  /** A positive total that the five other counts add up to, none of them negative. */
  predicate Reconciled(c: Counts) {
    && c.killed >= 0 && c.survived >= 0 && c.timeout >= 0 && c.suspicious >= 0 && c.notChecked >= 0
    && c.total > 0 && c.total == c.killed + c.survived + c.timeout + c.suspicious + c.notChecked
  }

  predicate Holds(values: map<Field, int>, c: Counts) { forall f :: f in values && values[f] == ValueOf(c, f) }

  /** `_validate_counts`: nothing missing, and the counts reconcile. */
  function ValidateCounts(values: map<Field, int>): (r: Option<Counts>)
    ensures r.Some? ==> Reconciled(r.value) && Holds(values, r.value)
  {
    if forall f :: f in values then
      var c := Counts(values[Total], values[Killed], values[Survived], values[Timeout], values[Suspicious],
        values[NotChecked]);
      if Reconciled(c) then Some(c) else None
    else None
  }

  /** The only values accepted are those of a reconciled count. */
  lemma ValidateAccepts(values: map<Field, int>, c: Counts)
    requires Holds(values, c)
    ensures ValidateCounts(values) == if Reconciled(c) then Some(c) else None
  {
    assert values[Total] == c.total && values[Killed] == c.killed && values[Survived] == c.survived
        && values[Timeout] == c.timeout && values[Suspicious] == c.suspicious && values[NotChecked] == c.notChecked;
  }

  // ---------------------------------------------------------------- finding markers

  /** Where `p` first occurs in `s`, or the length of `s`. */
  function Find(s: string, p: string): (i: nat)
    ensures i <= |s|
    ensures i < |s| ==> StartsWith(s[i..], p)
    ensures forall j :: 0 <= j < i ==> !StartsWith(s[j..], p)
    decreases |s|
  {
    if s == [] || StartsWith(s, p) then 0
    else
      var i := 1 + Find(s[1..], p);
      assert forall j :: 0 < j <= |s| ==> s[j..] == s[1..][j - 1..];
      i
  }

  predicate Contains(s: string, p: string) { Find(s, p) < |s| }

  predicate Unbroken(s: string) { forall i :: 0 <= i < |s| ==> !IsLineBreak(s[i]) }

  lemma NotAcross(a: string, b: string, p: string)
    requires Unbroken(p) && p != [] && (a == [] || !StartsWith(a, p))
    ensures !StartsWith(a + ("\n" + b), p)
  {
    var s := a + ("\n" + b);
    if |p| <= |a| {
      assert s[..|p|] == a[..|p|];
    } else if |p| <= |s| {
      assert s[..|p|][|a|] == '\n';
    }
  }

  /** A marker of one line that is not in `a` is found only after the newline that ends `a`. */
  lemma {:induction false} FindNextLine(a: string, b: string, p: string)
    requires Unbroken(p) && p != [] && !Contains(a, p)
    ensures Find(a + ("\n" + b), p) == |a| + 1 + Find(b, p)
  {
    var s := a + ("\n" + b);
    NotAcross(a, b, p);
    if a == [] {
      assert s[1..] == b;
    } else {
      assert s[1..] == a[1..] + ("\n" + b);
      FindNextLine(a[1..], b, p);
    }
  }

  lemma {:induction false} FindAfterLines(lines: seq<string>, b: string, p: string)
    requires Unbroken(p) && p != [] && forall i :: 0 <= i < |lines| ==> !Contains(lines[i], p)
    ensures Find(Concat(lines) + b, p) == |Concat(lines)| + Find(b, p)
  {
    if lines == [] {
      assert Concat(lines) + b == b;
    } else {
      var others := Concat(lines[1..]);
      FindAfterLines(lines[1..], b, p);
      FindNextLine(lines[0], others + b, p);
      Regroup("\n", others, b);
      Regroup(lines[0], "\n" + others, b);
      Regroup(lines[0], "\n", others);
    }
  }

  // ---------------------------------------------------------------- lines

  predicate NoBreak(c: char) { !IsLineBreak(c) }

  /** `str.splitlines()` */
  function SplitLines(s: string): seq<string>
    decreases |s|
  {
    if s == [] then []
    else
      var n := Span(s, NoBreak);
      if n == |s| then [s]
      else [s[..n]] + SplitLines(s[if StartsWith(s[n..], "\r\n") then n + 2 else n + 1..])
  }

  lemma SplitFirst(a: string, rest: string)
    requires Unbroken(a)
    ensures SplitLines(a + ("\n" + rest)) == [a] + SplitLines(rest)
  {
    var s := a + ("\n" + rest);
    SpanAppend(a, "\n" + rest, NoBreak);
    FirstIs(s[|a|..], "\r\n");
    assert s[|a| + 1..] == rest;
  }

  lemma FirstIs(s: string, p: string)
    requires p != [] && (s == [] || s[0] != p[0])
    ensures !StartsWith(s, p)
  {
    if |p| <= |s| { assert s[..|p|][0] == s[0]; }
  }

  lemma {:induction false} SplitAll(lines: seq<string>)
    requires forall i :: 0 <= i < |lines| ==> Unbroken(lines[i])
    ensures SplitLines(Concat(lines)) == lines
  {
    if lines != [] {
      SplitAll(lines[1..]);
      SplitFirst(lines[0], Concat(lines[1..]));
      assert Concat(lines) == lines[0] + ("\n" + Concat(lines[1..]));
      assert [lines[0]] + lines[1..] == lines;
    }
  }

  lemma LastLine(a: string)
    requires Unbroken(a)
    ensures SplitLines(a) == if a == [] then [] else [a]
  {
    assert a + "" == a;
    SpanAppend(a, "", NoBreak);
  }

  /** A line ends at any break but a carriage return before a line feed, which ends it together with that. */
  lemma LineEnds(a: string, c: char, rest: string)
    requires Unbroken(a) && IsLineBreak(c) && !(c == '\r' && rest != [] && rest[0] == '\n')
    ensures SplitLines(a + ([c] + rest)) == [a] + SplitLines(rest)
  {
    var next := [c] + rest;
    SplitAt(a, next);
    assert next[1..] == rest;
    if c != '\r' {
      FirstIs(next, "\r\n");
    } else if rest != [] {
      SecondIs(next, "\r\n");
    }
  }

  lemma LineEndsWithTwo(a: string, rest: string)
    requires Unbroken(a)
    ensures SplitLines(a + ("\r\n" + rest)) == [a] + SplitLines(rest)
  {
    var next := "\r\n" + rest;
    SplitAt(a, next);
    assert next[..2] == "\r\n" && next[2..] == rest;
  }

  lemma SplitAt(a: string, next: string)
    requires Unbroken(a) && next != [] && IsLineBreak(next[0])
    ensures SplitLines(a + next) == [a] + SplitLines(next[if StartsWith(next, "\r\n") then 2 else 1..])
  {
    var s := a + next;
    SpanAppend(a, next, NoBreak);
    assert s[|a| + 1..] == next[1..];
    if StartsWith(next, "\r\n") { assert s[|a| + 2..] == next[2..]; }
  }

  /** No line holds a break. */
  lemma {:induction false} LinesUnbroken(s: string)
    ensures forall i :: 0 <= i < |SplitLines(s)| ==> Unbroken(SplitLines(s)[i])
    decreases |s|
  {
    if s != [] {
      var n := Span(s, NoBreak);
      assert forall i :: 0 <= i < n ==> NoBreak(s[..n][i]);
      if n < |s| { LinesUnbroken(s[if StartsWith(s[n..], "\r\n") then n + 2 else n + 1..]); }
    }
  }

  // ---------------------------------------------------------------- value lines

  function KeyAt(s: string): Option<Field> {
    if StartsWith(s, "total") then Some(Total)
    else if StartsWith(s, "killed") then Some(Killed)
    else if StartsWith(s, "survived") then Some(Survived)
    else if StartsWith(s, "timeout") then Some(Timeout)
    else if StartsWith(s, "suspicious") then Some(Suspicious)
    else if StartsWith(s, "not checked") then Some(NotChecked)
    else None
  }

  datatype Value = Value(field: Field, number: int)

  /** The `key : digits` or `key = digits` pattern; the classes of characters do not overlap, so there is one way to
      match. */
  function ValueLine(line: string): Option<Value> {
    var s := StripLeft(line);
    var key := KeyAt(s);
    if key.None? then None else AfterKey(key.value, s)
  }

  function AfterKey(f: Field, s: string): Option<Value> {
    var t := if |NameOf(f)| <= |s| then StripLeft(s[|NameOf(f)|..]) else [];
    if t == [] || !(t[0] == ':' || t[0] == '=') then None
    else
      var u := StripLeft(t[1..]);
      var n := Span(u, IsDigit);
      if n == 0 || StripLeft(u[n..]) != [] then None else Some(Value(f, NatOf(u[..n])))
  }

  function CountLine(f: Field, n: nat): string { NameOf(f) + ("=" + PrintNat(n)) }

  lemma KeyRead(f: Field, rest: string)
    ensures KeyAt(NameOf(f) + rest) == Some(f)
  {
    var s := NameOf(f) + rest;
    assert s[..|NameOf(f)|] == NameOf(f);
    match f
    case Total =>
    case Killed => FirstIs(s, "total");
    case Survived => FirstIs(s, "total"); FirstIs(s, "killed");
    case Timeout => SecondIs(s, "total"); FirstIs(s, "killed"); FirstIs(s, "survived");
    case Suspicious => FirstIs(s, "total"); FirstIs(s, "killed"); ThirdIs(s, "survived"); FirstIs(s, "timeout");
    case NotChecked => FirstIs(s, "total"); FirstIs(s, "killed"); FirstIs(s, "survived"); FirstIs(s, "timeout");
      FirstIs(s, "suspicious");
  }

  lemma SecondIs(s: string, p: string)
    requires |p| > 1 && |s| > 1 && s[1] != p[1]
    ensures !StartsWith(s, p)
  {
    if |p| <= |s| { assert s[..|p|][1] == s[1]; }
  }

  lemma ThirdIs(s: string, p: string)
    requires |p| > 2 && |s| > 2 && s[2] != p[2]
    ensures !StartsWith(s, p)
  {
    if |p| <= |s| { assert s[..|p|][2] == s[2]; }
  }

  lemma NoSpaceAhead(s: string)
    requires s == [] || !IsSpace(s[0])
    ensures StripLeft(s) == s
  {
  }

  lemma NumberRead(f: Field, n: nat)
    ensures AfterKey(f, CountLine(f, n)) == Some(Value(f, n))
  {
    var s, k, digits := CountLine(f, n), |NameOf(f)|, PrintNat(n);
    assert s[k..] == "=" + digits;
    NoSpaceAhead("=" + digits);
    assert ("=" + digits)[1..] == digits;
    NoSpaceAhead(digits);
    SpanAppend(digits, "", IsDigit);
    assert digits + "" == digits && digits[..|digits|] == digits && digits[|digits|..] == "";
    NatOfPrintNat(n);
  }

  lemma CountLineRead(f: Field, n: nat)
    ensures ValueLine(CountLine(f, n)) == Some(Value(f, n))
  {
    NoSpaceAhead(CountLine(f, n));
    KeyRead(f, "=" + PrintNat(n));
    NumberRead(f, n);
  }

  /** A count line part by part: blanks, the field's name, blanks, a colon or an equals sign, blanks, digits, blanks. */
  predicate CountParts(line: string, v: Value, a: string, b: string, sep: char, c: string, digits: string, d: string) {
    && line == a + (NameOf(v.field) + (b + ([sep] + (c + (digits + d)))))
    && All(a, IsSpace) && All(b, IsSpace) && All(c, IsSpace) && All(d, IsSpace) && (sep == ':' || sep == '=')
    && digits != [] && All(digits, IsDigit) && NatOf(digits) == v.number
  }

  lemma {:induction false} BlanksAhead(a: string, s: string)
    requires All(a, IsSpace) && (s == [] || !IsSpace(s[0]))
    ensures StripLeft(a + s) == s
  {
    if a == [] {
      assert a + s == s;
    } else {
      assert (a + s)[1..] == a[1..] + s;
      BlanksAhead(a[1..], s);
    }
  }

  lemma CutBlanks(s: string) returns (a: string)
    ensures s == a + StripLeft(s) && All(a, IsSpace)
  {
    StripLeftFacts(s);
    a := s[..|s| - |StripLeft(s)|];
  }

  lemma NumberParts(s: string, digits: string, d: string)
    requires s == digits + d && digits != [] && All(digits, IsDigit) && All(d, IsSpace)
    ensures Span(s, IsDigit) == |digits| && s[..|digits|] == digits && StripLeft(s[|digits|..]) == [] && !IsSpace(s[0])
  {
    SpanAppend(digits, d, IsDigit);
    assert d + [] == d;
    BlanksAhead(d, []);
    assert s[0] == digits[0] && IsDigit(digits[0]);
  }

  lemma AfterKeyParts(s: string, v: Value, b: string, sep: char, c: string, digits: string, d: string)
    requires CountParts(s, v, "", b, sep, c, digits, d)
    ensures AfterKey(v.field, s) == Some(v)
  {
    var number := digits + d;
    var t := [sep] + (c + number);
    assert s[|NameOf(v.field)|..] == b + t;
    BlanksAhead(b, t);
    NumberParts(number, digits, d);
    assert t[1..] == c + number;
    BlanksAhead(c, number);
  }

  lemma NameFirst(f: Field, rest: string)
    ensures !IsSpace((NameOf(f) + rest)[0])
  {
  }

  lemma CountPartsRead(line: string, v: Value, a: string, b: string, sep: char, c: string, digits: string, d: string)
    requires CountParts(line, v, a, b, sep, c, digits, d)
    ensures ValueLine(line) == Some(v)
  {
    var rest := b + ([sep] + (c + (digits + d)));
    var s := NameOf(v.field) + rest;
    NameFirst(v.field, rest);
    BlanksAhead(a, s);
    KeyRead(v.field, rest);
    assert s == "" + s;
    AfterKeyParts(s, v, b, sep, c, digits, d);
  }

  lemma KeyFound(s: string)
    requires KeyAt(s).Some?
    ensures StartsWith(s, NameOf(KeyAt(s).value))
  {
  }

  lemma AfterKeySplits(f: Field, s: string) returns (b: string, sep: char, c: string, digits: string, d: string)
    requires StartsWith(s, NameOf(f)) && AfterKey(f, s).Some?
    ensures CountParts(s, AfterKey(f, s).value, "", b, sep, c, digits, d)
  {
    var name := NameOf(f);
    var tail := s[|name|..];
    var t := StripLeft(tail);
    b := CutBlanks(tail);
    sep := t[0];
    var u := StripLeft(t[1..]);
    c := CutBlanks(t[1..]);
    var n := Span(u, IsDigit);
    digits, d := u[..n], u[n..];
    var e := CutBlanks(d);
    assert e + [] == e;
    PartsJoin(s, name, tail, b, t, sep, c, u, digits, d);
  }

  lemma PartsJoin(s: string, name: string, tail: string, b: string, t: string, sep: char, c: string, u: string,
                  digits: string, d: string)
    requires StartsWith(s, name) && tail == s[|name|..] && tail == b + t && t != [] && t[0] == sep
    requires t[1..] == c + u && u == digits + d
    ensures s == "" + (name + (b + ([sep] + (c + (digits + d)))))
  {
    assert t == [sep] + t[1..] && s == name + tail;
  }

  /** A line gives a count exactly when it is made of these parts. */
  lemma CountLineExactly(line: string, v: Value)
    ensures ValueLine(line) == Some(v) <==>
      exists a, b, sep, c, digits, d :: CountParts(line, v, a, b, sep, c, digits, d)
  {
    if ValueLine(line) == Some(v) {
      var s := StripLeft(line);
      var a := CutBlanks(line);
      KeyFound(s);
      var b, sep, c, digits, d := AfterKeySplits(KeyAt(s).value, s);
      assert "" + s == s;
      assert s == NameOf(v.field) + (b + ([sep] + (c + (digits + d))));
      assert CountParts(line, v, a, b, sep, c, digits, d);
    }
    forall a, b, sep, c, digits, d | CountParts(line, v, a, b, sep, c, digits, d) ensures ValueLine(line) == Some(v) {
      CountPartsRead(line, v, a, b, sep, c, digits, d);
    }
  }

  // ---------------------------------------------------------------- reading a report

  datatype Block = Block(target: Option<string>, values: map<Field, int>)

  datatype Outcome = Absent | Malformed | Report(target: string, counts: Counts)

  function ReadLine(b: Block, line: string): Option<Block> {
    if StartsWith(line, TARGET) then Some(b.(target := Some(Strip(line[|TARGET|..]))))
    else
      var v := ValueLine(line);
      if v.None? then Some(b)
      else if v.value.field in b.values then None
      else Some(b.(values := b.values[v.value.field := v.value.number]))
  }

  /** Read line after line; a line that cannot be read ends the scan. */
  function Fold(b: Block, lines: seq<string>, read: (Block, string) -> Option<Block>): Option<Block>
    decreases |lines|
  {
    if lines == [] then Some(b)
    else
      var next := read(b, lines[0]);
      if next.None? then None else Fold(next.value, lines[1..], read)
  }

  function Scan(b: Block, lines: seq<string>): Option<Block> { Fold(b, lines, ReadLine) }

  function Body(text: string): string
    requires Contains(text, START)
  {
    var rest := text[Find(text, START) + |START|..];
    rest[..Find(rest, END)]
  }

  function Conclude(b: Option<Block>): Outcome {
    if b.None? || b.value.target.None? || b.value.values == map[] then Malformed
    else
      var counts := ValidateCounts(b.value.values);
      if counts.None? then Malformed else Report(b.value.target.value, counts.value)
  }

  /** `_machine_block` */
  function MachineBlock(text: string): Outcome {
    if !Contains(text, START) then Absent else Conclude(Scan(Block(None, map[]), SplitLines(Body(text))))
  }

  method ReadMachineBlock(text: string) returns (o: Outcome)
    ensures o == MachineBlock(text)
  {
    if Find(text, START) == |text| { return Absent; }
    var lines := SplitLines(Body(text));
    var block := Block(None, map[]);
    for i := 0 to |lines|
      invariant Scan(Block(None, map[]), lines) == Scan(block, lines[i..])
    {
      assert lines[i..][1..] == lines[i + 1..];
      if StartsWith(lines[i], TARGET) {
        block := block.(target := Some(Strip(lines[i][|TARGET|..])));
      } else {
        var v := ValueLine(lines[i]);
        if v.Some? {
          if v.value.field in block.values { return Malformed; }
          block := block.(values := block.values[v.value.field := v.value.number]);
        }
      }
    }
    if block.target.None? || block.values == map[] { return Malformed; }
    var counts := ValidateCounts(block.values);
    o := if counts.None? then Malformed else Report(block.target.value, counts.value);
  }

  // what the block of a text holds, line by line

  /** The count on a line that names no target. */
  function CountOn(line: string): Option<Value> { if StartsWith(line, "target=") then None else ValueLine(line) }

  predicate NoFieldTwice(lines: seq<string>, count: string -> Option<Value>) {
    forall i, j :: 0 <= i < j < |lines| && count(lines[i]).Some? && count(lines[j]).Some? ==>
      count(lines[i]).value.field != count(lines[j]).value.field
  }

  /** The last line that names a target names this one. */
  predicate LastTarget(lines: seq<string>, target: string) {
    exists k :: 0 <= k < |lines| && StartsWith(lines[k], "target=") && target == Strip(lines[k][7..])
      && forall j :: k < j < |lines| ==> !StartsWith(lines[j], "target=")
  }

  predicate SomeCount(lines: seq<string>, v: Value, count: string -> Option<Value>) {
    exists i :: 0 <= i < |lines| && count(lines[i]) == Some(v)
  }

  /** The block holds the last target and exactly the counts on the lines. */
  predicate HoldsLines(b: Block, lines: seq<string>, count: string -> Option<Value>) {
    && (b.target.None? ==> forall i :: 0 <= i < |lines| ==> !StartsWith(lines[i], "target="))
    && (b.target.Some? ==> LastTarget(lines, b.target.value))
    && (forall f :: f in b.values ==> SomeCount(lines, Value(f, b.values[f]), count))
    && (forall i :: 0 <= i < |lines| && count(lines[i]).Some? ==> count(lines[i]).value.field in b.values)
  }

  /** Lines that say this: the last target, and for every field one line with its count, the counts reconciled. */
  ghost predicate SaysReport(lines: seq<string>, target: string, c: Counts, count: string -> Option<Value>) {
    && LastTarget(lines, target) && NoFieldTwice(lines, count) && Reconciled(c)
    && forall f :: SomeCount(lines, Value(f, ValueOf(c, f)), count)
  }

  lemma {:induction false} FoldLast(b: Block, lines: seq<string>, line: string, read: (Block, string) -> Option<Block>)
    ensures var before := Fold(b, lines, read);
      Fold(b, lines + [line], read) == if before.None? then None else read(before.value, line)
    decreases |lines|
  {
    if lines == [] {
      assert ([line])[1..] == [] && lines + [line] == [line];
      assert read(b, line).Some? ==> Fold(read(b, line).value, [], read) == read(b, line);
    } else {
      assert (lines + [line])[1..] == lines[1..] + [line];
      var next := read(b, lines[0]);
      if next.Some? { FoldLast(next.value, lines[1..], line, read); }
    }
  }

  lemma HoldsTarget(b: Block, lines: seq<string>, line: string, count: string -> Option<Value>)
    requires HoldsLines(b, lines, count) && StartsWith(line, "target=") && count(line).None?
    ensures HoldsLines(b.(target := Some(Strip(line[7..]))), lines + [line], count)
    ensures NoFieldTwice(lines, count) ==> NoFieldTwice(lines + [line], count)
  {
    var all := lines + [line];
    assert all[|lines|] == line;
    assert forall i :: 0 <= i < |lines| ==> all[i] == lines[i];
    forall f | f in b.values ensures SomeCount(all, Value(f, b.values[f]), count) {
      var i :| 0 <= i < |lines| && count(lines[i]) == Some(Value(f, b.values[f]));
      assert count(all[i]) == Some(Value(f, b.values[f]));
    }
  }

  lemma TargetStays(lines: seq<string>, line: string, target: string)
    requires LastTarget(lines, target) && !StartsWith(line, "target=")
    ensures LastTarget(lines + [line], target)
  {
    var k :| 0 <= k < |lines| && StartsWith(lines[k], "target=") && target == Strip(lines[k][7..])
      && forall j :: k < j < |lines| ==> !StartsWith(lines[j], "target=");
    var all := lines + [line];
    assert all[k] == lines[k];
    assert forall j :: k < j < |all| ==> all[j] == if j < |lines| then lines[j] else line;
  }

  lemma CountStays(lines: seq<string>, line: string, v: Value, count: string -> Option<Value>)
    requires SomeCount(lines, v, count)
    ensures SomeCount(lines + [line], v, count)
  {
    var i :| 0 <= i < |lines| && count(lines[i]) == Some(v);
    assert count((lines + [line])[i]) == Some(v);
  }

  lemma OtherField(b: Block, lines: seq<string>, line: string, count: string -> Option<Value>)
    requires HoldsLines(b, lines, count) && NoFieldTwice(lines, count)
    requires count(line).Some? ==> count(line).value.field !in b.values
    ensures NoFieldTwice(lines + [line], count)
  {
    var all := lines + [line];
    assert all[|lines|] == line;
    assert forall i :: 0 <= i < |lines| ==> all[i] == lines[i];
  }

  /** A line that names no target adds its count, if it has one. */
  lemma HoldsCount(b: Block, lines: seq<string>, line: string, after: Block, count: string -> Option<Value>)
    requires HoldsLines(b, lines, count) && !StartsWith(line, "target=") && after.target == b.target
    requires var v := count(line);
      && (v.None? ==> after == b)
      && (v.Some? ==> v.value.field !in b.values && after.values == b.values[v.value.field := v.value.number])
    ensures HoldsLines(after, lines + [line], count)
  {
    var all := lines + [line];
    assert all[|lines|] == line;
    assert forall i :: 0 <= i < |lines| ==> all[i] == lines[i];
    if b.target.Some? { TargetStays(lines, line, b.target.value); }
    forall f | f in after.values ensures SomeCount(all, Value(f, after.values[f]), count) {
      CountKept(b, lines, line, after, f, count);
    }
    assert forall f :: f in b.values ==> f in after.values;
  }

  lemma CountKept(b: Block, lines: seq<string>, line: string, after: Block, f: Field, count: string -> Option<Value>)
    requires f in after.values && forall f :: f in b.values ==> SomeCount(lines, Value(f, b.values[f]), count)
    requires var v := count(line);
      && (v.None? ==> after == b)
      && (v.Some? ==> after.values == b.values[v.value.field := v.value.number])
    ensures SomeCount(lines + [line], Value(f, after.values[f]), count)
  {
    var v := count(line);
    if v.Some? && f == v.value.field {
      assert count((lines + [line])[|lines|]) == Some(Value(f, after.values[f]));
    } else {
      CountStays(lines, line, Value(f, after.values[f]), count);
    }
  }

  /** The scan succeeds exactly when no field has two lines, and then holds what the lines say. */
  lemma {:induction false} ScanExactly(lines: seq<string>)
    ensures Scan(Block(None, map[]), lines).Some? <==> NoFieldTwice(lines, CountOn)
    ensures Scan(Block(None, map[]), lines).Some? ==> HoldsLines(Scan(Block(None, map[]), lines).value, lines, CountOn)
  {
    if lines != [] {
      var n := |lines| - 1;
      var front, line := lines[..n], lines[n];
      assert lines == front + [line];
      ScanExactly(front);
      FoldLast(Block(None, map[]), front, line, ReadLine);
      var b := Scan(Block(None, map[]), front);
      assert NoFieldTwice(lines, CountOn) ==> NoFieldTwice(front, CountOn);
      if b.Some? { ScanOne(b.value, front, line); }
    }
  }

  lemma ScanOne(b: Block, front: seq<string>, line: string)
    requires HoldsLines(b, front, CountOn) && NoFieldTwice(front, CountOn)
    ensures ReadLine(b, line).Some? <==> NoFieldTwice(front + [line], CountOn)
    ensures ReadLine(b, line).Some? ==> HoldsLines(ReadLine(b, line).value, front + [line], CountOn)
  {
    var v := CountOn(line);
    if StartsWith(line, "target=") {
      HoldsTarget(b, front, line, CountOn);
    } else if v.Some? && v.value.field in b.values {
      assert SomeCount(front, Value(v.value.field, b.values[v.value.field]), CountOn);
      var i :| 0 <= i < |front| && CountOn(front[i]) == Some(Value(v.value.field, b.values[v.value.field]));
      var all := front + [line];
      assert all[i] == front[i] && all[|front|] == line;
    } else {
      OtherField(b, front, line, CountOn);
      HoldsCount(b, front, line, ReadLine(b, line).value, CountOn);
    }
  }

  lemma OneCount(lines: seq<string>, v: Value, w: Value, count: string -> Option<Value>)
    requires NoFieldTwice(lines, count) && v.field == w.field
    requires SomeCount(lines, v, count) && SomeCount(lines, w, count)
    ensures v == w
  {
    var i :| 0 <= i < |lines| && count(lines[i]) == Some(v);
    var j :| 0 <= j < |lines| && count(lines[j]) == Some(w);
  }

  lemma OneTarget(lines: seq<string>, s: string, t: string)
    requires LastTarget(lines, s) && LastTarget(lines, t)
    ensures s == t
  {
  }

  /** What is read is a report exactly when the lines of the block have a target, no field twice, and every field once
      with counts that reconcile; it is then the last target with these counts. */
  lemma ConcludeExactly(lines: seq<string>, target: string, c: Counts)
    ensures Conclude(Scan(Block(None, map[]), lines)) == Report(target, c) <==> SaysReport(lines, target, c, CountOn)
  {
    ScanExactly(lines);
    var scanned := Scan(Block(None, map[]), lines);
    if NoFieldTwice(lines, CountOn) {
      var b := scanned.value;
      if Conclude(scanned) == Report(target, c) {
        forall f ensures SomeCount(lines, Value(f, ValueOf(c, f)), CountOn) { assert f in b.values; }
      }
      if LastTarget(lines, target) && Reconciled(c) && forall f :: SomeCount(lines, Value(f, ValueOf(c, f)), CountOn) {
        HeldCounts(b, lines, c, CountOn);
        HeldTarget(b, lines, target, CountOn);
        ValidateAccepts(b.values, c);
        assert Total in b.values;
      }
    }
  }

  lemma HeldCounts(b: Block, lines: seq<string>, c: Counts, count: string -> Option<Value>)
    requires HoldsLines(b, lines, count) && NoFieldTwice(lines, count)
    requires forall f :: SomeCount(lines, Value(f, ValueOf(c, f)), count)
    ensures Holds(b.values, c)
  {
    forall f ensures f in b.values && b.values[f] == ValueOf(c, f) {
      assert SomeCount(lines, Value(f, ValueOf(c, f)), count);
      var i :| 0 <= i < |lines| && count(lines[i]) == Some(Value(f, ValueOf(c, f)));
      assert count(lines[i]).value.field in b.values;
      OneCount(lines, Value(f, b.values[f]), Value(f, ValueOf(c, f)), count);
    }
  }

  lemma HeldTarget(b: Block, lines: seq<string>, target: string, count: string -> Option<Value>)
    requires HoldsLines(b, lines, count) && LastTarget(lines, target)
    ensures b.target == Some(target)
  {
    if b.target.Some? { OneTarget(lines, b.target.value, target); }
  }

  /** The same for a whole text: the lines between the first start marker and the first end marker after it. */
  lemma ReportExactlyWhen(text: string, target: string, c: Counts)
    ensures MachineBlock(text) == Report(target, c) <==>
      Contains(text, START) && SaysReport(SplitLines(Body(text)), target, c, CountOn)
    ensures MachineBlock(text) == Absent <==> !Contains(text, START)
  {
    if Contains(text, START) { ConcludeExactly(SplitLines(Body(text)), target, c); }
  }

  // ---------------------------------------------------------------- writing a report

  /** `str.rstrip()` and `"\n".join(lines)` over the lines of `render_report`. */
  function Render(target: string, shard: string, raw: string, c: Counts): string
    requires Reconciled(c)
  {
    START + ("\n" + (Concat(BodyLines(target, shard, c))
      + (END + ("\n" + ("\n" + (HEADING + ("\n" + (StripRight(raw) + "\n"))))))))
  }

  function BodyLines(target: string, shard: string, c: Counts): seq<string>
    requires Reconciled(c)
  {
    [TARGET + target, SHARD + shard] + CountLines(c)
  }

  const FIELDS := [Total, Killed, Survived, Timeout, Suspicious, NotChecked]

  function LinesFor(fs: seq<Field>, c: Counts): (ls: seq<string>)
    requires Reconciled(c)
    ensures |ls| == |fs| && forall i :: 0 <= i < |fs| ==> ls[i] == CountLine(fs[i], ValueOf(c, fs[i]))
  {
    seq(|fs|, i requires 0 <= i < |fs| => CountLine(fs[i], ValueOf(c, fs[i])))
  }

  function CountLines(c: Counts): seq<string> requires Reconciled(c) { LinesFor(FIELDS, c) }

  /** The text of a report, line by line. */
  lemma RenderIsText(target: string, shard: string, raw: string, c: Counts)
    requires Reconciled(c)
    ensures Render(target, shard, raw, c) == Concat(
      ["=== mutation report ===", "target=" + target, "shard=" + shard, "total=" + PrintNat(c.total),
       "killed=" + PrintNat(c.killed), "survived=" + PrintNat(c.survived), "timeout=" + PrintNat(c.timeout),
       "suspicious=" + PrintNat(c.suspicious), "not checked=" + PrintNat(c.notChecked),
       "=== end mutation report ===", "", "=== mutmut results ===", StripRight(raw)])
  {
    var body := BodyLines(target, shard, c);
    CountLinesText(c);
    RenderConcat(body, StripRight(raw));
    var n := CountLines(c);
    OneList(START, TARGET + target, SHARD + shard, n[0], n[1], n[2], n[3], n[4], n[5], END, "", HEADING,
            StripRight(raw));
    assert n == [n[0], n[1], n[2], n[3], n[4], n[5]];
  }

  lemma OneList<T>(a: T, b: T, c: T, d: T, e: T, f: T, g: T, h: T, i: T, j: T, k: T, l: T, m: T)
    ensures [a] + ([b, c] + [d, e, f, g, h, i]) + [j, k, l, m] == [a, b, c, d, e, f, g, h, i, j, k, l, m]
  {
  }

  lemma RenderConcat(body: seq<string>, raw: string)
    ensures START + ("\n" + (Concat(body) + (END + ("\n" + ("\n" + (HEADING + ("\n" + (raw + "\n"))))))))
         == Concat([START] + body + [END, "", HEADING, raw])
  {
    var start, end, heading := START, END, HEADING;
    ConcatPlus([start], body);
    ConcatPlus([start] + body, [end, "", heading, raw]);
    OneLine(start);
    FourLines(end, "", heading, raw);
    AssembledText(start, Concat(body), end, heading, raw);
  }

  lemma CountLinesText(c: Counts)
    requires Reconciled(c)
    ensures CountLines(c) ==
      ["total=" + PrintNat(c.total), "killed=" + PrintNat(c.killed), "survived=" + PrintNat(c.survived),
       "timeout=" + PrintNat(c.timeout), "suspicious=" + PrintNat(c.suspicious),
       "not checked=" + PrintNat(c.notChecked)]
  {
    Regroup("total", "=", PrintNat(c.total));
    Regroup("killed", "=", PrintNat(c.killed));
    Regroup("survived", "=", PrintNat(c.survived));
    Regroup("timeout", "=", PrintNat(c.timeout));
    Regroup("suspicious", "=", PrintNat(c.suspicious));
    Regroup("not checked", "=", PrintNat(c.notChecked));
    assert "total" + "=" == "total=" && "killed" + "=" == "killed=" && "survived" + "=" == "survived=";
    assert "timeout" + "=" == "timeout=" && "suspicious" + "=" == "suspicious=";
    assert "not checked" + "=" == "not checked=";
  }

  lemma OneLine(a: string)
    ensures Concat([a]) == a + "\n"
  {
    assert [a][1..] == [];
  }

  lemma FourLines(a: string, b: string, c: string, d: string)
    ensures Concat([a, b, c, d]) == a + "\n" + (b + "\n" + (c + "\n" + (d + "\n")))
  {
    OneLine(d);
    assert [c, d][1..] == [d] && [b, c, d][1..] == [c, d] && [a, b, c, d][1..] == [b, c, d];
    assert Concat([c, d]) == c + "\n" + (d + "\n");
    assert Concat([b, c, d]) == b + "\n" + (c + "\n" + (d + "\n"));
  }

  lemma AssembledText(start: string, body: string, end: string, heading: string, raw: string)
    ensures start + ("\n" + (body + (end + ("\n" + ("\n" + (heading + ("\n" + (raw + "\n"))))))))
         == (start + "\n") + body + (end + "\n" + ("" + "\n" + (heading + "\n" + (raw + "\n"))))
  {
    var tail := heading + ("\n" + (raw + "\n"));
    assert tail == heading + "\n" + (raw + "\n");
    assert "" + "\n" == "\n";
    var last := end + ("\n" + ("\n" + tail));
    assert last == end + "\n" + ("\n" + tail);
    assert start + ("\n" + (body + last)) == (start + "\n") + body + last;
  }

  /** Shard names are made of these characters. */
  predicate ShardChar(c: char) { 'a' <= c <= 'z' || 'A' <= c <= 'Z' || IsDigit(c) || c == '.' || c == '_' || c == '-' }

  /** The target paths that a report can carry: one stripped line in which, after `target=`, no end marker begins. */
  predicate Clean(target: string) { Unbroken(target) && Stripped(target) && !Contains(TARGET + target, END) }

  lemma NoMarkerWithout(s: string, p: string, c: char)
    requires p != [] && c in p && c !in s
    ensures !Contains(s, p)
  {
  }

  lemma DigitsPlain(n: nat)
    ensures ' ' !in PrintNat(n) && 'm' !in PrintNat(n) && Unbroken(PrintNat(n))
  {
    var d := PrintNat(n);
    assert forall i :: 0 <= i < |d| ==> IsDigit(d[i]);
  }

  lemma NamesPlain(f: Field)
    ensures Unbroken(NameOf(f)) && (if f.NotChecked? then 'm' !in NameOf(f) else ' ' !in NameOf(f))
  {
  }

  lemma MarkerLetters()
    ensures ' ' in END && 'm' in END
  {
    assert END[3] == ' ' && END[8] == 'm';
  }

  lemma CountLinePlain(f: Field, n: nat)
    ensures Unbroken(CountLine(f, n)) && !Contains(CountLine(f, n), END)
  {
    DigitsPlain(n);
    NamesPlain(f);
    MarkerLetters();
    NoMarkerWithout(CountLine(f, n), END, if f.NotChecked? then 'm' else ' ');
  }

  lemma ShardPlain(shard: string)
    requires All(shard, ShardChar)
    ensures Unbroken(SHARD + shard) && !Contains(SHARD + shard, END)
  {
    assert END[3] == ' ';
    NoMarkerWithout(SHARD + shard, END, ' ');
  }

  lemma BodyPlain(target: string, shard: string, c: Counts)
    requires Reconciled(c) && All(shard, ShardChar) && Clean(target)
    ensures var ls := [""] + BodyLines(target, shard, c);
      forall i :: 0 <= i < |ls| ==> Unbroken(ls[i]) && !Contains(ls[i], END)
  {
    ShardPlain(shard);
    forall i | 0 <= i < |FIELDS| ensures Unbroken(CountLines(c)[i]) && !Contains(CountLines(c)[i], END) {
      CountLinePlain(FIELDS[i], ValueOf(c, FIELDS[i]));
    }
    assert forall i :: 0 <= i < |target| ==> (TARGET + target)[i + |TARGET|] == target[i];
    assert Unbroken(TARGET + target);
  }

  function Tail(raw: string): string { "\n" + ("\n" + (HEADING + ("\n" + (StripRight(raw) + "\n")))) }

  lemma StartsHere(a: string, b: string)
    requires a != []
    ensures Find(a + b, a) == 0
  {
    assert (a + b)[..|a|] == a;
  }

  /** What may stand before a report: nothing, or lines without its start marker. */
  predicate Leads(lead: string, mark: string) {
    lead == "" || (lead[|lead| - 1] == '\n' && !Contains(lead[..|lead| - 1], mark))
  }

  /** The report's own marker is the first one, whatever precedes it. */
  lemma FindStart(lead: string, mark: string, rest: string)
    requires mark != [] && Unbroken(mark) && Leads(lead, mark)
    ensures Find(lead + (mark + rest), mark) == |lead|
  {
    StartsHere(mark, rest);
    if lead == "" {
      assert lead + (mark + rest) == mark + rest;
    } else {
      var prefix := lead[..|lead| - 1];
      assert lead == prefix + "\n";
      Regroup(prefix, "\n", mark + rest);
      FindNextLine(prefix, mark + rest, mark);
    }
  }

  lemma AfterMark(lead: string, mark: string, rest: string)
    ensures (lead + (mark + rest))[|lead| + |mark|..] == rest
  {
  }

  lemma MarkersUnbroken()
    ensures Unbroken(START) && Unbroken(END)
  {
  }

  /** Up to its end marker the report is the lines it was written from, whatever follows. */
  lemma FindEnd(lines: seq<string>, mark: string, rest: string)
    requires mark != [] && Unbroken(mark) && forall i :: 0 <= i < |lines| ==> !Contains(lines[i], mark)
    ensures var text := Concat(lines) + (mark + rest); text[..Find(text, mark)] == Concat(lines)
  {
    FindAfterLines(lines, mark + rest, mark);
    StartsHere(mark, rest);
  }

  lemma RenderedBody(lead: string, target: string, shard: string, raw: string, c: Counts)
    requires Leads(lead, START) && Reconciled(c) && All(shard, ShardChar) && Clean(target)
    ensures var text := lead + Render(target, shard, raw, c);
      Contains(text, START) && SplitLines(Body(text)) == [""] + BodyLines(target, shard, c)
  {
    BodyPlain(target, shard, c);
    var rest := "\n" + (Concat(BodyLines(target, shard, c)) + (END + Tail(raw)));
    MarkersUnbroken();
    FindStart(lead, START, rest);
    AfterMark(lead, START, rest);
    BodyUpTo(BodyLines(target, shard, c), END, Tail(raw));
    SplitAll([""] + BodyLines(target, shard, c));
  }

  /** An empty line and the given lines, up to the marker. */
  lemma BodyUpTo(lines: seq<string>, mark: string, tail: string)
    requires mark != [] && Unbroken(mark)
    requires var ls := [""] + lines; forall i :: 0 <= i < |ls| ==> !Contains(ls[i], mark)
    ensures var rest := "\n" + (Concat(lines) + (mark + tail)); rest[..Find(rest, mark)] == Concat([""] + lines)
  {
    ConcatPlus([""], lines);
    assert Concat([""]) == "\n" by { assert [""][1..] == []; }
    Regroup("\n", Concat(lines), mark + tail);
    FindEnd([""] + lines, mark, tail);
  }

  lemma FoldStep(b: Block, line: string, rest: seq<string>, read: (Block, string) -> Option<Block>)
    ensures Fold(b, [line] + rest, read)
         == (var next := read(b, line); if next.None? then None else Fold(next.value, rest, read))
  {
    assert ([line] + rest)[1..] == rest;
  }

  lemma CountNotTarget(f: Field, n: nat)
    ensures !StartsWith(CountLine(f, n), TARGET)
  {
    var s := CountLine(f, n);
    assert s[1] == NameOf(f)[1];
    SecondIs(s, TARGET);
  }

  lemma ReadCount(b: Block, f: Field, n: nat)
    requires f !in b.values
    ensures ReadLine(b, CountLine(f, n)) == Some(b.(values := b.values[f := n]))
  {
    CountLineRead(f, n);
    CountNotTarget(f, n);
  }

  lemma ReadOther(b: Block, shard: string)
    ensures ReadLine(b, "") == Some(b) && ReadLine(b, SHARD + shard) == Some(b)
  {
    var s := SHARD + shard;
    NoSpaceAhead(s);
    NoSpaceAhead("");
    FirstIs(s, TARGET);
    FirstIs(s, "total");
    FirstIs(s, "killed");
    FirstIs(s, "timeout");
    FirstIs(s, "not checked");
    SecondIs(s, "survived");
    SecondIs(s, "suspicious");
  }

  lemma ReadTarget(b: Block, target: string)
    ensures ReadLine(b, TARGET + target) == Some(b.(target := Some(Strip(target))))
  {
    var s := TARGET + target;
    assert s[..|TARGET|] == TARGET && s[|TARGET|..] == target;
  }

  function AddAll(values: map<Field, int>, fs: seq<Field>, c: Counts): map<Field, int>
    decreases |fs|
  {
    if fs == [] then values else AddAll(values[fs[0] := ValueOf(c, fs[0])], fs[1..], c)
  }

  lemma {:induction false} AddAllFacts(values: map<Field, int>, fs: seq<Field>, c: Counts, f: Field)
    requires f in fs || (f in values && values[f] == ValueOf(c, f))
    ensures var r := AddAll(values, fs, c); f in r && r[f] == ValueOf(c, f)
    decreases |fs|
  {
    if fs != [] { AddAllFacts(values[fs[0] := ValueOf(c, fs[0])], fs[1..], c, f); }
  }

  predicate NoneRead(values: map<Field, int>, fs: seq<Field>) {
    (forall i :: 0 <= i < |fs| ==> fs[i] !in values) && forall i, j :: 0 <= i < j < |fs| ==> fs[i] != fs[j]
  }

  /** The reader stores each line's count under the field at the same place. */
  ghost predicate Stores(read: (Block, string) -> Option<Block>, fs: seq<Field>, ls: seq<string>, c: Counts)
    requires |ls| == |fs|
  {
    forall b: Block, i :: 0 <= i < |fs| && fs[i] !in b.values ==>
      read(b, ls[i]) == Some(b.(values := b.values[fs[i] := ValueOf(c, fs[i])]))
  }

  lemma StoresRest(read: (Block, string) -> Option<Block>, fs: seq<Field>, ls: seq<string>, c: Counts)
    requires |ls| == |fs| && fs != [] && Stores(read, fs, ls, c)
    ensures Stores(read, fs[1..], ls[1..], c)
  {
    forall b: Block, i | 0 <= i < |fs[1..]| && fs[1..][i] !in b.values
      ensures read(b, ls[1..][i]) == Some(b.(values := b.values[fs[1..][i] := ValueOf(c, fs[1..][i])]))
    {
      assert read(b, ls[i + 1]) == Some(b.(values := b.values[fs[i + 1] := ValueOf(c, fs[i + 1])]));
    }
  }

  lemma NoneReadRest(values: map<Field, int>, fs: seq<Field>, n: int)
    requires fs != [] && NoneRead(values, fs)
    ensures NoneRead(values[fs[0] := n], fs[1..])
  {
  }

  lemma {:induction false} FoldFields(b: Block, fs: seq<Field>, ls: seq<string>, c: Counts,
                                      read: (Block, string) -> Option<Block>)
    requires |ls| == |fs| && NoneRead(b.values, fs) && Stores(read, fs, ls, c)
    ensures Fold(b, ls, read) == Some(b.(values := AddAll(b.values, fs, c)))
    decreases |fs|
  {
    if fs != [] {
      var n := ValueOf(c, fs[0]);
      assert read(b, ls[0]) == Some(b.(values := b.values[fs[0] := n]));
      StoresRest(read, fs, ls, c);
      NoneReadRest(b.values, fs, n);
      FoldFields(b.(values := b.values[fs[0] := n]), fs[1..], ls[1..], c, read);
    }
  }

  lemma ScanFields(b: Block, fs: seq<Field>, c: Counts)
    requires Reconciled(c) && NoneRead(b.values, fs)
    ensures Scan(b, LinesFor(fs, c)) == Some(b.(values := AddAll(b.values, fs, c)))
  {
    var ls := LinesFor(fs, c);
    forall b: Block, i | 0 <= i < |fs| && fs[i] !in b.values
      ensures ReadLine(b, ls[i]) == Some(b.(values := b.values[fs[i] := ValueOf(c, fs[i])]))
    {
      ReadCount(b, fs[i], ValueOf(c, fs[i]));
    }
    FoldFields(b, fs, ls, c, ReadLine);
  }

  lemma FoldSkip(b: Block, ls: seq<string>, k: nat, read: (Block, string) -> Option<Block>)
    requires k < |ls|
    ensures Fold(b, ls[k..], read)
         == (var next := read(b, ls[k]); if next.None? then None else Fold(next.value, ls[k + 1..], read))
  {
    assert ls[k..] == [ls[k]] + ls[k + 1..];
    FoldStep(b, ls[k], ls[k + 1..], read);
  }

  lemma FoldThree(b0: Block, b1: Block, b2: Block, b3: Block, x: string, y: string, z: string, rest: seq<string>,
                  read: (Block, string) -> Option<Block>)
    requires read(b0, x) == Some(b1) && read(b1, y) == Some(b2) && read(b2, z) == Some(b3)
    ensures Fold(b0, [x] + ([y, z] + rest), read) == Fold(b3, rest, read)
  {
    var ls := [x] + ([y, z] + rest);
    FoldSkip(b0, ls, 0, read);
    FoldSkip(b1, ls, 1, read);
    FoldSkip(b2, ls, 2, read);
    assert ls[0..] == ls && ls[3..] == rest;
  }

  lemma AllFields(f: Field)
    ensures f in FIELDS
  {
    assert FIELDS[0] == Total && FIELDS[1] == Killed && FIELDS[2] == Survived && FIELDS[3] == Timeout
        && FIELDS[4] == Suspicious && FIELDS[5] == NotChecked;
  }

  lemma AddedHolds(c: Counts)
    ensures Holds(AddAll(map[], FIELDS, c), c) && AddAll(map[], FIELDS, c) != map[]
  {
    forall f ensures f in AddAll(map[], FIELDS, c) && AddAll(map[], FIELDS, c)[f] == ValueOf(c, f) {
      AllFields(f);
      AddAllFacts(map[], FIELDS, c, f);
    }
    assert Total in AddAll(map[], FIELDS, c);
  }

  lemma ScanTail(b: Block, c: Counts)
    requires Reconciled(c) && b.target.Some? && b.values == map[]
    ensures Conclude(Scan(b, CountLines(c))) == Report(b.target.value, c)
  {
    ScanFields(b, FIELDS, c);
    AddedHolds(c);
    ValidateAccepts(AddAll(map[], FIELDS, c), c);
  }

  lemma ScanReport(target: string, shard: string, c: Counts)
    requires Reconciled(c)
    ensures Conclude(Scan(Block(None, map[]), [""] + BodyLines(target, shard, c))) == Report(Strip(target), c)
  {
    var b0 := Block(None, map[]);
    var b1 := Block(Some(Strip(target)), map[]);
    ReadOther(b0, shard);
    ReadTarget(b0, target);
    ReadOther(b1, shard);
    FoldThree(b0, b0, b1, b1, "", TARGET + target, SHARD + shard, CountLines(c), ReadLine);
    ScanTail(b1, c);
  }

  // ---------------------------------------------------------------- the round trip

  lemma {:induction false} TargetShape(b: Block, lines: seq<string>)
    requires forall i :: 0 <= i < |lines| ==> Unbroken(lines[i])
    requires b.target.Some? ==> Unbroken(b.target.value) && Stripped(b.target.value)
    ensures Scan(b, lines).Some? && Scan(b, lines).value.target.Some?
        ==> Unbroken(Scan(b, lines).value.target.value) && Stripped(Scan(b, lines).value.target.value)
    decreases |lines|
  {
    if lines != [] {
      var next := ReadLine(b, lines[0]);
      StripUnbroken(lines[0]);
      if next.Some? { TargetShape(next.value, lines[1..]); }
    }
  }

  lemma StripUnbroken(line: string)
    requires Unbroken(line)
    ensures StartsWith(line, TARGET) ==> Unbroken(Strip(line[|TARGET|..])) && Stripped(Strip(line[|TARGET|..]))
  {
    if StartsWith(line, TARGET) {
      var s := line[|TARGET|..];
      StripFacts(s);
      var i, j :| 0 <= i <= j <= |s| && Strip(s) == s[i..j];
      assert forall k :: 0 <= k < j - i ==> s[i..j][k] == line[|TARGET| + i + k];
    }
  }

  lemma ConcludeShape(lines: seq<string>)
    requires forall i :: 0 <= i < |lines| ==> Unbroken(lines[i])
    requires Conclude(Scan(Block(None, map[]), lines)).Report?
    ensures var t := Conclude(Scan(Block(None, map[]), lines)).target; Unbroken(t) && Stripped(t)
  {
    TargetShape(Block(None, map[]), lines);
  }

  /** A target that is read back is one stripped line. */
  lemma ReportTargetShape(text: string)
    requires MachineBlock(text).Report?
    ensures Unbroken(MachineBlock(text).target) && Stripped(MachineBlock(text).target)
  {
    LinesUnbroken(Body(text));
    ConcludeShape(SplitLines(Body(text)));
  }

  lemma SamePrefix(a: string, x: string, p: string)
    requires |p| <= |a|
    ensures StartsWith(a + x, p) <==> StartsWith(a, p)
  {
    assert (a + x)[..|p|] == a[..|p|];
  }

  lemma {:induction false} FindWithin(a: string, x: string, p: string)
    requires p != [] && Contains(a, p)
    ensures Find(a + x, p) == Find(a, p)
  {
    assert |p| <= |a|;
    SamePrefix(a, x, p);
    if !StartsWith(a, p) {
      assert (a + x)[1..] == a[1..] + x;
      FindWithin(a[1..], x, p);
    }
  }

  /** What is left of the target line when the end marker begins inside it holds no count. */
  lemma CutLine(target: string, k: nat, b: Block)
    requires k <= |TARGET + target|
    ensures ReadLine(b, (TARGET + target)[..k]).Some? && ReadLine(b, (TARGET + target)[..k]).value.values == b.values
  {
    var s := (TARGET + target)[..k];
    if !StartsWith(s, TARGET) {
      assert k > 0 ==> s[0] == 't';
      assert k > 1 ==> s[1] == 'a';
      NoSpaceAhead(s);
      if k > 1 {
        SecondIs(s, "total");
        SecondIs(s, "timeout");
      }
      FirstIs(s, "killed");
      FirstIs(s, "survived");
      FirstIs(s, "suspicious");
      FirstIs(s, "not checked");
    }
  }

  lemma CutAt(a: string, rest: string, mark: string)
    requires mark != [] && Unbroken(mark) && Contains(a, mark)
    ensures var text := "\n" + (a + ("\n" + rest)); text[..Find(text, mark)] == "" + ("\n" + a[..Find(a, mark)])
  {
    EmptyLineFirst(a + ("\n" + rest), mark);
    FindWithin(a, "\n" + rest, mark);
    CutPiece(a, "\n" + rest, Find(a, mark));
  }

  lemma EmptyLineFirst(next: string, mark: string)
    requires mark != [] && Unbroken(mark)
    ensures Find("\n" + next, mark) == 1 + Find(next, mark)
  {
    assert "" + ("\n" + next) == "\n" + next;
    FindNextLine("", next, mark);
  }

  lemma CutPiece(a: string, x: string, k: nat)
    requires k <= |a|
    ensures ("\n" + (a + x))[..k + 1] == "" + ("\n" + a[..k])
  {
  }

  lemma CutBody(target: string, rest: string)
    requires Unbroken(target) && Contains(TARGET + target, END)
    ensures var text := "\n" + ((TARGET + target) + ("\n" + rest));
      Conclude(Scan(Block(None, map[]), SplitLines(text[..Find(text, END)]))) == Malformed
  {
    MarkersUnbroken();
    CutAt(TARGET + target, rest, END);
    var k := Find(TARGET + target, END);
    SplitFirst("", (TARGET + target)[..k]);
    CutLines(target, k);
  }

  lemma CutLines(target: string, k: nat)
    requires Unbroken(target) && k <= |TARGET + target|
    ensures Conclude(Scan(Block(None, map[]), [""] + SplitLines((TARGET + target)[..k]))) == Malformed
  {
    var b, s := Block(None, map[]), (TARGET + target)[..k];
    assert forall i :: 0 <= i < k ==> NoBreak(s[i]);
    if s != [] {
      assert s + "" == s;
      SpanAppend(s, "", NoBreak);
      assert SplitLines(s) == [s];
    }
    ReadOther(b, "");
    FoldStep(b, "", SplitLines(s), ReadLine);
    if s != [] {
      CutLine(target, k, b);
      assert [s] == [s] + [];
      FoldStep(b, s, [], ReadLine);
    }
  }

  /** Parsing a rendered report, alone or after any diagnostics without a start marker, and before any raw output,
      gives back exactly its target and counts, if and only if the target path is clean. */
  lemma ReportRoundTrip(lead: string, target: string, shard: string, raw: string, c: Counts)
    requires Leads(lead, START) && Reconciled(c) && All(shard, ShardChar)
    ensures MachineBlock(lead + Render(target, shard, raw, c)) == Report(target, c) <==> Clean(target)
  {
    var text := lead + Render(target, shard, raw, c);
    if Clean(target) {
      RenderedBody(lead, target, shard, raw, c);
      ScanReport(target, shard, c);
      StripFacts(target);
    } else if Unbroken(target) && Stripped(target) {
      CutReport(lead, target, shard, raw, c);
    } else if MachineBlock(text).Report? {
      ReportTargetShape(text);
    }
  }

  lemma MarkInside(a: string, p: string, b: string)
    requires p != []
    ensures Contains(a + (p + b), p)
  {
    var s := a + (p + b);
    assert s[|a|..] == p + b;
    assert (p + b)[..|p|] == p;
    assert StartsWith(s[|a|..], p);
  }

  lemma UnbrokenPlus(a: string, b: string)
    requires Unbroken(a) && Unbroken(b)
    ensures Unbroken(a + b)
  {
  }

  lemma MarkedPath()
    ensures "src/=== end mutation report ===.py" == "src/" + (END + ".py")
    ensures Unbroken("src/") && Unbroken(".py")
  {
  }

  /** A path that the target list accepts, whose report nevertheless cannot be read. */
  lemma MarkedPathIsCut(lead: string, shard: string, raw: string, c: Counts)
    requires Leads(lead, START) && Reconciled(c)
    ensures MachineBlock(lead + Render("src/=== end mutation report ===.py", shard, raw, c)) == Malformed
  {
    MarkedPath();
    MarkersUnbroken();
    UnbrokenPlus(END, ".py");
    UnbrokenPlus("src/", END + ".py");
    MarkInside(TARGET + "src/", END, ".py");
    Regroup(TARGET, "src/", END + ".py");
    CutReport(lead, "src/" + (END + ".py"), shard, raw, c);
  }

  lemma CutReport(lead: string, target: string, shard: string, raw: string, c: Counts)
    requires Leads(lead, START) && Reconciled(c) && Unbroken(target) && Contains(TARGET + target, END)
    ensures MachineBlock(lead + Render(target, shard, raw, c)) == Malformed
  {
    var ls := BodyLines(target, shard, c);
    var end := END + Tail(raw);
    var rest := "\n" + (Concat(ls) + end);
    MarkersUnbroken();
    FindStart(lead, START, rest);
    AfterMark(lead, START, rest);
    var others := Concat(ls[1..]);
    assert Concat(ls) == ls[0] + "\n" + others;
    Regroup(ls[0], "\n", others);
    Regroup(ls[0], "\n" + others, end);
    Regroup("\n", others, end);
    CutBody(target, others + end);
  }

  /** `parse_results`: a report block decides, and must be for the expected target; only without one is the text read as
      mutmut's own output. */
  function ParseResults(text: string, expected: Option<string>, raw: string -> Option<Counts>): Option<Counts> {
    match MachineBlock(text)
    case Absent => raw(text)
    case Malformed => None
    case Report(target, counts) => if expected.Some? && target != expected.value then None else Some(counts)
  }

  /** A rendered report with a clean target gives its counts to whoever expects that target or none, and to nobody else,
      whatever mutmut's output inside it would have given. */
  lemma RenderedResults(lead: string, target: string, shard: string, raw: string, c: Counts, expected: Option<string>,
                        other: string -> Option<Counts>)
    requires Leads(lead, START) && Reconciled(c) && All(shard, ShardChar) && Clean(target)
    ensures ParseResults(lead + Render(target, shard, raw, c), expected, other)
         == if expected.None? || expected == Some(target) then Some(c) else None
  {
    ReportRoundTrip(lead, target, shard, raw, c);
  }

  /** A text with a start marker gives counts exactly when the lines of its block say a report with these counts for the
      expected target; only a text without one is left to the raw reader. */
  lemma BlockDecides(text: string, expected: Option<string>, raw: string -> Option<Counts>, c: Counts)
    ensures !Contains(text, START) ==> ParseResults(text, expected, raw) == raw(text)
    ensures Contains(text, START) ==>
      (ParseResults(text, expected, raw) == Some(c) <==>
        exists t :: (expected.None? || expected.value == t) && SaysReport(SplitLines(Body(text)), t, c, CountOn))
  {
    ReportExactlyWhen(text, "", c);
    if Contains(text, START) {
      forall t ensures MachineBlock(text) == Report(t, c) <==> SaysReport(SplitLines(Body(text)), t, c, CountOn) {
        ReportExactlyWhen(text, t, c);
      }
      if MachineBlock(text).Report? && MachineBlock(text).counts == c {
        assert SaysReport(SplitLines(Body(text)), MachineBlock(text).target, c, CountOn);
      }
    }
  }

  // ---------------------------------------------------------------- counting statuses

  /** The field a mutmut status counts under; other text is not a known status. */
  function FieldOf(status: string): Option<Field> {
    if status == "killed" then Some(Killed)
    else if status == "survived" then Some(Survived)
    else if status == "timeout" then Some(Timeout)
    else if status == "suspicious" then Some(Suspicious)
    else if status in UNCHECKED then Some(NotChecked)
    else None
  }

  const UNCHECKED :=
    ["not checked", "no tests", "skipped", "check was interrupted by user", "caught by type check", "segfault"]

  function Occurrences(statuses: seq<string>, f: Field): nat {
    if statuses == [] then 0
    else Occurrences(statuses[..|statuses| - 1], f) + if FieldOf(statuses[|statuses| - 1]) == Some(f) then 1 else 0
  }

  predicate AllKnown(statuses: seq<string>) { forall i :: 0 <= i < |statuses| ==> FieldOf(statuses[i]).Some? }

  /** Every known status is counted under exactly one field. */
  lemma {:induction false} OccurrencesAddUp(statuses: seq<string>)
    requires AllKnown(statuses)
    ensures Occurrences(statuses, Killed) + Occurrences(statuses, Survived) + Occurrences(statuses, Timeout)
          + Occurrences(statuses, Suspicious) + Occurrences(statuses, NotChecked) == |statuses|
    ensures Occurrences(statuses, Total) == 0
  {
    if statuses != [] {
      var last := statuses[|statuses| - 1];
      assert FieldOf(last).Some? && FieldOf(last) != Some(Total);
      OccurrencesAddUp(statuses[..|statuses| - 1]);
    }
  }

  /** Four of the fields count one status text each. */
  lemma {:induction false} OccurrencesAreTimes(statuses: seq<string>)
    ensures var times := multiset(statuses);
      && Occurrences(statuses, Killed) == times["killed"] && Occurrences(statuses, Survived) == times["survived"]
      && Occurrences(statuses, Timeout) == times["timeout"] && Occurrences(statuses, Suspicious) == times["suspicious"]
  {
    if statuses != [] {
      var n := |statuses| - 1;
      OccurrencesAreTimes(statuses[..n]);
      assert statuses == statuses[..n] + [statuses[n]];
    }
  }

  /** Each field holds what has been counted so far. */
  predicate Tallied(values: map<Field, int>, statuses: seq<string>, total: int) {
    && (forall f :: f in values) && values[Total] == total
    && forall f :: f != Total ==> values[f] == Occurrences(statuses, f)
  }

  lemma TallyOne(values: map<Field, int>, statuses: seq<string>, i: nat, total: int, f: Field)
    requires i < |statuses| && Tallied(values, statuses[..i], total) && FieldOf(statuses[i]) == Some(f)
    ensures Tallied(values[f := values[f] + 1], statuses[..i + 1], total)
  {
    assert statuses[..i + 1][..i] == statuses[..i];
    assert f != Total;
  }

  lemma KnownStatus(s: string)
    ensures FieldOf(s).Some? <==>
      || s in ["killed", "survived", "timeout", "suspicious"]
      || s in ["not checked", "no tests", "skipped", "segfault"]
      || s in ["check was interrupted by user", "caught by type check"]
  {
    assert UNCHECKED == ["not checked", "no tests", "skipped", "check was interrupted by user", "caught by type check"]
      + ["segfault"];
  }

  /** `_status_counts`: counts exist exactly for a non-empty list of known statuses; each field then
      holds the number of statuses of its kind, and together they make up the total. */
  method StatusCounts(statuses: seq<string>) returns (r: Option<Counts>)
    ensures r.Some? <==> statuses != [] && forall s :: s in statuses ==>
      || s in ["killed", "survived", "timeout", "suspicious"]
      || s in ["not checked", "no tests", "skipped", "segfault"]
      || s in ["check was interrupted by user", "caught by type check"]
    ensures r.Some? ==> r.value.total == |statuses| && Reconciled(r.value)
    ensures r.Some? ==>
      var times := multiset(statuses);
      && r.value.killed == times["killed"] && r.value.survived == times["survived"]
      && r.value.timeout == times["timeout"] && r.value.suspicious == times["suspicious"]
  {
    var values: map<Field, int> :=
      map[Total := |statuses|, Killed := 0, Survived := 0, Timeout := 0, Suspicious := 0, NotChecked := 0];
    forall f ensures f in values && (f != Total ==> values[f] == 0) {
      match f
      case Total =>
      case Killed =>
      case Survived =>
      case Timeout =>
      case Suspicious =>
      case NotChecked =>
    }
    for i := 0 to |statuses|
      invariant Tallied(values, statuses[..i], |statuses|) && AllKnown(statuses[..i])
    {
      var f := FieldOf(statuses[i]);
      KnownStatus(statuses[i]);
      if f.None? { return None; }
      TallyOne(values, statuses, i, |statuses|, f.value);
      values := values[f.value := values[f.value] + 1];
    }
    assert statuses[..|statuses|] == statuses;
    forall s | s in statuses ensures FieldOf(s).Some? { var i :| 0 <= i < |statuses| && statuses[i] == s; }
    forall s | s in statuses
      ensures s in ["killed", "survived", "timeout", "suspicious"]
           || s in ["not checked", "no tests", "skipped", "segfault"]
           || s in ["check was interrupted by user", "caught by type check"]
    {
      KnownStatus(s);
    }
    TallyReconciles(values, statuses);
    OccurrencesAreTimes(statuses);
    r := ValidateCounts(values);
  }

  lemma TallyReconciles(values: map<Field, int>, statuses: seq<string>)
    requires Tallied(values, statuses, |statuses|) && AllKnown(statuses)
    ensures ValidateCounts(values).Some? <==> statuses != []
  {
    OccurrencesAddUp(statuses);
    var c := Counts(|statuses|, values[Killed], values[Survived], values[Timeout], values[Suspicious],
      values[NotChecked]);
    ValidateAccepts(values, c);
  }

  // ---------------------------------------------------------------- the aggregate

  /** What reading a report file gives: its text, an `OSError`, or bytes that are not UTF-8. */
  datatype File = Content(text: string) | ReadError | NotUtf8

  datatype Shard = Shard(target: string, counts: Counts)

  /** The baseline file: valid limits, a reported error, or a document the reader does not expect. */
  datatype Baseline = Limits(survived: nat, timeout: nat) | BadBaseline | BaselineCrash

  datatype Verdict = Zero | Failed | Crashed

  datatype Reading = Parsed(outcome: Outcome) | Failure | Crash

  function Read(f: File): Reading {
    match f
    case Content(text) => Parsed(MachineBlock(text))
    case ReadError => Failure
    case NotUtf8 => Crash
  }

  function ReadAll(files: seq<File>): (rs: seq<Reading>)
    ensures |rs| == |files| && forall i :: 0 <= i < |files| ==> rs[i] == Read(files[i])
  {
    seq(|files|, i requires 0 <= i < |files| => Read(files[i]))
  }

  predicate WellFormed(r: Reading, targets: seq<string>) {
    r.Parsed? && r.outcome.Report? && r.outcome.target in targets && r.outcome.target != "full-scope"
    && r.outcome.counts.notChecked == 0
  }

  function ShardOf(r: Reading, targets: seq<string>): Shard
    requires WellFormed(r, targets)
  {
    Shard(r.outcome.target, r.outcome.counts)
  }

  predicate Has(shards: seq<Shard>, target: string) { exists i :: 0 <= i < |shards| && shards[i].target == target }

  predicate Unique(shards: seq<Shard>) { forall i, j :: 0 <= i < j < |shards| ==> shards[i].target != shards[j].target }

  predicate AllWellFormed(rs: seq<Reading>, targets: seq<string>) {
    forall i :: 0 <= i < |rs| ==> WellFormed(rs[i], targets)
  }

  function Shards(rs: seq<Reading>, targets: seq<string>): (shards: seq<Shard>)
    requires AllWellFormed(rs, targets)
    ensures |shards| == |rs| && forall i :: 0 <= i < |rs| ==> shards[i] == ShardOf(rs[i], targets)
  {
    seq(|rs|, i requires 0 <= i < |rs| => ShardOf(rs[i], targets))
  }

  function Sum(shards: seq<Shard>, f: Field): int {
    if shards == [] then 0 else Sum(shards[..|shards| - 1], f) + ValueOf(shards[|shards| - 1].counts, f)
  }

  /** Every report complete, known and alone for its target; every target reported; the sums within the baseline. */
  predicate Passes(rs: seq<Reading>, targets: seq<string>, baseline: Baseline) {
    && AllWellFormed(rs, targets)
    && var shards := Shards(rs, targets);
       && Unique(shards) && (forall t :: t in targets ==> Has(shards, t))
       && baseline.Limits? && Sum(shards, Survived) <= baseline.survived && Sum(shards, Timeout) <= baseline.timeout
  }

  datatype Collected = Collected(shards: seq<Shard>, failures: nat, crashed: bool)

  function Classified(r: Reading, targets: seq<string>): Option<Shard> {
    if WellFormed(r, targets) then Some(ShardOf(r, targets)) else None
  }

  function Classes(rs: seq<Reading>, targets: seq<string>): (xs: seq<Option<Shard>>)
    ensures |xs| == |rs| && forall i :: 0 <= i < |rs| ==> xs[i] == Classified(rs[i], targets)
  {
    seq(|rs|, i requires 0 <= i < |rs| => Classified(rs[i], targets))
  }

  /** Each file either adds its shard or counts as a failure. */
  function Gather(xs: seq<Option<Shard>>): Collected {
    if xs == [] then Collected([], 0, false)
    else
      var c, x := Gather(xs[..|xs| - 1]), xs[|xs| - 1];
      if x.None? || Has(c.shards, x.value.target) then c.(failures := c.failures + 1)
        else c.(shards := c.shards + [x.value])
  }

  predicate AllSome(xs: seq<Option<Shard>>) { forall i :: 0 <= i < |xs| ==> xs[i].Some? }

  function Values(xs: seq<Option<Shard>>): (s: seq<Shard>)
    requires AllSome(xs)
    ensures |s| == |xs| && forall i :: 0 <= i < |xs| ==> s[i] == xs[i].value
  {
    seq(|xs|, i requires 0 <= i < |xs| => xs[i].value)
  }

  lemma SomeBefore(xs: seq<Option<Shard>>, n: nat)
    requires n < |xs|
    ensures AllSome(xs) ==> AllSome(xs[..n]) && xs[n].Some?
  {
  }

  /** Nothing fails exactly when every file has a shard and no target comes twice; then these are the shards. */
  lemma {:induction false} GatherFacts(xs: seq<Option<Shard>>)
    ensures Gather(xs).failures == 0 <==> AllSome(xs) && Unique(Values(xs))
    ensures Gather(xs).failures == 0 ==> Gather(xs).shards == Values(xs)
  {
    if xs != [] {
      var n := |xs| - 1;
      var before := xs[..n];
      GatherFacts(before);
      if AllSome(before) && xs[n].Some? {
        assert AllSome(xs);
        assert Values(xs) == Values(before) + [xs[n].value];
        UniqueExtend(Values(before), xs[n].value);
      }
      SomeBefore(xs, n);
    }
  }

  lemma CrashesAre(files: seq<File>)
    ensures Crash in ReadAll(files) <==> NotUtf8 in files
  {
    var rs := ReadAll(files);
    if Crash in rs { var i :| 0 <= i < |rs| && rs[i] == Crash; assert files[i] == NotUtf8; }
    if NotUtf8 in files { var i :| 0 <= i < |files| && files[i] == NotUtf8; assert rs[i] == Crash; }
  }

  method ReadFile(f: File) returns (r: Reading)
    ensures r == Read(f)
  {
    match f
    case Content(text) => var o := ReadMachineBlock(text); r := Parsed(o);
    case ReadError => r := Failure;
    case NotUtf8 => r := Crash;
  }

  method ReadFiles(files: seq<File>) returns (rs: seq<Reading>)
    ensures rs == ReadAll(files)
  {
    rs := [];
    for i := 0 to |files|
      invariant |rs| == i && forall k :: 0 <= k < i ==> rs[k] == Read(files[k])
    {
      var r := ReadFile(files[i]);
      rs := rs + [r];
    }
  }

  /** `_collect_reports`: failures are counted, not fatal; bytes that are not text are not caught. */
  method CollectReports(rs: seq<Reading>, targets: seq<string>) returns (r: Collected)
    ensures r.crashed <==> Crash in rs
    ensures !r.crashed ==> r == Gather(Classes(rs, targets))
  {
    var shards: seq<Shard> := [];
    var failures := 0;
    ghost var xs := Classes(rs, targets);
    for i := 0 to |rs|
      invariant Crash !in rs[..i]
      invariant Collected(shards, failures, false) == Gather(xs[..i])
    {
      assert xs[..i + 1][..i] == xs[..i];
      if rs[i].Crash? { return Collected(shards, failures, true); }
      if !WellFormed(rs[i], targets) || Has(shards, ShardOf(rs[i], targets).target) {
        failures := failures + 1;
      } else {
        shards := shards + [ShardOf(rs[i], targets)];
      }
    }
    assert xs[..|rs|] == xs && rs[..|rs|] == rs;
    r := Collected(shards, failures, false);
  }

  lemma ClassesSome(rs: seq<Reading>, targets: seq<string>)
    ensures AllSome(Classes(rs, targets)) <==> AllWellFormed(rs, targets)
    ensures AllWellFormed(rs, targets) ==> Values(Classes(rs, targets)) == Shards(rs, targets) && Crash !in rs
  {
    var xs := Classes(rs, targets);
    forall i | 0 <= i < |rs| ensures xs[i].Some? <==> WellFormed(rs[i], targets) {}
    if AllSome(xs) {
      forall i | 0 <= i < |rs| ensures WellFormed(rs[i], targets) { assert xs[i].Some?; }
    }
  }

  /** No crash and no failure: every report is well formed and alone for its target. */
  lemma CollectedClean(rs: seq<Reading>, targets: seq<string>)
    ensures Crash !in rs && Gather(Classes(rs, targets)).failures == 0
      <==> AllWellFormed(rs, targets) && Unique(Shards(rs, targets))
    ensures AllWellFormed(rs, targets) && Unique(Shards(rs, targets)) ==>
      Gather(Classes(rs, targets)).shards == Shards(rs, targets)
  {
    GatherFacts(Classes(rs, targets));
    ClassesSome(rs, targets);
  }

  lemma UniqueExtend(s: seq<Shard>, x: Shard)
    ensures Unique(s + [x]) <==> Unique(s) && !Has(s, x.target)
  {
    var t := s + [x];
    if Unique(t) {
      assert forall i :: 0 <= i < |s| ==> t[i] == s[i] && t[|s|] == x;
    }
  }

  /** The file is a readable report for one of the targets, with nothing left unchecked. */
  predicate ReportsOn(f: File, targets: seq<string>) {
    && f.Content? && MachineBlock(f.text).Report? && MachineBlock(f.text).counts.notChecked == 0
    && MachineBlock(f.text).target in targets && MachineBlock(f.text).target != "full-scope"
  }

  function TargetOf(f: File): string {
    if f.Content? && MachineBlock(f.text).Report? then MachineBlock(f.text).target else ""
  }

  function Reported(files: seq<File>): (names: seq<string>)
    ensures |names| == |files| && forall i :: 0 <= i < |files| ==> names[i] == TargetOf(files[i])
  {
    seq(|files|, i requires 0 <= i < |files| => TargetOf(files[i]))
  }

  predicate Distinct(names: seq<string>) { forall i, j :: 0 <= i < j < |names| ==> names[i] != names[j] }

  /** Every file reports on a target, no two on the same, and every target is reported on. */
  predicate Complete(files: seq<File>, targets: seq<string>) {
    && (forall i :: 0 <= i < |files| ==> ReportsOn(files[i], targets))
    && var names := Reported(files);
       Distinct(names) && forall t :: t in targets ==> t in names
  }

  /** The mutants that survived, or timed out, according to the reports among the files. */
  function SurvivedOf(f: File): int {
    if f.Content? && MachineBlock(f.text).Report? then MachineBlock(f.text).counts.survived else 0
  }

  function TimeoutOf(f: File): int {
    if f.Content? && MachineBlock(f.text).Report? then MachineBlock(f.text).counts.timeout else 0
  }

  function SurvivedIn(files: seq<File>): int {
    if files == [] then 0 else SurvivedIn(files[..|files| - 1]) + SurvivedOf(files[|files| - 1])
  }

  function TimeoutIn(files: seq<File>): int {
    if files == [] then 0 else TimeoutIn(files[..|files| - 1]) + TimeoutOf(files[|files| - 1])
  }

  lemma {:induction false} SumsAgree(shards: seq<Shard>, files: seq<File>)
    requires |shards| == |files|
    requires forall i :: 0 <= i < |files| ==>
      shards[i].counts.survived == SurvivedOf(files[i]) && shards[i].counts.timeout == TimeoutOf(files[i])
    ensures Sum(shards, Survived) == SurvivedIn(files) && Sum(shards, Timeout) == TimeoutIn(files)
  {
    if files != [] { SumsAgree(shards[..|shards| - 1], files[..|files| - 1]); }
  }

  lemma SumsOfFiles(files: seq<File>, targets: seq<string>)
    requires AllWellFormed(ReadAll(files), targets)
    ensures var shards := Shards(ReadAll(files), targets);
      Sum(shards, Survived) == SurvivedIn(files) && Sum(shards, Timeout) == TimeoutIn(files)
  {
    var rs := ReadAll(files);
    var shards := Shards(rs, targets);
    forall i | 0 <= i < |files|
      ensures shards[i].counts.survived == SurvivedOf(files[i]) && shards[i].counts.timeout == TimeoutOf(files[i])
    {
      assert WellFormed(rs[i], targets) && rs[i] == Read(files[i]);
    }
    SumsAgree(shards, files);
  }

  lemma FileWellFormed(f: File, targets: seq<string>)
    ensures WellFormed(Read(f), targets) <==> ReportsOn(f, targets)
  {
  }

  lemma AllReport(files: seq<File>, targets: seq<string>)
    ensures AllWellFormed(ReadAll(files), targets) <==> forall i :: 0 <= i < |files| ==> ReportsOn(files[i], targets)
  {
    var rs := ReadAll(files);
    forall i | 0 <= i < |files| ensures WellFormed(rs[i], targets) <==> ReportsOn(files[i], targets) {
      FileWellFormed(files[i], targets);
      assert rs[i] == Read(files[i]);
    }
    if AllWellFormed(rs, targets) {
      forall i | 0 <= i < |files| ensures ReportsOn(files[i], targets) { assert WellFormed(rs[i], targets); }
    }
  }

  lemma NamesOfShards(shards: seq<Shard>, names: seq<string>)
    requires |shards| == |names| && forall i :: 0 <= i < |shards| ==> shards[i].target == names[i]
    ensures Unique(shards) <==> Distinct(names)
    ensures forall t :: Has(shards, t) <==> t in names
  {
    forall t ensures Has(shards, t) <==> t in names {
      if t in names { var i :| 0 <= i < |names| && names[i] == t; assert shards[i].target == t; }
      if Has(shards, t) { var i :| 0 <= i < |shards| && shards[i].target == t; assert names[i] == t; }
    }
    if Unique(shards) {
      forall i, j | 0 <= i < j < |names| ensures names[i] != names[j] { assert shards[i].target != shards[j].target; }
    }
  }

  lemma ShardNames(files: seq<File>, targets: seq<string>)
    requires AllWellFormed(ReadAll(files), targets) && forall i :: 0 <= i < |files| ==> ReportsOn(files[i], targets)
    ensures var shards := Shards(ReadAll(files), targets);
      forall i :: 0 <= i < |files| ==> shards[i].target == Reported(files)[i]
  {
    var rs := ReadAll(files);
    forall i | 0 <= i < |files| ensures Shards(rs, targets)[i].target == Reported(files)[i] {
      assert WellFormed(rs[i], targets) && rs[i] == Read(files[i]);
    }
  }

  lemma PassesMeans(files: seq<File>, targets: seq<string>, baseline: Baseline)
    ensures Complete(files, targets) <==>
      var rs := ReadAll(files);
      && AllWellFormed(rs, targets) && Unique(Shards(rs, targets))
      && forall t :: t in targets ==> Has(Shards(rs, targets), t)
    ensures Passes(ReadAll(files), targets, baseline) <==>
      && Complete(files, targets) && baseline.Limits?
      && SurvivedIn(files) <= baseline.survived && TimeoutIn(files) <= baseline.timeout
  {
    AllReport(files, targets);
    var rs := ReadAll(files);
    if AllWellFormed(rs, targets) {
      SumsOfFiles(files, targets);
      ShardNames(files, targets);
      NamesOfShards(Shards(rs, targets), Reported(files));
    }
  }

  /** `aggregate` returns 0 exactly when everything passes and its summary can be written; an `OSError` from a summary
      write, of the totals or of the failures, is not caught. */
  method Aggregate(files: seq<File>, targets: seq<string>, baseline: Baseline, writable: bool) returns (v: Verdict)
    ensures v == Zero <==> Passes(ReadAll(files), targets, baseline) && writable
    ensures v == Zero <==>
      && writable && Complete(files, targets) && baseline.Limits?
      && SurvivedIn(files) <= baseline.survived && TimeoutIn(files) <= baseline.timeout
    ensures v == Crashed <==> NotUtf8 in files || !writable || (Complete(files, targets) && baseline.BaselineCrash?)
  {
    PassesMeans(files, targets, baseline);
    var rs := ReadFiles(files);
    CrashesAre(files);
    v := AggregateReadings(rs, targets, baseline, writable);
  }

  method AggregateReadings(rs: seq<Reading>, targets: seq<string>, baseline: Baseline, writable: bool)
    returns (v: Verdict)
    ensures v == Zero <==> Passes(rs, targets, baseline) && writable
    ensures v == Crashed <==>
      || Crash in rs || !writable
      || (AllWellFormed(rs, targets) && Unique(Shards(rs, targets))
          && (forall t :: t in targets ==> Has(Shards(rs, targets), t)) && baseline.BaselineCrash?)
  {
    var failure := if writable then Failed else Crashed;
    var collected := CollectReports(rs, targets);
    CollectedClean(rs, targets);
    if collected.crashed { return Crashed; }
    var missing := AnyMissing(collected.shards, targets);
    if collected.failures > 0 || missing { return failure; }
    if baseline.BaselineCrash? { return Crashed; }
    if baseline.BadBaseline? { return failure; }
    if !writable { return Crashed; }
    var survived, timeout := Totals(collected.shards);
    if survived > baseline.survived || timeout > baseline.timeout { return Failed; }
    v := Zero;
  }

  method AnyMissing(shards: seq<Shard>, targets: seq<string>) returns (missing: bool)
    ensures missing <==> exists t :: t in targets && !Has(shards, t)
  {
    missing := false;
    for i := 0 to |targets|
      invariant missing <==> exists t :: t in targets[..i] && !Has(shards, t)
    {
      assert targets[..i + 1] == targets[..i] + [targets[i]];
      if !Has(shards, targets[i]) { missing := true; }
    }
    assert targets[..|targets|] == targets;
  }

  method Totals(shards: seq<Shard>) returns (survived: int, timeout: int)
    ensures survived == Sum(shards, Survived) && timeout == Sum(shards, Timeout)
  {
    survived, timeout := 0, 0;
    for i := 0 to |shards|
      invariant survived == Sum(shards[..i], Survived) && timeout == Sum(shards[..i], Timeout)
    {
      assert shards[..i + 1][..i] == shards[..i];
      survived := survived + shards[i].counts.survived;
      timeout := timeout + shards[i].counts.timeout;
    }
    assert shards[..|shards|] == shards;
  }

  /** The totals of a passing aggregate are killed, survived, timed out and suspicious mutants and nothing else. */
  lemma TotalsConserved(files: seq<File>, targets: seq<string>, baseline: Baseline)
    requires Passes(ReadAll(files), targets, baseline)
    ensures var s := Shards(ReadAll(files), targets);
      Sum(s, Total) == Sum(s, Killed) + Sum(s, Survived) + Sum(s, Timeout) + Sum(s, Suspicious)
  {
    var rs := ReadAll(files);
    var s := Shards(rs, targets);
    forall i | 0 <= i < |s| ensures Reconciled(s[i].counts) && s[i].counts.notChecked == 0 {
      assert WellFormed(rs[i], targets);
      ReportReconciled(files[i].text);
    }
    SumsAddUp(s);
  }

  lemma ReportReconciled(text: string)
    requires MachineBlock(text).Report?
    ensures Reconciled(MachineBlock(text).counts)
  {
  }

  lemma {:induction false} SumsAddUp(s: seq<Shard>)
    requires forall i :: 0 <= i < |s| ==> Reconciled(s[i].counts) && s[i].counts.notChecked == 0
    ensures Sum(s, Total) == Sum(s, Killed) + Sum(s, Survived) + Sum(s, Timeout) + Sum(s, Suspicious)
  {
    if s != [] { SumsAddUp(s[..|s| - 1]); }
  }
}

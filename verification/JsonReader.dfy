/** Reading JSON text, as sections 2 to 7 of RFC 8259 lay it down, into a value that keeps the order of
    members. Python's three texts for floats that are not finite are read as well. */
module JsonReader {
  import opened Text
  import opened Json

  datatype Read<+T> = Stuck | Got(value: T, rest: string)

  predicate IsBlank(c: char) { c == ' ' || c == '\t' || c == '\n' || c == '\r' }

  function Skip(s: string): (r: string)
    ensures |r| <= |s|
  {
    if s != [] && IsBlank(s[0]) then Skip(s[1..]) else s
  }

  // ---------------------------------------------------------------- strings

  predicate IsHex(c: char) { '0' <= c <= '9' || 'a' <= c <= 'f' || 'A' <= c <= 'F' }

  function HexValue(c: char): (n: nat)
    requires IsHex(c)
    ensures n < 16
  {
    if c <= '9' then (c - '0') as int else if c <= 'F' then 10 + (c - 'A') as int else 10 + (c - 'a') as int
  }

  /** The number that four hexadecimal digits denote. */
  function FourHex(s: string): Option<nat> {
    if |s| >= 4 && IsHex(s[0]) && IsHex(s[1]) && IsHex(s[2]) && IsHex(s[3])
    then Some(((HexValue(s[0]) * 16 + HexValue(s[1])) * 16 + HexValue(s[2])) * 16 + HexValue(s[3]))
    else None
  }

  /** A character after a backslash; a character beyond the basic plane takes two escapes. */
  function ReadEscape(s: string): (r: Read<char>)
    ensures r.Got? ==> |r.rest| < |s|
  {
    if s == [] then Stuck
    else if s[0] == '"' || s[0] == '\\' || s[0] == '/' then Got(s[0], s[1..])
    else if s[0] == 'b' then Got(8 as char, s[1..])
    else if s[0] == 'f' then Got(12 as char, s[1..])
    else if s[0] == 'n' then Got(10 as char, s[1..])
    else if s[0] == 'r' then Got(13 as char, s[1..])
    else if s[0] == 't' then Got(9 as char, s[1..])
    else if s[0] != 'u' || FourHex(s[1..]).None? then Stuck
    else
      var n := FourHex(s[1..]).value;
      if n < 0xd800 || (0xe000 <= n < 0x10000) then Got(n as char, s[5..])
      else if n < 0xdc00 && |s| > 6 && s[5] == '\\' && s[6] == 'u' && FourHex(s[7..]).Some? then
        var m := FourHex(s[7..]).value;
        if 0xdc00 <= m < 0xe000 then Got((0x10000 + (n - 0xd800) * 0x400 + (m - 0xdc00)) as char, s[11..]) else Stuck
      else Stuck
  }

  /** The rest of a string, after its opening quotation mark; control characters must be escaped. */
  function ReadString(s: string): (r: Read<string>)
    ensures r.Got? ==> |r.rest| < |s|
    decreases |s|
  {
    if s == [] || s[0] < ' ' then Stuck
    else if s[0] == '"' then Got("", s[1..])
    else
      var c := if s[0] == '\\' then ReadEscape(s[1..]) else Got(s[0], s[1..]);
      if c.Stuck? then Stuck
      else
        var r := ReadString(c.rest);
        if r.Stuck? then Stuck else Got([c.value] + r.value, r.rest)
  }

  // ---------------------------------------------------------------- numbers

  predicate IsNumberChar(c: char) { IsDigit(c) || c == '+' || c == '-' || c == '.' || c == 'e' || c == 'E' }

  /** A sign or none, and digits without a leading zero. */
  predicate IntegerToken(t: string) {
    var u := if t != [] && t[0] == '-' then t[1..] else t;
    u != [] && All(u, IsDigit) && (|u| > 1 ==> u[0] != '0')
  }

  function IntegerValue(t: string): int
    requires IntegerToken(t)
  {
    if t[0] == '-' then 0 - NatOf(t[1..]) else NatOf(t)
  }

  /** No two numbers stand side by side, so a number ends where its characters do. */
  function ReadNumber(s: string): (r: Read<Json>)
    ensures r.Got? ==> |r.rest| < |s|
  {
    var n := Span(s, IsNumberChar);
    var t := s[..n];
    if IntegerToken(t) then Got(Int(IntegerValue(t)), s[n..])
    else if t != [] && FiniteToken(t) then Got(Float(t), s[n..])
    else Stuck
  }

  // ---------------------------------------------------------------- values

  function ReadValue(s: string): (r: Read<Json>)
    ensures r.Got? ==> |r.rest| < |s|
    decreases |s|, 0
  {
    var t := Skip(s);
    if t == [] then Stuck
    else if t[0] == '"' then
      var r := ReadString(t[1..]);
      if r.Stuck? then Stuck else Got(Str(r.value), r.rest)
    else if t[0] == '[' then
      var r := ReadItems(t[1..]);
      if r.Stuck? then Stuck else Got(List(r.value), r.rest)
    else if t[0] == '{' then
      var r := ReadMembers(t[1..]);
      if r.Stuck? then Stuck else Got(Object(r.value), r.rest)
    else ReadWord(t)
  }

  function ReadWord(t: string): (r: Read<Json>)
    ensures r.Got? ==> |r.rest| < |t|
  {
    if StartsWith(t, "null") then Got(Null, t[4..])
    else if StartsWith(t, "true") then Got(Bool(true), t[4..])
    else if StartsWith(t, "false") then Got(Bool(false), t[5..])
    else if StartsWith(t, "NaN") then Got(Float("NaN"), t[3..])
    else if StartsWith(t, "Infinity") then Got(Float("Infinity"), t[8..])
    else if StartsWith(t, "-Infinity") then Got(Float("-Infinity"), t[9..])
    else ReadNumber(t)
  }

  /** The rest of an array, after its bracket: nothing, or items between commas. */
  function ReadItems(s: string): (r: Read<seq<Json>>)
    ensures r.Got? ==> |r.rest| < |s|
    decreases |s|, 2
  {
    var t := Skip(s);
    if t != [] && t[0] == ']' then Got([], t[1..]) else ReadMoreItems(s)
  }

  function ReadMoreItems(s: string): (r: Read<seq<Json>>)
    ensures r.Got? ==> |r.rest| < |s|
    decreases |s|, 1
  {
    var first := ReadValue(s);
    if first.Stuck? then Stuck
    else
      var t := Skip(first.rest);
      if t == [] then Stuck
      else if t[0] == ']' then Got([first.value], t[1..])
      else if t[0] != ',' then Stuck
      else
        var others := ReadMoreItems(t[1..]);
        if others.Stuck? then Stuck else Got([first.value] + others.value, others.rest)
  }

  /** The rest of an object, after its brace. */
  function ReadMembers(s: string): (r: Read<seq<Member>>)
    ensures r.Got? ==> |r.rest| < |s|
    decreases |s|, 3
  {
    var t := Skip(s);
    if t != [] && t[0] == '}' then Got([], t[1..]) else ReadMoreMembers(s)
  }

  function ReadMember(s: string): (r: Read<Member>)
    ensures r.Got? ==> |r.rest| < |s|
    decreases |s|, 1
  {
    var t := Skip(s);
    if t == [] || t[0] != '"' then Stuck
    else
      var key := ReadString(t[1..]);
      if key.Stuck? then Stuck
      else
        var u := Skip(key.rest);
        if u == [] || u[0] != ':' then Stuck
        else
          var value := ReadValue(u[1..]);
          if value.Stuck? then Stuck else Got(Member(key.value, value.value), value.rest)
  }

  function ReadMoreMembers(s: string): (r: Read<seq<Member>>)
    ensures r.Got? ==> |r.rest| < |s|
    decreases |s|, 2
  {
    var first := ReadMember(s);
    if first.Stuck? then Stuck
    else
      var t := Skip(first.rest);
      if t == [] then Stuck
      else if t[0] == '}' then Got([first.value], t[1..])
      else if t[0] != ',' then Stuck
      else
        var others := ReadMoreMembers(t[1..]);
        if others.Stuck? then Stuck else Got([first.value] + others.value, others.rest)
  }

  /** A whole text. */
  function ReadText(s: string): Option<Json> {
    var r := ReadValue(s);
    if r.Got? && Skip(r.rest) == [] then Some(r.value) else None
  }
}

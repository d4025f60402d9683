/** When two configurations have the same manifest text: no assumption on what they hold. */
module ManifestIdentity {
  import opened Text
  import opened Sorting
  import opened Toml
  import opened Manifest
  import opened ManifestRoundTrip

  // ---------------------------------------------------------------- the text determines the sections

  /** The line of a port that is a boolean. */
  predicate FlagLine(line: Line) {
    || line == Pair(Entry("preferred_http_port", Float("True")))
    || line == Pair(Entry("preferred_http_port", Float("False")))
  }

  predicate GoodLine(line: Line) { PrintableLine(line) || FlagLine(line) }

  predicate GoodEntry(e: Entry) { GoodLine(Pair(e)) }

  predicate GoodSection(s: Section) { BarePath(s.path) && forall i :: 0 <= i < |s.entries| ==> GoodEntry(s.entries[i]) }

  predicate GoodSections(ss: seq<Section>) { forall i :: 0 <= i < |ss| ==> GoodSection(ss[i]) }

  lemma TokenLine(key: string, word: string)
    ensures RenderLine(Pair(Entry(key, Float(word)))) == key + (" = " + word)
    ensures |RenderLine(Pair(Entry(key, Float(word))))| == |key| + 3 + |word|
  {
    assert word + "" == word;
  }

  lemma TokenLineClean(key: string, word: string)
    requires BareKey(key) && CleanLine(word)
    ensures CleanLine(key + (" = " + word))
  {
    CleanPlus(" = ", word);
    assert forall i :: 0 <= i < |key| ==> KeyChar(key[i]);
    CleanPlus(key, " = " + word);
  }

  lemma FlagLineText(line: Line)
    requires FlagLine(line)
    ensures ParseLine(RenderLine(line)) == None && CleanLine(RenderLine(line))
  {
    var key, word := line.entry.key, line.entry.value.token;
    BareNames3();
    WordUnreadable(word);
    TokenLine(key, word);
    TokenLineClean(key, word);
    WordEntryUnreadable(key, word);
  }

  lemma GoodLineClean(line: Line)
    requires GoodLine(line)
    ensures CleanLine(RenderLine(line))
  {
    if FlagLine(line) { FlagLineText(line); } else { LineClean(line); }
  }

  /** Different lines have different texts. */
  lemma LineInjective(a: Line, b: Line)
    requires GoodLine(a) && GoodLine(b) && RenderLine(a) == RenderLine(b)
    ensures a == b
  {
    if FlagLine(a) { FlagLineText(a); } else { LineReadable(a); }
    if FlagLine(b) { FlagLineText(b); } else { LineReadable(b); }
    if FlagLine(a) && FlagLine(b) {
      TokenLine(a.entry.key, a.entry.value.token);
      TokenLine(b.entry.key, b.entry.value.token);
      assert |"True"| == 4 && |"False"| == 5;
    }
  }

  lemma {:induction false} GoodLines(ss: seq<Section>)
    requires GoodSections(ss)
    ensures forall i :: 0 <= i < |LinesOf(ss)| ==> GoodLine(LinesOf(ss)[i])
  {
    if ss != [] {
      GoodLines(ss[1..]);
      assert GoodSection(ss[0]);
      var es := ss[0].entries;
      forall i | 0 <= i < |es| ensures GoodLine(Pairs(es)[i]) { assert GoodEntry(es[i]); }
    }
  }

  lemma LinesFromText(a: seq<Line>, b: seq<Line>)
    requires forall i :: 0 <= i < |a| ==> GoodLine(a[i])
    requires forall i :: 0 <= i < |b| ==> GoodLine(b[i])
    requires Concat(RenderLines(a)) == Concat(RenderLines(b))
    ensures a == b
  {
    forall i | 0 <= i < |a| ensures CleanLine(RenderLines(a)[i]) { GoodLineClean(a[i]); }
    forall i | 0 <= i < |b| ensures CleanLine(RenderLines(b)[i]) { GoodLineClean(b[i]); }
    SplitConcat(RenderLines(a));
    SplitConcat(RenderLines(b));
    SameButLast(RenderLines(a), RenderLines(b), "");
    forall i | 0 <= i < |a| ensures a[i] == b[i] {
      assert RenderLines(a)[i] == RenderLines(b)[i];
      LineInjective(a[i], b[i]);
    }
  }

  lemma SameButLast(a: seq<string>, b: seq<string>, x: string)
    requires a + [x] == b + [x]
    ensures a == b
  {
    assert (a + [x])[..|a|] == a && (b + [x])[..|b|] == b;
  }

  /** The printed text of sections determines them. */
  lemma PrintInjective(a: seq<Section>, b: seq<Section>)
    requires GoodSections(a) && GoodSections(b) && Print(a) == Print(b)
    ensures a == b
  {
    GoodLines(a);
    GoodLines(b);
    LinesFromText(LinesOf(a), LinesOf(b));
    var root := Section([], []);
    GroupLines(a, root);
    GroupLines(b, root);
    assert ([root] + a)[1..] == a && ([root] + b)[1..] == b;
  }

  lemma PrintableIsGood(s: Section)
    requires PrintableSection(s)
    ensures GoodSection(s)
  {
    forall i | 0 <= i < |s.entries| ensures GoodEntry(s.entries[i]) { assert PrintableEntry(s.entries[i]); }
  }

  lemma ProjectGood(c: Config)
    requires HoursWritable(c)
    ensures GoodSection(Section(["project"], Entries(ProjectFields(c))))
  {
    var fs := ProjectFields(c);
    BareNames5();
    ProjectNamesDistinct(c);
    PresentFacts(fs, |fs|);
    var t := Entries(fs);
    forall i | 0 <= i < |t| ensures GoodEntry(t[i]) {
      var k :| 0 <= k < |fs| && Field(t[i].key, Some(t[i].value)) == fs[k];
      ProjectFieldGood(c, k, t[i]);
    }
  }

  lemma ProjectFieldGood(c: Config, k: nat, e: Entry)
    requires HoursWritable(c) && k < |ProjectFields(c)| && ProjectFields(c)[k] == Field(e.key, Some(e.value))
    ensures GoodEntry(e)
  {
    if k != 10 || PortWritable(c) { ProjectPrintable(c, k); }
  }

  lemma ConfigGood(h: Host, c: Config)
    requires HoursWritable(c) && RemotesMade(h, c.remoteInstances)
    ensures GoodSections(Sections(c))
  {
    ProjectGood(c);
    OthersPrintable(h, c);
    var others := OtherSections(c);
    forall i | 0 <= i < |others| ensures GoodSection(others[i]) { PrintableIsGood(others[i]); }
  }

  /** Two configurations are written as the same text exactly when they are written as the same sections. */
  lemma SameText(h: Host, c: Config, d: Config)
    requires HoursWritable(c) && RemotesMade(h, c.remoteInstances) && HoursWritable(d)
    requires RemotesMade(h, d.remoteInstances)
    ensures Print(Sections(c)) == Print(Sections(d)) <==> Sections(c) == Sections(d)
  {
    if Print(Sections(c)) == Print(Sections(d)) {
      ConfigGood(h, c);
      ConfigGood(h, d);
      PrintInjective(Sections(c), Sections(d));
    }
  }

  // ---------------------------------------------------------------- the sections of the sources

  /** A source as it is written: with controls made visible. */
  function Wash(r: Remote): Remote {
    Remote(r.name, Sanitize(r.baseUrl), SanIfAny(r.database), Sanitize(r.gitBranch))
  }

  function WashAll(rs: seq<Remote>): (ws: seq<Remote>)
    ensures |ws| == |rs| && forall i :: 0 <= i < |rs| ==> ws[i] == Wash(rs[i])
  {
    seq(|rs|, i requires 0 <= i < |rs| => Wash(rs[i]))
  }

  lemma WashCons(r: Remote, rs: seq<Remote>)
    ensures WashAll([r] + rs) == [Wash(r)] + WashAll(rs)
  {
  }

  lemma WashTail(rs: seq<Remote>)
    requires rs != []
    ensures WashAll(rs)[0] == Wash(rs[0]) && WashAll(rs)[1..] == WashAll(rs[1..])
  {
  }

  lemma SectionIsWashed(r: Remote, s: Remote)
    ensures RemoteSection(r) == RemoteSection(s) <==> Wash(r) == Wash(s)
  {
    if RemoteSection(r) == RemoteSection(s) {
      assert RemoteSection(r).path[1] == r.name && RemoteSection(s).path[1] == s.name;
      SourceReread(r.baseUrl, r.database, Some(r.gitBranch));
      SourceReread(s.baseUrl, s.database, Some(s.gitBranch));
    }
  }

  lemma SectionsAreWashed(a: seq<Remote>, b: seq<Remote>)
    ensures RemoteSections(a) == RemoteSections(b) <==> WashAll(a) == WashAll(b)
  {
    forall i | 0 <= i < |a| && i < |b|
      ensures RemoteSections(a)[i] == RemoteSections(b)[i] <==> WashAll(a)[i] == WashAll(b)[i]
    {
      SectionIsWashed(a[i], b[i]);
    }
    assert |RemoteSections(a)| == |a| && |RemoteSections(b)| == |b|;
    if RemoteSections(a) == RemoteSections(b) {
      assert forall i :: 0 <= i < |a| ==> RemoteSections(a)[i] == RemoteSections(b)[i];
    }
  }

  lemma {:induction false} WashInsert(x: Remote, s: seq<Remote>)
    ensures WashAll(Insert(x, s, NameOf)) == Insert(Wash(x), WashAll(s), NameOf)
  {
    if s == [] || AtMost(NameOf(x), NameOf(s[0])) {
      WashCons(x, s);
    } else {
      WashInsert(x, s[1..]);
      WashTail(s);
      WashCons(s[0], Insert(x, s[1..], NameOf));
    }
  }

  lemma {:induction false} WashSort(s: seq<Remote>)
    ensures WashAll(Sort(s, NameOf)) == Sort(WashAll(s), NameOf)
  {
    if s != [] {
      WashSort(s[1..]);
      WashInsert(s[0], Sort(s[1..], NameOf));
      WashTail(s);
    }
  }

  lemma WashDistinct(s: seq<Remote>)
    requires DistinctKeys(s, NameOf)
    ensures DistinctKeys(WashAll(s), NameOf)
  {
    forall i, j | 0 <= i < j < |s| ensures NameOf(WashAll(s)[i]) != NameOf(WashAll(s)[j]) {
      assert NameOf(s[i]) != NameOf(s[j]);
    }
  }

  // ---------------------------------------------------------------- the two parts of a document

  function TopSections(c: Config): seq<Section> {
    [Section(["project"], Entries(ProjectFields(c)))] + PostgresSections(c) + TestSections(c)
  }

  lemma TopIsShort(c: Config)
    ensures forall i :: 0 <= i < |TopSections(c)| ==> |TopSections(c)[i].path| == 1
    ensures Sections(c) == TopSections(c) + RemoteSections(Sort(c.remoteInstances, NameOf))
  {
  }

  /** How many sections at the front have a path of one key. */
  function Shorts(s: seq<Section>): nat {
    if s == [] || |s[0].path| != 1 then 0 else 1 + Shorts(s[1..])
  }

  lemma {:induction false} ShortsFirst(a: seq<Section>, x: seq<Section>)
    requires forall i :: 0 <= i < |a| ==> |a[i].path| == 1
    requires x == [] || |x[0].path| != 1
    ensures Shorts(a + x) == |a|
  {
    if a == [] {
      assert a + x == x;
    } else {
      assert (a + x)[1..] == a[1..] + x;
      ShortsFirst(a[1..], x);
    }
  }

  lemma PartsByLength(a: seq<Section>, x: seq<Section>, b: seq<Section>, y: seq<Section>)
    requires forall i :: 0 <= i < |a| ==> |a[i].path| == 1
    requires forall i :: 0 <= i < |b| ==> |b[i].path| == 1
    requires (x == [] || |x[0].path| != 1) && (y == [] || |y[0].path| != 1)
    ensures a + x == b + y <==> a == b && x == y
  {
    ShortsFirst(a, x);
    ShortsFirst(b, y);
    if a + x == b + y {
      assert (a + x)[..|a|] == a && (a + x)[|a|..] == x && (b + y)[..|b|] == b && (b + y)[|b|..] == y;
    }
  }

  /** Two documents are the same exactly when their fixed sections and their washed, sorted sources are. */
  lemma SectionsByParts(c: Config, d: Config)
    ensures Sections(c) == Sections(d) <==>
      && TopSections(c) == TopSections(d)
      && Sort(WashAll(c.remoteInstances), NameOf) == Sort(WashAll(d.remoteInstances), NameOf)
  {
    var a, b := Sort(c.remoteInstances, NameOf), Sort(d.remoteInstances, NameOf);
    TopIsShort(c);
    TopIsShort(d);
    PartsByLength(TopSections(c), RemoteSections(a), TopSections(d), RemoteSections(b));
    SectionsAreWashed(a, b);
    WashSort(c.remoteInstances);
    WashSort(d.remoteInstances);
  }
}

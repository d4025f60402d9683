/** Loading a written manifest: what comes back, and exactly when it is the configuration written. */
module ManifestRoundTrip {
  import opened Text
  import opened Sorting
  import opened Toml
  import opened Manifest

  // ---------------------------------------------------------------- lookups in written tables

  predicate DistinctNames(fs: seq<Field>) { forall i, j :: 0 <= i < j < |fs| ==> fs[i].name != fs[j].name }

  lemma {:induction false} GetSnoc(t: Table, e: Entry, key: string)
    ensures Get(t + [e], key) == if Get(t, key).Some? then Get(t, key) else if e.key == key then Some(e.value) else None
  {
    if t == [] {
      assert t + [e] == [e];
      assert [e][1..] == [];
    } else {
      assert (t + [e])[1..] == t[1..] + [e];
      GetSnoc(t[1..], e, key);
    }
  }

  lemma {:induction false} PresentLacks(fs: seq<Field>, n: nat, key: string)
    requires n <= |fs| && forall k :: 0 <= k < n ==> fs[k].name != key
    ensures Get(Present(fs, n), key) == None
  {
    if n > 0 {
      PresentLacks(fs, n - 1, key);
      PresentStep(fs, n, key);
    }
  }

  lemma PresentStep(fs: seq<Field>, n: nat, key: string)
    requires 0 < n <= |fs|
    ensures var before := Get(Present(fs, n - 1), key);
      Get(Present(fs, n), key) == if before.Some? then before else if fs[n - 1].name == key then fs[n - 1].value
        else None
  {
    var f := fs[n - 1];
    if f.value.Some? {
      GetSnoc(Present(fs, n - 1), Entry(f.name, f.value.value), key);
    } else {
      assert Present(fs, n) == Present(fs, n - 1);
    }
  }

  lemma PresentLast(fs: seq<Field>, n: nat)
    requires DistinctNames(fs) && 0 < n <= |fs|
    ensures Get(Present(fs, n), fs[n - 1].name) == fs[n - 1].value
  {
    PresentLacks(fs, n - 1, fs[n - 1].name);
    PresentStep(fs, n, fs[n - 1].name);
  }

  /** A written field is found under its name with the value it was written with. */
  lemma {:induction false} PresentGet(fs: seq<Field>, n: nat, k: nat)
    requires DistinctNames(fs) && k < n <= |fs|
    ensures Get(Present(fs, n), fs[k].name) == fs[k].value
  {
    if k == n - 1 {
      PresentLast(fs, n);
    } else {
      PresentGet(fs, n - 1, k);
      PresentStep(fs, n, fs[k].name);
      assert fs[n - 1].name != fs[k].name;
    }
  }

  lemma {:induction false} PresentFacts(fs: seq<Field>, n: nat)
    requires DistinctNames(fs) && n <= |fs|
    ensures Distinct(Present(fs, n))
    ensures forall i :: 0 <= i < |Present(fs, n)| ==>
      exists k :: 0 <= k < n && Field(Present(fs, n)[i].key, Some(Present(fs, n)[i].value)) == fs[k]
  {
    if n > 0 {
      PresentFacts(fs, n - 1);
      var t := Present(fs, n);
      forall i | 0 <= i < |t| ensures exists k :: 0 <= k < n && Field(t[i].key, Some(t[i].value)) == fs[k] {
        if i < |Present(fs, n - 1)| {
          var k :| 0 <= k < n - 1 && Field(t[i].key, Some(t[i].value)) == fs[k];
          assert Field(t[i].key, Some(t[i].value)) == fs[k];
        } else {
          assert Field(t[i].key, Some(t[i].value)) == fs[n - 1];
        }
      }
    }
  }

  predicate PrintableField(f: Field) { BareKey(f.name) && (f.value.Some? ==> Printable(f.value.value)) }

  lemma EntriesPrintable(fs: seq<Field>)
    requires DistinctNames(fs) && forall i :: 0 <= i < |fs| ==> PrintableField(fs[i])
    ensures forall i :: 0 <= i < |Entries(fs)| ==> PrintableEntry(Entries(fs)[i])
  {
    PresentFacts(fs, |fs|);
  }

  lemma QuotedPrintable(s: string)
    ensures Printable(Quoted(s))
  {
    SanitizeFacts(s);
  }

  lemma QuotedListPrintable(ss: seq<string>)
    ensures QuotedList(ss).Some? ==> Printable(QuotedList(ss).value)
  {
    forall i | 0 <= i < |ss| ensures Printable(Quoted(ss[i])) { QuotedPrintable(ss[i]); }
  }

  lemma ProjectNamesDistinct(c: Config)
    ensures DistinctNames(ProjectFields(c))
  {
  }

  lemma BareNames1()
    ensures BareKey("odoo_bin") && BareKey("python") && BareKey("source_config") && BareKey("default_source_database")
  {
  }

  lemma BareNames2()
    ensures BareKey("managed_filestore") && BareKey("addon_repositories") && BareKey("addon_roots")
    ensures BareKey("server_wide_modules")
  {
  }

  lemma BareNames3()
    ensures BareKey("default_base_ref") && BareKey("refresh_after_hours") && BareKey("preferred_http_port")
    ensures BareKey("ticket_link_enabled")
  {
  }

  lemma BareNames4()
    ensures BareKey("ticket_base_url") && BareKey("requirements") && BareKey("default_run_args")
    ensures BareKey("runtime_cwd")
  {
  }

  lemma BareNames5()
    ensures BareKey("project") && BareKey("postgres") && BareKey("test_instance") && BareKey("remote_instances")
  {
  }

  lemma BareNames6()
    ensures BareKey("mode") && BareKey("image") && BareKey("port") && BareKey("user")
    ensures BareKey("base_url") && BareKey("database") && BareKey("git_branch")
  {
  }

  // ---------------------------------------------------------------- the written document

  /** The laws of the library functions that the round trip rests on. */
  ghost predicate Lawful(h: Host) {
    && (forall u, b :: h.url(u, b).Some? ==> h.url(h.url(u, b).value, b) == h.url(u, b) && NonBlank(h.url(u, b).value))
    && (forall u, b :: h.url(u, b).Some? && ControlFree(u) ==> ControlFree(h.url(u, b).value))
    && (forall p :: h.path(h.path(p)) == h.path(p))
    && (forall p :: ControlFree(p) ==> ControlFree(h.path(p)))
    && (forall p :: h.resolve(h.resolve(p)) == h.resolve(p))
    && (forall n :: All(n, NameChar) ==> h.lower(n) == n)
    && (forall v :: h.toFloat(v).Some? && h.positive(h.toFloat(v).value) ==> IsFloat(h, h.toFloat(v).value))
  }

  /** A finite float: its text is a TOML float, which is read as the same float. */
  predicate IsFloat(h: Host, t: string) { FloatToken(t) && h.toFloat(Float(t)) == Some(t) }

  predicate IsPathIfAny(h: Host, p: Option<string>) { p.Some? ==> h.path(p.value) == p.value }

  predicate ArePaths(h: Host, ps: seq<string>) { forall i :: 0 <= i < |ps| ==> h.path(ps[i]) == ps[i] }

  /** Every part is a value its own constructor has made. */
  predicate WellTyped(h: Host, c: Config) {
    && IsPathIfAny(h, c.odooBin) && IsPathIfAny(h, c.sourceConfig) && IsPathIfAny(h, c.managedFilestore)
    && IsPathIfAny(h, c.runtimeCwd)
    && (c.python.Some? && c.python.value.AtPath? ==> h.path(c.python.value.text) == c.python.value.text)
    && ArePaths(h, c.addonRepositories) && ArePaths(h, c.addonRoots)
    && (c.refreshAfterHours.Some? && h.positive(c.refreshAfterHours.value) ==> IsFloat(h, c.refreshAfterHours.value))
    && (c.testInstance.Some? ==> NewTestInstance(h, c.testInstance.value).Some?)
    && RemotesMade(h, c.remoteInstances)
  }

  /** A configuration object: well-typed parts, and the constructor has nothing to change. */
  predicate Made(h: Host, c: Config) { WellTyped(h, c) && Construct(h, c) == Ok(c) }

  /** Only the port can hold something that has no TOML text. */
  predicate PortWritable(c: Config) { c.preferredHttpPort.Some? ==> c.preferredHttpPort.value.Number? }

  predicate HoursWritable(c: Config) { c.refreshAfterHours.Some? ==> FloatToken(c.refreshAfterHours.value) }

  predicate HoursReadable(h: Host, c: Config) {
    c.refreshAfterHours.Some? ==> h.toFloat(Float(c.refreshAfterHours.value)) == c.refreshAfterHours
  }

  lemma MadeHours(h: Host, c: Config)
    requires Made(h, c)
    ensures HoursWritable(c) && HoursReadable(h, c) && Acceptable(h, c)
  {
  }

  lemma QuotedIfAnyPrintable(s: Option<string>)
    ensures QuotedIfAny(s).Some? ==> Printable(QuotedIfAny(s).value)
  {
    if s.Some? { QuotedPrintable(s.value); }
  }

  lemma ProjectPrintable(c: Config, i: nat)
    requires HoursWritable(c) && i < |ProjectFields(c)| && (i == 10 ==> PortWritable(c))
    ensures PrintableField(ProjectFields(c)[i])
  {
    if i < 4 {
      BareNames1();
      QuotedIfAnyPrintable(c.odooBin);
      if c.python.Some? { QuotedPrintable(c.python.value.text); }
      QuotedIfAnyPrintable(c.sourceConfig);
      QuotedIfAnyPrintable(c.defaultSourceDatabase);
    } else if i < 8 {
      BareNames2();
      QuotedIfAnyPrintable(c.managedFilestore);
      QuotedListPrintable(c.addonRepositories);
      QuotedListPrintable(c.addonRoots);
      QuotedListPrintable(c.serverWideModules);
    } else if i < 12 {
      BareNames3();
      QuotedIfAnyPrintable(c.defaultBaseRef);
    } else {
      BareNames4();
      QuotedPrintable(if c.ticketBaseUrl.None? then "" else c.ticketBaseUrl.value);
      QuotedListPrintable(c.requirements);
      QuotedListPrintable(c.defaultRunArgs);
      QuotedIfAnyPrintable(c.runtimeCwd);
    }
  }

  lemma SourcePrintable(path: seq<string>, url: string, database: Option<string>, branch: Option<string>)
    requires BarePath(path)
    ensures PrintableSection(Section(path, Entries(SourceFields(url, database, branch))))
    ensures Distinct(Entries(SourceFields(url, database, branch)))
  {
    var fs := SourceFields(url, database, branch);
    forall s { QuotedPrintable(s); }
    assert forall i :: 0 <= i < |fs| ==> PrintableField(fs[i]) by { BareNames6(); }
    EntriesPrintable(fs);
    PresentFacts(fs, |fs|);
  }

  lemma ModePrintable()
    ensures Printable(Str("external")) && Printable(Str("compose"))
  {
  }

  lemma PostgresPrintable(p: Postgres)
    ensures PrintableSection(Section(["postgres"], Entries(PostgresFields(p))))
    ensures Distinct(Entries(PostgresFields(p)))
  {
    var fs := PostgresFields(p);
    forall s { QuotedPrintable(s); }
    ModePrintable();
    assert forall i :: 0 <= i < |fs| ==> PrintableField(fs[i]) by { BareNames6(); }
    EntriesPrintable(fs);
    PresentFacts(fs, |fs|);
    BareNames5();
  }

  lemma NameIsBare(n: string)
    requires RemoteName(n)
    ensures BareKey(n)
  {
  }

  function MaybeTable(key: string, p: seq<Section>): Table { if p == [] then [] else [Entry(key, Tab(p[0].entries))] }

  function TopTables(c: Config): Table {
    [Entry("project", Tab(Entries(ProjectFields(c))))]
    + MaybeTable("postgres", PostgresSections(c)) + MaybeTable("test_instance", TestSections(c))
  }

  function RemoteTable(rs: seq<Remote>): Table {
    seq(|rs|, i requires 0 <= i < |rs| => Entry(rs[i].name, Tab(RemoteEntries(rs[i]))))
  }

  /** The table a written manifest denotes. */
  function Document(c: Config): Table {
    TopTables(c)
    + (if c.remoteInstances == [] then []
      else [Entry("remote_instances", Tab(RemoteTable(Sort(c.remoteInstances, NameOf))))])
  }

  predicate Fresh(t: Table, key: string) { forall i :: 0 <= i < |t| ==> t[i].key != key }

  lemma DefineNew(t: Table, key: string, es: Table)
    requires Fresh(t, key) && Distinct(es)
    ensures Define(t, [key], es) == Some(t + [Entry(key, Tab(es))])
  {
    assert [key][1..] == [];
    assert [] + es == es;
    assert IndexOf(t, key) == |t|;
  }

  lemma {:induction false} DefineAllConcat(t: Table, a: seq<Section>, b: seq<Section>)
    ensures DefineAll(t, a + b) == (var u := DefineAll(t, a); if u.None? then None else DefineAll(u.value, b))
    decreases |a|
  {
    if a == [] {
      assert a + b == b;
    } else {
      assert (a + b)[1..] == a[1..] + b;
      var u := Define(t, a[0].path, a[0].entries);
      if u.Some? { DefineAllConcat(u.value, a[1..], b); }
    }
  }

  lemma DefineOne(t: Table, key: string, es: Table)
    requires Fresh(t, key) && Distinct(es)
    ensures DefineAll(t, [Section([key], es)]) == Some(t + [Entry(key, Tab(es))])
  {
    DefineNew(t, key, es);
    assert [Section([key], es)][1..] == [];
  }

  lemma DefineRemote(t: Table, rs: seq<Remote>, k: nat)
    requires Fresh(t, "remote_instances") && DistinctKeys(rs, NameOf) && k < |rs| && Distinct(RemoteEntries(rs[k]))
    requires 0 < k
    ensures Define(t + [Entry("remote_instances", Tab(RemoteTable(rs[..k])))], ["remote_instances", rs[k].name],
      RemoteEntries(rs[k]))
         == Some(t + [Entry("remote_instances", Tab(RemoteTable(rs[..k + 1])))])
  {
    var sub := RemoteTable(rs[..k]);
    var u := t + [Entry("remote_instances", Tab(sub))];
    var path := ["remote_instances", rs[k].name];
    assert path[1..] == [rs[k].name];
    assert u[|t|].key == "remote_instances" && forall i :: 0 <= i < |t| ==> u[i].key == t[i].key;
    assert IndexOf(u, "remote_instances") == |t|;
    forall i | 0 <= i < |sub| ensures sub[i].key != rs[k].name { assert NameOf(rs[i]) != NameOf(rs[k]); }
    DefineNew(sub, rs[k].name, RemoteEntries(rs[k]));
    assert sub + [Entry(rs[k].name, Tab(RemoteEntries(rs[k])))] == RemoteTable(rs[..k + 1]);
    var last := Entry("remote_instances", Tab(RemoteTable(rs[..k + 1])));
    assert u[|t| := last] == t + [last];
  }

  lemma FirstRemote(t: Table, r: Remote)
    requires Fresh(t, "remote_instances") && Distinct(RemoteEntries(r))
    ensures Define(t, ["remote_instances", r.name], RemoteEntries(r))
         == Some(t + [Entry("remote_instances", Tab(RemoteTable([r])))])
  {
    var path := ["remote_instances", r.name];
    assert path[1..] == [r.name];
    assert IndexOf(t, "remote_instances") == |t|;
    DefineNew([], r.name, RemoteEntries(r));
    assert [] + [Entry(r.name, Tab(RemoteEntries(r)))] == RemoteTable([r]);
  }

  lemma RemoteDistinct(r: Remote)
    ensures Distinct(RemoteEntries(r))
  {
    assert BarePath(["k"]);
    SourcePrintable(["k"], r.baseUrl, r.database, Some(r.gitBranch));
  }

  lemma {:induction false} DefineRemotes(t: Table, rs: seq<Remote>, k: nat)
    requires Fresh(t, "remote_instances") && DistinctKeys(rs, NameOf) && 0 < k <= |rs|
    ensures DefineAll(t + [Entry("remote_instances", Tab(RemoteTable(rs[..k])))], RemoteSections(rs)[k..])
         == Some(t + [Entry("remote_instances", Tab(RemoteTable(rs)))])
    decreases |rs| - k
  {
    if k == |rs| {
      assert rs[..k] == rs;
    } else {
      RemoteDistinct(rs[k]);
      DefineRemote(t, rs, k);
      DefineRemotes(t, rs, k + 1);
      assert RemoteSections(rs)[k..][1..] == RemoteSections(rs)[k + 1..];
    }
  }

  lemma DefineAllRemotes(t: Table, rs: seq<Remote>)
    requires Fresh(t, "remote_instances") && DistinctKeys(rs, NameOf)
    ensures DefineAll(t, RemoteSections(rs))
         == Some(t + if rs == [] then [] else [Entry("remote_instances", Tab(RemoteTable(rs)))])
  {
    if rs == [] {
      assert t + [] == t;
    } else {
      RemoteDistinct(rs[0]);
      FirstRemote(t, rs[0]);
      DefineRemotes(t, rs, 1);
      assert rs[..1] == [rs[0]];
    }
  }

  lemma ProjectDistinct(c: Config)
    ensures Distinct(Entries(ProjectFields(c)))
  {
    ProjectNamesDistinct(c);
    PresentFacts(ProjectFields(c), |ProjectFields(c)|);
  }

  predicate MaybeSection(key: string, p: seq<Section>) {
    |p| <= 1 && (p != [] ==> p[0].path == [key] && Distinct(p[0].entries))
  }

  lemma DefineMaybe(t: Table, key: string, p: seq<Section>)
    requires Fresh(t, key) && MaybeSection(key, p)
    ensures DefineAll(t, p) == Some(t + MaybeTable(key, p))
  {
    if p != [] {
      DefineOne(t, key, p[0].entries);
      assert p == [Section([key], p[0].entries)];
    } else {
      assert t + MaybeTable(key, p) == t;
    }
  }

  lemma DefineThree(es: Table, p: seq<Section>, q: seq<Section>)
    requires Distinct(es) && MaybeSection("postgres", p) && MaybeSection("test_instance", q)
    ensures DefineAll([], [Section(["project"], es)] + p + q)
         == Some([Entry("project", Tab(es))] + MaybeTable("postgres", p) + MaybeTable("test_instance", q))
  {
    var a, t := [Section(["project"], es)], [Entry("project", Tab(es))];
    DefineOne([], "project", es);
    assert [] + t == t;
    DefineMaybe(t, "postgres", p);
    DefineMaybe(t + MaybeTable("postgres", p), "test_instance", q);
    DefineAllConcat([], a, p);
    DefineAllConcat([], a + p, q);
  }

  lemma DefineTop(c: Config)
    ensures DefineAll([], [Section(["project"], Entries(ProjectFields(c)))] + PostgresSections(c) + TestSections(c))
         == Some(TopTables(c))
    ensures Fresh(TopTables(c), "remote_instances")
  {
    ProjectDistinct(c);
    if PostgresSections(c) != [] { PostgresPrintable(c.postgres.value); }
    if c.testInstance.Some? {
      var t := c.testInstance.value;
      assert BarePath(["k"]);
      SourcePrintable(["k"], t.baseUrl, t.database, t.gitBranch);
    }
    DefineThree(Entries(ProjectFields(c)), PostgresSections(c), TestSections(c));
  }

  lemma SortedDistinct(rs: seq<Remote>)
    requires DistinctKeys(rs, NameOf)
    ensures DistinctKeys(Sort(rs, NameOf), NameOf) && Sorted(Sort(rs, NameOf), NameOf)
    ensures rs == [] <==> Sort(rs, NameOf) == []
  {
    SortFacts(rs, NameOf);
    DistinctPermutation(rs, Sort(rs, NameOf), NameOf);
  }

  lemma DefineNothing()
    ensures Define([], [], []) == Some([])
  {
    var none: Table := [];
    assert none + none == none;
  }

  lemma SectionsDefined(c: Config)
    requires DistinctKeys(c.remoteInstances, NameOf)
    ensures DefineAll([], [Section([], [])] + Sections(c)) == Some(Document(c))
  {
    var top := [Section(["project"], Entries(ProjectFields(c)))] + PostgresSections(c) + TestSections(c);
    var rs := Sort(c.remoteInstances, NameOf);
    SortedDistinct(c.remoteInstances);
    DefineTop(c);
    DefineAllRemotes(TopTables(c), rs);
    DefineAllConcat([], top, RemoteSections(rs));
    var all := [Section([], [])] + Sections(c);
    DefineNothing();
    assert all[1..] == Sections(c);
  }

  lemma TopDistinct(c: Config)
    ensures var top := [Section([], [])] + [Section(["project"], Entries(ProjectFields(c)))] + PostgresSections(c)
      + TestSections(c);
      DistinctPaths(top) && forall i :: 0 <= i < |top| ==> |top[i].path| < 2
  {
    var p, q := PostgresSections(c), TestSections(c);
    TopDistinctWith(Entries(ProjectFields(c)), p, q);
  }

  lemma TopDistinctWith(es: Table, p: seq<Section>, q: seq<Section>)
    requires |p| <= 1 && (p != [] ==> p[0].path == ["postgres"]) && |q| <= 1
    requires q != [] ==> q[0].path == ["test_instance"]
    ensures var top := [Section([], [])] + [Section(["project"], es)] + p + q;
      DistinctPaths(top) && forall i :: 0 <= i < |top| ==> |top[i].path| < 2
  {
    assert "project" != "postgres" && "project" != "test_instance" && "postgres" != "test_instance";
    assert ["project"][0] == "project" && ["postgres"][0] == "postgres" && ["test_instance"][0] == "test_instance";
  }

  lemma RemotePathsDistinct(rs: seq<Remote>)
    requires DistinctKeys(rs, NameOf)
    ensures DistinctPaths(RemoteSections(rs))
  {
    var ss := RemoteSections(rs);
    forall i, j | 0 <= i < j < |ss| ensures ss[i].path != ss[j].path {
      assert NameOf(rs[i]) != NameOf(rs[j]);
      assert ss[i].path[1] == rs[i].name && ss[j].path[1] == rs[j].name;
    }
  }

  lemma DisjointPaths(top: seq<Section>, ss: seq<Section>)
    requires DistinctPaths(top) && DistinctPaths(ss)
    requires forall i :: 0 <= i < |top| ==> |top[i].path| < 2
    requires forall i :: 0 <= i < |ss| ==> |ss[i].path| == 2
    ensures DistinctPaths(top + ss)
  {
  }

  lemma SectionsDistinct(c: Config)
    requires DistinctKeys(c.remoteInstances, NameOf)
    ensures DistinctPaths([Section([], [])] + Sections(c))
  {
    SortedDistinct(c.remoteInstances);
    var ss := RemoteSections(Sort(c.remoteInstances, NameOf));
    RemotePathsDistinct(Sort(c.remoteInstances, NameOf));
    TopDistinct(c);
    var root, first, p, q := [Section([], [])], [Section(["project"], Entries(ProjectFields(c)))],
      PostgresSections(c), TestSections(c);
    DisjointPaths(root + first + p + q, ss);
    Regroup(root, first, p);
    Regroup(root, first + p, q);
    Regroup(root, first + p + q, ss);
  }

  /** The sections after the project's own. */
  function OtherSections(c: Config): seq<Section> {
    PostgresSections(c) + TestSections(c) + RemoteSections(Sort(c.remoteInstances, NameOf))
  }

  predicate PrintableSections(ss: seq<Section>) { forall i :: 0 <= i < |ss| ==> PrintableSection(ss[i]) }

  lemma MaybesPrintable(c: Config)
    ensures PrintableSections(PostgresSections(c)) && PrintableSections(TestSections(c))
  {
    BareNames5();
    if PostgresSections(c) != [] { PostgresPrintable(c.postgres.value); }
    if c.testInstance.Some? {
      var t := c.testInstance.value;
      SourcePrintable(["test_instance"], t.baseUrl, t.database, t.gitBranch);
    }
  }

  lemma RemotesPrintable(h: Host, rs: seq<Remote>)
    requires RemotesMade(h, rs)
    ensures PrintableSections(RemoteSections(rs))
  {
    forall i | 0 <= i < |rs| ensures PrintableSection(RemoteSections(rs)[i]) { RemotePrintable(h, rs[i]); }
  }

  lemma ConcatPrintable(a: seq<Section>, b: seq<Section>, c: seq<Section>)
    requires PrintableSections(a) && PrintableSections(b) && PrintableSections(c)
    ensures PrintableSections(a + b + c)
  {
  }

  lemma OthersPrintable(h: Host, c: Config)
    requires RemotesMade(h, c.remoteInstances)
    ensures PrintableSections(OtherSections(c))
    ensures Sections(c) == [Section(["project"], Entries(ProjectFields(c)))] + OtherSections(c)
  {
    MaybesPrintable(c);
    SortedMade(h, c.remoteInstances);
    RemotesPrintable(h, Sort(c.remoteInstances, NameOf));
    ConcatPrintable(PostgresSections(c), TestSections(c), RemoteSections(Sort(c.remoteInstances, NameOf)));
    SectionsSplit([Section(["project"], Entries(ProjectFields(c)))], PostgresSections(c), TestSections(c),
                  RemoteSections(Sort(c.remoteInstances, NameOf)));
  }

  lemma SectionsSplit(a: seq<Section>, b: seq<Section>, c: seq<Section>, d: seq<Section>)
    ensures a + b + c + d == a + (b + c + d)
  {
  }

  lemma SectionsPrintable(h: Host, c: Config)
    requires HoursWritable(c) && PortWritable(c) && RemotesMade(h, c.remoteInstances)
    ensures forall i :: 0 <= i < |Sections(c)| ==> PrintableSection(Sections(c)[i])
  {
    BareNames5();
    var fs := ProjectFields(c);
    ProjectNamesDistinct(c);
    forall i | 0 <= i < |fs| ensures PrintableField(fs[i]) { ProjectPrintable(c, i); }
    EntriesPrintable(fs);
    assert PrintableSection(Section(["project"], Entries(fs)));
    OthersPrintable(h, c);
  }

  lemma RemotePrintable(h: Host, r: Remote)
    requires RemoteMade(h, r)
    ensures PrintableSection(RemoteSection(r))
  {
    BareNames5();
    NameIsBare(r.name);
    SourcePrintable(["remote_instances", r.name], r.baseUrl, r.database, Some(r.gitBranch));
  }

  /** A written manifest parses to the document it was written from. */
  lemma ManifestParses(h: Host, c: Config)
    requires HoursWritable(c) && PortWritable(c) && RemotesMade(h, c.remoteInstances)
    requires DistinctKeys(c.remoteInstances, NameOf)
    ensures Parse(Print(Sections(c))) == Some(Document(c))
  {
    SectionsPrintable(h, c);
    PrintReadable(Sections(c));
    SectionsDistinct(c);
    SectionsDefined(c);
  }

  // ---------------------------------------------------------------- what comes back

  function SanIfAny(s: Option<string>): Option<string> { if s.None? then None else Some(Sanitize(s.value)) }

  function SanAll(ss: seq<string>): seq<string> { seq(|ss|, i requires 0 <= i < |ss| => Sanitize(ss[i])) }

  function PathIfAny(h: Host, s: Option<string>): Option<string> {
    if s.None? then None else Some(h.path(Sanitize(s.value)))
  }

  function PathAll(h: Host, ss: seq<string>): seq<string> {
    seq(|ss|, i requires 0 <= i < |ss| => h.path(Sanitize(ss[i])))
  }

  function RereadPython(h: Host, p: Option<Python>): Option<Python> {
    if p.None? then None else PythonField(h, Some(Quoted(p.value.text)))
  }

  function RereadPostgres(p: Option<Postgres>): Option<Postgres> {
    if p.None? || IsDefault(p.value) then None
    else Some(p.value.(image := SanIfAny(p.value.image), user := SanIfAny(p.value.user)))
  }

  function RereadTest(h: Host, t: Option<TestInstance>): Result<Option<TestInstance>, Error> {
    if t.None? then Ok(None)
    else
      var url := h.url(Sanitize(t.value.baseUrl), false);
      if url.None? then Err(Invalid)
      else
        var r := NewTestInstance(h, TestInstance(url.value, SanIfAny(t.value.database), SanIfAny(t.value.gitBranch)));
        if r.None? then Err(Invalid) else Ok(r)
  }

  function RereadRemote(h: Host, r: Remote): Option<Remote> {
    var url := h.url(Sanitize(r.baseUrl), false);
    if url.None? then None else NewRemote(h, Remote(r.name, url.value, SanIfAny(r.database), Sanitize(r.gitBranch)))
  }

  function Rereader(h: Host): Remote -> Option<Remote> { (r: Remote) => RereadRemote(h, r) }

  function RereadUrl(h: Host, c: Config): Result<Option<string>, Error> {
    if c.ticketLinkEnabled.None? || c.ticketBaseUrl.None? then Ok(None)
      else TicketUrl(h, Some(Sanitize(c.ticketBaseUrl.value)))
  }

  /** The fields that reading a written manifest hands to the constructor. */
  function Reread(h: Host, root: string, c: Config): Result<Config, Error> {
    var ti, rs, url := RereadTest(h, c.testInstance), Traverse(Sort(c.remoteInstances, NameOf), Rereader(h)),
      RereadUrl(h, c);
    if ti.Err? || rs.None? || url.Err? then Err(Invalid)
    else Ok(Config(
      root, PathIfAny(h, c.odooBin), RereadPython(h, c.python), PathIfAny(h, c.sourceConfig),
      SanIfAny(c.defaultSourceDatabase), PathIfAny(h, c.managedFilestore),
      PathAll(h, c.addonRepositories), PathAll(h, c.addonRoots), SanAll(c.serverWideModules), c.preferredHttpPort,
      SanAll(c.requirements), SanAll(c.defaultRunArgs), PathIfAny(h, c.runtimeCwd),
      RereadPostgres(c.postgres), ti.value, rs.value, SanIfAny(c.defaultBaseRef), c.refreshAfterHours,
      c.ticketLinkEnabled, url.value))
  }

  lemma ListsReread(h: Host, ss: seq<string>)
    ensures StrList(h, QuotedList(ss)) == SanAll(ss)
    ensures PathList(h, QuotedList(ss)) == Some(PathAll(h, ss))
  {
    if ss == [] {
      assert SanAll(ss) == [] && PathAll(h, ss) == [];
    } else {
      var items := QuotedList(ss).value.items;
      assert Texts(h, items) == SanAll(ss);
      assert PathList(h, QuotedList(ss)).value == PathAll(h, ss);
    }
  }

  /** A field of the project section, by position. */
  lemma ProjectGet(c: Config, k: nat)
    requires k < |ProjectFields(c)|
    ensures Get(Entries(ProjectFields(c)), ProjectFields(c)[k].name) == ProjectFields(c)[k].value
  {
    ProjectNamesDistinct(c);
    PresentGet(ProjectFields(c), |ProjectFields(c)|, k);
  }

  lemma ProjectLacks(c: Config)
    ensures var es := Entries(ProjectFields(c));
      && Get(es, "jira_enabled") == None && Get(es, "jira_base_url") == None
      && Get(es, "test_instance") == None && Get(es, "remote_instances") == None
  {
    var fs := ProjectFields(c);
    PresentLacks(fs, |fs|, "jira_enabled");
    PresentLacks(fs, |fs|, "jira_base_url");
    PresentLacks(fs, |fs|, "test_instance");
    PresentLacks(fs, |fs|, "remote_instances");
  }

  lemma PostgresGets(p: Postgres)
    ensures var t := Entries(PostgresFields(p));
      && OnlyKeys(t, POSTGRES_KEYS)
      && Get(t, "mode") == Some(Str(if p.mode.External? then "external" else "compose"))
      && Get(t, "image") == QuotedIfAny(p.image) && Get(t, "user") == QuotedIfAny(p.user)
      && Get(t, "port") == if p.port.None? then None else Some(Int(p.port.value))
  {
    var fs := PostgresFields(p);
    var n := |fs|;
    PresentFacts(fs, n);
    PresentGet(fs, n, 0);
    PresentGet(fs, n, 1);
    PresentGet(fs, n, 2);
    PresentGet(fs, n, 3);
  }

  lemma PostgresFrom(t: Table, p: Postgres, m: string)
    requires OnlyKeys(t, POSTGRES_KEYS) && Get(t, "mode") == Some(Str(m))
    requires (m == "external" && p.mode.External?) || (m == "compose" && p.mode.Compose?)
    requires Get(t, "image") == QuotedIfAny(p.image) && Get(t, "user") == QuotedIfAny(p.user)
    requires Get(t, "port") == if p.port.None? then None else Some(Int(p.port.value))
    ensures ReadPostgres(Some(Tab(t)))
         == Ok(if IsDefault(p) then None else Some(p.(image := SanIfAny(p.image), user := SanIfAny(p.user))))
  {
    assert "external" != "compose";
    assert TextIfAny(QuotedIfAny(p.image)) == SanIfAny(p.image) && TextIfAny(QuotedIfAny(p.user)) == SanIfAny(p.user);
  }

  lemma PostgresReread(p: Postgres, t: Table)
    requires t == Entries(PostgresFields(p))
    ensures ReadPostgres(Some(Tab(t)))
         == Ok(if IsDefault(p) then None else Some(p.(image := SanIfAny(p.image), user := SanIfAny(p.user))))
  {
    PostgresGets(p);
    PostgresFrom(t, p, if p.mode.External? then "external" else "compose");
  }

  lemma SourceReread(url: string, database: Option<string>, branch: Option<string>)
    ensures var t := Entries(SourceFields(url, database, branch));
      && OnlyKeys(t, SOURCE_KEYS) && Get(t, "base_url") == Some(Quoted(url))
      && Get(t, "database") == QuotedIfAny(database) && Get(t, "git_branch") == QuotedIfAny(branch)
  {
    var fs := SourceFields(url, database, branch);
    PresentFacts(fs, 3);
    PresentGet(fs, 3, 0);
    PresentGet(fs, 3, 1);
    PresentGet(fs, 3, 2);
  }

  lemma TestReread(h: Host, t: TestInstance)
    ensures ReadTestInstance(h, Some(Tab(Entries(SourceFields(t.baseUrl, t.database, t.gitBranch)))))
         == RereadTest(h, Some(t))
  {
    SourceReread(t.baseUrl, t.database, t.gitBranch);
  }

  lemma NameKept(h: Host, n: string)
    requires Lawful(h) && RemoteName(n)
    ensures NormalName(h, n) == Some(n) && h.lower(n) == n
  {
    assert !IsSpace(n[0]) && !IsSpace(n[|n| - 1]);
    StripFacts(n);
  }

  lemma RemoteReread(h: Host, r: Remote)
    requires Lawful(h) && RemoteMade(h, r)
    ensures ReadRemote(h, Entry(r.name, Tab(RemoteEntries(r)))) == RereadRemote(h, r)
  {
    SourceReread(r.baseUrl, r.database, Some(r.gitBranch));
    NameKept(h, r.name);
  }

  lemma EachReread(h: Host, rs: seq<Remote>)
    requires Lawful(h) && RemotesMade(h, rs)
    ensures Traverse(RemoteTable(rs), Reader(h)) == Traverse(rs, Rereader(h))
  {
    var es := RemoteTable(rs);
    forall i | 0 <= i < |rs| ensures Reader(h)(es[i]) == Rereader(h)(rs[i]) { RemoteReread(h, rs[i]); }
    TraverseAgrees(es, Reader(h), rs, Rereader(h));
  }

  lemma RemotesReread(h: Host, rs: seq<Remote>)
    requires Lawful(h) && RemotesMade(h, rs) && Sorted(rs, NameOf)
    ensures ReadRemotes(h, Some(Tab(RemoteTable(rs))))
         == (var r := Traverse(rs, Rereader(h)); if r.None? then Err(Invalid) else Ok(r.value))
  {
    var t := RemoteTable(rs);
    forall i, j | 0 <= i < j < |t| ensures AtMost(LowerKey(h)(t[i]), LowerKey(h)(t[j])) {
      NameKept(h, rs[i].name);
      NameKept(h, rs[j].name);
      assert AtMost(NameOf(rs[i]), NameOf(rs[j]));
    }
    SortOfSorted(t, LowerKey(h));
    EachReread(h, rs);
  }

  // ---------------------------------------------------------------- loading what was written

  lemma OtherTables(h: Host, c: Config)
    requires Lawful(h) && RemotesMade(h, c.remoteInstances) && DistinctKeys(c.remoteInstances, NameOf)
    ensures var d := Document(c);
      && Get(d, "project") == Some(Tab(Entries(ProjectFields(c))))
      && ReadPostgres(Get(d, "postgres")) == Ok(RereadPostgres(c.postgres))
      && ReadTestInstance(h, Get(d, "test_instance")) == RereadTest(h, c.testInstance)
      && ReadRemotes(h, Get(d, "remote_instances"))
         == (var r := Traverse(Sort(c.remoteInstances, NameOf), Rereader(h));
           if r.None? then Err(Invalid) else Ok(r.value))
  {
    DocumentGets(c);
    if PostgresSections(c) != [] { PostgresReread(c.postgres.value, Entries(PostgresFields(c.postgres.value))); }
    if c.testInstance.Some? { TestReread(h, c.testInstance.value); }
    SortedDistinct(c.remoteInstances);
    SortedMade(h, c.remoteInstances);
    RemotesReread(h, Sort(c.remoteInstances, NameOf));
  }

  function MaybeGet(p: seq<Section>): Option<Value> { if p == [] then None else Some(Tab(p[0].entries)) }

  lemma FourTables(es: Table, p: seq<Section>, q: seq<Section>, r: Table)
    requires |r| <= 1 && (r != [] ==> r[0].key == "remote_instances")
    ensures var d := [Entry("project", Tab(es))] + MaybeTable("postgres", p) + MaybeTable("test_instance", q) + r;
      && Get(d, "project") == Some(Tab(es)) && Get(d, "postgres") == MaybeGet(p)
      && Get(d, "test_instance") == MaybeGet(q)
      && Get(d, "remote_instances") == if r == [] then None else Some(r[0].value)
  {
    var fs := [Field("project", Some(Tab(es))), Field("postgres", MaybeGet(p)), Field("test_instance", MaybeGet(q)),
               Field("remote_instances", if r == [] then None else Some(r[0].value))];
    var d := [Entry("project", Tab(es))] + MaybeTable("postgres", p) + MaybeTable("test_instance", q) + r;
    var n := |fs|;
    assert Present(fs, 1) == [] + [Entry("project", Tab(es))] == [Entry("project", Tab(es))];
    assert One(fs[1]) == MaybeTable("postgres", p) && One(fs[2]) == MaybeTable("test_instance", q) && One(fs[3]) == r;
    assert Present(fs, 2) == Present(fs, 1) + One(fs[1]);
    assert Present(fs, 3) == Present(fs, 2) + One(fs[2]);
    assert Present(fs, 4) == Present(fs, 3) + One(fs[3]);
    PresentGet(fs, n, 0);
    PresentGet(fs, n, 1);
    PresentGet(fs, n, 2);
    PresentGet(fs, n, 3);
  }

  lemma DocumentGets(c: Config)
    ensures var d := Document(c);
      && Get(d, "project") == Some(Tab(Entries(ProjectFields(c))))
      && Get(d, "postgres") == MaybeGet(PostgresSections(c)) && Get(d, "test_instance") == MaybeGet(TestSections(c))
      && Get(d, "remote_instances")
         == if c.remoteInstances == [] then None else Some(Tab(RemoteTable(Sort(c.remoteInstances, NameOf))))
  {
    FourTables(Entries(ProjectFields(c)), PostgresSections(c), TestSections(c),
               if c.remoteInstances == [] then []
                 else [Entry("remote_instances", Tab(RemoteTable(Sort(c.remoteInstances, NameOf))))]);
  }

  predicate HoldsLocations(get: Getter, c: Config) {
    && get("odoo_bin") == QuotedIfAny(c.odooBin)
    && get("python") == (if c.python.None? then None else Some(Quoted(c.python.value.text)))
    && get("source_config") == QuotedIfAny(c.sourceConfig)
    && get("default_source_database") == QuotedIfAny(c.defaultSourceDatabase)
    && get("managed_filestore") == QuotedIfAny(c.managedFilestore)
    && get("runtime_cwd") == QuotedIfAny(c.runtimeCwd)
    && get("default_base_ref") == QuotedIfAny(c.defaultBaseRef)
  }

  predicate HoldsLists(get: Getter, c: Config) {
    && get("addon_repositories") == QuotedList(c.addonRepositories)
    && get("addon_roots") == QuotedList(c.addonRoots)
    && get("server_wide_modules") == QuotedList(c.serverWideModules)
    && get("requirements") == QuotedList(c.requirements)
    && get("default_run_args") == QuotedList(c.defaultRunArgs)
  }

  predicate HoldsTokens(get: Getter, c: Config) {
    && get("refresh_after_hours")
      == (if c.refreshAfterHours.None? then None else Some(Float(c.refreshAfterHours.value)))
    && get("preferred_http_port")
      == (if c.preferredHttpPort.None? then None else Some(PortValue(c.preferredHttpPort.value)))
    && get("ticket_link_enabled") == (if c.ticketLinkEnabled.None? then None else Some(Bool(c.ticketLinkEnabled.value)))
    && get("ticket_base_url") == (if c.ticketLinkEnabled.None? then None
                                      else Some(Quoted(if c.ticketBaseUrl.None? then "" else c.ticketBaseUrl.value)))
  }

  predicate LacksOthers(get: Getter) {
    && get("jira_enabled") == None && get("jira_base_url") == None
    && get("test_instance") == None && get("remote_instances") == None
  }

  /** The project section holds exactly the written fields under their names. */
  lemma ProjectHolds(c: Config)
    ensures var get := GetterOf(Entries(ProjectFields(c)));
      HoldsLocations(get, c) && HoldsLists(get, c) && HoldsTokens(get, c) && LacksOthers(get)
  {
    ProjectGet(c, 0); ProjectGet(c, 1); ProjectGet(c, 2); ProjectGet(c, 3);
    ProjectGet(c, 4); ProjectGet(c, 5); ProjectGet(c, 6); ProjectGet(c, 7);
    ProjectGet(c, 8); ProjectGet(c, 9); ProjectGet(c, 10); ProjectGet(c, 11);
    ProjectGet(c, 12); ProjectGet(c, 13); ProjectGet(c, 14); ProjectGet(c, 15);
    ProjectLacks(c);
  }

  lemma TicketReread(h: Host, get: Getter, c: Config)
    requires HoldsTokens(get, c) && LacksOthers(get)
    ensures var t := TicketFields(h, get);
      && t.Ok? && t.value.enabled == c.ticketLinkEnabled && TicketUrl(h, t.value.url) == RereadUrl(h, c)
  {
    assert Sanitize("") == "" && !NonBlank("");
  }

  lemma TokensReread(h: Host, get: Getter, c: Config)
    requires HoldsTokens(get, c) && PortWritable(c)
    requires HoursReadable(h, c)
    ensures IntOrNone(h, get("preferred_http_port")) == Ok(c.preferredHttpPort)
    ensures FloatOrNone(h, get("refresh_after_hours")) == Ok(c.refreshAfterHours)
  {
    PortReread(h, c.preferredHttpPort);
    HoursReread(h, c.refreshAfterHours);
  }

  lemma PortReread(h: Host, p: Option<Port>)
    requires p.Some? ==> p.value.Number?
    ensures IntOrNone(h, if p.None? then None else Some(PortValue(p.value))) == Ok(p)
  {
  }

  lemma HoursReread(h: Host, t: Option<string>)
    requires t.Some? ==> h.toFloat(Float(t.value)) == t
    ensures FloatOrNone(h, if t.None? then None else Some(Float(t.value))) == Ok(t)
  {
  }

  lemma LocationsReread(h: Host, get: Getter, c: Config)
    requires HoldsLocations(get, c)
    ensures PathOrNone(h, get("odoo_bin")) == PathIfAny(h, c.odooBin)
    ensures PythonField(h, get("python")) == RereadPython(h, c.python)
    ensures PathOrNone(h, get("source_config")) == PathIfAny(h, c.sourceConfig)
    ensures StrOrNone(h, get("default_source_database")) == SanIfAny(c.defaultSourceDatabase)
    ensures PathOrNone(h, get("managed_filestore")) == PathIfAny(h, c.managedFilestore)
    ensures PathOrNone(h, get("runtime_cwd")) == PathIfAny(h, c.runtimeCwd)
    ensures StrOrNone(h, get("default_base_ref")) == SanIfAny(c.defaultBaseRef)
  {
  }

  predicate ReadsTokens(h: Host, get: Getter, c: Config) {
    && IntOrNone(h, get("preferred_http_port")) == Ok(c.preferredHttpPort)
    && FloatOrNone(h, get("refresh_after_hours")) == Ok(c.refreshAfterHours)
    && var t := TicketFields(h, get);
       t.Ok? && t.value.enabled == c.ticketLinkEnabled && TicketUrl(h, t.value.url) == RereadUrl(h, c)
  }

  predicate ReadsLocations(h: Host, get: Getter, c: Config) {
    && PathOrNone(h, get("odoo_bin")) == PathIfAny(h, c.odooBin)
    && PythonField(h, get("python")) == RereadPython(h, c.python)
    && PathOrNone(h, get("source_config")) == PathIfAny(h, c.sourceConfig)
    && StrOrNone(h, get("default_source_database")) == SanIfAny(c.defaultSourceDatabase)
    && PathOrNone(h, get("managed_filestore")) == PathIfAny(h, c.managedFilestore)
    && PathOrNone(h, get("runtime_cwd")) == PathIfAny(h, c.runtimeCwd)
    && StrOrNone(h, get("default_base_ref")) == SanIfAny(c.defaultBaseRef)
  }

  predicate ReadsLists(h: Host, get: Getter, c: Config) {
    && PathList(h, get("addon_repositories")) == Some(PathAll(h, c.addonRepositories))
    && PathList(h, get("addon_roots")) == Some(PathAll(h, c.addonRoots))
    && StrList(h, get("server_wide_modules")) == SanAll(c.serverWideModules)
    && StrList(h, get("requirements")) == SanAll(c.requirements)
    && StrList(h, get("default_run_args")) == SanAll(c.defaultRunArgs)
  }

  lemma PartsReread(h: Host, get: Getter, c: Config)
    requires HoldsLocations(get, c) && HoldsLists(get, c) && HoldsTokens(get, c) && LacksOthers(get) && PortWritable(c)
    requires HoursReadable(h, c)
    ensures ReadsTokens(h, get, c) && ReadsLocations(h, get, c) && ReadsLists(h, get, c)
  {
    TicketReread(h, get, c);
    TokensReread(h, get, c);
    LocationsReread(h, get, c);
    ListsReread(h, c.addonRepositories);
    ListsReread(h, c.addonRoots);
    ListsReread(h, c.serverWideModules);
    ListsReread(h, c.requirements);
    ListsReread(h, c.defaultRunArgs);
  }

  lemma FieldsReread(h: Host, root: string, get: Getter, pg: Option<Value>, ti: Option<Value>, rs: Option<Value>,
                     c: Config)
    requires ReadsTokens(h, get, c) && ReadsLocations(h, get, c) && ReadsLists(h, get, c)
    requires get("test_instance") == None && get("remote_instances") == None
    requires ReadPostgres(pg) == Ok(RereadPostgres(c.postgres))
    requires ReadTestInstance(h, ti) == RereadTest(h, c.testInstance)
    requires ReadRemotes(h, rs)
          == (var r := Traverse(Sort(c.remoteInstances, NameOf), Rereader(h));
              if r.None? then Err(Invalid) else Ok(r.value))
    ensures ReadFields(h, root, get, pg, ti, rs) == Reread(h, root, c)
  {
    assert OrElse(ti, get("test_instance")) == ti;
    assert OrElse(rs, get("remote_instances")) == rs;
  }

  /** Loading a written manifest hands the constructor the fields with controls made visible, and no others. */
  lemma LoadWritten(h: Host, project: string, c: Config)
    requires Lawful(h) && Made(h, c) && PortWritable(c)
    ensures Load(h, project, Some(Print(Sections(c))))
         == (var r := Reread(h, h.resolve(project), c); if r.Err? then r else Construct(h, r.value))
  {
    MadeHours(h, c);
    ManifestParses(h, c);
    OtherTables(h, c);
    ProjectHolds(c);
    var d, es := Document(c), Entries(ProjectFields(c));
    PartsReread(h, GetterOf(es), c);
    FieldsReread(h, h.resolve(project), GetterOf(es), Get(d, "postgres"), Get(d, "test_instance"),
      Get(d, "remote_instances"), c);
    LoadIs(h, project, Print(Sections(c)), d, es);
  }

  lemma LoadIs(h: Host, project: string, text: string, d: Table, es: Table)
    requires Parse(text) == Some(d) && Get(d, "project") == Some(Tab(es))
    ensures Load(h, project, Some(text))
         == (var r := ReadFields(h, h.resolve(project), GetterOf(es), Get(d, "postgres"), Get(d, "test_instance"),
           Get(d, "remote_instances"));
             if r.Err? then r else Construct(h, r.value))
  {
  }

  // ---------------------------------------------------------------- the constructor

  /** What is kept: never more than was given, and all of it only when nothing was dropped. */
  lemma {:induction false} UniqueFull(xs: seq<string>, canon: string -> Option<string>, keep: string -> string,
                                      seen: set<string>)
    requires Unique(xs, canon, keep, seen).Some?
    ensures var ys := Unique(xs, canon, keep, seen).value;
      |ys| <= |xs| && (|ys| == |xs| ==> forall i :: 0 <= i < |ys| ==> ys[i] == keep(xs[i]))
    decreases |xs|
  {
    if xs != [] {
      if canon(xs[0]).value in seen {
        UniqueFull(xs[1..], canon, keep, seen);
      } else {
        UniqueFull(xs[1..], canon, keep, seen + {canon(xs[0]).value});
      }
    }
  }

  function Canonical(xs: seq<string>, canon: string -> Option<string>): set<string> {
    set i | 0 <= i < |xs| && canon(xs[i]).Some? :: canon(xs[i]).value
  }

  ghost predicate KeepsForm(canon: string -> Option<string>, keep: string -> string) {
    forall x :: canon(x).Some? ==> canon(keep(x)) == canon(x) && keep(keep(x)) == keep(x)
  }

  /** Each canonical form given is kept once, and keeping again changes nothing. */
  lemma {:induction false} UniqueOnce(xs: seq<string>, canon: string -> Option<string>, keep: string -> string,
                                      seen: set<string>)
    requires Unique(xs, canon, keep, seen).Some? && KeepsForm(canon, keep)
    ensures var ys := Unique(xs, canon, keep, seen).value;
      && (forall i :: 0 <= i < |ys| ==> canon(ys[i]).Some? && keep(ys[i]) == ys[i] && canon(ys[i]).value !in seen)
      && (forall i, j :: 0 <= i < j < |ys| ==> canon(ys[i]) != canon(ys[j]))
      && Canonical(ys, canon) == Canonical(xs, canon) - seen
    ensures Unique(Unique(xs, canon, keep, seen).value, canon, keep, seen) == Unique(xs, canon, keep, seen)
    decreases |xs|
  {
    if xs != [] {
      var k := canon(xs[0]).value;
      CanonicalFirst(xs, canon);
      if k in seen {
        UniqueOnce(xs[1..], canon, keep, seen);
      } else {
        UniqueOnce(xs[1..], canon, keep, seen + {k});
        var ys := Unique(xs, canon, keep, seen).value;
        assert ys[1..] == Unique(xs[1..], canon, keep, seen + {k}).value;
        CanonicalFirst(ys, canon);
      }
    }
  }

  lemma CanonicalFirst(xs: seq<string>, canon: string -> Option<string>)
    requires xs != [] && canon(xs[0]).Some?
    ensures Canonical(xs, canon) == {canon(xs[0]).value} + Canonical(xs[1..], canon)
  {
    forall k ensures k in Canonical(xs, canon) <==> k in {canon(xs[0]).value} + Canonical(xs[1..], canon) {
      if k in Canonical(xs[1..], canon) {
        var i :| 0 <= i < |xs[1..]| && canon(xs[1..][i]) == Some(k);
        assert canon(xs[i + 1]) == Some(k);
      }
      if k in Canonical(xs, canon) {
        var i :| 0 <= i < |xs| && canon(xs[i]) == Some(k);
        if i > 0 { assert canon(xs[1..][i - 1]) == Some(k); }
      }
    }
  }

  lemma PathsKeepForm(canon: string -> Option<string>)
    ensures KeepsForm(canon, Itself)
  {
  }

  lemma StripKeepsComma(s: string)
    ensures ',' in s <==> ',' in Strip(s)
  {
    StripLeftSpaces(s);
    StripRightSpaces(StripLeft(s));
  }

  lemma {:induction false} StripLeftSpaces(s: string)
    ensures ',' in s <==> ',' in StripLeft(s)
  {
    if s != [] && IsSpace(s[0]) {
      StripLeftSpaces(s[1..]);
      assert s == [s[0]] + s[1..];
    }
  }

  lemma {:induction false} StripRightSpaces(s: string)
    ensures ',' in s <==> ',' in StripRight(s)
  {
    if s != [] && IsSpace(s[|s| - 1]) {
      StripRightSpaces(s[..|s| - 1]);
      assert s == s[..|s| - 1] + [s[|s| - 1]];
    }
  }

  lemma ModulesKeepForm()
    ensures KeepsForm(ModuleName, Strip)
  {
    forall x ensures ModuleName(x).Some? ==> ModuleName(Strip(x)) == ModuleName(x) && Strip(Strip(x)) == Strip(x) {
      StripFacts(x);
      StripKeepsComma(x);
    }
  }

  /** Constructing from a constructed configuration changes nothing. */
  lemma ConstructIdempotent(h: Host, raw: Config)
    requires Construct(h, raw).Ok?
    ensures Construct(h, Construct(h, raw).value) == Construct(h, raw)
  {
    var root := h.resolve(raw.repositoryRoot);
    PathsKeepForm(InsideOf(h, root));
    PathsKeepForm(AddonOf(h, root));
    ModulesKeepForm();
    UniqueOnce(raw.addonRepositories, InsideOf(h, root), Itself, {});
    UniqueOnce(raw.addonRoots, AddonOf(h, root), Itself, {});
    UniqueOnce(raw.serverWideModules, ModuleName, Strip, {});
  }

  // ---------------------------------------------------------------- exactly when nothing is lost

  /** Every character written is one the sanitiser leaves alone. */
  predicate AllControlFree(ss: seq<string>) { forall i :: 0 <= i < |ss| ==> ControlFree(ss[i]) }

  predicate FreeIfAny(s: Option<string>) { s.Some? ==> ControlFree(s.value) }

  predicate FreeRemote(r: Remote) { ControlFree(r.baseUrl) && FreeIfAny(r.database) && ControlFree(r.gitBranch) }

  predicate FreeRemotes(rs: seq<Remote>) { forall i :: 0 <= i < |rs| ==> FreeRemote(rs[i]) }

  predicate FreeTest(t: TestInstance) { ControlFree(t.baseUrl) && FreeIfAny(t.database) && FreeIfAny(t.gitBranch) }

  predicate FreeConfig(c: Config) {
    && FreeIfAny(c.odooBin) && (c.python.Some? ==> ControlFree(c.python.value.text)) && FreeIfAny(c.sourceConfig)
    && FreeIfAny(c.defaultSourceDatabase) && FreeIfAny(c.managedFilestore) && FreeIfAny(c.runtimeCwd)
    && FreeIfAny(c.defaultBaseRef)
    && AllControlFree(c.addonRepositories) && AllControlFree(c.addonRoots) && AllControlFree(c.serverWideModules)
    && AllControlFree(c.requirements) && AllControlFree(c.defaultRunArgs)
    && (c.postgres.Some? ==> FreeIfAny(c.postgres.value.image) && FreeIfAny(c.postgres.value.user))
    && (c.testInstance.Some? ==> FreeTest(c.testInstance.value))
    && FreeRemotes(c.remoteInstances) && FreeIfAny(c.ticketBaseUrl)
  }

  predicate PythonReadable(h: Host, p: Option<Python>) {
    p.Some? && PathLike(p.value.text) ==> h.path(p.value.text) == p.value.text
  }

  predicate TestReadable(h: Host, t: Option<TestInstance>) {
    t.Some? ==> h.url(t.value.baseUrl, false) == Some(t.value.baseUrl)
  }

  /** A ticket URL survives only beside an explicit switch, and only in its normal form. */
  predicate TicketReadable(h: Host, c: Config) {
    c.ticketBaseUrl.Some? ==>
      c.ticketLinkEnabled.Some? && NonBlank(c.ticketBaseUrl.value)
      && h.url(c.ticketBaseUrl.value, true) == c.ticketBaseUrl
  }

  predicate Faithful(h: Host, c: Config) {
    FreeConfig(c) && PortWritable(c) && PythonReadable(h, c.python) && TestReadable(h, c.testInstance)
    && TicketReadable(h, c)
  }

  function Retagged(p: Option<Python>): Option<Python> {
    if p.None? then None else Some(if PathLike(p.value.text) then AtPath(p.value.text) else Command(p.value.text))
  }

  /** The same settings as `load` presents them: sources by name, a default cluster absent, the interpreter tagged
      by its spelling. */
  function Normal(h: Host, project: string, c: Config): Config {
    c.(repositoryRoot := h.resolve(project), python := Retagged(c.python),
       postgres := if c.postgres.Some? && IsDefault(c.postgres.value) then None else c.postgres,
       remoteInstances := Sort(c.remoteInstances, NameOf))
  }

  lemma PathBack(h: Host, p: string)
    requires Lawful(h) && h.path(p) == p
    ensures h.path(Sanitize(p)) == p <==> ControlFree(p)
  {
    SanitizeFacts(p);
  }

  lemma UrlBack(h: Host, u: string, b: bool)
    requires Lawful(h)
    ensures h.url(Sanitize(u), b) == Some(u) <==> ControlFree(u) && h.url(u, b) == Some(u)
  {
    SanitizeFacts(u);
  }

  lemma SanIfAnyBack(s: Option<string>)
    ensures SanIfAny(s) == s <==> FreeIfAny(s)
  {
    if s.Some? { SanitizeFacts(s.value); }
  }

  lemma PathIfAnyBack(h: Host, p: Option<string>)
    requires Lawful(h) && IsPathIfAny(h, p)
    ensures PathIfAny(h, p) == p <==> FreeIfAny(p)
  {
    if p.Some? { PathBack(h, p.value); }
  }

  lemma SanAllBack(ss: seq<string>)
    ensures SanAll(ss) == ss <==> AllControlFree(ss)
  {
    forall i | 0 <= i < |ss| ensures SanAll(ss)[i] == ss[i] <==> ControlFree(ss[i]) { SanitizeFacts(ss[i]); }
  }

  lemma PathAllBack(h: Host, ps: seq<string>)
    requires Lawful(h) && ArePaths(h, ps)
    ensures PathAll(h, ps) == ps <==> AllControlFree(ps)
  {
    forall i | 0 <= i < |ps| ensures PathAll(h, ps)[i] == ps[i] <==> ControlFree(ps[i]) { PathBack(h, ps[i]); }
  }

  lemma PythonBack(h: Host, p: Option<Python>)
    requires Lawful(h)
    ensures RereadPython(h, p) == Retagged(p) <==> ((p.Some? ==> ControlFree(p.value.text)) && PythonReadable(h, p))
  {
    if p.Some? {
      var t := p.value.text;
      SanitizeFacts(t);
      assert PathLike(Sanitize(t)) ==> ControlFree(h.path(Sanitize(t)));
    }
  }

  lemma PostgresBack(p: Option<Postgres>)
    ensures RereadPostgres(p) == (if p.Some? && IsDefault(p.value) then None else p)
       <==> (p.Some? ==> FreeIfAny(p.value.image) && FreeIfAny(p.value.user))
  {
    if p.Some? { SanIfAnyBack(p.value.image); SanIfAnyBack(p.value.user); }
  }

  lemma TestBack(h: Host, t: Option<TestInstance>)
    requires Lawful(h) && (t.Some? ==> NewTestInstance(h, t.value).Some?)
    ensures RereadTest(h, t) == Ok(t) <==> ((t.Some? ==> FreeTest(t.value)) && TestReadable(h, t))
  {
    if t.Some? {
      UrlBack(h, t.value.baseUrl, false);
      SanIfAnyBack(t.value.database);
      SanIfAnyBack(t.value.gitBranch);
    }
  }

  lemma UrlFieldBack(h: Host, c: Config)
    requires Lawful(h)
    ensures RereadUrl(h, c) == Ok(c.ticketBaseUrl) <==> FreeIfAny(c.ticketBaseUrl) && TicketReadable(h, c)
  {
    if c.ticketBaseUrl.Some? {
      UrlBack(h, c.ticketBaseUrl.value, true);
      SanitizeFacts(c.ticketBaseUrl.value);
    }
  }

  lemma RemoteBack(h: Host, r: Remote)
    requires Lawful(h) && RemoteMade(h, r)
    ensures RereadRemote(h, r) == Some(r) <==> FreeRemote(r)
  {
    UrlBack(h, r.baseUrl, false);
    SanIfAnyBack(r.database);
    SanitizeFacts(r.gitBranch);
    NameKept(h, r.name);
  }

  lemma RemotesBack(h: Host, rs: seq<Remote>)
    requires Lawful(h) && RemotesMade(h, rs)
    ensures Traverse(Sort(rs, NameOf), Rereader(h)) == Some(Sort(rs, NameOf)) <==> FreeRemotes(rs)
  {
    var s := Sort(rs, NameOf);
    SortedMade(h, rs);
    TraverseIs(s, Rereader(h), s);
    forall i | 0 <= i < |s| ensures Rereader(h)(s[i]) == Some(s[i]) <==> FreeRemote(s[i]) { RemoteBack(h, s[i]); }
    SortFacts(rs, NameOf);
    SameFree(rs, s);
  }

  lemma SameFree(a: seq<Remote>, b: seq<Remote>)
    requires multiset(a) == multiset(b)
    ensures FreeRemotes(a) <==> FreeRemotes(b)
  {
    SameItems(a, b);
    assert FreeRemotes(a) <==> forall r :: r in a ==> FreeRemote(r);
    assert FreeRemotes(b) <==> forall r :: r in b ==> FreeRemote(r);
  }

  /** Reading back hands over the same settings exactly for a faithful configuration. */
  lemma RereadBack(h: Host, project: string, c: Config)
    requires Lawful(h) && WellTyped(h, c) && PortWritable(c)
    ensures Reread(h, h.resolve(project), c) == Ok(Normal(h, project, c)) <==> Faithful(h, c)
  {
    PathIfAnyBack(h, c.odooBin);
    PathIfAnyBack(h, c.sourceConfig);
    PathIfAnyBack(h, c.managedFilestore);
    PathIfAnyBack(h, c.runtimeCwd);
    SanIfAnyBack(c.defaultSourceDatabase);
    SanIfAnyBack(c.defaultBaseRef);
    PathAllBack(h, c.addonRepositories);
    PathAllBack(h, c.addonRoots);
    SanAllBack(c.serverWideModules);
    SanAllBack(c.requirements);
    SanAllBack(c.defaultRunArgs);
    PythonBack(h, c.python);
    PostgresBack(c.postgres);
    TestBack(h, c.testInstance);
    UrlFieldBack(h, c);
    RemotesBack(h, c.remoteInstances);
  }

  /** The normal form of a configuration object is one too. */
  lemma NormalMade(h: Host, project: string, c: Config)
    requires Lawful(h) && Made(h, c) && h.resolve(project) == h.resolve(c.repositoryRoot)
    ensures Construct(h, Normal(h, project, c)) == Ok(Normal(h, project, c))
  {
    MadeHours(h, c);
    SortedDistinct(c.remoteInstances);
  }

  lemma SanitizedStripped(m: string)
    requires Stripped(m)
    ensures Strip(Sanitize(m)) == Sanitize(m)
  {
    if m != [] {
      SanitizeEnds(m);
      StripFacts(Sanitize(m));
    }
  }

  lemma {:induction false} SanitizeEnds(m: string)
    requires m != []
    ensures Sanitize(m) != [] && Sanitize(m)[0] == SanitizeChar(m[0])[0]
    ensures Sanitize(m)[|Sanitize(m)| - 1] == SanitizeChar(m[|m| - 1])[|SanitizeChar(m[|m| - 1])| - 1]
  {
    if |m| > 1 {
      SanitizeEnds(m[1..]);
    } else {
      assert Sanitize(m[1..]) == [];
    }
  }

  /** Whatever the constructor dropped or stripped, the lists come out as written only if they were read as written. */
  lemma ListsUnchanged(h: Host, c: Config, x: Config)
    requires Made(h, c) && Construct(h, x).Ok?
    requires x.addonRepositories == PathAll(h, c.addonRepositories) && x.addonRoots == PathAll(h, c.addonRoots)
    requires x.serverWideModules == SanAll(c.serverWideModules)
    requires var y := Construct(h, x).value;
      y.addonRepositories == c.addonRepositories && y.addonRoots == c.addonRoots
      && y.serverWideModules == c.serverWideModules
    ensures Construct(h, x).value == x
  {
    var r := h.resolve(x.repositoryRoot);
    UniqueFull(x.addonRepositories, InsideOf(h, r), Itself, {});
    assert x.addonRepositories == c.addonRepositories;
    UniqueFull(x.addonRoots, AddonOf(h, r), Itself, {});
    assert x.addonRoots == c.addonRoots;
    UniqueFull(x.serverWideModules, ModuleName, Strip, {});
    ModulesKeepForm();
    UniqueOnce(c.serverWideModules, ModuleName, Strip, {});
    var ms := c.serverWideModules;
    forall i | 0 <= i < |ms| ensures x.serverWideModules[i] == ms[i] {
      StripFacts(ms[i]);
      SanitizedStripped(ms[i]);
    }
    assert x.serverWideModules == ms;
  }

  /** The round trip. A configuration written and loaded again at its own repository comes back as the
      same settings in normal form if and only if every string written is free of control characters, the URLs
      and the path-like interpreter are normal forms, the port is a number, and a ticket URL is not blank and
      stands beside an explicit switch. */
  lemma RoundTrip(h: Host, project: string, c: Config)
    requires Lawful(h) && Made(h, c) && h.resolve(project) == h.resolve(c.repositoryRoot)
    ensures Load(h, project, Some(Print(Sections(c)))) == Ok(Normal(h, project, c)) <==> Faithful(h, c)
  {
    if !PortWritable(c) {
      FlagUnreadable(h, project, c);
    } else {
      LoadWritten(h, project, c);
      RereadBack(h, project, c);
      NormalMade(h, project, c);
      var x := Reread(h, h.resolve(project), c);
      if x.Ok? && Construct(h, x.value) == Ok(Normal(h, project, c)) {
        ListsUnchanged(h, c, x.value);
      }
    }
  }

  // ---------------------------------------------------------------- a port that is a boolean

  predicate CleanEntry(e: Entry) { BareKey(e.key) && CleanLine(Render(e.value, "")) }

  predicate CleanEntries(t: Table) { forall i :: 0 <= i < |t| ==> CleanEntry(t[i]) }

  lemma {:induction false} SectionLinesClean(ss: seq<Section>)
    requires CleanSections(ss)
    ensures forall i :: 0 <= i < |LinesOf(ss)| ==> CleanLine(RenderLine(LinesOf(ss)[i]))
  {
    if ss != [] {
      SectionLinesClean(ss[1..]);
      PathClean(ss[0].path);
      var es := ss[0].entries;
      forall i | 0 <= i < |es| ensures CleanLine(RenderLine(Pairs(es)[i])) { assert CleanEntry(es[i]); }
    }
  }

  lemma PrintableClean(s: Section)
    requires PrintableSection(s)
    ensures CleanEntries(s.entries)
  {
    forall i | 0 <= i < |s.entries| ensures CleanEntry(s.entries[i]) {
      assert PrintableEntry(s.entries[i]);
      RenderClean(s.entries[i].value, "");
    }
  }

  /** A bare word is not a value. */
  lemma WordUnreadable(word: string)
    requires word == "True" || word == "False"
    ensures ParseValue(word) == Fail && CleanLine(word) && word[0] != ' ' && word[0] != '\t'
  {
    FirstDiffers(word, "true");
    FirstDiffers(word, "false");
    assert Span(word, NumberChar) == 0;
  }

  lemma PairUnreadable(key: string, text: string)
    requires BareKey(key) && text != [] && !IsBlank(text[0]) && ParseValue(text) == Fail
    ensures ParseLine(key + (" = " + text)) == None
  {
    PairSplit(key, text);
    var s := key + (" = " + text);
    assert s[0] == key[0];
    NotEmpty(s);
  }

  lemma {:induction false} Found(t: Table, key: string)
    requires Get(t, key).Some?
    ensures exists i :: 0 <= i < |t| && t[i] == Entry(key, Get(t, key).value)
  {
    if t[0].key == key {
      assert t[0] == Entry(key, Get(t, key).value);
    } else {
      Found(t[1..], key);
      var i :| 0 <= i < |t[1..]| && t[1..][i] == Entry(key, Get(t, key).value);
      assert t[i + 1] == Entry(key, Get(t, key).value);
    }
  }

  lemma FlagEntriesClean(c: Config)
    requires HoursWritable(c) && !PortWritable(c)
    ensures CleanEntries(Entries(ProjectFields(c)))
  {
    var fs := ProjectFields(c);
    ProjectNamesDistinct(c);
    PresentFacts(fs, |fs|);
    var t := Entries(fs);
    forall i | 0 <= i < |t| ensures CleanEntry(t[i]) {
      var k :| 0 <= k < |fs| && Field(t[i].key, Some(t[i].value)) == fs[k];
      if k == 10 {
        BareNames3();
        var word := if c.preferredHttpPort.value.flag then "True" else "False";
        WordUnreadable(word);
        assert word + "" == word;
      } else {
        ProjectPrintable(c, k);
        RenderClean(t[i].value, "");
      }
    }
  }

  predicate CleanSections(ss: seq<Section>) {
    forall i :: 0 <= i < |ss| ==> BarePath(ss[i].path) && CleanEntries(ss[i].entries)
  }

  lemma PrintablesClean(ss: seq<Section>)
    requires PrintableSections(ss)
    ensures CleanSections(ss)
  {
    forall i | 0 <= i < |ss| ensures BarePath(ss[i].path) && CleanEntries(ss[i].entries) { PrintableClean(ss[i]); }
  }

  lemma CleanFirst(s: Section, ss: seq<Section>)
    requires BarePath(s.path) && CleanEntries(s.entries) && CleanSections(ss)
    ensures CleanSections([s] + ss)
  {
  }

  lemma FlagSectionsClean(h: Host, c: Config)
    requires HoursWritable(c) && !PortWritable(c) && RemotesMade(h, c.remoteInstances)
    ensures CleanSections([Section(["project"], Entries(ProjectFields(c)))] + OtherSections(c))
  {
    FlagEntriesClean(c);
    BareNames5();
    OthersPrintable(h, c);
    PrintablesClean(OtherSections(c));
    CleanFirst(Section(["project"], Entries(ProjectFields(c))), OtherSections(c));
  }

  lemma BadLine(ls: seq<Line>, k: nat)
    requires k < |ls| && (forall i :: 0 <= i < |ls| ==> CleanLine(RenderLine(ls[i])))
    requires ParseLine(RenderLine(ls[k])) == None
    ensures ParseSections(Concat(RenderLines(ls))) == None
  {
    var lines := RenderLines(ls);
    SplitConcat(lines);
    NoReturn(lines);
    UnixAlready(Concat(lines));
    TraverseFacts(lines + [""], ParseLine);
    assert ParseLine((lines + [""])[k]) == None;
  }

  lemma EntryLine(ss: seq<Section>, i: nat)
    requires ss != [] && i < |ss[0].entries|
    ensures 1 + i < |LinesOf(ss)| && LinesOf(ss)[1 + i] == Pair(ss[0].entries[i])
  {
    assert Pairs(ss[0].entries)[i] == Pair(ss[0].entries[i]);
  }

  lemma BadEntry(ss: seq<Section>, i: nat)
    requires ss != [] && CleanSections(ss) && i < |ss[0].entries|
    requires ParseLine(RenderLine(Pair(ss[0].entries[i]))) == None
    ensures ParseSections(Print(ss)) == None
  {
    SectionLinesClean(ss);
    EntryLine(ss, i);
    BadLine(LinesOf(ss), 1 + i);
  }

  lemma WordEntryUnreadable(key: string, word: string)
    requires BareKey(key) && (word == "True" || word == "False")
    ensures ParseLine(RenderLine(Pair(Entry(key, Float(word))))) == None
  {
    WordUnreadable(word);
    PairUnreadable(key, word);
    assert word + "" == word;
  }

  lemma FlagEntry(c: Config) returns (i: nat)
    requires !PortWritable(c)
    ensures i < |Entries(ProjectFields(c))| && ParseLine(RenderLine(Pair(Entries(ProjectFields(c))[i]))) == None
  {
    var es := Entries(ProjectFields(c));
    ProjectHolds(c);
    var word := if c.preferredHttpPort.value.flag then "True" else "False";
    i := Index(es, "preferred_http_port");
    BareNames3();
    WordEntryUnreadable("preferred_http_port", word);
  }

  lemma Index(t: Table, key: string) returns (i: nat)
    requires Get(t, key).Some?
    ensures i < |t| && t[i] == Entry(key, Get(t, key).value)
  {
    Found(t, key);
    i :| 0 <= i < |t| && t[i] == Entry(key, Get(t, key).value);
  }

  /** `preferred_http_port = true` loads, but what is then written cannot be read again. */
  lemma FlagUnreadable(h: Host, project: string, c: Config)
    requires Made(h, c) && !PortWritable(c)
    ensures Load(h, project, Some(Print(Sections(c)))) == Err(Unreadable)
  {
    MadeHours(h, c);
    OthersPrintable(h, c);
    FlagSectionsClean(h, c);
    var i := FlagEntry(c);
    BadEntry(Sections(c), i);
  }
}

/** What every loaded configuration is like, and how historical manifests are read. */
module ManifestLoading {
  import opened Text
  import opened Sorting
  import opened Toml
  import opened Manifest
  import opened ManifestRoundTrip

  // ---------------------------------------------------------------- loaded configurations

  lemma {:induction false} UniqueFrom(xs: seq<string>, canon: string -> Option<string>, seen: set<string>)
    requires Unique(xs, canon, Itself, seen).Some?
    ensures forall i :: 0 <= i < |Unique(xs, canon, Itself, seen).value| ==>
      Unique(xs, canon, Itself, seen).value[i] in xs
    decreases |xs|
  {
    if xs != [] {
      if canon(xs[0]).value in seen {
        UniqueFrom(xs[1..], canon, seen);
      } else {
        UniqueFrom(xs[1..], canon, seen + {canon(xs[0]).value});
      }
    }
  }

  lemma PathListPaths(h: Host, v: Option<Value>)
    requires Lawful(h) && PathList(h, v).Some?
    ensures ArePaths(h, PathList(h, v).value)
  {
    var ps := PathList(h, v).value;
    if v.Some? {
      var items := v.value.items;
      forall i | 0 <= i < |ps| ensures h.path(ps[i]) == ps[i] { assert ps[i] == h.path(TextOf(h, items[i])); }
    }
  }

  lemma KeptPaths(h: Host, xs: seq<string>, canon: string -> Option<string>)
    requires ArePaths(h, xs) && Unique(xs, canon, Itself, {}).Some?
    ensures ArePaths(h, Unique(xs, canon, Itself, {}).value)
  {
    UniqueFrom(xs, canon, {});
    var ys := Unique(xs, canon, Itself, {}).value;
    forall i | 0 <= i < |ys| ensures h.path(ys[i]) == ys[i] { assert ys[i] in xs; }
  }

  lemma NewRemoteMade(h: Host, r: Remote)
    requires Lawful(h) && NewRemote(h, r).Some?
    ensures RemoteMade(h, NewRemote(h, r).value)
  {
    NameKept(h, NewRemote(h, r).value.name);
  }

  lemma ReadRemoteMade(h: Host, e: Entry)
    requires Lawful(h) && ReadRemote(h, e).Some?
    ensures RemoteMade(h, ReadRemote(h, e).value)
  {
    var t := e.value.entries;
    var base, database, branch := Get(t, "base_url"), Get(t, "database"), Get(t, "git_branch");
    var name, url := NormalName(h, e.key).value, h.url(base.value.text, false).value;
    NewRemoteMade(h, Remote(name, url, TextIfAny(database), branch.value.text));
  }

  lemma RemotesReadMade(h: Host, v: Option<Value>)
    requires Lawful(h) && ReadRemotes(h, v).Ok?
    ensures RemotesMade(h, ReadRemotes(h, v).value)
  {
    if v.Some? {
      var es := Sort(v.value.entries, LowerKey(h));
      TraverseFacts(es, Reader(h));
      var rs := ReadRemotes(h, v).value;
      forall i | 0 <= i < |rs| ensures RemoteMade(h, rs[i]) {
        assert Reader(h)(es[i]) == Some(rs[i]);
        ReadRemoteMade(h, es[i]);
      }
    }
  }

  predicate TestNormal(h: Host, t: Option<TestInstance>) {
    t.Some? ==> NewTestInstance(h, t.value).Some? && TestReadable(h, t)
  }

  lemma TestReadNormal(h: Host, v: Option<Value>)
    requires Lawful(h) && ReadTestInstance(h, v).Ok?
    ensures TestNormal(h, ReadTestInstance(h, v).value)
  {
  }

  predicate UrlNormal(h: Host, u: Option<string>) { u.Some? ==> NonBlank(u.value) && h.url(u.value, true) == u }

  /** What every list of fields read from a manifest satisfies. */
  predicate FieldsTyped(h: Host, c: Config) {
    WellTyped(h, c) && PythonReadable(h, c.python) && TestReadable(h, c.testInstance) && UrlNormal(h, c.ticketBaseUrl)
  }

  lemma PythonTyped(h: Host, v: Option<Value>)
    requires Lawful(h)
    ensures var p := PythonField(h, v);
      PythonReadable(h, p) && (p.Some? && p.value.AtPath? ==> h.path(p.value.text) == p.value.text)
  {
  }

  lemma HoursTyped(h: Host, v: Option<Value>)
    requires Lawful(h) && FloatOrNone(h, v).Ok?
    ensures var t := FloatOrNone(h, v).value; t.Some? && h.positive(t.value) ==> IsFloat(h, t.value)
  {
  }

  lemma UrlTyped(h: Host, u: Option<string>)
    requires Lawful(h) && TicketUrl(h, u).Ok?
    ensures UrlNormal(h, TicketUrl(h, u).value)
  {
  }

  lemma ReadTyped(h: Host, root: string, get: Getter, pg: Option<Value>, test: Option<Value>, remotes: Option<Value>)
    requires Lawful(h) && ReadFields(h, root, get, pg, test, remotes).Ok?
    ensures FieldsTyped(h, ReadFields(h, root, get, pg, test, remotes).value)
  {
    RemotesReadMade(h, OrElse(remotes, get("remote_instances")));
    TestReadNormal(h, OrElse(test, get("test_instance")));
    PathListPaths(h, get("addon_repositories"));
    PathListPaths(h, get("addon_roots"));
    PythonTyped(h, get("python"));
    HoursTyped(h, get("refresh_after_hours"));
    UrlTyped(h, TicketFields(h, get).value.url);
  }

  lemma ConstructTyped(h: Host, c: Config)
    requires FieldsTyped(h, c) && Construct(h, c).Ok?
    ensures FieldsTyped(h, Construct(h, c).value)
  {
    KeptPaths(h, c.addonRepositories, InsideOf(h, h.resolve(c.repositoryRoot)));
    KeptPaths(h, c.addonRoots, AddonOf(h, h.resolve(c.repositoryRoot)));
  }

  /** Whatever the parsed document holds, a configuration that it loads to is a proper object: constructing it
      again changes nothing, and its URLs and paths are normal forms. */
  lemma DocumentIsMade(h: Host, project: string, data: Table)
    requires Lawful(h) && FromDocument(h, h.resolve(project), data).Ok?
    ensures var c := FromDocument(h, h.resolve(project), data).value;
      Made(h, c) && FieldsTyped(h, c) && c.repositoryRoot == h.resolve(project)
  {
    var section := Get(data, "project");
    var es := if section.Some? then section.value.entries else data;
    var root, pg, ti, rs := h.resolve(project), Get(data, "postgres"), Get(data, "test_instance"),
      Get(data, "remote_instances");
    ReadTyped(h, root, GetterOf(es), pg, ti, rs);
    var raw := ReadFields(h, root, GetterOf(es), pg, ti, rs).value;
    ConstructTyped(h, raw);
    ConstructIdempotent(h, raw);
  }

  lemma LoadedIsMade(h: Host, project: string, text: string)
    requires Lawful(h) && Load(h, project, Some(text)).Ok?
    ensures Made(h, Load(h, project, Some(text)).value)
    ensures FieldsTyped(h, Load(h, project, Some(text)).value)
  {
    DocumentIsMade(h, project, Parse(text).value);
  }

  /** The settings that a loaded configuration can lose when it is written again: control characters,
      a port given as a boolean, and a ticket URL without an explicit switch. */
  predicate Rewritable(c: Config) {
    FreeConfig(c) && PortWritable(c) && (c.ticketBaseUrl.Some? ==> c.ticketLinkEnabled.Some?)
  }

  /** For every document a TOML reader can produce: rewriting what it loads to keeps all settings
      if and only if the configuration is rewritable. */
  lemma RewriteKeepsSettings(h: Host, project: string, data: Table)
    requires Lawful(h) && FromDocument(h, h.resolve(project), data).Ok?
    ensures var c := FromDocument(h, h.resolve(project), data).value;
      Load(h, project, Some(Print(Sections(c)))) == Ok(Normal(h, project, c)) <==> Rewritable(c)
  {
    DocumentIsMade(h, project, data);
    RoundTrip(h, project, FromDocument(h, h.resolve(project), data).value);
  }

  lemma LoadedRoot(h: Host, project: string, text: string)
    requires Lawful(h) && Load(h, project, Some(text)).Ok?
    ensures Load(h, project, Some(text)).value.repositoryRoot == h.resolve(project)
    ensures h.resolve(Load(h, project, Some(text)).value.repositoryRoot) == h.resolve(project)
  {
    DocumentIsMade(h, project, Parse(text).value);
  }

  // ---------------------------------------------------------------- a port given as a boolean

  function FlagDocument(): seq<Section> { [Section(["project"], [Entry("preferred_http_port", Bool(true))])] }

  lemma FlagText()
    ensures Print(FlagDocument()) == "[project]\n" + "preferred_http_port = true\n"
  {
    var s := FlagDocument()[0];
    var e := s.entries[0];
    HeaderTexts();
    assert LinesOf([s]) == [Header(["project"])] + (Pairs([e]) + []);
    assert Pairs([e]) + [] == [Pair(e)];
    assert RenderLines([Header(["project"])] + [Pair(e)]) == ["[project]"] + [RenderLine(Pair(e))];
    ConcatPlus(["[project]"], [RenderLine(Pair(e))]);
    ConcatOne("[project]");
    ConcatOne(RenderLine(Pair(e)));
    assert Render(Bool(true), "") == "true";
    assert e.key + (" = " + "true") == "preferred_http_port = true";
    assert "[project]" + "\n" == "[project]\n";
    assert "preferred_http_port = true" + "\n" == "preferred_http_port = true\n";
  }

  lemma FlagParses()
    ensures Parse(Print(FlagDocument())) == Some([Entry("project", Tab([Entry("preferred_http_port", Bool(true))]))])
  {
    BareNames3();
    BareNames5();
    var ss := FlagDocument();
    assert PrintableSection(ss[0]);
    PrintReadable(ss);
    DefineNothing();
    var all := [Section([], [])] + ss;
    assert all[1..] == ss;
    DefineOne([], "project", ss[0].entries);
    assert [] + [Entry("project", Tab(ss[0].entries))] == [Entry("project", Tab(ss[0].entries))];
    assert DistinctPaths(all);
  }

  /** The configuration of a project about which nothing is said but that its port is `true`. */
  function FlagConfig(root: string): Config {
    Config(root, None, None, None, None, None, [], [], [], Some(Flag(true)), [], [], None, None, None, [], None, None,
      None, None)
  }

  predicate OnlyPort(get: Getter) {
    && get("preferred_http_port") == Some(Bool(true))
    && get("test_instance") == None && get("remote_instances") == None && get("odoo_bin") == None
    && get("python") == None
    && get("source_config") == None && get("default_source_database") == None && get("managed_filestore") == None
    && get("addon_repositories") == None && get("addon_roots") == None && get("server_wide_modules") == None
    && get("requirements") == None && get("default_run_args") == None && get("runtime_cwd") == None
    && get("default_base_ref") == None && get("refresh_after_hours") == None
    && get("jira_enabled") == None && get("jira_base_url") == None
    && get("ticket_link_enabled") == None && get("ticket_base_url") == None
  }

  lemma OneEntry(e: Entry, key: string)
    ensures GetterOf([e])(key) == if e.key == key then Some(e.value) else None
  {
    var t := [e];
    assert t[1..] == [];
    assert Get(t[1..], key) == None;
    assert GetterOf(t)(key) == Get(t, key);
  }

  lemma FlagGets(e: Entry, get: Getter)
    requires e == Entry("preferred_http_port", Bool(true)) && get == GetterOf([e])
    ensures OnlyPort(get)
  {
    forall key ensures get(key) == if e.key == key then Some(e.value) else None { OneEntry(e, key); }
    Others(get, e);
  }

  lemma Others(get: Getter, e: Entry)
    requires e == Entry("preferred_http_port", Bool(true))
    requires forall key :: get(key) == if e.key == key then Some(e.value) else None
    ensures OnlyPort(get)
  {
  }

  lemma FlagFields(h: Host, root: string, get: Getter)
    requires OnlyPort(get)
    ensures ReadFields(h, root, get, None, None, None) == Ok(FlagConfig(root))
  {
    assert TicketFields(h, get) == Ok(Ticket(None, None));
  }

  lemma FlagConstructs(h: Host, root: string)
    ensures Construct(h, FlagConfig(root)) == Ok(FlagConfig(root))
  {
  }

  /** The manifest `preferred_http_port = true` loads, and what is then written in its place cannot be read. */
  lemma FlagManifestIsLost(h: Host, project: string)
    requires Lawful(h)
    ensures var text := "[project]\n" + "preferred_http_port = true\n";
      var c := Load(h, project, Some(text));
      c.Ok? && c.value.preferredHttpPort == Some(Flag(true))
      && Load(h, project, Some(Print(Sections(c.value)))) == Err(Unreadable)
  {
    var text, root := Print(FlagDocument()), h.resolve(project);
    FlagText();
    FlagParses();
    var es := [Entry("preferred_http_port", Bool(true))];
    var d := [Entry("project", Tab(es))];
    FlagGets(es[0], GetterOf(es));
    FlagFields(h, root, GetterOf(es));
    FlagConstructs(h, root);
    assert d[1..] == [] && Get(d[1..], "postgres") == None;
    LoadIs(h, project, text, d, es);
    LoadedIsMade(h, project, text);
    FlagUnreadable(h, project, FlagConfig(root));
  }

  // ---------------------------------------------------------------- historical ticket settings

  function NewName(key: string): string {
    if key == "jira_enabled" then "ticket_link_enabled" else if key == "jira_base_url" then "ticket_base_url" else key
  }

  function Renamed(t: Table): Table { seq(|t|, i requires 0 <= i < |t| => Entry(NewName(t[i].key), t[i].value)) }

  /** No current key is there; an address beside a set switch is a string. */
  predicate Historical(t: Table) {
    && Get(t, "ticket_link_enabled") == None && Get(t, "ticket_base_url") == None
    && (Get(t, "jira_enabled") == Some(Bool(true)) ==> StrIfAny(Get(t, "jira_base_url")))
  }

  lemma {:induction false} RenamedGet(t: Table, key: string)
    requires NewName(key) == key && key != "ticket_link_enabled" && key != "ticket_base_url"
    ensures Get(Renamed(t), key) == Get(t, key)
  {
    if t != [] {
      assert Renamed(t)[1..] == Renamed(t[1..]);
      RenamedGet(t[1..], key);
    }
  }

  lemma {:induction false} RenamedGone(t: Table)
    ensures Get(Renamed(t), "jira_enabled") == None && Get(Renamed(t), "jira_base_url") == None
  {
    if t != [] {
      assert Renamed(t)[1..] == Renamed(t[1..]);
      RenamedGone(t[1..]);
    }
  }

  lemma {:induction false} RenamedTicket(t: Table)
    requires Get(t, "ticket_link_enabled") == None && Get(t, "ticket_base_url") == None
    ensures Get(Renamed(t), "ticket_link_enabled") == Get(t, "jira_enabled")
    ensures Get(Renamed(t), "ticket_base_url") == Get(t, "jira_base_url")
  {
    if t != [] {
      assert Renamed(t)[1..] == Renamed(t[1..]);
      RenamedTicket(t[1..]);
    }
  }

  /** Reading the historical keys fails early in one case that the current keys leave to the constructor. */
  lemma TicketRenamed(h: Host, t: Table)
    requires Historical(t)
    ensures var before, after := TicketFields(h, GetterOf(t)), TicketFields(h, GetterOf(Renamed(t)));
      || before == after
      || (&& before == Err(Invalid) && after.Ok? && after.value.enabled == Some(true)
          && TicketUrl(h, after.value.url) == Ok(None))
  {
    RenamedGone(t);
    RenamedTicket(t);
  }

  predicate SameOtherKeys(f: Getter, g: Getter) {
    && f("test_instance") == g("test_instance") && f("remote_instances") == g("remote_instances")
    && f("odoo_bin") == g("odoo_bin")
    && f("python") == g("python") && f("source_config") == g("source_config")
    && f("default_source_database") == g("default_source_database") && f("managed_filestore") == g("managed_filestore")
    && f("addon_repositories") == g("addon_repositories") && f("addon_roots") == g("addon_roots")
    && f("server_wide_modules") == g("server_wide_modules") && f("preferred_http_port") == g("preferred_http_port")
    && f("requirements") == g("requirements") && f("default_run_args") == g("default_run_args")
    && f("runtime_cwd") == g("runtime_cwd") && f("default_base_ref") == g("default_base_ref")
    && f("refresh_after_hours") == g("refresh_after_hours")
  }

  lemma RenamedKeeps(t: Table)
    ensures SameOtherKeys(GetterOf(t), GetterOf(Renamed(t)))
  {
    RenamedGet(t, "test_instance");
    RenamedGet(t, "remote_instances");
    RenamedGet(t, "odoo_bin");
    RenamedGet(t, "python");
    RenamedGet(t, "source_config");
    RenamedGet(t, "default_source_database");
    RenamedGet(t, "managed_filestore");
    RenamedGet(t, "addon_repositories");
    RenamedGet(t, "addon_roots");
    RenamedGet(t, "server_wide_modules");
    RenamedGet(t, "preferred_http_port");
    RenamedGet(t, "requirements");
    RenamedGet(t, "default_run_args");
    RenamedGet(t, "runtime_cwd");
    RenamedGet(t, "default_base_ref");
    RenamedGet(t, "refresh_after_hours");
  }

  lemma SameFields(h: Host, root: string, f: Getter, g: Getter, pg: Option<Value>, ti: Option<Value>, rs: Option<Value>)
    requires SameOtherKeys(f, g) && TicketFields(h, f) == TicketFields(h, g)
    ensures ReadFields(h, root, f, pg, ti, rs) == ReadFields(h, root, g, pg, ti, rs)
  {
  }

  lemma EnabledNeedsUrl(h: Host, root: string, get: Getter, pg: Option<Value>, ti: Option<Value>, rs: Option<Value>)
    requires TicketFields(h, get).Ok? && TicketFields(h, get).value.enabled == Some(true)
    requires TicketUrl(h, TicketFields(h, get).value.url) == Ok(None)
    ensures var r := ReadFields(h, root, get, pg, ti, rs);
      r == Err(Invalid) || (r.Ok? && Construct(h, r.value) == Err(Invalid))
  {
    var r := ReadFields(h, root, get, pg, ti, rs);
    if r.Ok? { assert !Acceptable(h, r.value); }
  }

  /** A manifest with the historical ticket keys is read exactly as the same manifest with the keys renamed. */
  lemma HistoricalIsRenamed(h: Host, root: string, t: Table, pg: Option<Value>, ti: Option<Value>, rs: Option<Value>)
    requires Historical(t)
    ensures FromMapping(h, root, t, pg, ti, rs) == FromMapping(h, root, Renamed(t), pg, ti, rs)
  {
    TicketRenamed(h, t);
    if TicketFields(h, GetterOf(t)) == TicketFields(h, GetterOf(Renamed(t))) {
      RenamedKeeps(t);
      SameFields(h, root, GetterOf(t), GetterOf(Renamed(t)), pg, ti, rs);
    } else {
      EnabledNeedsUrl(h, root, GetterOf(Renamed(t)), pg, ti, rs);
    }
  }

  /** A switch that is set beside an address that is missing, blank or no string is refused, as its renamed form is when
      the address is missing or blank; a renamed address that is no string is read by its text. */
  lemma IncompleteHistoryRefused(h: Host, root: string, t: Table, pg: Option<Value>, ti: Option<Value>,
                                 rs: Option<Value>)
    requires Get(t, "jira_enabled") == Some(Bool(true))
    requires var u := Get(t, "jira_base_url"); !(u.Some? && u.value.Str? && NonBlank(u.value.text))
    ensures FromMapping(h, root, t, pg, ti, rs) == Err(Invalid)
  {
  }

  /** Historical and current keys are never mixed. */
  lemma MixedKeysRefused(h: Host, root: string, t: Table, pg: Option<Value>, ti: Option<Value>, rs: Option<Value>)
    requires Get(t, "jira_enabled").Some? || Get(t, "jira_base_url").Some?
    requires Get(t, "ticket_link_enabled").Some? || Get(t, "ticket_base_url").Some?
    ensures FromMapping(h, root, t, pg, ti, rs) == Err(Invalid)
  {
  }
}

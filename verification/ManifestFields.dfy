/** What a loaded configuration says, key by key: every field in terms of the entries of the document, and exactly which
    entries and which field values are refused. */
module ManifestFields {
  import opened Text
  import opened Sorting
  import opened Toml
  import opened Manifest
  import opened ManifestRoundTrip

  // ---------------------------------------------------------------- single entries

  /** An optional string entry and the field read from it. */
  predicate StringHeld(v: Option<Value>, s: Option<string>) {
    (v.None? <==> s.None?) && (s.Some? ==> v == Some(Str(s.value)))
  }

  predicate StringOrMissing(v: Option<Value>) { v.None? || v.value.Str? }

  /** The text of an entry: a string's own, Python's spelling of everything else. */
  predicate IsText(h: Host, v: Value, s: string) {
    && (v.Str? ==> s == v.text)
    && (v.Int? ==> s == PrintInt(v.number))
    && (v.Bool? ==> s == if v.flag then "True" else "False")
    && (v.Float? || v.Arr? || v.Tab? ==> s == h.text(v))
  }

  predicate TextHeld(h: Host, v: Option<Value>, s: Option<string>) {
    (v.None? <==> s.None?) && (s.Some? ==> IsText(h, v.value, s.value))
  }

  ghost predicate PathHeld(h: Host, v: Option<Value>, p: Option<string>) {
    (v.None? <==> p.None?) && (p.Some? ==> exists s :: IsText(h, v.value, s) && p.value == h.path(s))
  }

  /** An interpreter is a path exactly when its text starts with a slash, with a dot and a slash, or with a drive. */
  predicate LooksLikePath(s: string) {
    (s != [] && s[0] == '/') || (|s| > 1 && s[0] == '.' && s[1] == '/') || (|s| > 1 && s[1] == ':')
  }

  ghost predicate PythonHeld(h: Host, v: Option<Value>, p: Option<Python>) {
    && (v.None? <==> p.None?)
    && (p.Some? ==>
          exists s :: IsText(h, v.value, s) && p.value == if LooksLikePath(s) then AtPath(h.path(s)) else Command(s))
  }

  /** A list: missing is empty, an array gives its items, anything else is a list of one. */
  predicate ListHeld(h: Host, v: Option<Value>, ss: seq<string>) {
    && (v.None? ==> ss == [])
    && (v.Some? && v.value.Arr? ==>
          |ss| == |v.value.items| && forall i :: 0 <= i < |ss| ==> IsText(h, v.value.items[i], ss[i]))
    && (v.Some? && !v.value.Arr? ==> |ss| == 1 && IsText(h, v.value, ss[0]))
  }

  ghost predicate PathsHeld(h: Host, v: Option<Value>, ps: seq<string>) {
    && (v.None? ==> ps == [])
    && (v.Some? ==> v.value.Arr? && |ps| == |v.value.items|)
    && (v.Some? && v.value.Arr? ==>
          forall i :: 0 <= i < |ps| && i < |v.value.items| ==> PathHeld(h, Some(v.value.items[i]), Some(ps[i])))
  }

  /** A port: an integer or a boolean as it is, anything else by what `int` makes of its text. */
  ghost predicate PortHeld(h: Host, v: Option<Value>, p: Option<Port>) {
    && (v.None? <==> p.None?)
    && (p.Some? && v.value.Int? ==> p.value == Number(v.value.number))
    && (p.Some? && v.value.Bool? ==> p.value == Flag(v.value.flag))
    && (p.Some? && !v.value.Int? && !v.value.Bool? ==>
          exists s :: IsText(h, v.value, s) && h.toInt(s).Some? && p.value == Number(h.toInt(s).value))
  }

  predicate HoursHeld(h: Host, v: Option<Value>, t: Option<string>) {
    (v.None? <==> t.None?) && (t.Some? ==> !v.value.Bool? && h.toFloat(v.value) == t)
  }

  lemma TextIs(h: Host, v: Value)
    ensures IsText(h, v, TextOf(h, v))
  {
  }

  lemma TextIsOne(h: Host, v: Value, s: string)
    requires IsText(h, v, s)
    ensures s == TextOf(h, v)
  {
  }

  lemma TextRead(h: Host, v: Option<Value>)
    ensures TextHeld(h, v, StrOrNone(h, v))
  {
  }

  lemma PathRead(h: Host, v: Option<Value>)
    ensures PathHeld(h, v, PathOrNone(h, v))
  {
    if v.Some? { TextIs(h, v.value); }
  }

  lemma PathLikeIs(s: string)
    ensures PathLike(s) <==> LooksLikePath(s)
  {
    if s != [] { assert s[..1] == [s[0]]; }
    if |s| > 1 { assert s[..2] == [s[0], s[1]]; }
  }

  lemma PythonRead(h: Host, v: Option<Value>)
    ensures PythonHeld(h, v, PythonField(h, v))
  {
    if v.Some? { TextIs(h, v.value); PathLikeIs(TextOf(h, v.value)); }
  }

  lemma ListRead(h: Host, v: Option<Value>)
    ensures ListHeld(h, v, StrList(h, v))
  {
    if v.Some? && v.value.Arr? {
      forall i | 0 <= i < |v.value.items| ensures IsText(h, v.value.items[i], StrList(h, v)[i]) {
        TextIs(h, v.value.items[i]);
      }
    }
  }

  lemma PathsRead(h: Host, v: Option<Value>)
    ensures PathList(h, v).Some? <==> v.None? || v.value.Arr?
    ensures PathList(h, v).Some? ==> PathsHeld(h, v, PathList(h, v).value)
  {
    if v.Some? && v.value.Arr? {
      var items, ps := v.value.items, PathList(h, v).value;
      forall i | 0 <= i < |ps| ensures PathHeld(h, Some(items[i]), Some(ps[i])) {
        TextIs(h, items[i]);
        assert ps[i] == h.path(TextOf(h, items[i]));
      }
    }
  }

  lemma PortRead(h: Host, v: Option<Value>)
    ensures IntOrNone(h, v).Ok? ==> PortHeld(h, v, IntOrNone(h, v).value)
    ensures IntOrNone(h, v).Err? ==>
      v.Some? && !v.value.Int? && !v.value.Bool? && forall s :: IsText(h, v.value, s) ==> h.toInt(s).None?
  {
    if v.Some? {
      TextIs(h, v.value);
      forall s | IsText(h, v.value, s) ensures s == TextOf(h, v.value) { TextIsOne(h, v.value, s); }
    }
  }

  lemma HoursRead(h: Host, v: Option<Value>)
    ensures FloatOrNone(h, v).Ok? ==> HoursHeld(h, v, FloatOrNone(h, v).value)
    ensures FloatOrNone(h, v).Err? ==> v.Some? && (v.value.Bool? || h.toFloat(v.value).None?)
  {
  }

  // ---------------------------------------------------------------- the ticket link

  /** The keys that count: the historical ones when one of them is there. */
  function TicketKey(get: Getter, current: string, historical: string): Option<Value> {
    if get("jira_enabled") == None && get("jira_base_url") == None then get(current) else get(historical)
  }

  ghost predicate UrlHeld(h: Host, v: Option<Value>, u: Option<string>) {
    && (v.None? ==> u.None?)
    && (v.Some? ==> exists s :: IsText(h, v.value, s) && u == if Strip(s) == "" then None else h.url(s, true))
    && (u.None? && v.Some? ==> exists s :: IsText(h, v.value, s) && Strip(s) == "")
  }

  predicate SwitchHeld(v: Option<Value>, e: Option<bool>) {
    (v.None? <==> e.None?) && (e.Some? ==> v == Some(Bool(e.value)))
  }

  lemma TicketRead(h: Host, get: Getter)
    ensures TicketFields(h, get).Ok? && TicketUrl(h, TicketFields(h, get).value.url).Ok? <==> TicketAccepted(h, get)
    ensures TicketFields(h, get).Ok? && TicketUrl(h, TicketFields(h, get).value.url).Ok? ==>
      && SwitchHeld(TicketKey(get, "ticket_link_enabled", "jira_enabled"), TicketFields(h, get).value.enabled)
      && UrlHeld(h, TicketKey(get, "ticket_base_url", "jira_base_url"),
                 TicketUrl(h, TicketFields(h, get).value.url).value)
  {
    var v := TicketKey(get, "ticket_base_url", "jira_base_url");
    if v.Some? {
      TextIs(h, v.value);
      forall s | IsText(h, v.value, s) ensures s == TextOf(h, v.value) { TextIsOne(h, v.value, s); }
    }
  }

  // ---------------------------------------------------------------- sections

  /** What `[postgres]` says: without a mode it is external, and a section that says nothing is none. */
  predicate PostgresHeld(v: Option<Value>, p: Option<Postgres>) {
    && (v == None ==> p == None)
    && (v.Some? ==> v.value.Tab?)
    && (v.Some? && v.value.Tab? ==>
          var t := v.value.entries;
          && (p.None? <==> Get(t, "mode") != Some(Str("compose"))
                           && Get(t, "image") == None && Get(t, "port") == None && Get(t, "user") == None)
          && (p.Some? ==>
                && (p.value.mode == Compose <==> Get(t, "mode") == Some(Str("compose")))
                && StringHeld(Get(t, "image"), p.value.image) && StringHeld(Get(t, "user"), p.value.user)
                && (p.value.port.None? <==> Get(t, "port") == None)
                && (p.value.port.Some? ==> Get(t, "port") == Some(Int(p.value.port.value)))))
  }

  lemma PostgresLoaded(v: Option<Value>)
    ensures ReadPostgres(v).Ok? <==> PostgresAccepted(v)
    ensures ReadPostgres(v).Ok? ==> PostgresHeld(v, ReadPostgres(v).value)
  {
  }

  /** What `[test_instance]` says. */
  predicate TestHeld(h: Host, v: Option<Value>, r: Option<TestInstance>) {
    && (v == None <==> r == None)
    && (v.Some? ==> v.value.Tab?)
    && (r.Some? && v.value.Tab? ==>
          var t := v.value.entries;
          && Get(t, "base_url").Some? && Get(t, "base_url").value.Str?
          && h.url(Get(t, "base_url").value.text, false) == Some(r.value.baseUrl)
          && StringHeld(Get(t, "database"), r.value.database) && StringHeld(Get(t, "git_branch"), r.value.gitBranch))
  }

  lemma TestInstanceLoaded(h: Host, v: Option<Value>)
    requires Lawful(h)
    ensures ReadTestInstance(h, v).Ok? <==> TestAccepted(h, v)
    ensures ReadTestInstance(h, v).Ok? ==> TestHeld(h, v, ReadTestInstance(h, v).value)
  {
  }

  /** An address that can be normalised, and a database and a branch that are not blank if they are there. */
  predicate SourceEntries(h: Host, t: Table) {
    && Get(t, "base_url").Some? && Get(t, "base_url").value.Str?
    && h.url(Get(t, "base_url").value.text, false).Some?
    && StringOrMissing(Get(t, "database")) && StringOrMissing(Get(t, "git_branch"))
    && (Get(t, "database").Some? ==> Strip(Get(t, "database").value.text) != "")
    && (Get(t, "git_branch").Some? ==> Strip(Get(t, "git_branch").value.text) != "")
  }

  /** A source name: a lower-case letter, then lower-case letters, digits and underscores. */
  predicate SourceName(n: string) {
    && |n| > 0 && 'a' <= n[0] <= 'z'
    && forall i :: 0 <= i < |n| ==> 'a' <= n[i] <= 'z' || '0' <= n[i] <= '9' || n[i] == '_'
  }

  /** What `[remote_instances.NAME]` says: here the branch must be there. */
  predicate SourceHeld(h: Host, e: Entry, r: Remote) {
    && e.value.Tab? && Get(e.value.entries, "base_url").Some? && Get(e.value.entries, "base_url").value.Str?
    && r.name == h.lower(Strip(e.key))
    && h.url(Get(e.value.entries, "base_url").value.text, false) == Some(r.baseUrl)
    && StringHeld(Get(e.value.entries, "database"), r.database)
    && Get(e.value.entries, "git_branch") == Some(Str(r.gitBranch))
  }

  lemma NormalNameIs(h: Host, name: string)
    requires Lawful(h)
    ensures NormalName(h, name) == if SourceName(h.lower(Strip(name))) then Some(h.lower(Strip(name))) else None
    ensures NormalName(h, name).Some? ==> NormalName(h, NormalName(h, name).value) == NormalName(h, name)
  {
    var n := h.lower(Strip(name));
    assert RemoteName(n) <==> SourceName(n);
    if RemoteName(n) { NameKept(h, n); }
  }

  predicate SourceAccepted(h: Host, e: Entry) {
    && e.value.Tab?
    && (forall i :: 0 <= i < |e.value.entries| ==> e.value.entries[i].key in ["base_url", "database", "git_branch"])
    && SourceEntries(h, e.value.entries) && Get(e.value.entries, "git_branch").Some?
    && SourceName(h.lower(Strip(e.key)))
  }

  lemma SourceLoaded(h: Host, e: Entry)
    requires Lawful(h)
    ensures ReadRemote(h, e).Some? <==> SourceAccepted(h, e)
    ensures ReadRemote(h, e).Some? ==> SourceHeld(h, e, ReadRemote(h, e).value)
  {
    NormalNameIs(h, e.key);
  }

  predicate InKeyOrder(h: Host, es: Table) {
    forall i, j :: 0 <= i < j < |es| ==> !Less(h.lower(es[j].key), h.lower(es[i].key))
  }

  /** These are the given entries in the order of their lower-case keys, and these are the sources they describe. */
  predicate DescribedBy(h: Host, entries: Table, es: Table, rs: seq<Remote>) {
    && InKeyOrder(h, es) && multiset(es) == multiset(entries) && |es| == |rs|
    && forall i :: 0 <= i < |rs| ==> SourceHeld(h, es[i], rs[i])
  }

  ghost predicate SourcesHeld(h: Host, v: Option<Value>, rs: seq<Remote>) {
    && (v == None ==> rs == [])
    && (v.Some? ==> v.value.Tab? && exists es :: DescribedBy(h, v.value.entries, es, rs))
  }

  lemma SortedEntries(h: Host, entries: Table)
    ensures var es := Sort(entries, LowerKey(h)); InKeyOrder(h, es) && multiset(es) == multiset(entries)
  {
    var es := Sort(entries, LowerKey(h));
    SortFacts(entries, LowerKey(h));
    forall i, j | 0 <= i < j < |es| ensures !Less(h.lower(es[j].key), h.lower(es[i].key)) {
      assert AtMost(LowerKey(h)(es[i]), LowerKey(h)(es[j]));
    }
  }

  /** The sources are those of the entries; one entry that is not accepted refuses them all. */
  lemma SourcesLoaded(h: Host, v: Option<Value>)
    requires Lawful(h)
    ensures ReadRemotes(h, v).Ok? <==> SourcesAccepted(h, v)
    ensures ReadRemotes(h, v).Ok? ==> SourcesHeld(h, v, ReadRemotes(h, v).value)
  {
    if v.Some? && v.value.Tab? {
      var es := Sort(v.value.entries, LowerKey(h));
      SortedEntries(h, v.value.entries);
      SameItems(es, v.value.entries);
      TraverseFacts(es, Reader(h));
      forall i | 0 <= i < |es|
        ensures Reader(h)(es[i]).Some? <==> SourceAccepted(h, es[i])
        ensures Reader(h)(es[i]).Some? ==> SourceHeld(h, es[i], Reader(h)(es[i]).value)
      {
        SourceLoaded(h, es[i]);
      }
      if ReadRemotes(h, v).Ok? {
        forall e | e in v.value.entries ensures SourceAccepted(h, e) { assert e in es; }
        assert DescribedBy(h, v.value.entries, es, ReadRemotes(h, v).value);
      } else {
        var i :| 0 <= i < |es| && Reader(h)(es[i]).None?;
        assert es[i] in es;
      }
    }
  }

  // ---------------------------------------------------------------- construction

  /** The items at these places are the ones whose form no earlier item has. */
  predicate FirstPlaces(xs: seq<string>, form: string -> Option<string>, places: seq<nat>) {
    && (forall k :: 0 <= k < |places| ==> places[k] < |xs|)
    && (forall k, l :: 0 <= k < l < |places| ==> places[k] < places[l])
    && (forall i :: 0 <= i < |xs| ==> (i in places <==> forall j :: 0 <= j < i ==> form(xs[j]) != form(xs[i])))
  }

  predicate KeptAt(xs: seq<string>, keep: string -> string, places: seq<nat>, ys: seq<string>) {
    |ys| == |places| && forall k :: 0 <= k < |ys| && places[k] < |xs| ==> ys[k] == keep(xs[places[k]])
  }

  /** First occurrences only, in order. */
  ghost predicate FirstsOf(xs: seq<string>, form: string -> Option<string>, keep: string -> string, ys: seq<string>) {
    exists places :: FirstPlaces(xs, form, places) && KeptAt(xs, keep, places, ys)
  }

  lemma {:induction false} KeepsUnlessFormless(xs: seq<string>, form: string -> Option<string>, keep: string -> string,
                                               seen: set<string>)
    ensures Unique(xs, form, keep, seen).Some? <==> forall i :: 0 <= i < |xs| ==> form(xs[i]).Some?
    decreases |xs|
  {
    if xs != [] {
      var others := if form(xs[0]).None? then seen else seen + {form(xs[0]).value};
      KeepsUnlessFormless(xs[1..], form, keep, others);
      KeepsUnlessFormless(xs[1..], form, keep, seen);
      assert forall i :: 0 < i < |xs| ==> xs[i] == xs[1..][i - 1];
    }
  }

  /** The same from the `n`-th item on, when the forms before it have been seen. */
  predicate FirstPlacesFrom(xs: seq<string>, n: nat, form: string -> Option<string>, places: seq<nat>) {
    && (forall k :: 0 <= k < |places| ==> n <= places[k] < |xs|)
    && (forall k, l :: 0 <= k < l < |places| ==> places[k] < places[l])
    && (forall i :: n <= i < |xs| ==> (i in places <==> NewAt(xs, form, i)))
  }

  predicate NewAt(xs: seq<string>, form: string -> Option<string>, i: nat)
    requires i < |xs|
  {
    forall j :: 0 <= j < i ==> form(xs[j]) != form(xs[i])
  }

  ghost predicate SeenUpTo(xs: seq<string>, n: nat, form: string -> Option<string>, seen: set<string>)
    requires n <= |xs|
  {
    && (forall j :: 0 <= j < n && form(xs[j]).Some? ==> form(xs[j]).value in seen)
    && (forall k :: k in seen ==> exists j :: 0 <= j < n && form(xs[j]) == Some(k))
  }

  lemma SeenNext(xs: seq<string>, n: nat, form: string -> Option<string>, seen: set<string>)
    requires n < |xs| && SeenUpTo(xs, n, form, seen) && form(xs[n]).Some?
    ensures SeenUpTo(xs, n + 1, form, seen + {form(xs[n]).value})
    ensures NewAt(xs, form, n) <==> form(xs[n]).value !in seen
  {
    var next := seen + {form(xs[n]).value};
    forall k | k in next ensures exists j :: 0 <= j < n + 1 && form(xs[j]) == Some(k) {
      if k in seen { var j :| 0 <= j < n && form(xs[j]) == Some(k); }
    }
    if form(xs[n]).value in seen { var j :| 0 <= j < n && form(xs[j]) == Some(form(xs[n]).value); }
  }

  lemma {:induction false} PlacesFrom(xs: seq<string>, n: nat, form: string -> Option<string>, keep: string -> string,
                                      seen: set<string>) returns (places: seq<nat>)
    requires n <= |xs| && SeenUpTo(xs, n, form, seen) && Unique(xs[n..], form, keep, seen).Some?
    ensures FirstPlacesFrom(xs, n, form, places) && KeptAt(xs, keep, places, Unique(xs[n..], form, keep, seen).value)
    decreases |xs| - n
  {
    places := [];
    if n < |xs| {
      assert xs[n..][1..] == xs[n + 1..];
      var k := form(xs[n]).value;
      SeenNext(xs, n, form, seen);
      if k in seen {
        assert seen + {k} == seen;
        places := PlacesFrom(xs, n + 1, form, keep, seen);
        NoPlaceMore(xs, n, form, places);
      } else {
        var others := PlacesFrom(xs, n + 1, form, keep, seen + {k});
        places := [n] + others;
        OnePlaceMore(xs, n, form, others);
        KeptMore(xs, n, keep, others, Unique(xs[n + 1..], form, keep, seen + {k}).value);
      }
    }
  }

  lemma KeptMore(xs: seq<string>, n: nat, keep: string -> string, others: seq<nat>, ys: seq<string>)
    requires n < |xs| && KeptAt(xs, keep, others, ys)
    ensures KeptAt(xs, keep, [n] + others, [keep(xs[n])] + ys)
  {
  }

  lemma NoPlaceMore(xs: seq<string>, n: nat, form: string -> Option<string>, others: seq<nat>)
    requires n < |xs| && FirstPlacesFrom(xs, n + 1, form, others) && !NewAt(xs, form, n)
    ensures FirstPlacesFrom(xs, n, form, others)
  {
    assert n !in others;
  }

  lemma OnePlaceMore(xs: seq<string>, n: nat, form: string -> Option<string>, others: seq<nat>)
    requires n < |xs| && FirstPlacesFrom(xs, n + 1, form, others) && NewAt(xs, form, n)
    ensures FirstPlacesFrom(xs, n, form, [n] + others)
  {
    var places := [n] + others;
    forall i | n <= i < |xs| ensures i in places <==> NewAt(xs, form, i) {
      assert i in places <==> i == n || i in others;
    }
  }

  /** The loops of the constructor keep the first item of each form, in order, and fail on an item without one. */
  lemma KeepsFirsts(xs: seq<string>, form: string -> Option<string>, keep: string -> string)
    ensures Unique(xs, form, keep, {}).Some? <==> forall i :: 0 <= i < |xs| ==> form(xs[i]).Some?
    ensures Unique(xs, form, keep, {}).Some? ==> FirstsOf(xs, form, keep, Unique(xs, form, keep, {}).value)
  {
    KeepsUnlessFormless(xs, form, keep, {});
    if Unique(xs, form, keep, {}).Some? {
      assert xs[0..] == xs;
      var places := PlacesFrom(xs, 0, form, keep, {});
      assert FirstPlaces(xs, form, places) by {
        forall i | 0 <= i < |xs| ensures i in places <==> forall j :: 0 <= j < i ==> form(xs[j]) != form(xs[i]) {
          assert i in places <==> NewAt(xs, form, i);
        }
      }
    }
  }

  /** The field values that the constructor refuses, one by one. */
  predicate Acceptance(h: Host, c: Config) {
    var root := h.resolve(c.repositoryRoot);
    && (c.defaultSourceDatabase == None || h.databaseName(c.defaultSourceDatabase.value))
    && (c.managedFilestore == None || h.inside(root, c.managedFilestore.value) != None)
    && (forall i :: 0 <= i < |c.addonRepositories| ==> h.inside(root, c.addonRepositories[i]) != None)
    && (forall i :: 0 <= i < |c.addonRoots| ==> h.absolute(c.addonRoots[i]) || h.inside(root, c.addonRoots[i]) != None)
    && (forall i :: 0 <= i < |c.serverWideModules| ==>
          Strip(c.serverWideModules[i]) != "" && ',' !in c.serverWideModules[i])
    && (c.defaultBaseRef == None || Strip(c.defaultBaseRef.value) != "")
    && (c.refreshAfterHours == None || h.positive(c.refreshAfterHours.value))
    && (c.ticketBaseUrl == None || Strip(c.ticketBaseUrl.value) == "" || h.url(c.ticketBaseUrl.value, true) != None)
    && !(c.ticketLinkEnabled == Some(true) && c.ticketBaseUrl == None)
    && (forall i, j :: 0 <= i < j < |c.remoteInstances| ==> c.remoteInstances[i].name != c.remoteInstances[j].name)
  }

  function RepositoryForm(h: Host, root: string): string -> Option<string> { (p: string) => h.inside(root, p) }

  function RootForm(h: Host, root: string): string -> Option<string> {
    (p: string) => if h.absolute(p) then Some(h.resolve(p)) else h.inside(root, p)
  }

  function Unchanged(): string -> string { (p: string) => p }

  function ModuleForm(): string -> Option<string> {
    (m: string) => if Strip(m) == "" || ',' in m then None else Some(Strip(m))
  }

  lemma FirstsSame(xs: seq<string>, f: string -> Option<string>, keep: string -> string,
                   g: string -> Option<string>, same: string -> string, ys: seq<string>)
    requires FirstsOf(xs, f, keep, ys) && forall s :: f(s) == g(s) && keep(s) == same(s)
    ensures FirstsOf(xs, g, same, ys)
  {
    var places :| FirstPlaces(xs, f, places) && KeptAt(xs, keep, places, ys);
    assert FirstPlaces(xs, g, places) && KeptAt(xs, same, places, ys);
  }

  /** What the constructor accepts and what it changes: only later items of an equal form go, and module names are
      stripped. */
  lemma ConstructsExactlyWhen(h: Host, c: Config)
    ensures Construct(h, c).Ok? <==> Acceptance(h, c)
    ensures Construct(h, c).Ok? ==>
      var d, root := Construct(h, c).value, h.resolve(c.repositoryRoot);
      && d == c.(addonRepositories := d.addonRepositories, addonRoots := d.addonRoots,
                 serverWideModules := d.serverWideModules)
      && FirstsOf(c.addonRepositories, RepositoryForm(h, root), Unchanged(), d.addonRepositories)
      && FirstsOf(c.addonRoots, RootForm(h, root), Unchanged(), d.addonRoots)
      && FirstsOf(c.serverWideModules, ModuleForm(), Strip, d.serverWideModules)
  {
    var root := h.resolve(c.repositoryRoot);
    KeepsFirsts(c.addonRepositories, InsideOf(h, root), Itself);
    KeepsFirsts(c.addonRoots, AddonOf(h, root), Itself);
    KeepsFirsts(c.serverWideModules, ModuleName, Strip);
    FormsAre(h, root);
    AcceptanceIs(h, c);
    if Construct(h, c).Ok? {
      var d := Construct(h, c).value;
      FirstsSame(c.addonRepositories, InsideOf(h, root), Itself, RepositoryForm(h, root), Unchanged(),
                 d.addonRepositories);
      FirstsSame(c.addonRoots, AddonOf(h, root), Itself, RootForm(h, root), Unchanged(), d.addonRoots);
      FirstsSame(c.serverWideModules, ModuleName, Strip, ModuleForm(), Strip, d.serverWideModules);
    }
  }

  lemma FormsAre(h: Host, root: string)
    ensures forall s :: InsideOf(h, root)(s) == RepositoryForm(h, root)(s)
    ensures forall s :: AddonOf(h, root)(s) == RootForm(h, root)(s)
    ensures forall s :: ModuleName(s) == ModuleForm()(s)
    ensures forall s :: Itself(s) == Unchanged()(s)
  {
  }

  lemma AcceptanceIs(h: Host, c: Config)
    ensures var root := h.resolve(c.repositoryRoot);
      Acceptance(h, c) <==>
        && Acceptable(h, c)
        && (forall i :: 0 <= i < |c.addonRepositories| ==> InsideOf(h, root)(c.addonRepositories[i]).Some?)
        && (forall i :: 0 <= i < |c.addonRoots| ==> AddonOf(h, root)(c.addonRoots[i]).Some?)
        && (forall i :: 0 <= i < |c.serverWideModules| ==> ModuleName(c.serverWideModules[i]).Some?)
  {
    var rs := c.remoteInstances;
    assert DistinctKeys(rs, NameOf) <==> forall i, j :: 0 <= i < j < |rs| ==> rs[i].name != rs[j].name by {
      assert forall i :: 0 <= i < |rs| ==> NameOf(rs[i]) == rs[i].name;
    }
  }

  // ---------------------------------------------------------------- the whole document

  /** The values that a section may have. */
  predicate PostgresAccepted(v: Option<Value>) {
    v.Some? ==>
      && v.value.Tab?
      && (forall i :: 0 <= i < |v.value.entries| ==> v.value.entries[i].key in ["mode", "image", "port", "user"])
      && (var mode := Get(v.value.entries, "mode"); mode in {None, Some(Str("external")), Some(Str("compose"))})
      && StringOrMissing(Get(v.value.entries, "image")) && StringOrMissing(Get(v.value.entries, "user"))
      && (var port := Get(v.value.entries, "port"); port.None? || port.value.Int?)
  }

  predicate TestAccepted(h: Host, v: Option<Value>) {
    v.Some? ==>
      && v.value.Tab?
      && (forall i :: 0 <= i < |v.value.entries| ==> v.value.entries[i].key in ["base_url", "database", "git_branch"])
      && SourceEntries(h, v.value.entries)
  }

  predicate SourcesAccepted(h: Host, v: Option<Value>) {
    v.Some? ==> v.value.Tab? && forall e :: e in v.value.entries ==> SourceAccepted(h, e)
  }

  /** The switch is a boolean, and the historical keys are neither mixed with current ones nor incomplete. */
  ghost predicate TicketAccepted(h: Host, get: Getter) {
    var enabled := TicketKey(get, "ticket_link_enabled", "jira_enabled");
    var url := TicketKey(get, "ticket_base_url", "jira_base_url");
    && (enabled.None? || enabled.value.Bool?)
    && (url.None? || forall s :: IsText(h, url.value, s) ==> Strip(s) == "" || h.url(s, true).Some?)
    && (get("jira_enabled").Some? || get("jira_base_url").Some? ==>
          && get("ticket_link_enabled").None? && get("ticket_base_url").None?
          && (enabled == Some(Bool(true)) ==> url.Some? && url.value.Str? && Strip(url.value.text) != ""))
  }

  /** A section of its own counts before an entry of the same name in the project's table. */
  function First(a: Option<Value>, b: Option<Value>): Option<Value> { if a == None then b else a }

  ghost predicate KeysAccepted(h: Host, get: Getter, pg: Option<Value>, test: Option<Value>, remotes: Option<Value>) {
    && TicketAccepted(h, get) && PostgresAccepted(pg) && TestAccepted(h, First(test, get("test_instance")))
    && SourcesAccepted(h, First(remotes, get("remote_instances")))
    && SettingsAccepted(h, get("addon_repositories"), get("addon_roots"), get("preferred_http_port"),
                        get("refresh_after_hours"))
  }

  /** Two arrays, a port that is or reads as an integer, and hours that read as a float. */
  ghost predicate SettingsAccepted(h: Host, repositories: Option<Value>, roots: Option<Value>, port: Option<Value>,
                                   hours: Option<Value>) {
    && (repositories.None? || repositories.value.Arr?) && (roots.None? || roots.value.Arr?)
    && (port.None? || port.value.Int? || port.value.Bool? || forall s :: IsText(h, port.value, s) ==> h.toInt(s).Some?)
    && (hours.None? || (!hours.value.Bool? && h.toFloat(hours.value).Some?))
  }

  ghost predicate FieldsHeld(h: Host, root: string, get: Getter, pg: Option<Value>, test: Option<Value>,
                             remotes: Option<Value>, c: Config) {
    && c.repositoryRoot == root
    && PathHeld(h, get("odoo_bin"), c.odooBin) && PythonHeld(h, get("python"), c.python)
    && PathHeld(h, get("source_config"), c.sourceConfig)
    && TextHeld(h, get("default_source_database"), c.defaultSourceDatabase)
    && PathHeld(h, get("managed_filestore"), c.managedFilestore)
    && PathsHeld(h, get("addon_repositories"), c.addonRepositories) && PathsHeld(h, get("addon_roots"), c.addonRoots)
    && ListHeld(h, get("server_wide_modules"), c.serverWideModules)
    && PortHeld(h, get("preferred_http_port"), c.preferredHttpPort)
    && ListHeld(h, get("requirements"), c.requirements) && ListHeld(h, get("default_run_args"), c.defaultRunArgs)
    && PathHeld(h, get("runtime_cwd"), c.runtimeCwd)
    && PostgresHeld(pg, c.postgres) && TestHeld(h, First(test, get("test_instance")), c.testInstance)
    && SourcesHeld(h, First(remotes, get("remote_instances")), c.remoteInstances)
    && TextHeld(h, get("default_base_ref"), c.defaultBaseRef)
    && HoursHeld(h, get("refresh_after_hours"), c.refreshAfterHours)
    && SwitchHeld(TicketKey(get, "ticket_link_enabled", "jira_enabled"), c.ticketLinkEnabled)
    && UrlHeld(h, TicketKey(get, "ticket_base_url", "jira_base_url"), c.ticketBaseUrl)
  }

  lemma TextOfOnly(h: Host, v: Value)
    ensures IsText(h, v, TextOf(h, v)) && forall s :: IsText(h, v, s) ==> s == TextOf(h, v)
  {
  }

  /** The reader takes exactly the accepted keys. */
  lemma ReadsExactlyWhen(h: Host, root: string, get: Getter, pg: Option<Value>, test: Option<Value>,
                         remotes: Option<Value>)
    requires Lawful(h)
    ensures ReadFields(h, root, get, pg, test, remotes).Ok? <==> KeysAccepted(h, get, pg, test, remotes)
    ensures var r := ReadFields(h, root, get, pg, test, remotes); r.Err? ==> r == Err(Invalid)
  {
    PartsDecide(h, root, get, pg, test, remotes);
    PartsAccepted(h, get, pg, First(test, get("test_instance")), First(remotes, get("remote_instances")));
  }

  /** Every part can be read. */
  ghost predicate PartsRead(h: Host, get: Getter, pg: Option<Value>, test: Option<Value>, remotes: Option<Value>) {
    && TicketFields(h, get).Ok? && TicketUrl(h, TicketFields(h, get).value.url).Ok?
    && ReadPostgres(pg).Ok? && ReadTestInstance(h, test).Ok? && ReadRemotes(h, remotes).Ok?
    && PathList(h, get("addon_repositories")).Some? && PathList(h, get("addon_roots")).Some?
    && IntOrNone(h, get("preferred_http_port")).Ok? && FloatOrNone(h, get("refresh_after_hours")).Ok?
  }

  lemma PartsDecide(h: Host, root: string, get: Getter, pg: Option<Value>, test: Option<Value>, remotes: Option<Value>)
    ensures var r := ReadFields(h, root, get, pg, test, remotes);
      && (r.Ok? <==> PartsRead(h, get, pg, First(test, get("test_instance")), First(remotes, get("remote_instances"))))
      && (r.Err? ==> r == Err(Invalid))
  {
  }

  lemma PartsAccepted(h: Host, get: Getter, pg: Option<Value>, test: Option<Value>, remotes: Option<Value>)
    requires Lawful(h)
    ensures PartsRead(h, get, pg, test, remotes) <==>
      && TicketAccepted(h, get) && PostgresAccepted(pg) && TestAccepted(h, test) && SourcesAccepted(h, remotes)
      && SettingsAccepted(h, get("addon_repositories"), get("addon_roots"), get("preferred_http_port"),
                          get("refresh_after_hours"))
  {
    TicketRead(h, get);
    PostgresLoaded(pg);
    TestInstanceLoaded(h, test);
    SourcesLoaded(h, remotes);
    PathsRead(h, get("addon_repositories"));
    PathsRead(h, get("addon_roots"));
    PortAccepted(h, get("preferred_http_port"));
    HoursRead(h, get("refresh_after_hours"));
  }

  lemma PortAccepted(h: Host, v: Option<Value>)
    ensures IntOrNone(h, v).Ok? <==>
      v.None? || v.value.Int? || v.value.Bool? || forall s :: IsText(h, v.value, s) ==> h.toInt(s).Some?
  {
    if v.Some? { TextOfOnly(h, v.value); }
  }

  /** Every field read is held by the entries. */
  lemma ReadsFields(h: Host, root: string, get: Getter, pg: Option<Value>, test: Option<Value>, remotes: Option<Value>)
    requires Lawful(h) && ReadFields(h, root, get, pg, test, remotes).Ok?
    ensures FieldsHeld(h, root, get, pg, test, remotes, ReadFields(h, root, get, pg, test, remotes).value)
  {
    PathRead(h, get("odoo_bin"));
    PythonRead(h, get("python"));
    PathRead(h, get("source_config"));
    TextRead(h, get("default_source_database"));
    PathRead(h, get("managed_filestore"));
    PathsRead(h, get("addon_repositories"));
    PathsRead(h, get("addon_roots"));
    ListRead(h, get("server_wide_modules"));
    PortRead(h, get("preferred_http_port"));
    ListRead(h, get("requirements"));
    ListRead(h, get("default_run_args"));
    PathRead(h, get("runtime_cwd"));
    PostgresLoaded(pg);
    TestInstanceLoaded(h, First(test, get("test_instance")));
    SourcesLoaded(h, First(remotes, get("remote_instances")));
    TextRead(h, get("default_base_ref"));
    HoursRead(h, get("refresh_after_hours"));
    TicketRead(h, get);
  }

  /** The project's own table: `[project]`, or the whole document when there is none. */
  function ProjectTable(data: Table): Option<Table> {
    match Get(data, "project")
    case None => Some(data)
    case Some(Tab(entries)) => Some(entries)
    case Some(_) => None
  }

  /** The result of reading these entries: refused unless the keys are accepted, and otherwise what the constructor
      makes of the fields that the entries hold. */
  ghost predicate Reads(h: Host, root: string, get: Getter, pg: Option<Value>, test: Option<Value>,
                        remotes: Option<Value>, r: Result<Config, Error>) {
    && (r.Err? ==> r == Err(Invalid)) && (r.Ok? ==> KeysAccepted(h, get, pg, test, remotes))
    && (KeysAccepted(h, get, pg, test, remotes) ==>
          exists raw :: FieldsHeld(h, root, get, pg, test, remotes, raw) && LoadedFrom(h, raw, r))
  }

  /** A document loads exactly when its project table is one, its keys are accepted and the constructor accepts what
      they say; the loaded configuration is that, with only the first item of each form kept in three lists. */
  lemma LoadsExactlyWhen(h: Host, root: string, data: Table)
    requires Lawful(h)
    ensures ProjectTable(data) == None <==> FromDocument(h, root, data) == Err(NotFound)
    ensures ProjectTable(data).Some? ==>
      Reads(h, root, (key: string) => Get(ProjectTable(data).value, key), Get(data, "postgres"),
            Get(data, "test_instance"), Get(data, "remote_instances"), FromDocument(h, root, data))
  {
    if ProjectTable(data).Some? {
      var t := ProjectTable(data).value;
      var get := (key: string) => Get(t, key);
      FieldsLoad(h, root, get, Get(data, "postgres"), Get(data, "test_instance"), Get(data, "remote_instances"));
    }
  }

  lemma ConstructLoads(h: Host, raw: Config)
    ensures LoadedFrom(h, raw, Construct(h, raw)) && (Construct(h, raw).Err? ==> Construct(h, raw) == Err(Invalid))
  {
    ConstructsExactlyWhen(h, raw);
  }

  lemma FieldsLoad(h: Host, root: string, get: Getter, pg: Option<Value>, test: Option<Value>, remotes: Option<Value>)
    requires Lawful(h)
    ensures var fields := ReadFields(h, root, get, pg, test, remotes);
      Reads(h, root, get, pg, test, remotes, if fields.Err? then fields else Construct(h, fields.value))
  {
    ReadsExactlyWhen(h, root, get, pg, test, remotes);
    if KeysAccepted(h, get, pg, test, remotes) {
      var raw := ReadFields(h, root, get, pg, test, remotes).value;
      ReadsFields(h, root, get, pg, test, remotes);
      ConstructLoads(h, raw);
    }
  }

  /** What the constructor makes of the fields as they were read. */
  ghost predicate LoadedFrom(h: Host, raw: Config, r: Result<Config, Error>) {
    && (r.Ok? <==> Acceptance(h, raw))
    && (r.Ok? ==>
          var d, root := r.value, h.resolve(raw.repositoryRoot);
          && d == raw.(addonRepositories := d.addonRepositories, addonRoots := d.addonRoots,
                       serverWideModules := d.serverWideModules)
          && FirstsOf(raw.addonRepositories, RepositoryForm(h, root), Unchanged(), d.addonRepositories)
          && FirstsOf(raw.addonRoots, RootForm(h, root), Unchanged(), d.addonRoots)
          && FirstsOf(raw.serverWideModules, ModuleForm(), Strip, d.serverWideModules))
  }

  // ---------------------------------------------------------------- what is written, and in which order

  /** The keys stand in the given order; not all of them need to be there. */
  ghost predicate KeysFollow(t: Table, order: seq<string>, n: nat) {
    exists places: seq<nat> :: PlacedBy(t, order, n, places)
  }

  predicate PlacedBy(t: Table, order: seq<string>, n: nat, places: seq<nat>) {
    && |places| == |t|
    && (forall i :: 0 <= i < |t| ==> places[i] < n && places[i] < |order| && t[i].key == order[places[i]])
    && (forall i, j :: 0 <= i < j < |t| ==> places[i] < places[j])
  }

  lemma {:induction false} PresentFollow(fs: seq<Field>, n: nat, order: seq<string>)
    requires n <= |fs| == |order| && forall k :: 0 <= k < |fs| ==> fs[k].name == order[k]
    ensures KeysFollow(Present(fs, n), order, n)
  {
    if n == 0 {
      assert PlacedBy(Present(fs, 0), order, 0, []);
    } else {
      PresentFollow(fs, n - 1, order);
      var t := Present(fs, n - 1);
      var places: seq<nat> :| PlacedBy(t, order, n - 1, places);
      var one := One(fs[n - 1]);
      if fs[n - 1].value.None? {
        assert t + one == t;
        assert PlacedBy(t, order, n, places);
      } else {
        PlacedNext(t, order, n, places, one[0]);
        assert t + one == t + [one[0]];
      }
    }
  }

  lemma PlacedNext(t: Table, order: seq<string>, n: nat, places: seq<nat>, e: Entry)
    requires 0 < n <= |order| && PlacedBy(t, order, n - 1, places) && e.key == order[n - 1]
    ensures PlacedBy(t + [e], order, n, places + [n - 1])
  {
    var all, more := t + [e], places + [n - 1];
    assert forall i :: 0 <= i < |t| ==> all[i] == t[i] && more[i] == places[i];
  }

  /** The settings are written under these names and in this order, those with a value. */
  lemma SettingOrder(c: Config)
    ensures KeysFollow(Sections(c)[0].entries,
      ["odoo_bin", "python", "source_config", "default_source_database", "managed_filestore", "addon_repositories",
       "addon_roots", "server_wide_modules", "default_base_ref", "refresh_after_hours", "preferred_http_port",
       "ticket_link_enabled", "ticket_base_url", "requirements", "default_run_args", "runtime_cwd"], 16)
  {
    var fs := ProjectFields(c);
    PresentFollow(fs, 16,
      ["odoo_bin", "python", "source_config", "default_source_database", "managed_filestore", "addon_repositories",
       "addon_roots", "server_wide_modules", "default_base_ref", "refresh_after_hours", "preferred_http_port",
       "ticket_link_enabled", "ticket_base_url", "requirements", "default_run_args", "runtime_cwd"]);
  }

  function PathsOf(ss: seq<Section>): (paths: seq<seq<string>>)
    ensures |paths| == |ss| && forall i :: 0 <= i < |ss| ==> paths[i] == ss[i].path
  {
    seq(|ss|, i requires 0 <= i < |ss| => ss[i].path)
  }

  function SourcePaths(rs: seq<Remote>): (paths: seq<seq<string>>)
    ensures |paths| == |rs| && forall i :: 0 <= i < |rs| ==> paths[i] == ["remote_instances", rs[i].name]
  {
    seq(|rs|, i requires 0 <= i < |rs| => ["remote_instances", rs[i].name])
  }

  /** Then come the other sections that are there: `[postgres]` unless it says nothing, `[test_instance]`, and the
      sources by name. */
  lemma SectionOrder(c: Config) returns (rs: seq<Remote>)
    ensures multiset(rs) == multiset(c.remoteInstances)
    ensures forall i, j :: 0 <= i < j < |rs| ==> !Less(rs[j].name, rs[i].name)
    ensures PathsOf(Sections(c)) == [["project"]]
      + (if c.postgres in {None, Some(Postgres(External, None, None, None))} then [] else [["postgres"]])
      + (if c.testInstance == None then [] else [["test_instance"]]) + SourcePaths(rs)
  {
    rs := Sort(c.remoteInstances, NameOf);
    SortFacts(c.remoteInstances, NameOf);
    forall i, j | 0 <= i < j < |rs| ensures !Less(rs[j].name, rs[i].name) {
      assert AtMost(NameOf(rs[i]), NameOf(rs[j]));
    }
    var first := Section(["project"], Entries(ProjectFields(c)));
    FourPaths(first, PostgresSections(c), TestSections(c), RemoteSections(rs));
    PiecePaths(c, rs);
  }

  lemma PiecePaths(c: Config, rs: seq<Remote>)
    ensures PathsOf(PostgresSections(c))
      == if c.postgres in {None, Some(Postgres(External, None, None, None))} then [] else [["postgres"]]
    ensures PathsOf(TestSections(c)) == if c.testInstance == None then [] else [["test_instance"]]
    ensures PathsOf(RemoteSections(rs)) == SourcePaths(rs)
  {
    var ss := RemoteSections(rs);
    forall i | 0 <= i < |rs| ensures PathsOf(ss)[i] == SourcePaths(rs)[i] { assert ss[i] == RemoteSection(rs[i]); }
  }

  lemma FourPaths(first: Section, p: seq<Section>, q: seq<Section>, r: seq<Section>)
    ensures PathsOf([first] + p + q + r) == [first.path] + PathsOf(p) + PathsOf(q) + PathsOf(r)
  {
    PathsPlus([first], p);
    PathsPlus([first] + p, q);
    PathsPlus([first] + p + q, r);
  }

  lemma PathsPlus(a: seq<Section>, b: seq<Section>)
    ensures PathsOf(a + b) == PathsOf(a) + PathsOf(b)
  {
  }
}

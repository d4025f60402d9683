/** `project.py`: the project configuration and its declarative manifest. */
module Manifest {
  import opened Text
  import opened Sorting
  import opened Toml

  datatype Error = Unreadable | NotFound | Invalid

  datatype Mode = External | Compose

  datatype Postgres = Postgres(mode: Mode, image: Option<string>, port: Option<int>, user: Option<string>)

  datatype TestInstance = TestInstance(baseUrl: string, database: Option<string>, gitBranch: Option<string>)

  datatype Remote = Remote(name: string, baseUrl: string, database: Option<string>, gitBranch: string)

  /** `str | Path`, as the source keeps it. */
  datatype Python = Command(text: string) | AtPath(text: string)

  /** An `int` field also holds what `isinstance(value, int)` lets through: a boolean. */
  datatype Port = Number(number: int) | Flag(flag: bool)

  /** A path is its text; a float is the text `repr` gives it. */
  datatype Config = Config(
    repositoryRoot: string,
    odooBin: Option<string>,
    python: Option<Python>,
    sourceConfig: Option<string>,
    defaultSourceDatabase: Option<string>,
    managedFilestore: Option<string>,
    addonRepositories: seq<string>,
    addonRoots: seq<string>,
    serverWideModules: seq<string>,
    preferredHttpPort: Option<Port>,
    requirements: seq<string>,
    defaultRunArgs: seq<string>,
    runtimeCwd: Option<string>,
    postgres: Option<Postgres>,
    testInstance: Option<TestInstance>,
    remoteInstances: seq<Remote>,
    defaultBaseRef: Option<string>,
    refreshAfterHours: Option<string>,
    ticketLinkEnabled: Option<bool>,
    ticketBaseUrl: Option<string>)

  /** Library functions the configuration code calls. */
  datatype Host = Host(
    url: (string, bool) -> Option<string>,      // normalize_base_url(raw, allow_path)
    path: string -> string,                     // str(Path(s))
    absolute: string -> bool,
    resolve: string -> string,
    inside: (string, string) -> Option<string>, // _validate_project_path(root, value)
    databaseName: string -> bool,               // validate_db_name
    lower: string -> string,
    positive: string -> bool,                   // finite and greater than zero
    toFloat: Value -> Option<string>,
    toInt: string -> Option<int>,
    text: Value -> string)                      // str(value) of floats, arrays and tables

  // ---------------------------------------------------------------- sanitised text

  /** `internal/sanitize.py`: the C0 and C1 controls and DEL. */
  predicate IsControl(c: char) { c < ' ' || 0x7f <= c as int <= 0x9f }

  predicate ControlFree(s: string) { forall i :: 0 <= i < |s| ==> !IsControl(s[i]) }

  function HexDigit(n: nat): (c: char)
    requires n < 16
    ensures !IsControl(c) && !IsSpace(c)
  {
    if n < 10 then '0' + n as char else 'a' + (n - 10) as char
  }

  function SanitizeChar(c: char): string {
    if IsControl(c) then "\\x" + [HexDigit(c as int / 16), HexDigit(c as int % 16)] else [c]
  }

  function Sanitize(s: string): string {
    if s == [] then []
    else SanitizeChar(s[0]) + Sanitize(s[1..])
  }

  /** The sanitiser's fixed points are exactly the texts without controls, and its results are all such. */
  lemma {:induction false} SanitizeFacts(s: string)
    ensures ControlFree(Sanitize(s))
    ensures |Sanitize(s)| >= |s|
    ensures ControlFree(s) <==> Sanitize(s) == s
  {
    if s != [] {
      SanitizeFacts(s[1..]);
      assert s == [s[0]] + s[1..];
      var t := Sanitize(s);
      if IsControl(s[0]) { assert |t| > |s|; } else { assert t[1..] == Sanitize(s[1..]); }
    }
  }

  /** Every character on its own: a control character becomes `\x` and its code in two lower-case hexadecimal digits,
      any other stays. */
  lemma {:induction false} SanitizeEach(a: string, c: char, b: string)
    ensures var digits, n := "0123456789abcdef", c as int;
      Sanitize(a + [c] + b) == Sanitize(a)
        + (if n < 32 || 127 <= n <= 159 then ['\\', 'x', digits[n / 16], digits[n % 16]] else [c]) + Sanitize(b)
    ensures Sanitize("") == ""
  {
    if a == [] {
      assert a + [c] + b == [c] + b && ([c] + b)[1..] == b;
      HexDigits();
    } else {
      assert (a + [c] + b)[1..] == a[1..] + [c] + b;
      SanitizeEach(a[1..], c, b);
    }
  }

  lemma HexDigits()
    ensures forall n :: 0 <= n < 16 ==> HexDigit(n) == "0123456789abcdef"[n]
  {
  }

  // ---------------------------------------------------------------- construction

  predicate NameChar(c: char) { 'a' <= c <= 'z' || IsDigit(c) || c == '_' }

  predicate RemoteName(n: string) { n != [] && 'a' <= n[0] <= 'z' && All(n, NameChar) }

  function NormalName(h: Host, name: string): Option<string> {
    var n := h.lower(Strip(name));
    if RemoteName(n) then Some(n) else None
  }

  predicate NonBlank(s: string) { Strip(s) != [] }

  predicate NonBlankOption(s: Option<string>) { s.Some? ==> NonBlank(s.value) }

  function NewTestInstance(h: Host, t: TestInstance): Option<TestInstance> {
    if NonBlank(t.baseUrl) && NonBlankOption(t.database) && NonBlankOption(t.gitBranch) && h.url(t.baseUrl, false).Some?
    then Some(t) else None
  }

  function NewRemote(h: Host, r: Remote): Option<Remote> {
    var name := NormalName(h, r.name);
    var url := h.url(r.baseUrl, false);
    if name.Some? && NonBlankOption(r.database) && NonBlank(r.gitBranch) && url.Some?
    then Some(r.(name := name.value, baseUrl := url.value)) else None
  }

  /** Keep the first item of each canonical form; fail when an item has none. */
  function Unique(xs: seq<string>, canon: string -> Option<string>, keep: string -> string,
                  seen: set<string>): Option<seq<string>>
    decreases |xs|
  {
    if xs == [] then Some([])
    else if canon(xs[0]).None? then None
    else if canon(xs[0]).value in seen then Unique(xs[1..], canon, keep, seen)
    else
      var rest := Unique(xs[1..], canon, keep, seen + {canon(xs[0]).value});
      if rest.None? then None else Some([keep(xs[0])] + rest.value)
  }

  function Itself(s: string): string { s }

  function ModuleName(s: string): Option<string> { if NonBlank(s) && ',' !in s then Some(Strip(s)) else None }

  function AddonRoot(h: Host, root: string, p: string): Option<string> {
    if h.absolute(p) then Some(h.resolve(p)) else h.inside(root, p)
  }

  function InsideOf(h: Host, root: string): string -> Option<string> { (p: string) => h.inside(root, p) }

  function AddonOf(h: Host, root: string): string -> Option<string> { (p: string) => AddonRoot(h, root, p) }

  function Repositories(h: Host, c: Config): Option<seq<string>> {
    Unique(c.addonRepositories, InsideOf(h, h.resolve(c.repositoryRoot)), Itself, {})
  }

  function Addons(h: Host, c: Config): Option<seq<string>> {
    Unique(c.addonRoots, AddonOf(h, h.resolve(c.repositoryRoot)), Itself, {})
  }

  function Modules(c: Config): Option<seq<string>> { Unique(c.serverWideModules, ModuleName, Strip, {}) }

  function NameOf(r: Remote): string { r.name }

  /** The checks of `__post_init__` that change nothing. */
  predicate Acceptable(h: Host, c: Config) {
    && (c.defaultSourceDatabase.Some? ==> h.databaseName(c.defaultSourceDatabase.value))
    && (c.managedFilestore.Some? ==> h.inside(h.resolve(c.repositoryRoot), c.managedFilestore.value).Some?)
    && NonBlankOption(c.defaultBaseRef)
    && (c.refreshAfterHours.Some? ==> h.positive(c.refreshAfterHours.value))
    && (c.ticketBaseUrl.Some? && NonBlank(c.ticketBaseUrl.value) ==> h.url(c.ticketBaseUrl.value, true).Some?)
    && (c.ticketLinkEnabled == Some(true) ==> c.ticketBaseUrl.Some?)
    && DistinctKeys(c.remoteInstances, NameOf)
  }

  /** What the constructor makes of the given fields. */
  function Construct(h: Host, c: Config): Result<Config, Error> {
    var repositories, addons, modules := Repositories(h, c), Addons(h, c), Modules(c);
    if !Acceptable(h, c) || repositories.None? || addons.None? || modules.None? then Err(Invalid)
    else Ok(c.(addonRepositories := repositories.value, addonRoots := addons.value, serverWideModules := modules.value))
  }

  /** One of the loops of `__post_init__`. */
  method Deduplicate(xs: seq<string>, canon: string -> Option<string>, keep: string -> string)
    returns (r: Option<seq<string>>)
    ensures r == Unique(xs, canon, keep, {})
  {
    var seen: set<string> := {};
    var kept: seq<string> := [];
    assert xs[0..] == xs;
    ghost var all := Unique(xs, canon, keep, {});
    assert all.Some? ==> [] + all.value == all.value;
    for i := 0 to |xs|
      invariant Unique(xs, canon, keep, {})
             == (var rest := Unique(xs[i..], canon, keep, seen); if rest.None? then None else Some(kept + rest.value))
    {
      assert xs[i..][1..] == xs[i + 1..];
      var canonical := canon(xs[i]);
      if canonical.None? { return None; }
      if canonical.value !in seen {
        var was := kept;
        seen := seen + {canonical.value};
        kept := kept + [keep(xs[i])];
        ghost var rest := Unique(xs[i + 1..], canon, keep, seen);
        assert rest.Some? ==> was + ([keep(xs[i])] + rest.value) == kept + rest.value;
      }
    }
    assert xs[|xs|..] == [] && kept + [] == kept;
    r := Some(kept);
  }

  method PostInit(h: Host, c: Config) returns (r: Result<Config, Error>)
    ensures r == Construct(h, c)
  {
    var root := h.resolve(c.repositoryRoot);
    if c.defaultSourceDatabase.Some? && !h.databaseName(c.defaultSourceDatabase.value) { return Err(Invalid); }
    if c.managedFilestore.Some? && h.inside(root, c.managedFilestore.value).None? { return Err(Invalid); }
    var repositories := Deduplicate(c.addonRepositories, InsideOf(h, h.resolve(c.repositoryRoot)), Itself);
    if repositories.None? { return Err(Invalid); }
    var addons := Deduplicate(c.addonRoots, AddonOf(h, h.resolve(c.repositoryRoot)), Itself);
    if addons.None? { return Err(Invalid); }
    var modules := Deduplicate(c.serverWideModules, ModuleName, Strip);
    if modules.None? { return Err(Invalid); }
    if !NonBlankOption(c.defaultBaseRef) { return Err(Invalid); }
    if c.refreshAfterHours.Some? && !h.positive(c.refreshAfterHours.value) { return Err(Invalid); }
    if c.ticketBaseUrl.Some? && NonBlank(c.ticketBaseUrl.value) && h.url(c.ticketBaseUrl.value, true).None? {
      return Err(Invalid);
    }
    if c.ticketLinkEnabled == Some(true) && c.ticketBaseUrl.None? { return Err(Invalid); }
    if !DistinctKeys(c.remoteInstances, NameOf) { return Err(Invalid); }
    r := Ok(c.(addonRepositories := repositories.value, addonRoots := addons.value,
      serverWideModules := modules.value));
  }

  // ---------------------------------------------------------------- reading

  /** `str(value)` */
  function TextOf(h: Host, v: Value): string {
    match v
    case Str(s) => s
    case Int(n) => PrintInt(n)
    case Bool(b) => if b then "True" else "False"
    case _ => h.text(v)
  }

  function StrOrNone(h: Host, v: Option<Value>): Option<string> { if v.None? then None else Some(TextOf(h, v.value)) }

  function PathOrNone(h: Host, v: Option<Value>): Option<string> {
    if v.None? then None else Some(h.path(TextOf(h, v.value)))
  }

  predicate PathLike(s: string) { StartsWith(s, "/") || StartsWith(s, "./") || (|s| > 1 && s[1] == ':') }

  function PythonField(h: Host, v: Option<Value>): Option<Python> {
    if v.None? then None
    else
      var s := TextOf(h, v.value);
      Some(if PathLike(s) then AtPath(h.path(s)) else Command(s))
  }

  function Texts(h: Host, items: seq<Value>): seq<string> {
    seq(|items|, i requires 0 <= i < |items| => TextOf(h, items[i]))
  }

  function StrList(h: Host, v: Option<Value>): seq<string> {
    match v
    case None => []
    case Some(Arr(items)) => Texts(h, items)
    case Some(other) => [TextOf(h, other)]
  }

  function PathList(h: Host, v: Option<Value>): Option<seq<string>> {
    match v
    case None => Some([])
    case Some(Arr(items)) => Some(seq(|items|, i requires 0 <= i < |items| => h.path(TextOf(h, items[i]))))
    case Some(_) => None
  }

  function IntOrNone(h: Host, v: Option<Value>): Result<Option<Port>, Error> {
    match v
    case None => Ok(None)
    case Some(Int(n)) => Ok(Some(Number(n)))
    case Some(Bool(b)) => Ok(Some(Flag(b)))
    case Some(other) => if h.toInt(TextOf(h, other)).None? then Err(Invalid)
      else Ok(Some(Number(h.toInt(TextOf(h, other)).value)))
  }

  function FloatOrNone(h: Host, v: Option<Value>): Result<Option<string>, Error> {
    if v.None? then Ok(None)
    else if v.value.Bool? || h.toFloat(v.value).None? then Err(Invalid)
    else Ok(Some(h.toFloat(v.value).value))
  }

  datatype Ticket = Ticket(enabled: Option<bool>, url: Option<string>)

  predicate NonBlankText(v: Option<Value>) { v.Some? && v.value.Str? && NonBlank(v.value.text) }

  /** `data.get` of a table. */
  type Getter = string -> Option<Value>

  function GetterOf(t: Table): Getter { (key: string) => Get(t, key) }

  /** The historical key names are read when none of the current ones is there. */
  function TicketFields(h: Host, get: Getter): Result<Ticket, Error> {
    var oldEnabled, oldUrl := get("jira_enabled"), get("jira_base_url");
    if oldEnabled.Some? || oldUrl.Some? then
      if get("ticket_link_enabled").Some? || get("ticket_base_url").Some? then Err(Invalid)
      else if oldEnabled.Some? && !oldEnabled.value.Bool? then Err(Invalid)
      else if oldEnabled == Some(Bool(true)) && !NonBlankText(oldUrl) then Err(Invalid)
      else Ok(Ticket(if oldEnabled.None? then None else Some(oldEnabled.value.flag), StrOrNone(h, oldUrl)))
    else
      var enabled := get("ticket_link_enabled");
      if enabled.Some? && !enabled.value.Bool? then Err(Invalid)
      else Ok(Ticket(if enabled.None? then None else Some(enabled.value.flag), StrOrNone(h, get("ticket_base_url"))))
  }

  function TicketUrl(h: Host, u: Option<string>): Result<Option<string>, Error> {
    if u.None? || !NonBlank(u.value) then Ok(None)
    else if h.url(u.value, true).None? then Err(Invalid)
    else Ok(h.url(u.value, true))
  }

  predicate OnlyKeys(t: Table, keys: seq<string>) { forall i :: 0 <= i < |t| ==> t[i].key in keys }

  predicate StrIfAny(v: Option<Value>) { v.Some? ==> v.value.Str? }

  function TextIfAny(v: Option<Value>): Option<string>
    requires StrIfAny(v)
  {
    if v.None? then None else Some(v.value.text)
  }

  const SOURCE_KEYS := ["base_url", "database", "git_branch"]
  const POSTGRES_KEYS := ["mode", "image", "port", "user"]

  function ReadPostgres(v: Option<Value>): Result<Option<Postgres>, Error> {
    if v.None? then Ok(None)
    else if !v.value.Tab? || !OnlyKeys(v.value.entries, POSTGRES_KEYS) then Err(Invalid)
    else
      var t := v.value.entries;
      var mode, image, port, user := Get(t, "mode"), Get(t, "image"), Get(t, "port"), Get(t, "user");
      if mode.Some? && mode.value != Str("external") && mode.value != Str("compose") then Err(Invalid)
      else if !StrIfAny(image) || !StrIfAny(user) || (port.Some? && !port.value.Int?) then Err(Invalid)
      else
        var p := Postgres(if mode == Some(Str("compose")) then Compose else External,
                          TextIfAny(image), if port.None? then None else Some(port.value.number), TextIfAny(user));
        Ok(if IsDefault(p) then None else Some(p))
  }

  predicate IsDefault(p: Postgres) { p == Postgres(External, None, None, None) }

  function ReadTestInstance(h: Host, v: Option<Value>): Result<Option<TestInstance>, Error> {
    if v.None? then Ok(None)
    else if !v.value.Tab? || !OnlyKeys(v.value.entries, SOURCE_KEYS) then Err(Invalid)
    else
      var t := v.value.entries;
      var base, database, branch := Get(t, "base_url"), Get(t, "database"), Get(t, "git_branch");
      if base.None? || !base.value.Str? || !StrIfAny(database) || !StrIfAny(branch) then Err(Invalid)
      else
        var url := h.url(base.value.text, false);
        if url.None? then Err(Invalid)
        else
          var r := NewTestInstance(h, TestInstance(url.value, TextIfAny(database), TextIfAny(branch)));
          if r.None? then Err(Invalid) else Ok(r)
  }

  function ReadRemote(h: Host, e: Entry): Option<Remote> {
    if !e.value.Tab? || !OnlyKeys(e.value.entries, SOURCE_KEYS) then None
    else
      var t := e.value.entries;
      var base, database, branch := Get(t, "base_url"), Get(t, "database"), Get(t, "git_branch");
      if base.None? || !base.value.Str? || !StrIfAny(database) || branch.None? || !branch.value.Str? then None
      else
        var name, url := NormalName(h, e.key), h.url(base.value.text, false);
        if name.None? || url.None? then None
        else NewRemote(h, Remote(name.value, url.value, TextIfAny(database), branch.value.text))
  }

  function Reader(h: Host): Entry -> Option<Remote> { (e: Entry) => ReadRemote(h, e) }

  function LowerKey(h: Host): Entry -> string { (e: Entry) => h.lower(e.key) }

  function ReadRemotes(h: Host, v: Option<Value>): Result<seq<Remote>, Error> {
    if v.None? then Ok([])
    else if !v.value.Tab? then Err(Invalid)
    else
      var r := Traverse(Sort(v.value.entries, LowerKey(h)), Reader(h));
      if r.None? then Err(Invalid) else Ok(r.value)
  }

  /** The loop of `_remote_instances_from_mapping`. */
  method ReadLoop(items: Table, read: Entry -> Option<Remote>) returns (r: Option<seq<Remote>>)
    ensures r == Traverse(items, read)
  {
    var result: seq<Remote> := [];
    for i := 0 to |items|
      invariant Traverse(items[..i], read) == Some(result)
    {
      TraverseSplit(items, read, result, i);
      var one := read(items[i]);
      if one.None? { return None; }
      result := result + [one.value];
    }
    assert items[..|items|] == items;
    r := Some(result);
  }

  method RemoteInstancesFromMapping(h: Host, v: Option<Value>) returns (r: Result<seq<Remote>, Error>)
    ensures r == ReadRemotes(h, v)
  {
    if v.None? { return Ok([]); }
    if !v.value.Tab? { return Err(Invalid); }
    var result := ReadLoop(Sort(v.value.entries, LowerKey(h)), Reader(h));
    r := if result.None? then Err(Invalid) else Ok(result.value);
  }

  function OrElse(a: Option<Value>, b: Option<Value>): Option<Value> { if a.Some? then a else b }

  /** The fields as read, before the constructor sees them. */
  function ReadFields(h: Host, root: string, get: Getter, postgres: Option<Value>, test: Option<Value>,
                      remotes: Option<Value>): Result<Config, Error> {
    var ticket := TicketFields(h, get);
    var pg := ReadPostgres(postgres);
    var ti := ReadTestInstance(h, OrElse(test, get("test_instance")));
    var rs := ReadRemotes(h, OrElse(remotes, get("remote_instances")));
    if ticket.Err? || pg.Err? || ti.Err? || rs.Err? then Err(Invalid)
    else
      var repositories, addons := PathList(h, get("addon_repositories")), PathList(h, get("addon_roots"));
      var port, hours := IntOrNone(h, get("preferred_http_port")), FloatOrNone(h, get("refresh_after_hours"));
      var url := TicketUrl(h, ticket.value.url);
      if repositories.None? || addons.None? || port.Err? || hours.Err? || url.Err? then Err(Invalid)
      else Ok(Config(
        root, PathOrNone(h, get("odoo_bin")), PythonField(h, get("python")), PathOrNone(h, get("source_config")),
        StrOrNone(h, get("default_source_database")), PathOrNone(h, get("managed_filestore")),
        repositories.value, addons.value, StrList(h, get("server_wide_modules")), port.value,
        StrList(h, get("requirements")), StrList(h, get("default_run_args")), PathOrNone(h, get("runtime_cwd")),
        pg.value, ti.value, rs.value, StrOrNone(h, get("default_base_ref")), hours.value,
        ticket.value.enabled, url.value))
  }

  /** `_from_mapping` */
  function FromMapping(h: Host, root: string, data: Table, postgres: Option<Value>, test: Option<Value>,
                       remotes: Option<Value>): Result<Config, Error> {
    var fields := ReadFields(h, root, GetterOf(data), postgres, test, remotes);
    if fields.Err? then fields else Construct(h, fields.value)
  }

  /** What `load` makes of a parsed document. */
  function FromDocument(h: Host, root: string, data: Table): Result<Config, Error> {
    var section := Get(data, "project");
    if section.Some? && !section.value.Tab? then Err(NotFound)
    else FromMapping(h, root, if section.Some? then section.value.entries else data,
                     Get(data, "postgres"), Get(data, "test_instance"), Get(data, "remote_instances"))
  }

  function Load(h: Host, project: string, file: Option<string>): Result<Config, Error> {
    if file.None? then Err(NotFound)
    else
      var data := Parse(file.value);
      if data.None? then Err(Unreadable) else FromDocument(h, h.resolve(project), data.value)
  }

  // ---------------------------------------------------------------- writing

  datatype Field = Field(name: string, value: Option<Value>)

  function Quoted(s: string): Value { Str(Sanitize(s)) }

  function QuotedIfAny(s: Option<string>): Option<Value> { if s.None? then None else Some(Quoted(s.value)) }

  function Quotes(ss: seq<string>): (vs: seq<Value>)
    ensures |vs| == |ss| && forall i :: 0 <= i < |ss| ==> vs[i] == Quoted(ss[i])
  {
    seq(|ss|, i requires 0 <= i < |ss| => Quoted(ss[i]))
  }

  function QuotedList(ss: seq<string>): Option<Value> {
    if ss == [] then None else Some(Arr(Quotes(ss)))
  }

  /** `f"{port}"`: a boolean is written with a capital letter, which no TOML value starts with. */
  function PortValue(p: Port): Value {
    match p
    case Number(n) => Int(n)
    case Flag(b) => Float(if b then "True" else "False")
  }

  function ProjectFields(c: Config): seq<Field> {
    [ Field("odoo_bin", QuotedIfAny(c.odooBin)),
      Field("python", if c.python.None? then None else Some(Quoted(c.python.value.text))),
      Field("source_config", QuotedIfAny(c.sourceConfig)),
      Field("default_source_database", QuotedIfAny(c.defaultSourceDatabase)),
      Field("managed_filestore", QuotedIfAny(c.managedFilestore)),
      Field("addon_repositories", QuotedList(c.addonRepositories)),
      Field("addon_roots", QuotedList(c.addonRoots)),
      Field("server_wide_modules", QuotedList(c.serverWideModules)),
      Field("default_base_ref", QuotedIfAny(c.defaultBaseRef)),
      Field("refresh_after_hours", if c.refreshAfterHours.None? then None else Some(Float(c.refreshAfterHours.value))),
      Field("preferred_http_port", if c.preferredHttpPort.None? then None
        else Some(PortValue(c.preferredHttpPort.value))),
      Field("ticket_link_enabled", if c.ticketLinkEnabled.None? then None else Some(Bool(c.ticketLinkEnabled.value))),
      Field("ticket_base_url", if c.ticketLinkEnabled.None? then None
                               else Some(Quoted(if c.ticketBaseUrl.None? then "" else c.ticketBaseUrl.value))),
      Field("requirements", QuotedList(c.requirements)),
      Field("default_run_args", QuotedList(c.defaultRunArgs)),
      Field("runtime_cwd", QuotedIfAny(c.runtimeCwd)) ]
  }

  function PostgresFields(p: Postgres): seq<Field> {
    [ Field("mode", Some(Str(if p.mode.External? then "external" else "compose"))),
      Field("image", QuotedIfAny(p.image)),
      Field("port", if p.port.None? then None else Some(Int(p.port.value))),
      Field("user", QuotedIfAny(p.user)) ]
  }

  function SourceFields(url: string, database: Option<string>, branch: Option<string>): seq<Field> {
    [ Field("base_url", Some(Quoted(url))), Field("database", QuotedIfAny(database)),
      Field("git_branch", QuotedIfAny(branch)) ]
  }

  function One(f: Field): Table { if f.value.None? then [] else [Entry(f.name, f.value.value)] }

  /** The entries of the first `n` fields that have a value. */
  function Present(fs: seq<Field>, n: nat): Table
    requires n <= |fs|
  {
    if n == 0 then [] else Present(fs, n - 1) + One(fs[n - 1])
  }

  function Entries(fs: seq<Field>): Table { Present(fs, |fs|) }

  function PostgresSections(c: Config): seq<Section> {
    if c.postgres.None? || IsDefault(c.postgres.value) then []
    else [Section(["postgres"], Entries(PostgresFields(c.postgres.value)))]
  }

  function TestSections(c: Config): seq<Section> {
    if c.testInstance.None? then []
    else
      var t := c.testInstance.value;
      [Section(["test_instance"], Entries(SourceFields(t.baseUrl, t.database, t.gitBranch)))]
  }

  function RemoteEntries(r: Remote): Table { Entries(SourceFields(r.baseUrl, r.database, Some(r.gitBranch))) }

  function RemoteSection(r: Remote): Section { Section(["remote_instances", r.name], RemoteEntries(r)) }

  function RemoteSections(rs: seq<Remote>): seq<Section> { seq(|rs|, i requires 0 <= i < |rs| => RemoteSection(rs[i])) }

  /** The document a manifest writes down. */
  function Sections(c: Config): seq<Section> {
    [Section(["project"], Entries(ProjectFields(c)))] + PostgresSections(c) + TestSections(c)
      + RemoteSections(Sort(c.remoteInstances, NameOf))
  }

  // ---------------------------------------------------------------- the writer's own lines

  function Join(lines: seq<string>, separator: string): string {
    if lines == [] then "" else if |lines| == 1 then lines[0] else lines[0] + (separator + Join(lines[1..], separator))
  }

  /** `_toml_str` and `_toml_path` */
  function TomlStr(s: string): string { Escape(Sanitize(s)) }

  function QuotedText(s: string): string { "\"" + (TomlStr(s) + "\"") }

  function FieldLines(f: Field): seq<string> {
    if f.value.None? then [] else [RenderLine(Pair(Entry(f.name, f.value.value)))]
  }

  /** The lines of the first `n` fields under a header. */
  function Written(header: string, fs: seq<Field>, n: nat): seq<string>
    requires n <= |fs|
  {
    if n == 0 then [header] else Written(header, fs, n - 1) + FieldLines(fs[n - 1])
  }

  lemma PairsPlus(t: Table, f: Field)
    ensures RenderLines(Pairs(t + One(f))) == RenderLines(Pairs(t)) + FieldLines(f)
  {
    assert Pairs(t + One(f)) == Pairs(t) + Pairs(One(f));
    RenderLinesPlus(Pairs(t), Pairs(One(f)));
    assert RenderLines(Pairs(One(f))) == FieldLines(f);
  }

  lemma {:induction false} WrittenRenders(header: string, fs: seq<Field>, n: nat)
    requires n <= |fs|
    ensures Written(header, fs, n) == [header] + RenderLines(Pairs(Present(fs, n)))
  {
    if n > 0 {
      WrittenRenders(header, fs, n - 1);
      PairsPlus(Present(fs, n - 1), fs[n - 1]);
      Regroup([header], RenderLines(Pairs(Present(fs, n - 1))), FieldLines(fs[n - 1]));
    }
  }

  method AppendString(lines: seq<string>, key: string, value: Option<string>, ghost header: string,
                      ghost fs: seq<Field>, ghost n: nat)
    returns (r: seq<string>, ghost m: nat)
    requires n < |fs| && lines == Written(header, fs, n) && fs[n] == Field(key, QuotedIfAny(value))
    ensures m == n + 1 && r == Written(header, fs, m)
  {
    m := n + 1;
    if value.None? { return lines, n + 1; }
    r := lines + [key + (" = " + QuotedText(value.value))];
    assert "\"" + (Escape(Sanitize(value.value)) + ("\"" + "")) == QuotedText(value.value);
  }

  lemma QuotedRender(s: string, rest: string)
    ensures Render(Quoted(s), rest) == QuotedText(s) + rest
  {
  }

  function QuotedTexts(ss: seq<string>): (ts: seq<string>)
    ensures |ts| == |ss| && forall i :: 0 <= i < |ss| ==> ts[i] == QuotedText(ss[i])
  {
    seq(|ss|, i requires 0 <= i < |ss| => QuotedText(ss[i]))
  }

  lemma {:induction false} JoinRenders(ss: seq<string>, tail: string)
    requires ss != []
    ensures RenderItems(Quotes(ss), tail) == Join(QuotedTexts(ss), ", ") + tail
  {
    if |ss| == 1 {
      QuotedRender(ss[0], tail);
    } else {
      JoinRenders(ss[1..], tail);
      assert Quotes(ss)[1..] == Quotes(ss[1..]) && QuotedTexts(ss)[1..] == QuotedTexts(ss[1..]);
      var others := Join(QuotedTexts(ss[1..]), ", ");
      QuotedRender(ss[0], ", " + (others + tail));
      Regroup(QuotedText(ss[0]), ", " + others, tail);
      Regroup(", ", others, tail);
      assert RenderItems(Quotes(ss), tail) == Render(Quoted(ss[0]), ", " + RenderItems(Quotes(ss[1..]), tail));
    }
  }

  method AppendList(lines: seq<string>, key: string, values: seq<string>, ghost header: string, ghost fs: seq<Field>,
                    ghost n: nat)
    returns (r: seq<string>, ghost m: nat)
    requires n < |fs| && lines == Written(header, fs, n) && fs[n] == Field(key, QuotedList(values))
    ensures m == n + 1 && r == Written(header, fs, m)
  {
    m := n + 1;
    if values == [] { return lines, n + 1; }
    JoinRenders(values, "]" + "");
    r := lines + [key + (" = " + ("[" + (Join(QuotedTexts(values), ", ") + "]")))];
    assert "]" + "" == "]";
  }

  method AppendPlain(lines: seq<string>, key: string, value: Option<Value>, text: string, ghost header: string,
                     ghost fs: seq<Field>, ghost n: nat)
    returns (r: seq<string>, ghost m: nat)
    requires n < |fs| && lines == Written(header, fs, n) && fs[n] == Field(key, value)
    requires value.Some? ==> text == Render(value.value, "")
    ensures m == n + 1 && r == Written(header, fs, m)
  {
    m := n + 1;
    if value.None? { return lines, n + 1; }
    r := lines + [key + (" = " + text)];
  }

  method AppendProjectFields(c: Config) returns (lines: seq<string>)
    ensures lines == Written("[project]", ProjectFields(c), |ProjectFields(c)|)
  {
    ghost var fs, header, n := ProjectFields(c), "[project]", 0;
    lines := ["[project]"];
    lines, n := AppendLocations(c, lines, header, fs, n);
    lines, n := AppendData(c, lines, header, fs, n);
    lines, n := AppendAddons(c, lines, header, fs, n);
    lines, n := AppendTokens(c, lines, header, fs, n);
    lines, n := AppendRuntime(c, lines, header, fs, n);
  }

  method AppendLocations(c: Config, before: seq<string>, ghost header: string, ghost fs: seq<Field>, ghost start: nat)
    returns (lines: seq<string>, ghost n: nat)
    requires fs == ProjectFields(c) && start == 0 && before == Written(header, fs, start)
    ensures n == 3 && lines == Written(header, fs, n)
  {
    lines, n := before, start;
    lines, n := AppendString(lines, "odoo_bin", c.odooBin, header, fs, n);
    var python := if c.python.None? then None else Some(c.python.value.text);
    lines, n := AppendString(lines, "python", python, header, fs, n);
    lines, n := AppendString(lines, "source_config", c.sourceConfig, header, fs, n);
  }

  method AppendData(c: Config, before: seq<string>, ghost header: string, ghost fs: seq<Field>, ghost start: nat)
    returns (lines: seq<string>, ghost n: nat)
    requires fs == ProjectFields(c) && start == 3 && before == Written(header, fs, start)
    ensures n == 5 && lines == Written(header, fs, n)
  {
    lines, n := before, start;
    lines, n := AppendString(lines, "default_source_database", c.defaultSourceDatabase, header, fs, n);
    lines, n := AppendString(lines, "managed_filestore", c.managedFilestore, header, fs, n);
  }

  method AppendAddons(c: Config, before: seq<string>, ghost header: string, ghost fs: seq<Field>, ghost start: nat)
    returns (lines: seq<string>, ghost n: nat)
    requires fs == ProjectFields(c) && start == 5 && before == Written(header, fs, start)
    ensures n == 9 && lines == Written(header, fs, n)
  {
    lines, n := before, start;
    lines, n := AppendList(lines, "addon_repositories", c.addonRepositories, header, fs, n);
    lines, n := AppendList(lines, "addon_roots", c.addonRoots, header, fs, n);
    lines, n := AppendList(lines, "server_wide_modules", c.serverWideModules, header, fs, n);
    lines, n := AppendString(lines, "default_base_ref", c.defaultBaseRef, header, fs, n);
  }

  method AppendTokens(c: Config, before: seq<string>, ghost header: string, ghost fs: seq<Field>, ghost start: nat)
    returns (lines: seq<string>, ghost n: nat)
    requires fs == ProjectFields(c) && start == 9 && before == Written(header, fs, start)
    ensures n == 13 && lines == Written(header, fs, n)
  {
    lines, n := before, start;
    var hours := c.refreshAfterHours;
    lines, n := AppendPlain(lines, "refresh_after_hours", if hours.None? then None else Some(Float(hours.value)),
                            if hours.None? then "" else hours.value + "", header, fs, n);
    var port := c.preferredHttpPort;
    lines, n := AppendPlain(lines, "preferred_http_port", if port.None? then None else Some(PortValue(port.value)),
                            if port.None? then "" else PortText(port.value), header, fs, n);
    var enabled := c.ticketLinkEnabled;
    lines, n := AppendPlain(lines, "ticket_link_enabled", if enabled.None? then None else Some(Bool(enabled.value)),
                            (if enabled == Some(true) then "true" else "false") + "", header, fs, n);
    lines, n := AppendString(lines, "ticket_base_url",
                             if enabled.None? then None
                               else Some(if c.ticketBaseUrl.None? then "" else c.ticketBaseUrl.value),
                             header, fs, n);
  }

  method AppendRuntime(c: Config, before: seq<string>, ghost header: string, ghost fs: seq<Field>, ghost start: nat)
    returns (lines: seq<string>, ghost n: nat)
    requires fs == ProjectFields(c) && start == 13 && before == Written(header, fs, start)
    ensures n == 16 && lines == Written(header, fs, n)
  {
    lines, n := before, start;
    lines, n := AppendList(lines, "requirements", c.requirements, header, fs, n);
    lines, n := AppendList(lines, "default_run_args", c.defaultRunArgs, header, fs, n);
    lines, n := AppendString(lines, "runtime_cwd", c.runtimeCwd, header, fs, n);
  }

  function PortText(p: Port): (s: string)
    ensures s == Render(PortValue(p), "")
  {
    match p
    case Number(n) => assert PrintInt(n) + "" == PrintInt(n); PrintInt(n)
    case Flag(b) => var t := if b then "True" else "False"; assert t + "" == t; t
  }

  function SectionLines(s: Section): seq<Line> { [Header(s.path)] + Pairs(s.entries) }

  function SectionText(s: Section): seq<string> { RenderLines(SectionLines(s)) }

  /** A section as one string without its last newline, the way the writer appends it. */
  function Block(s: Section): string { Join(SectionText(s), "\n") }

  function Blocks(ss: seq<Section>): seq<string> {
    if ss == [] then [] else [""] + ([Block(ss[0])] + Blocks(ss[1..]))
  }

  lemma {:induction false} BlocksPlus(a: seq<Section>, b: seq<Section>)
    ensures Blocks(a + b) == Blocks(a) + Blocks(b)
  {
    if a == [] {
      assert a + b == b;
    } else {
      assert (a + b)[1..] == a[1..] + b;
      BlocksPlus(a[1..], b);
      Regroup([Block(a[0])], Blocks(a[1..]), Blocks(b));
      Regroup([""], [Block(a[0])] + Blocks(a[1..]), Blocks(b));
    }
  }

  lemma ConcatOne(line: string)
    ensures Concat([line]) == line + "\n"
  {
    assert [line][1..] == [];
  }

  lemma {:induction false} JoinConcat(lines: seq<string>)
    requires lines != []
    ensures Join(lines, "\n") + "\n" == Concat(lines)
  {
    if |lines| == 1 { ConcatOne(lines[0]); } else { JoinConcat(lines[1..]); }
  }

  lemma RenderLinesPlus(a: seq<Line>, b: seq<Line>)
    ensures RenderLines(a + b) == RenderLines(a) + RenderLines(b)
  {
  }

  lemma LinesFirst(s: Section, ss: seq<Section>)
    ensures LinesOf([s] + ss) == SectionLines(s) + (if ss == [] then [] else [Empty] + LinesOf(ss))
  {
    var all := [s] + ss;
    assert all[1..] == ss;
    Regroup([Header(s.path)], Pairs(s.entries), if ss == [] then [] else [Empty] + LinesOf(ss));
  }

  lemma ConcatRendered(a: seq<Line>, b: seq<Line>)
    ensures Concat(RenderLines(a + b)) == Concat(RenderLines(a)) + Concat(RenderLines(b))
  {
    RenderLinesPlus(a, b);
    ConcatPlus(RenderLines(a), RenderLines(b));
  }

  lemma ConcatEmpty()
    ensures Concat(RenderLines([Empty])) == "\n"
  {
    assert RenderLines([Empty]) == [""];
    ConcatOne("");
  }

  /** A section's lines, then an empty line, then the others. */
  lemma PrintFirst(s: Section, ss: seq<Section>)
    ensures Print([s] + ss) == Concat(SectionText(s)) + (if ss == [] then "" else "\n" + Print(ss))
  {
    LinesFirst(s, ss);
    if ss == [] {
      ConcatRendered(SectionLines(s), []);
    } else {
      ConcatRendered(SectionLines(s), [Empty] + LinesOf(ss));
      ConcatRendered([Empty], LinesOf(ss));
      ConcatEmpty();
    }
  }

  lemma BlockConcat(s: Section, rest: seq<string>)
    ensures Concat([""] + ([Block(s)] + rest)) == "\n" + (Concat(SectionText(s)) + Concat(rest))
  {
    ConcatPlus([""], [Block(s)] + rest);
    ConcatPlus([Block(s)], rest);
    ConcatOne("");
    ConcatOne(Block(s));
    JoinConcat(SectionText(s));
  }

  /** The first section's lines followed by the blocks of the others print the document. */
  lemma {:induction false} BlocksPrint(s: Section, ss: seq<Section>)
    ensures Concat(SectionText(s) + Blocks(ss)) == Print([s] + ss)
    decreases |ss|
  {
    ConcatPlus(SectionText(s), Blocks(ss));
    PrintFirst(s, ss);
    if ss != [] {
      BlocksPrint(ss[0], ss[1..]);
      assert [ss[0]] + ss[1..] == ss;
      ConcatPlus(SectionText(ss[0]), Blocks(ss[1..]));
      BlockConcat(ss[0], Blocks(ss[1..]));
    }
  }

  lemma WrittenIsSection(path: seq<string>, fs: seq<Field>, n: nat)
    requires n == |fs|
    ensures Written(RenderLine(Header(path)), fs, n) == SectionText(Section(path, Entries(fs)))
  {
    WrittenRenders(RenderLine(Header(path)), fs, n);
    RenderLinesPlus([Header(path)], Pairs(Entries(fs)));
    assert RenderLines([Header(path)]) == [RenderLine(Header(path))];
  }

  method PostgresBlock(p: Postgres) returns (block: string)
    ensures block == Block(Section(["postgres"], Entries(PostgresFields(p))))
  {
    ghost var fs, header, n := PostgresFields(p), "[postgres]", 0;
    var lines := ["[postgres]"];
    var mode := if p.mode.External? then "external" else "compose";
    lines, n := AppendPlain(lines, "mode", Some(Str(mode)), ModeText(p.mode), header, fs, n);
    lines, n := AppendString(lines, "image", p.image, header, fs, n);
    lines, n := AppendPlain(lines, "port", if p.port.None? then None else Some(Int(p.port.value)),
                            if p.port.None? then "" else PrintInt(p.port.value) + "", header, fs, n);
    lines, n := AppendString(lines, "user", p.user, header, fs, n);
    HeaderTexts();
    WrittenIsSection(["postgres"], fs, n);
    block := Join(lines, "\n");
  }

  function ModeText(m: Mode): (s: string)
    ensures s == Render(Str(if m.External? then "external" else "compose"), "")
  {
    var t := if m.External? then "external" else "compose";
    PlainEscape(t);
    "\"" + (t + ("\"" + ""))
  }

  lemma {:induction false} PlainEscape(s: string)
    requires '\\' !in s && '"' !in s
    ensures Escape(s) == s
  {
    if s != [] { EscapeFirst(s); PlainEscape(s[1..]); }
  }

  lemma HeaderText(name: string)
    ensures RenderLine(Header([name])) == "[" + (name + "]")
  {
  }

  lemma HeaderTexts()
    ensures "[project]" == RenderLine(Header(["project"]))
    ensures "[postgres]" == RenderLine(Header(["postgres"]))
    ensures "[test_instance]" == RenderLine(Header(["test_instance"]))
  {
    HeaderText("project");
    HeaderText("postgres");
    HeaderText("test_instance");
    assert "[project]" == "[" + ("project" + "]");
    assert "[postgres]" == "[" + ("postgres" + "]");
    assert "[test_instance]" == "[" + ("test_instance" + "]");
  }

  lemma RemoteHeader(name: string)
    ensures RenderLine(Header(["remote_instances", name])) == "[" + ("remote_instances" + ("." + (name + "]")))
  {
    var path := ["remote_instances", name];
    assert path[1..] == [name];
    assert RenderPath([name]) == name + "]";
  }

  method SourceBlock(path: seq<string>, header: string, url: string, database: Option<string>, branch: Option<string>)
    returns (block: string)
    requires header == RenderLine(Header(path))
    ensures block == Block(Section(path, Entries(SourceFields(url, database, branch))))
  {
    ghost var fs, n := SourceFields(url, database, branch), 0;
    var lines := [header];
    lines, n := AppendString(lines, "base_url", Some(url), header, fs, n);
    lines, n := AppendString(lines, "database", database, header, fs, n);
    lines, n := AppendString(lines, "git_branch", branch, header, fs, n);
    WrittenIsSection(path, fs, n);
    block := Join(lines, "\n");
  }

  /** A `RemoteSourceConfig` that its constructor has made. */
  predicate RemoteMade(h: Host, r: Remote) { NewRemote(h, r) == Some(r) }

  predicate RemotesMade(h: Host, rs: seq<Remote>) { forall i :: 0 <= i < |rs| ==> RemoteMade(h, rs[i]) }

  lemma SortedMade(h: Host, rs: seq<Remote>)
    requires RemotesMade(h, rs)
    ensures RemotesMade(h, Sort(rs, NameOf))
  {
    var sources := Sort(rs, NameOf);
    SortFacts(rs, NameOf);
    SameItems(sources, rs);
    forall i | 0 <= i < |sources| ensures RemoteMade(h, sources[i]) { assert sources[i] in rs; }
  }

  method RemoteBlock(h: Host, r: Remote) returns (block: string)
    requires RemoteMade(h, r)
    ensures block == Block(RemoteSection(r))
  {
    var name, url := NormalName(h, r.name), h.url(r.baseUrl, false);
    RemoteHeader(name.value);
    block := SourceBlock(["remote_instances", name.value], "[" + ("remote_instances" + ("." + (name.value + "]"))),
                         url.value, r.database, Some(r.gitBranch));
  }

  method AppendRemotes(h: Host, sources: seq<Remote>, before: seq<string>) returns (lines: seq<string>)
    requires RemotesMade(h, sources)
    ensures lines == before + Blocks(RemoteSections(sources))
  {
    lines := before;
    ghost var sections := RemoteSections(sources);
    for i := 0 to |sources|
      invariant lines == before + Blocks(sections[..i])
    {
      var block := RemoteBlock(h, sources[i]);
      lines := lines + [""] + [block];
      BlocksNext(sections, i, before);
    }
    assert sections[..|sources|] == sections;
  }

  lemma BlocksNext(ss: seq<Section>, i: nat, before: seq<string>)
    requires i < |ss|
    ensures before + Blocks(ss[..i]) + [""] + [Block(ss[i])] == before + Blocks(ss[..i + 1])
  {
    assert ss[..i + 1] == ss[..i] + [ss[i]];
    BlocksPlus(ss[..i], [ss[i]]);
    OneBlock(ss[i], before + Blocks(ss[..i]));
    Regroup(before, Blocks(ss[..i]), Blocks([ss[i]]));
  }

  method AppendPostgres(c: Config, before: seq<string>) returns (lines: seq<string>)
    ensures lines == before + Blocks(PostgresSections(c))
  {
    if c.postgres.None? || IsDefault(c.postgres.value) { return before; }
    var block := PostgresBlock(c.postgres.value);
    lines := before + [""] + [block];
    OneBlock(PostgresSections(c)[0], before);
  }

  method AppendTest(c: Config, before: seq<string>) returns (lines: seq<string>)
    ensures lines == before + Blocks(TestSections(c))
  {
    if c.testInstance.None? { return before; }
    var t := c.testInstance.value;
    HeaderTexts();
    var block := SourceBlock(["test_instance"], "[test_instance]", t.baseUrl, t.database, t.gitBranch);
    lines := before + [""] + [block];
    OneBlock(TestSections(c)[0], before);
  }

  lemma OneBlock(s: Section, before: seq<string>)
    ensures before + [""] + [Block(s)] == before + Blocks([s])
  {
    assert [s][1..] == [];
    assert Blocks([s]) == [""] + ([Block(s)] + []);
  }

  /** The text written is the printed document. */
  method ToManifest(h: Host, c: Config) returns (text: string)
    requires RemotesMade(h, c.remoteInstances)
    ensures text == Print(Sections(c))
  {
    var lines := AppendProjectFields(c);
    lines := AppendPostgres(c, lines);
    lines := AppendTest(c, lines);
    SortedMade(h, c.remoteInstances);
    lines := AppendRemotes(h, Sort(c.remoteInstances, NameOf), lines);
    AllBlocks(c, lines);
    JoinConcat(lines);
    text := Join(lines, "\n") + "\n";
  }

  lemma AllBlocks(c: Config, lines: seq<string>)
    requires lines
         == Written("[project]", ProjectFields(c), |ProjectFields(c)|) + Blocks(PostgresSections(c))
           + Blocks(TestSections(c))
                      + Blocks(RemoteSections(Sort(c.remoteInstances, NameOf)))
    ensures lines != [] && Concat(lines) == Print(Sections(c))
  {
    var s := Section(["project"], Entries(ProjectFields(c)));
    HeaderTexts();
    WrittenIsSection(["project"], ProjectFields(c), |ProjectFields(c)|);
    FourPieces(s, PostgresSections(c), TestSections(c), RemoteSections(Sort(c.remoteInstances, NameOf)), lines);
  }

  lemma FourPieces(s: Section, p: seq<Section>, q: seq<Section>, r: seq<Section>, lines: seq<string>)
    requires lines == SectionText(s) + Blocks(p) + Blocks(q) + Blocks(r)
    ensures lines != [] && Concat(lines) == Print([s] + p + q + r)
  {
    BlocksPlus(p, q);
    BlocksPlus(p + q, r);
    BlocksPrint(s, p + q + r);
    Regroup([s], p, q);
    Regroup([s], p + q, r);
    Regroup(SectionText(s), Blocks(p), Blocks(q));
    Regroup(SectionText(s), Blocks(p + q), Blocks(r));
  }
}

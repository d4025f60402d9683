/** `project_init.py`: captured updates of the named remote sources in a project manifest.
    The manifest fingerprint is the text itself: SHA-256 is taken as injective. */
module RemoteConfig {
  import opened Text
  import opened Sorting
  import opened Toml
  import opened Manifest
  import opened ManifestRoundTrip
  import opened ManifestLoading
  import opened ManifestIdentity

  datatype Change = Configure(source: Remote, replace: bool) | Remove(name: string)

  datatype RunError = Stale | Exists | LoadFailed | WriteFailed

  // ---------------------------------------------------------------- the dictionary of sources

  /** `sources[s.name] = s` on a dictionary in insertion order. */
  function Put(rs: seq<Remote>, s: Remote): seq<Remote> {
    if rs == [] then [s] else if rs[0].name == s.name then [s] + rs[1..] else [rs[0]] + Put(rs[1..], s)
  }

  /** `sources.pop(name, None)` */
  function Without(rs: seq<Remote>, name: string): seq<Remote> {
    if rs == [] then [] else if rs[0].name == name then rs[1..] else [rs[0]] + Without(rs[1..], name)
  }

  function Lookup(rs: seq<Remote>, name: string): Option<Remote> {
    if rs == [] then None else if rs[0].name == name then Some(rs[0]) else Lookup(rs[1..], name)
  }

  function Edited(rs: seq<Remote>, change: Change): seq<Remote> {
    match change
    case Configure(s, _) => Put(rs, s)
    case Remove(n) => Without(rs, n)
  }

  /** The configuration with the change applied, as previewed and as committed. */
  function Apply(c: Config, change: Change): Config {
    c.(remoteInstances := Sort(Edited(c.remoteInstances, change), NameOf))
  }

  predicate Conflicts(rs: seq<Remote>, change: Change) {
    change.Configure? && !change.replace && Lookup(rs, change.source.name).Some?
    && Lookup(rs, change.source.name) != Some(change.source)
  }

  predicate Idle(rs: seq<Remote>, change: Change) {
    match change
    case Configure(s, _) => Lookup(rs, s.name) == Some(s)
    case Remove(n) => Lookup(rs, n).None?
  }

  /** The text a run leaves behind when it starts from `text`. */
  function Committed(h: Host, project: string, text: string, change: Change): Result<string, RunError> {
    var c := Load(h, project, Some(text));
    if c.Err? then Err(LoadFailed)
    else if Conflicts(c.value.remoteInstances, change) then Err(Exists)
    else if Idle(c.value.remoteInstances, change) then Ok(text)
    else Ok(Print(Sections(Apply(c.value, change))))
  }

  /** A command as it was captured: the change, the text it was fingerprinted on and the previewed configuration. */
  datatype Captured = Captured(change: Change, fingerprint: string, preview: Config)

  /** A run succeeds exactly on the captured text; a write that fails matters only when there is something to write. */
  predicate Succeeds(h: Host, project: string, content: string, cmd: Captured, writeFails: bool) {
    && content == cmd.fingerprint && Committed(h, project, content, cmd.change).Ok?
    && (writeFails ==> Idle(Load(h, project, Some(content)).value.remoteInstances, cmd.change))
  }

  lemma Tail(rs: seq<Remote>)
    requires rs != [] && DistinctKeys(rs, NameOf)
    ensures DistinctKeys(rs[1..], NameOf)
    ensures forall i :: 0 <= i < |rs[1..]| ==> rs[1..][i].name != rs[0].name
  {
    forall i, j | 0 <= i < j < |rs[1..]| ensures NameOf(rs[1..][i]) != NameOf(rs[1..][j]) {
      assert NameOf(rs[i + 1]) != NameOf(rs[j + 1]);
    }
    forall i | 0 <= i < |rs[1..]| ensures rs[1..][i].name != rs[0].name {
      assert NameOf(rs[0]) != NameOf(rs[i + 1]);
    }
  }

  lemma Cons(r: Remote, rs: seq<Remote>)
    requires DistinctKeys(rs, NameOf) && forall i :: 0 <= i < |rs| ==> rs[i].name != r.name
    ensures DistinctKeys([r] + rs, NameOf)
  {
  }

  lemma InTail(rs: seq<Remote>, r: Remote)
    requires rs != []
    ensures r in rs <==> r == rs[0] || r in rs[1..]
  {
    assert rs == [rs[0]] + rs[1..];
  }

  lemma NotInTail(rs: seq<Remote>, r: Remote)
    requires rs != [] && DistinctKeys(rs, NameOf)
    ensures r in rs[1..] ==> r.name != rs[0].name
  {
    Tail(rs);
  }

  lemma {:induction false} WithoutMember(rs: seq<Remote>, name: string, r: Remote)
    requires DistinctKeys(rs, NameOf)
    ensures r in Without(rs, name) <==> r in rs && r.name != name
  {
    if rs != [] {
      Tail(rs);
      InTail(rs, r);
      NotInTail(rs, r);
      WithoutMember(rs[1..], name, r);
    }
  }

  lemma {:induction false} WithoutDistinct(rs: seq<Remote>, name: string)
    requires DistinctKeys(rs, NameOf)
    ensures DistinctKeys(Without(rs, name), NameOf)
  {
    if rs != [] {
      Tail(rs);
      if rs[0].name != name {
        WithoutDistinct(rs[1..], name);
        var w := Without(rs[1..], name);
        forall i | 0 <= i < |w| ensures w[i].name != rs[0].name {
          WithoutMember(rs[1..], name, w[i]);
          NotInTail(rs, w[i]);
        }
        Cons(rs[0], w);
      }
    }
  }

  lemma {:induction false} WithoutAbsent(rs: seq<Remote>, name: string)
    requires Lookup(rs, name).None?
    ensures Without(rs, name) == rs
  {
    if rs != [] {
      WithoutAbsent(rs[1..], name);
      assert [rs[0]] + rs[1..] == rs;
    }
  }

  lemma {:induction false} WithoutPresent(rs: seq<Remote>, name: string)
    requires Lookup(rs, name).Some?
    ensures |Without(rs, name)| == |rs| - 1
  {
    if rs[0].name != name { WithoutPresent(rs[1..], name); }
  }

  lemma WithoutLength(rs: seq<Remote>, name: string)
    ensures |Without(rs, name)| == |rs| <==> Lookup(rs, name).None?
    ensures Lookup(rs, name).None? ==> Without(rs, name) == rs
  {
    if Lookup(rs, name).None? { WithoutAbsent(rs, name); } else { WithoutPresent(rs, name); }
  }

  lemma {:induction false} LookupMember(rs: seq<Remote>, name: string, r: Remote)
    requires DistinctKeys(rs, NameOf)
    ensures r in rs && r.name == name <==> Lookup(rs, name) == Some(r)
  {
    if rs != [] {
      Tail(rs);
      InTail(rs, r);
      NotInTail(rs, r);
      LookupMember(rs[1..], name, r);
    }
  }

  lemma {:induction false} PutMember(rs: seq<Remote>, s: Remote, r: Remote)
    requires DistinctKeys(rs, NameOf)
    ensures r in Put(rs, s) <==> r == s || (r in rs && r.name != s.name)
  {
    if rs != [] {
      Tail(rs);
      InTail(rs, r);
      NotInTail(rs, r);
      PutMember(rs[1..], s, r);
    }
  }

  lemma {:induction false} PutDistinct(rs: seq<Remote>, s: Remote)
    requires DistinctKeys(rs, NameOf)
    ensures DistinctKeys(Put(rs, s), NameOf)
  {
    if rs != [] {
      Tail(rs);
      if rs[0].name == s.name {
        Cons(s, rs[1..]);
      } else {
        PutDistinct(rs[1..], s);
        var p := Put(rs[1..], s);
        forall i | 0 <= i < |p| ensures p[i].name != rs[0].name {
          PutMember(rs[1..], s, p[i]);
          NotInTail(rs, p[i]);
        }
        Cons(rs[0], p);
      }
    }
  }

  lemma {:induction false} PutSame(rs: seq<Remote>, s: Remote)
    requires Lookup(rs, s.name) == Some(s)
    ensures Put(rs, s) == rs
  {
    if rs[0].name != s.name { PutSame(rs[1..], s); }
  }

  /** Exactly the named source changes; all others stay as they are. */
  lemma EditedFacts(rs: seq<Remote>, change: Change)
    requires DistinctKeys(rs, NameOf)
    ensures DistinctKeys(Edited(rs, change), NameOf)
    ensures change.Configure? ==>
      forall r :: r in Edited(rs, change) <==> r == change.source || (r in rs && r.name != change.source.name)
    ensures change.Remove? ==> forall r :: r in Edited(rs, change) <==> r in rs && r.name != change.name
    ensures Idle(rs, change) ==> Edited(rs, change) == rs
  {
    match change
    case Configure(s, _) =>
      PutDistinct(rs, s);
      forall r { PutMember(rs, s, r); }
      if Idle(rs, change) { PutSame(rs, s); }
    case Remove(n) =>
      WithoutDistinct(rs, n);
      WithoutLength(rs, n);
      forall r { WithoutMember(rs, n, r); }
  }

  /** Lists with distinct names and the same members sort to the same list. */
  lemma SortBySet(a: seq<Remote>, b: seq<Remote>)
    requires DistinctKeys(a, NameOf) && DistinctKeys(b, NameOf) && forall r :: r in a <==> r in b
    ensures Sort(a, NameOf) == Sort(b, NameOf)
  {
    SortFacts(a, NameOf);
    SortFacts(b, NameOf);
    forall r ensures multiset(a)[r] == multiset(b)[r] { AtMostOnce(a, r); AtMostOnce(b, r); }
    assert multiset(a) == multiset(b);
    DistinctPermutation(a, Sort(a, NameOf), NameOf);
    SortedUnique(Sort(a, NameOf), Sort(b, NameOf), NameOf);
  }

  lemma AtMostOnce(a: seq<Remote>, r: Remote)
    requires DistinctKeys(a, NameOf)
    ensures multiset(a)[r] == if r in a then 1 else 0
  {
    if r in a {
      var p :| 0 <= p < |a| && a[p] == r;
      OnceInSeq(a, p, NameOf);
    }
  }

  lemma SortSet(rs: seq<Remote>)
    requires DistinctKeys(rs, NameOf)
    ensures DistinctKeys(Sort(rs, NameOf), NameOf) && (forall r :: r in Sort(rs, NameOf) <==> r in rs)
    ensures Sort(Sort(rs, NameOf), NameOf) == Sort(rs, NameOf)
  {
    SortedDistinct(rs);
    SortFacts(rs, NameOf);
    SameItems(Sort(rs, NameOf), rs);
    SortOfSorted(Sort(rs, NameOf), NameOf);
  }

  /** Editing does not depend on the order in which the sources are held. */
  lemma EditSorted(rs: seq<Remote>, change: Change)
    requires DistinctKeys(rs, NameOf)
    ensures Sort(Edited(Sort(rs, NameOf), change), NameOf) == Sort(Edited(rs, change), NameOf)
  {
    SortSet(rs);
    EditedFacts(rs, change);
    EditedFacts(Sort(rs, NameOf), change);
    SortBySet(Edited(Sort(rs, NameOf), change), Edited(rs, change));
  }

  /** Another source is held under the name, and it may not be replaced. */
  predicate OtherHeld(rs: seq<Remote>, change: Change) {
    change.Configure? && !change.replace && exists s :: s in rs && s.name == change.source.name && s != change.source
  }

  /** There is nothing to do: the source is held as it is, or none is held under the name. */
  predicate Settled(rs: seq<Remote>, change: Change) {
    match change
    case Configure(source, _) => source in rs
    case Remove(name) => forall s :: s in rs ==> s.name != name
  }

  /** The source is one the change leaves: the configured one, or one held under another name. */
  predicate Remains(rs: seq<Remote>, change: Change, s: Remote) {
    match change
    case Configure(source, _) => s == source || (s in rs && s.name != source.name)
    case Remove(name) => s in rs && s.name != name
  }

  lemma LookupMeans(rs: seq<Remote>, name: string)
    requires DistinctKeys(rs, NameOf)
    ensures Lookup(rs, name).None? <==> forall s :: s in rs ==> s.name != name
    ensures forall s :: s in rs && s.name == name <==> Lookup(rs, name) == Some(s)
  {
    forall s ensures s in rs && s.name == name <==> Lookup(rs, name) == Some(s) { LookupMember(rs, name, s); }
    if Lookup(rs, name).Some? { LookupMember(rs, name, Lookup(rs, name).value); }
  }

  lemma ConflictMeans(rs: seq<Remote>, change: Change)
    requires DistinctKeys(rs, NameOf)
    ensures Conflicts(rs, change) <==> OtherHeld(rs, change)
    ensures Idle(rs, change) <==> Settled(rs, change)
  {
    LookupMeans(rs, if change.Configure? then change.source.name else change.name);
    if Conflicts(rs, change) {
      var s := Lookup(rs, change.source.name).value;
      assert s in rs && s.name == change.source.name && s != change.source;
    }
  }

  /** A change without leave to replace drops nothing when it is not refused. */
  lemma NothingDropped(rs: seq<Remote>, change: Change, s: Remote)
    requires change.Configure? && !change.replace && !OtherHeld(rs, change) && s in rs
    ensures Remains(rs, change, s)
  {
  }

  lemma EditedRemains(rs: seq<Remote>, change: Change)
    requires DistinctKeys(rs, NameOf)
    ensures forall s :: s in Sort(Edited(rs, change), NameOf) <==> Remains(rs, change, s)
  {
    EditedFacts(rs, change);
    SortSet(Edited(rs, change));
  }

  // ---------------------------------------------------------------- commands

  /** The manifest of one project; every writer replaces it whole while holding the lock. */
  class ManifestFile {
    var content: Option<string>
    constructor (content: Option<string>)
      ensures this.content == content
    {
      this.content := content;
    }
  }

  class RemoteCommand {
    const project: string
    const change: Change
    const fingerprint: string
    const preview: Config

    /** `_manifest_snapshot` loads the manifest and then reads its bytes again, without the lock:
        another writer may come between, so the two readings are separate arguments. */
    constructor (project: string, change: Change, baseline: Config, second: Option<string>)
      ensures this.project == project && this.change == change
      ensures preview == Apply(baseline, change)
      ensures fingerprint == if second.Some? then second.value else Print(Sections(baseline))
    {
      this.project := project;
      this.change := change;
      this.preview := Apply(baseline, change);
      this.fingerprint := if second.Some? then second.value else Print(Sections(baseline));
    }

    /** `run`: under the lock, check, edit the dictionary and replace the manifest. */
    method Run(h: Host, file: ManifestFile, writeFails: bool) returns (r: Result<seq<Remote>, RunError>)
      requires Lawful(h)
      requires change.Configure? ==> RemoteMade(h, change.source)
      modifies file
      ensures r.Err? ==> file.content == old(file.content)
      ensures r.Ok? <==>
        && old(file.content).Some?
        && Succeeds(h, project, old(file.content).value, Captured(change, fingerprint, preview), writeFails)
      ensures old(file.content) != Some(fingerprint) ==> r == Err(Stale)
      ensures r.Ok? ==> file.content == Some(Committed(h, project, fingerprint, change).value)
      ensures r.Ok? ==>
        forall s :: s in r.value <==> s in Apply(Load(h, project, Some(fingerprint)).value, change).remoteInstances
      ensures var loaded := Load(h, project, Some(fingerprint));
        old(file.content) == Some(fingerprint) ==>
          && (r == Err(LoadFailed) <==> loaded.Err?)
          && (loaded.Ok? ==>
                var held := loaded.value.remoteInstances;
                && (r == Err(Exists) <==>
                      && change.Configure? && !change.replace
                      && exists s :: s in held && s.name == change.source.name && s != change.source)
                && (r == Err(WriteFailed) <==> !OtherHeld(held, change) && !Settled(held, change) && writeFails)
                && (Settled(held, change) ==> file.content == old(file.content))
                && (r.Ok? ==> forall s :: s in r.value <==> Remains(held, change, s))
                && (r.Ok? && change.Configure? && !change.replace ==> forall s :: s in held ==> s in r.value))
    {
      if file.content.None? { return Err(Stale); }
      if file.content.value != fingerprint { return Err(Stale); }
      var loaded := Load(h, project, file.content);
      if loaded.Err? { return Err(LoadFailed); }
      var current := loaded.value;
      LoadedSources(h, project, fingerprint, change);
      ConflictMeans(current.remoteInstances, change);
      EditedRemains(current.remoteInstances, change);
      var verdict := Decide(current.remoteInstances, change);
      if verdict.Refused? { return Err(Exists); }
      if verdict.Keep? { return Ok(verdict.sources); }
      var updated := current.(remoteInstances := verdict.sources);
      var text := ToManifest(h, updated);
      if writeFails { return Err(WriteFailed); }
      file.content := Some(text);
      r := Ok(updated.remoteInstances);
    }
  }

  datatype Verdict = Refused | Keep(sources: seq<Remote>) | Rewrite(sources: seq<Remote>)

  /** The dictionary part of `run`. */
  method Decide(current: seq<Remote>, change: Change) returns (v: Verdict)
    requires DistinctKeys(current, NameOf)
    ensures v.Refused? <==> Conflicts(current, change)
    ensures v.Keep? <==> !Conflicts(current, change) && Idle(current, change)
    ensures v.Refused? <==> OtherHeld(current, change)
    ensures v.Keep? <==> !OtherHeld(current, change) && Settled(current, change)
    ensures !v.Refused? ==> forall s :: s in v.sources <==> Remains(current, change, s)
    ensures v.Rewrite? ==> v.sources == Sort(Edited(current, change), NameOf)
    ensures !v.Refused? ==> forall s :: s in v.sources <==> s in Sort(Edited(current, change), NameOf)
  {
    var sources := current;
    EditedFacts(current, change);
    SortSet(current);
    SortSet(Edited(current, change));
    EditedRemains(current, change);
    ConflictMeans(current, change);
    match change {
    case Configure(source, replace) =>
      var existing := Lookup(sources, source.name);
      if existing.Some? && !replace && existing != Some(source) { return Refused; }
      if existing == Some(source) { return Keep(Sort(sources, NameOf)); }
      sources := Put(sources, source);
    case Remove(name) =>
      WithoutLength(sources, name);
      sources := Without(sources, name);
      if |sources| == |current| { return Keep(current); }
    }
    v := Rewrite(Sort(sources, NameOf));
  }

  lemma LoadedSources(h: Host, project: string, text: string, change: Change)
    requires Lawful(h) && Load(h, project, Some(text)).Ok? && (change.Configure? ==> RemoteMade(h, change.source))
    ensures var rs := Load(h, project, Some(text)).value.remoteInstances;
      DistinctKeys(rs, NameOf) && RemotesMade(h, Sort(Edited(rs, change), NameOf))
  {
    LoadedIsMade(h, project, text);
    var c := Load(h, project, Some(text)).value;
    MadeHours(h, c);
    EditedMade(h, c.remoteInstances, change);
  }

  lemma EditedMade(h: Host, rs: seq<Remote>, change: Change)
    requires RemotesMade(h, rs) && DistinctKeys(rs, NameOf) && (change.Configure? ==> RemoteMade(h, change.source))
    ensures RemotesMade(h, Sort(Edited(rs, change), NameOf))
  {
    EditedFacts(rs, change);
    var es := Edited(rs, change);
    forall i | 0 <= i < |es| ensures RemoteMade(h, es[i]) { assert es[i] in es; }
    SortedMade(h, es);
  }

  // ---------------------------------------------------------------- what a commit keeps

  /** Every setting other than the sources can be rewritten. */
  predicate RestRewritable(c: Config) { Rewritable(c.(remoteInstances := [])) }

  lemma RewritableSplit(c: Config)
    ensures Rewritable(c) <==> RestRewritable(c) && FreeRemotes(c.remoteInstances)
  {
  }

  lemma OtherSources(h: Host, c: Config, rs: seq<Remote>)
    requires Construct(h, c) == Ok(c) && DistinctKeys(rs, NameOf)
    ensures Construct(h, c.(remoteInstances := rs)) == Ok(c.(remoteInstances := rs))
  {
    var d := c.(remoteInstances := rs);
    assert Repositories(h, d) == Repositories(h, c) && Addons(h, d) == Addons(h, c) && Modules(d) == Modules(c);
  }

  lemma OtherSourcesTyped(h: Host, c: Config, rs: seq<Remote>)
    requires WellTyped(h, c) && RemotesMade(h, rs)
    ensures WellTyped(h, c.(remoteInstances := rs))
  {
  }

  lemma ApplyMade(h: Host, c: Config, change: Change)
    requires Made(h, c) && (change.Configure? ==> RemoteMade(h, change.source))
    ensures Made(h, Apply(c, change))
  {
    MadeHours(h, c);
    var es := Edited(c.remoteInstances, change);
    EditedMade(h, c.remoteInstances, change);
    EditedFacts(c.remoteInstances, change);
    SortSet(es);
    OtherSources(h, c, Sort(es, NameOf));
    OtherSourcesTyped(h, c, Sort(es, NameOf));
  }

  lemma FaithfulApplied(h: Host, c: Config, change: Change)
    requires FieldsTyped(h, c)
    ensures Faithful(h, Apply(c, change)) <==> Rewritable(Apply(c, change))
  {
  }

  /** A committed update is read back as the current settings with exactly the requested change,
      if and only if the result is rewritable: then no other committed setting is lost. */
  lemma CommitKeepsSettings(h: Host, project: string, text: string, change: Change)
    requires Lawful(h) && Load(h, project, Some(text)).Ok? && (change.Configure? ==> RemoteMade(h, change.source))
    requires !Idle(Load(h, project, Some(text)).value.remoteInstances, change)
    requires Committed(h, project, text, change).Ok?
    ensures var c := Apply(Load(h, project, Some(text)).value, change);
      Load(h, project, Some(Committed(h, project, text, change).value)) == Ok(Normal(h, project, c)) <==> Rewritable(c)
  {
    LoadedIsMade(h, project, text);
    LoadedRoot(h, project, text);
    var c := Load(h, project, Some(text)).value;
    ApplyMade(h, c, change);
    FaithfulApplied(h, c, change);
    RoundTrip(h, project, Apply(c, change));
  }

  /** What the manifest then says about sources: the configured one or not the removed one, and every other source
      unchanged; so a change without leave to replace never costs a stored source. */
  lemma CommittedSources(h: Host, project: string, text: string, change: Change)
    requires Lawful(h) && Load(h, project, Some(text)).Ok? && (change.Configure? ==> RemoteMade(h, change.source))
    requires var c := Load(h, project, Some(text)).value;
      !OtherHeld(c.remoteInstances, change) && Rewritable(Apply(c, change))
    ensures Committed(h, project, text, change).Ok?
    ensures var after := Load(h, project, Some(Committed(h, project, text, change).value));
      var held := Load(h, project, Some(text)).value.remoteInstances;
      && after.Ok? && (forall s :: s in after.value.remoteInstances <==> Remains(held, change, s))
      && (change.Configure? && !change.replace ==> forall s :: s in held ==> s in after.value.remoteInstances)
  {
    var c := Load(h, project, Some(text)).value;
    var held := c.remoteInstances;
    LoadedSources(h, project, text, change);
    ConflictMeans(held, change);
    EditedRemains(held, change);
    EditedFacts(held, change);
    SortSet(held);
    if !Idle(held, change) {
      CommitKeepsSettings(h, project, text, change);
      SortSet(Edited(held, change));
    }
    if change.Configure? && !change.replace {
      forall s | s in held ensures Remains(held, change, s) { NothingDropped(held, change, s); }
    }
  }

  // ---------------------------------------------------------------- interleavings

  /** One writer at a time: another lock-respecting writer, or a run of a captured command. */
  datatype Event = Write(text: string) | Attempt(cmd: Captured, writeFails: bool)

  function Step(h: Host, project: string, content: string, e: Event): string {
    match e
    case Write(text) => text
    case Attempt(cmd, fails) =>
      if Succeeds(h, project, content, cmd, fails) then Committed(h, project, content, cmd.change).value else content
  }

  function Final(h: Host, project: string, content: string, es: seq<Event>): string
    decreases |es|
  {
    if es == [] then content else Final(h, project, Step(h, project, content, es[0]), es[1..])
  }

  /** What the settings should be: others' writes count as they are, successful runs apply their change, the rest do
      nothing. */
  function Expected(h: Host, project: string, content: string, c: Config, es: seq<Event>): Config
    decreases |es|
  {
    if es == [] then c
    else
      var next :=
        match es[0]
        case Write(text) => if Load(h, project, Some(text)).Ok? then Load(h, project, Some(text)).value else c
        case Attempt(cmd, fails) => if Succeeds(h, project, content, cmd, fails) then Apply(c, cmd.change) else c;
      Expected(h, project, Step(h, project, content, es[0]), next, es[1..])
  }

  /** Other writers leave a manifest that can be rewritten; configured sources are constructed and free of controls. */
  predicate Fine(h: Host, project: string, e: Event) {
    match e
    case Write(text) => Load(h, project, Some(text)).Ok? && Rewritable(Load(h, project, Some(text)).value)
    case Attempt(cmd, _) => cmd.change.Configure? ==> RemoteMade(h, cmd.change.source) && FreeRemote(cmd.change.source)
  }

  lemma NormalTwice(h: Host, project: string, c: Config)
    requires Lawful(h) && DistinctKeys(c.remoteInstances, NameOf)
    ensures Normal(h, project, Normal(h, project, c)) == Normal(h, project, c)
    ensures DistinctKeys(Normal(h, project, c).remoteInstances, NameOf)
    ensures Rewritable(c) ==> Rewritable(Normal(h, project, c))
  {
    SortSet(c.remoteInstances);
    SortFacts(c.remoteInstances, NameOf);
    SameFree(c.remoteInstances, Sort(c.remoteInstances, NameOf));
  }

  predicate Same(h: Host, project: string, c: Config, d: Config) {
    && DistinctKeys(c.remoteInstances, NameOf) && DistinctKeys(d.remoteInstances, NameOf)
    && Normal(h, project, c) == Normal(h, project, d)
  }

  lemma ApplySame(h: Host, project: string, c: Config, d: Config, change: Change)
    requires Same(h, project, c, d)
    ensures Same(h, project, Apply(c, change), Apply(d, change))
  {
    EditSorted(c.remoteInstances, change);
    EditSorted(d.remoteInstances, change);
    EditedFacts(c.remoteInstances, change);
    EditedFacts(d.remoteInstances, change);
    SortSet(Edited(c.remoteInstances, change));
    SortSet(Edited(d.remoteInstances, change));
    assert Normal(h, project, c).remoteInstances == Normal(h, project, d).remoteInstances;
  }

  lemma ApplyIdle(h: Host, project: string, d: Config, change: Change)
    requires DistinctKeys(d.remoteInstances, NameOf) && Idle(d.remoteInstances, change)
    ensures Same(h, project, Apply(d, change), d)
  {
    EditedFacts(d.remoteInstances, change);
    SortSet(d.remoteInstances);
  }

  lemma ApplyRewritable(c: Config, change: Change)
    requires DistinctKeys(c.remoteInstances, NameOf) && Rewritable(c)
    requires change.Configure? ==> FreeRemote(change.source)
    ensures Rewritable(Apply(c, change))
  {
    var es := Edited(c.remoteInstances, change);
    EditedFacts(c.remoteInstances, change);
    forall i | 0 <= i < |es| ensures FreeRemote(es[i]) { assert es[i] in es; }
    SortFacts(es, NameOf);
    SameFree(es, Sort(es, NameOf));
    RewritableSplit(c);
    RewritableSplit(Apply(c, change));
  }

  /** The state of a history: the content loads, can be rewritten, and says what it should. */
  predicate Tracks(h: Host, project: string, content: string, c: Config) {
    var d := Load(h, project, Some(content));
    d.Ok? && Rewritable(d.value) && Same(h, project, d.value, c)
  }

  lemma LoadedDistinct(h: Host, project: string, text: string)
    requires Lawful(h) && Load(h, project, Some(text)).Ok?
    ensures DistinctKeys(Load(h, project, Some(text)).value.remoteInstances, NameOf)
  {
    LoadedIsMade(h, project, text);
    MadeHours(h, Load(h, project, Some(text)).value);
  }

  lemma TracksRun(h: Host, project: string, content: string, c: Config, cmd: Captured, fails: bool)
    requires Lawful(h) && Tracks(h, project, content, c) && Fine(h, project, Attempt(cmd, fails))
    requires Succeeds(h, project, content, cmd, fails)
    ensures Tracks(h, project, Committed(h, project, content, cmd.change).value, Apply(c, cmd.change))
  {
    var d := Load(h, project, Some(content)).value;
    LoadedDistinct(h, project, content);
    ApplySame(h, project, d, c, cmd.change);
    if Idle(d.remoteInstances, cmd.change) {
      ApplyIdle(h, project, d, cmd.change);
    } else {
      ApplyRewritable(d, cmd.change);
      CommitKeepsSettings(h, project, content, cmd.change);
      EditedFacts(d.remoteInstances, cmd.change);
      SortSet(Edited(d.remoteInstances, cmd.change));
      NormalTwice(h, project, Apply(d, cmd.change));
    }
  }

  /** In every interleaving of captured commands and other writers, whatever fails or is stale: the manifest holds
      the latest foreign write with exactly the later successful changes applied, and nothing else is lost. */
  lemma {:induction false} NoUpdateIsLost(h: Host, project: string, content: string, c: Config, es: seq<Event>)
    requires Lawful(h) && Tracks(h, project, content, c)
    requires forall i :: 0 <= i < |es| ==> Fine(h, project, es[i])
    ensures Tracks(h, project, Final(h, project, content, es), Expected(h, project, content, c, es))
    decreases |es|
  {
    if es != [] {
      var next := Step(h, project, content, es[0]);
      match es[0] {
        case Write(text) =>
          LoadedDistinct(h, project, text);
          NoUpdateIsLost(h, project, next, Load(h, project, Some(text)).value, es[1..]);
        case Attempt(cmd, fails) =>
          if Succeeds(h, project, content, cmd, fails) {
            TracksRun(h, project, content, c, cmd, fails);
            NoUpdateIsLost(h, project, next, Apply(c, cmd.change), es[1..]);
          } else {
            NoUpdateIsLost(h, project, next, c, es[1..]);
          }
      }
    }
  }

  // ---------------------------------------------------------------- preview and commit

  function NamedBy(change: Change): string { if change.Configure? then change.source.name else change.name }

  /** All settings but the source that the change names. */
  function Elsewhere(c: Config, change: Change): Config {
    c.(remoteInstances := Without(c.remoteInstances, NamedBy(change)))
  }

  predicate AgreeElsewhere(h: Host, project: string, c: Config, d: Config, change: Change) {
    Normal(h, project, Elsewhere(c, change)) == Normal(h, project, Elsewhere(d, change))
  }

  lemma SameMembers(a: seq<Remote>, b: seq<Remote>)
    requires DistinctKeys(a, NameOf) && DistinctKeys(b, NameOf)
    ensures Sort(a, NameOf) == Sort(b, NameOf) <==> forall r :: r in a <==> r in b
  {
    SortSet(a);
    SortSet(b);
    if Sort(a, NameOf) == Sort(b, NameOf) {
      forall r ensures r in a <==> r in b { assert r in Sort(a, NameOf) <==> r in a; }
    } else if forall r :: r in a <==> r in b {
      SortBySet(a, b);
    }
  }

  lemma PutAgrees(a: seq<Remote>, b: seq<Remote>, s: Remote)
    requires DistinctKeys(a, NameOf) && DistinctKeys(b, NameOf)
    ensures Sort(Put(a, s), NameOf) == Sort(Put(b, s), NameOf)
       <==> Sort(Without(a, s.name), NameOf) == Sort(Without(b, s.name), NameOf)
  {
    PutDistinct(a, s);
    PutDistinct(b, s);
    WithoutDistinct(a, s.name);
    WithoutDistinct(b, s.name);
    SameMembers(Put(a, s), Put(b, s));
    SameMembers(Without(a, s.name), Without(b, s.name));
    forall r ensures r in Put(a, s) <==> r == s || r in Without(a, s.name) {
      PutMember(a, s, r);
      WithoutMember(a, s.name, r);
    }
    forall r ensures r in Put(b, s) <==> r == s || r in Without(b, s.name) {
      PutMember(b, s, r);
      WithoutMember(b, s.name, r);
    }
    forall r ensures r in Without(a, s.name) ==> r.name != s.name { WithoutMember(a, s.name, r); }
    forall r ensures r in Without(b, s.name) ==> r.name != s.name { WithoutMember(b, s.name, r); }
  }

  lemma EditAgrees(a: seq<Remote>, b: seq<Remote>, change: Change)
    requires DistinctKeys(a, NameOf) && DistinctKeys(b, NameOf)
    ensures Sort(Edited(a, change), NameOf) == Sort(Edited(b, change), NameOf)
       <==> Sort(Without(a, NamedBy(change)), NameOf) == Sort(Without(b, NamedBy(change)), NameOf)
  {
    if change.Configure? { PutAgrees(a, b, change.source); }
  }

  /** The change makes two configurations the same exactly when they agree on everything but what it names. */
  lemma ApplyAgrees(h: Host, project: string, c: Config, d: Config, change: Change)
    requires DistinctKeys(c.remoteInstances, NameOf) && DistinctKeys(d.remoteInstances, NameOf)
    ensures Normal(h, project, Apply(c, change)) == Normal(h, project, Apply(d, change))
      <==> AgreeElsewhere(h, project, c, d, change)
  {
    EditAgrees(c.remoteInstances, d.remoteInstances, change);
    EditedFacts(c.remoteInstances, change);
    EditedFacts(d.remoteInstances, change);
    SortSet(Edited(c.remoteInstances, change));
    SortSet(Edited(d.remoteInstances, change));
    NormalParts(h, project, Apply(c, change), Apply(d, change), Elsewhere(c, change), Elsewhere(d, change));
  }

  lemma NormalParts(h: Host, project: string, c: Config, d: Config, c1: Config, d1: Config)
    requires c1 == c.(remoteInstances := c1.remoteInstances) && d1 == d.(remoteInstances := d1.remoteInstances)
    requires Sort(c.remoteInstances, NameOf) == Sort(d.remoteInstances, NameOf)
        <==> Sort(c1.remoteInstances, NameOf) == Sort(d1.remoteInstances, NameOf)
    ensures Normal(h, project, c) == Normal(h, project, d) <==> Normal(h, project, c1) == Normal(h, project, d1)
  {
    var n, m := Normal(h, project, c), Normal(h, project, d);
    var n1, m1 := Normal(h, project, c1), Normal(h, project, d1);
    assert n1 == n.(remoteInstances := n1.remoteInstances) && m1 == m.(remoteInstances := m1.remoteInstances);
    if n == m { assert n1 == n.(remoteInstances := m1.remoteInstances); }
    if n1 == m1 {
      assert n == n1.(remoteInstances := n.remoteInstances) && m == m1.(remoteInstances := m.remoteInstances);
    }
  }

  /** A manifest is written from the normal form alone. */
  lemma SectionsOfNormal(h: Host, project: string, c: Config)
    requires DistinctKeys(c.remoteInstances, NameOf)
    ensures Sections(Normal(h, project, c)) == Sections(c)
  {
    SortSet(c.remoteInstances);
    var n := Normal(h, project, c);
    assert ProjectFields(n) == ProjectFields(c);
    assert PostgresSections(n) == PostgresSections(c) && TestSections(n) == TestSections(c);
  }

  /** Two faithful configurations of one repository have the same manifest exactly when they are the same settings. */
  lemma SameManifest(h: Host, project: string, c: Config, d: Config)
    requires Lawful(h) && Made(h, c) && Made(h, d) && Faithful(h, c) && Faithful(h, d)
    requires h.resolve(c.repositoryRoot) == h.resolve(project) == h.resolve(d.repositoryRoot)
    ensures Print(Sections(c)) == Print(Sections(d)) <==> Normal(h, project, c) == Normal(h, project, d)
  {
    MadeHours(h, c);
    MadeHours(h, d);
    RoundTrip(h, project, c);
    RoundTrip(h, project, d);
    SectionsOfNormal(h, project, c);
    SectionsOfNormal(h, project, d);
  }

  lemma {:induction false} WashPut(rs: seq<Remote>, s: Remote)
    ensures WashAll(Put(rs, s)) == Put(WashAll(rs), Wash(s))
  {
    if rs == [] {
      assert WashAll([s]) == [Wash(s)];
    } else {
      WashTail(rs);
      WashPut(rs[1..], s);
      WashCons(s, rs[1..]);
      WashCons(rs[0], Put(rs[1..], s));
    }
  }

  lemma {:induction false} WashWithout(rs: seq<Remote>, name: string)
    ensures WashAll(Without(rs, name)) == Without(WashAll(rs), name)
  {
    if rs != [] {
      WashTail(rs);
      WashWithout(rs[1..], name);
      WashCons(rs[0], Without(rs[1..], name));
    }
  }

  function WashedChange(change: Change): Change {
    if change.Configure? then Configure(Wash(change.source), change.replace) else change
  }

  lemma WashEdited(rs: seq<Remote>, change: Change)
    ensures WashAll(Edited(rs, change)) == Edited(WashAll(rs), WashedChange(change))
    ensures NamedBy(WashedChange(change)) == NamedBy(change)
  {
    if change.Configure? { WashPut(rs, change.source); } else { WashWithout(rs, change.name); }
  }

  /** As written, the sources after the change are the same exactly when they are without the named one. */
  lemma WrittenEditAgrees(a: seq<Remote>, b: seq<Remote>, change: Change)
    requires DistinctKeys(a, NameOf) && DistinctKeys(b, NameOf)
    ensures Sort(WashAll(Sort(Edited(a, change), NameOf)), NameOf)
         == Sort(WashAll(Sort(Edited(b, change), NameOf)), NameOf)
       <==> Sort(WashAll(Without(a, NamedBy(change))), NameOf) == Sort(WashAll(Without(b, NamedBy(change))), NameOf)
  {
    SortedWash(a, change);
    SortedWash(b, change);
    WashDistinct(a);
    WashDistinct(b);
    WashWithout(a, NamedBy(change));
    WashWithout(b, NamedBy(change));
    EditAgrees(WashAll(a), WashAll(b), WashedChange(change));
    WashEdited(a, change);
  }

  lemma SortedWash(a: seq<Remote>, change: Change)
    requires DistinctKeys(a, NameOf)
    ensures Sort(WashAll(Sort(Edited(a, change), NameOf)), NameOf)
         == Sort(Edited(WashAll(a), WashedChange(change)), NameOf)
  {
    WashEdited(a, change);
    WashSort(Edited(a, change));
    WashDistinct(a);
    EditedFacts(WashAll(a), WashedChange(change));
    SortSet(Edited(WashAll(a), WashedChange(change)));
  }

  /** The manifests of two configurations after the change are the same exactly when they are without the named
      source. */
  lemma WrittenAgrees(c: Config, d: Config, change: Change)
    requires DistinctKeys(c.remoteInstances, NameOf) && DistinctKeys(d.remoteInstances, NameOf)
    ensures Sections(Apply(c, change)) == Sections(Apply(d, change))
       <==> Sections(Elsewhere(c, change)) == Sections(Elsewhere(d, change))
  {
    SectionsByParts(Apply(c, change), Apply(d, change));
    SectionsByParts(Elsewhere(c, change), Elsewhere(d, change));
    WrittenEditAgrees(c.remoteInstances, d.remoteInstances, change);
    SameTop(Apply(c, change), Elsewhere(c, change));
    SameTop(Apply(d, change), Elsewhere(d, change));
  }

  lemma SameTop(c: Config, d: Config)
    requires d == c.(remoteInstances := d.remoteInstances)
    ensures TopSections(c) == TopSections(d)
  {
    assert ProjectFields(c) == ProjectFields(d);
  }

  lemma ElsewhereWritable(h: Host, project: string, text: string, change: Change)
    requires Lawful(h) && Load(h, project, Some(text)).Ok? && (change.Configure? ==> RemoteMade(h, change.source))
    ensures var c := Load(h, project, Some(text)).value;
      && DistinctKeys(c.remoteInstances, NameOf)
      && HoursWritable(Apply(c, change)) && RemotesMade(h, Apply(c, change).remoteInstances)
      && HoursWritable(Elsewhere(c, change)) && RemotesMade(h, Elsewhere(c, change).remoteInstances)
  {
    var c := Load(h, project, Some(text)).value;
    LoadedIsMade(h, project, text);
    MadeHours(h, c);
    EditedMade(h, c.remoteInstances, change);
    var rest := Without(c.remoteInstances, NamedBy(change));
    forall i | 0 <= i < |rest| ensures RemoteMade(h, rest[i]) {
      assert rest[i] in rest;
      WithoutMember(c.remoteInstances, NamedBy(change), rest[i]);
    }
  }

  /** Preview and commit, to the letter and for every pair of texts that load, whatever they hold. A run that writes
      commits the previewed manifest if and only if the two texts, without the named source, would be written as the
      same manifest. */
  lemma PreviewedTextExactlyWhen(h: Host, project: string, first: string, second: string, change: Change)
    requires Lawful(h) && Load(h, project, Some(first)).Ok? && Load(h, project, Some(second)).Ok?
    requires change.Configure? ==> RemoteMade(h, change.source)
    requires Committed(h, project, second, change).Ok?
    requires !Idle(Load(h, project, Some(second)).value.remoteInstances, change)
    ensures var d1, d2 := Load(h, project, Some(first)).value, Load(h, project, Some(second)).value;
      Committed(h, project, second, change).value == Print(Sections(Apply(d1, change)))
      <==> Print(Sections(Elsewhere(d1, change))) == Print(Sections(Elsewhere(d2, change)))
  {
    var d1, d2 := Load(h, project, Some(first)).value, Load(h, project, Some(second)).value;
    ElsewhereWritable(h, project, first, change);
    ElsewhereWritable(h, project, second, change);
    SameText(h, Apply(d2, change), Apply(d1, change));
    SameText(h, Elsewhere(d1, change), Elsewhere(d2, change));
    WrittenAgrees(d1, d2, change);
  }

  lemma AppliedFacts(h: Host, project: string, text: string, change: Change)
    requires Lawful(h) && Load(h, project, Some(text)).Ok? && (change.Configure? ==> RemoteMade(h, change.source))
    requires Rewritable(Apply(Load(h, project, Some(text)).value, change))
    ensures var c := Load(h, project, Some(text)).value;
      && DistinctKeys(c.remoteInstances, NameOf) && Made(h, Apply(c, change)) && Faithful(h, Apply(c, change))
      && h.resolve(Apply(c, change).repositoryRoot) == h.resolve(project)
  {
    var c := Load(h, project, Some(text)).value;
    LoadedIsMade(h, project, text);
    LoadedDistinct(h, project, text);
    LoadedRoot(h, project, text);
    ApplyMade(h, c, change);
    FaithfulApplied(h, c, change);
  }

  /** The same in settings, for manifests that survive being rewritten. A capture loads one text and fingerprints
      another; a run that succeeds commits the settings that were previewed if and only if the two texts agree on
      everything but the named source. When there is something to write, the committed manifest is then the
      previewed one, to the letter, and otherwise it is not. */
  lemma PreviewExactlyWhen(h: Host, project: string, first: string, second: string, change: Change)
    requires Lawful(h) && Load(h, project, Some(first)).Ok? && Load(h, project, Some(second)).Ok?
    requires change.Configure? ==> RemoteMade(h, change.source)
    requires Rewritable(Apply(Load(h, project, Some(first)).value, change))
    requires Rewritable(Apply(Load(h, project, Some(second)).value, change))
    requires Committed(h, project, second, change).Ok?
    ensures var d1, d2 := Load(h, project, Some(first)).value, Load(h, project, Some(second)).value;
      var after := Load(h, project, Some(Committed(h, project, second, change).value));
      var agree := AgreeElsewhere(h, project, d1, d2, change);
      && after.Ok?
      && (Normal(h, project, after.value) == Normal(h, project, Apply(d1, change)) <==> agree)
      && (!Idle(d2.remoteInstances, change) ==>
            (Committed(h, project, second, change).value == Print(Sections(Apply(d1, change))) <==> agree))
  {
    var d1, d2 := Load(h, project, Some(first)).value, Load(h, project, Some(second)).value;
    AppliedFacts(h, project, first, change);
    AppliedFacts(h, project, second, change);
    ApplyAgrees(h, project, d1, d2, change);
    if Idle(d2.remoteInstances, change) {
      ApplyIdle(h, project, d2, change);
    } else {
      CommitKeepsSettings(h, project, second, change);
      MadeHours(h, Apply(d2, change));
      NormalTwice(h, project, Apply(d2, change));
      SameManifest(h, project, Apply(d1, change), Apply(d2, change));
    }
  }

  /** For every pair of texts that load: readings that agree on everything but the named source commit the preview. */
  lemma AgreementCommitsPreview(h: Host, project: string, first: string, second: string, change: Change)
    requires Lawful(h) && Load(h, project, Some(first)).Ok? && Load(h, project, Some(second)).Ok?
    requires Committed(h, project, second, change).Ok?
    requires !Idle(Load(h, project, Some(second)).value.remoteInstances, change)
    requires AgreeElsewhere(h, project, Load(h, project, Some(first)).value, Load(h, project, Some(second)).value,
      change)
    ensures Committed(h, project, second, change).value
         == Print(Sections(Apply(Load(h, project, Some(first)).value, change)))
  {
    var d1, d2 := Load(h, project, Some(first)).value, Load(h, project, Some(second)).value;
    LoadedDistinct(h, project, first);
    LoadedDistinct(h, project, second);
    ApplyAgrees(h, project, d1, d2, change);
    AppliedDistinct(d1, change);
    AppliedDistinct(d2, change);
    SectionsOfNormal(h, project, Apply(d1, change));
    SectionsOfNormal(h, project, Apply(d2, change));
  }

  lemma AppliedDistinct(c: Config, change: Change)
    requires DistinctKeys(c.remoteInstances, NameOf)
    ensures DistinctKeys(Apply(c, change).remoteInstances, NameOf)
  {
    EditedFacts(c.remoteInstances, change);
    SortSet(Edited(c.remoteInstances, change));
  }

  /** The capture saw one text in both of its readings. */
  predicate QuietCapture(h: Host, project: string, text: string, cmd: Captured) {
    Load(h, project, Some(text)).Ok? && cmd.fingerprint == text
    && cmd.preview == Apply(Load(h, project, Some(text)).value, cmd.change)
  }

  /** In particular one text in both readings is enough, whatever happened between capture and run: content that
      went away and came back is as good as content that stayed. */
  lemma PreviewIsCommitted(h: Host, project: string, text: string, cmd: Captured, between: seq<Event>, fails: bool)
    requires QuietCapture(h, project, text, cmd)
    requires Succeeds(h, project, Final(h, project, text, between), cmd, fails)
    ensures Final(h, project, text, between) == text
    ensures var c := Load(h, project, Some(text)).value;
      Step(h, project, Final(h, project, text, between), Attempt(cmd, fails))
      == if Idle(c.remoteInstances, cmd.change) then text else Print(Sections(cmd.preview))
  {
  }

  /** The two readings of a capture are not atomic. A source added between them is committed but was
      not previewed, for every faithful configuration and every pair of different new sources. */
  lemma TornCapture(h: Host, project: string, c: Config, other: Remote, mine: Remote)
    requires Lawful(h) && Made(h, c) && Faithful(h, c) && h.resolve(project) == h.resolve(c.repositoryRoot)
    requires RemoteMade(h, other) && RemoteMade(h, mine) && FreeRemote(other) && FreeRemote(mine)
    requires other.name != mine.name
    requires Lookup(c.remoteInstances, other.name).None? && Lookup(c.remoteInstances, mine.name).None?
    ensures var change := Configure(mine, false);
      var first, second := Print(Sections(c)), Print(Sections(Apply(c, Configure(other, false))));
      && Load(h, project, Some(first)).Ok?
      && var cmd := Captured(change, second, Apply(Load(h, project, Some(first)).value, change));
         && Succeeds(h, project, second, cmd, false)
         && var after := Load(h, project, Some(Step(h, project, second, Attempt(cmd, false))));
            after.Ok? && other in after.value.remoteInstances && other !in cmd.preview.remoteInstances
    ensures var change, theirs := Configure(mine, false), Configure(other, false);
      var d1, d2 := Load(h, project, Some(Print(Sections(c)))),
        Load(h, project, Some(Print(Sections(Apply(c, theirs)))));
      d1.Ok? && d2.Ok? && !AgreeElsewhere(h, project, d1.value, d2.value, change)
  {
    var change, theirs := Configure(mine, false), Configure(other, false);
    var first, second := Print(Sections(c)), Print(Sections(Apply(c, theirs)));
    MadeHours(h, c);
    RoundTrip(h, project, c);
    var e := Apply(c, theirs);
    ApplyMade(h, c, theirs);
    AddFaithful(h, c, other);
    RoundTrip(h, project, e);
    var d1, d2 := Load(h, project, Some(first)).value, Load(h, project, Some(second)).value;
    TornSources(c.remoteInstances, other, mine, d1.remoteInstances, d2.remoteInstances);
    AddFaithfulAgain(h, project, e, mine);
    TornRun(h, project, second, mine, Apply(d1, change));
  }

  lemma TornRun(h: Host, project: string, second: string, mine: Remote, preview: Config)
    requires Lawful(h) && Load(h, project, Some(second)).Ok? && RemoteMade(h, mine)
    requires Lookup(Load(h, project, Some(second)).value.remoteInstances, mine.name).None?
    requires Rewritable(Apply(Load(h, project, Some(second)).value, Configure(mine, false)))
    ensures var cmd := Captured(Configure(mine, false), second, preview);
      && Succeeds(h, project, second, cmd, false)
      && var after := Load(h, project, Some(Step(h, project, second, Attempt(cmd, false))));
         after.Ok?
         && after.value.remoteInstances
           == Sort(Sort(Put(Load(h, project, Some(second)).value.remoteInstances, mine), NameOf), NameOf)
  {
    CommitKeepsSettings(h, project, second, Configure(mine, false));
  }

  lemma AddFaithful(h: Host, c: Config, r: Remote)
    requires Made(h, c) && Faithful(h, c) && FreeRemote(r)
    ensures Faithful(h, Apply(c, Configure(r, false)))
  {
    MadeHours(h, c);
    var es := Put(c.remoteInstances, r);
    PutDistinct(c.remoteInstances, r);
    forall x { PutMember(c.remoteInstances, r, x); }
    forall i | 0 <= i < |es| ensures FreeRemote(es[i]) { assert es[i] in es; }
    SortFacts(es, NameOf);
    SameFree(es, Sort(es, NameOf));
  }

  lemma AddFaithfulAgain(h: Host, project: string, e: Config, mine: Remote)
    requires Lawful(h) && Made(h, e) && Faithful(h, e) && FreeRemote(mine)
    ensures Rewritable(Apply(Normal(h, project, e), Configure(mine, false)))
  {
    MadeHours(h, e);
    NormalTwice(h, project, e);
    ApplyRewritable(Normal(h, project, e), Configure(mine, false));
  }

  lemma TornSources(rs: seq<Remote>, other: Remote, mine: Remote, d1: seq<Remote>, d2: seq<Remote>)
    requires DistinctKeys(rs, NameOf) && other.name != mine.name
    requires Lookup(rs, other.name).None? && Lookup(rs, mine.name).None?
    requires d1 == Sort(rs, NameOf) && d2 == Sort(Sort(Put(rs, other), NameOf), NameOf)
    ensures Lookup(d2, mine.name).None?
    ensures other in Sort(Sort(Put(d2, mine), NameOf), NameOf)
    ensures other !in Sort(Put(d1, mine), NameOf)
    ensures Sort(Without(d1, mine.name), NameOf) != Sort(Without(d2, mine.name), NameOf)
  {
    PutDistinct(rs, other);
    PutMember(rs, other, other);
    SortSet(rs);
    SortSet(Put(rs, other));
    SortSet(Sort(Put(rs, other), NameOf));
    LookupMember(rs, other.name, other);
    if Lookup(d2, mine.name).Some? {
      var x := Lookup(d2, mine.name).value;
      LookupMember(d2, mine.name, x);
      PutMember(rs, other, x);
      LookupMember(rs, mine.name, x);
    }
    PutDistinct(d1, mine);
    PutMember(d1, mine, other);
    SortSet(Put(d1, mine));
    PutDistinct(d2, mine);
    PutMember(d2, mine, other);
    SortSet(Put(d2, mine));
    SortSet(Sort(Put(d2, mine), NameOf));
    WithoutDistinct(d1, mine.name);
    WithoutDistinct(d2, mine.name);
    WithoutMember(d1, mine.name, other);
    WithoutMember(d2, mine.name, other);
    SortSet(Without(d1, mine.name));
    SortSet(Without(d2, mine.name));
  }
}

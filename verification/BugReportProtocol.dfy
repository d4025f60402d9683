/** `bug_report.py`: publishing one bug report, as a machine over every interleaving.

    Any number of submit commands are captured and run, in any order and more than
    once. The per-report lock admits one run at a time, so the machine has at most
    one active run; captures go on around it. Every process answer and every local
    write outcome is a choice made by the event, and a crash may follow any event. */
module BugReportProtocol {
  import opened Text
  import opened StepLedger

  // ---------------------------------------------------------------- local and remote state

  /** A field of `metadata.json`; a missing key reads as null. */
  datatype Field = Null | Str(s: string) | Int(n: int) | Bool(b: bool) | Other(truthy: bool)

  /** `isinstance(value, int)`, which is true of booleans. */
  predicate IsInt(f: Field) { f.Int? || f.Bool? }

  function IntOf(f: Field): (n: int)
    ensures f.Int? ==> n == f.n
    ensures f == Bool(true) ==> n == 1
    ensures !f.Int? && f != Bool(true) ==> n == 0
  {
    if f.Int? then f.n else if f == Bool(true) then 1 else 0
  }

  predicate Truthy(f: Field) {
    match f
    case Null => false
    case Str(s) => s != ""
    case Int(n) => n != 0
    case Bool(b) => b
    case Other(t) => t
  }

  datatype Intent = Intent(repository: string, title: string, sha: string)

  datatype Meta = Meta(url: Field, number: Field, intent: Option<Intent>)

  /** A stored, non-empty string is what later runs treat as published. */
  predicate HasUrl(m: Meta) { m.url.Str? && m.url.s != "" }

  /** The file is truncated before it is written, so a failed write can leave it unreadable. */
  datatype Disk = Readable(meta: Meta) | Unreadable

  datatype Write = Stored | NotOpened | Torn | StoredThenFailed

  function Written(d: Disk, m: Meta, w: Write): Disk {
    match w
    case Stored => Readable(m)
    case NotOpened => d
    case Torn => Unreadable
    case StoredThenFailed => Readable(m)
  }

  datatype Issue = Issue(url: string, number: int)

  datatype Verdict = Approved | ChangesRequested

  datatype Review = Review(round: int, verdict: Verdict, sha: string)

  datatype Draft = Draft(repository: string, title: string, sha: string, reportValid: bool, reviews: seq<Review>)

  /** The review with the highest round; the first of them, as `max` picks. */
  function Latest(reviews: seq<Review>): Option<Review> {
    if reviews == [] then None
    else
      var rest := Latest(reviews[1..]);
      if rest.Some? && rest.value.round > reviews[0].round then rest else Some(reviews[0])
  }

  /** The payload is approved: the latest review approves exactly its hash. */
  predicate ApprovedPayload(d: Draft) {
    var l := Latest(d.reviews);
    l.Some? && l.value.verdict == Approved && l.value.sha == d.sha
  }

  /** The latest review is one of the reviews, and none has a higher round. */
  lemma {:induction false} LatestIsHighest(reviews: seq<Review>)
    ensures Latest(reviews).None? <==> reviews == []
    ensures Latest(reviews).Some? ==>
      Latest(reviews).value in reviews && forall r :: r in reviews ==> r.round <= Latest(reviews).value.round
  {
    if reviews != [] { LatestIsHighest(reviews[1..]); }
  }

  /** Spelled out: some review of the highest round approved exactly this payload. */
  predicate ApprovedByHighest(d: Draft) {
    exists r ::
      r in d.reviews && r.verdict == Approved && r.sha == d.sha && forall x :: x in d.reviews ==> x.round <= r.round
  }

  /** Spelled out: some review of the highest round asked for changes or saw another payload. */
  predicate OpenAtHighest(d: Draft) {
    exists r :: r in d.reviews && (r.verdict == ChangesRequested || r.sha != d.sha)
      && forall x :: x in d.reviews ==> x.round <= r.round
  }

  /** There is one review a round, as there is one review file a round. */
  predicate OneReviewARound(reviews: seq<Review>) {
    forall x, y :: x in reviews && y in reviews && x.round == y.round ==> x == y
  }

  /** A payload is approved only by an approving review of the highest round on its own hash, and is not approved only
      if there is no review or one of the highest round refused it or saw another hash. With one review a round this
      decides every draft. */
  lemma ApprovedMeans(d: Draft)
    ensures ApprovedPayload(d) ==> ApprovedByHighest(d)
    ensures !ApprovedPayload(d) ==> d.reviews == [] || OpenAtHighest(d)
    ensures OneReviewARound(d.reviews) ==> (ApprovedPayload(d) <==> ApprovedByHighest(d))
  {
    LatestIsHighest(d.reviews);
    var l := Latest(d.reviews);
    if l.Some? { assert l.value in d.reviews; }
  }

  datatype Command = Command(dryRun: bool, draft: Draft, viewPlanned: bool)

  /** Preflight lets the run go on to the lock. */
  predicate Proceeds(c: Command) { !c.dryRun && c.draft.reportValid && ApprovedPayload(c.draft) }

  // ---------------------------------------------------------------- steps and results

  datatype StepId = IntentStep | SearchBeforeStep | ViewStep | GhStep | SearchAfterStep

  /** The captured steps in plan order. */
  function Prepared(viewPlanned: bool): seq<StepId> {
    [IntentStep, SearchBeforeStep] + (if viewPlanned then [ViewStep] else []) + [GhStep, SearchAfterStep]
  }

  function Planned(viewPlanned: bool): set<StepId> {
    {IntentStep, SearchBeforeStep, GhStep, SearchAfterStep} + if viewPlanned then {ViewStep} else {}
  }

  type Log = seq<Entry<StepId>>

  /** `_skip_prepared_steps`: skip, in plan order, every step outside `except`. */
  function SkipOthers(steps: seq<StepId>, except: set<StepId>): Log {
    if steps == [] then []
    else (if steps[0] in except then [] else [Entry(steps[0], Skipped)]) + SkipOthers(steps[1..], except)
  }

  datatype SubmitResult = Published(issue: Issue) | AlreadyPublished(url: string, number: int)

  datatype Failure = WriteFailed | ProcessRaised | OutcomeUnknown | OmittedSteps | Crashed

  datatype Outcome = Returned(result: SubmitResult) | Failed(failure: Failure)

  // ---------------------------------------------------------------- the machine

  datatype How = FoundBefore | JustCreated | FoundAfter

  datatype Phase =
    | Viewing                                 // gh issue view comes next
    | Searching                               // gh issue list comes next
    | Recording                               // nothing found; the intent is written next
    | Creating                                // intent stored; gh issue create comes next
    | Asking(failed: Option<Write>)           // uncertain, after a failed store if any; gh issue list comes next
    | Storing(issue: Issue, how: How)         // the issue is written to metadata next
    | Done(result: SubmitResult)              // the callback returned; the ledger is checked next

  /** The run that holds the lock: which command, what it read, what it would write, and its ledger. */
  datatype Active = Active(k: nat, phase: Phase, read: Meta, meta: Meta, log: Log)

  datatype State = State(
    disk: Disk,
    created: seq<Issue>,                      // every issue GitHub ever created for this report
    misses: nat,                              // pre-create searches that overlooked one of them
    commands: seq<Command>,
    active: Option<Active>,
    outcomes: seq<Outcome>)

  datatype CreateAnswer = Named(issue: Issue) | Unclear | Raised

  datatype Event =
    | Capture(draft: Draft, dryRun: bool)
    | Begin(command: nat)
    | View(found: Option<Issue>)
    | SearchBefore(found: Option<Issue>)
    | RecordIntent(write: Write)
    | Create(lands: Option<Issue>, answer: CreateAnswer)
    | SearchAfter(found: Option<Issue>)
    | Store(write: Write)
    | RecheckRaises                           // the view or search process raises, as on a timeout
    | Finish
    | Crash                                   // the process dies, or an exception leaves the callback
    | Edit(disk: Disk)                        // somebody rewrites metadata.json by hand

  /** Metadata as `bug_report_init_command` first writes it. */
  const FRESH := Meta(Null, Null, None)

  const INIT := State(Readable(FRESH), [], 0, [], None, [])

  function Release(s: State, o: Outcome): State { s.(active := None, outcomes := s.outcomes + [o]) }

  function IntentOf(d: Draft): Intent { Intent(d.repository, d.title, d.sha) }

  /** One event, or None when the code cannot do it now. */
  function Next(s: State, e: Event): Option<State> {
    match e
    case Edit(d) => Some(s.(disk := d))
    case Capture(draft, dryRun) =>
      if !s.disk.Readable? then None
      else
        var m := s.disk.meta;
        Some(s.(commands := s.commands + [Command(dryRun, draft, IsInt(m.number) && !Truthy(m.url))]))
    case Begin(k) =>
      if s.active.Some? || k >= |s.commands| || !Proceeds(s.commands[k]) || !s.disk.Readable? then None
      else Some(s.(active := Some(Enter(k, s.commands[k].viewPlanned, s.disk.meta))))
    case _ => if s.active.None? || s.active.value.k >= |s.commands| then None else Advance(s, s.active.value, e)
  }

  /** Lock taken, metadata re-read: return the stored URL, or start rechecking. */
  function Enter(k: nat, viewPlanned: bool, m: Meta): Active {
    if HasUrl(m) then
      Active(k, Done(AlreadyPublished(m.url.s, IntOf(m.number))), m, m, SkipOthers(Prepared(viewPlanned), {}))
    else
      Active(k, if viewPlanned && IsInt(m.number) then Viewing else Searching, m, m, [])
  }

  /** A recheck that found the issue skips every step it did not execute. */
  function Recovered(a: Active, viewPlanned: bool, i: Issue, log: Log): Active {
    a.(phase := Storing(i, FoundBefore), log := log + SkipOthers(Prepared(viewPlanned), Ids(log)))
  }

  function Advance(s: State, a: Active, e: Event): Option<State>
    requires a.k < |s.commands|
  {
    var c := s.commands[a.k];
    match (a.phase, e)
    case (Viewing, View(found)) =>
      var log := a.log + [Entry(ViewStep, Executed)];
      Some(s.(active := Some(
        if found.Some? then Recovered(a, c.viewPlanned, found.value, log) else a.(phase := Searching, log := log))))
    case (Searching, SearchBefore(found)) =>
      var log := a.log + [Entry(SearchBeforeStep, Executed)];
      Some(s.(
        misses := s.misses + (if found.None? && s.created != [] then 1 else 0),
        active := Some(
          if found.Some? then Recovered(a, c.viewPlanned, found.value, log) else a.(phase := Recording, log := log))))
    case (Recording, RecordIntent(w)) =>
      var m := a.meta.(intent := Some(IntentOf(c.draft)));
      var s' := s.(disk := Written(s.disk, m, w));
      if w == Stored then
        Some(s'.(active := Some(a.(phase := Creating, meta := m, log := a.log + [Entry(IntentStep, Executed)]))))
      else Some(Release(s', Failed(WriteFailed)))
    case (Creating, Create(lands, answer)) =>
      var s' := s.(created := s.created + if lands.Some? then [lands.value] else []);
      var a' := a.(log := a.log + [Entry(GhStep, Executed)]);
      (match answer
       case Named(i) => Some(s'.(active := Some(a'.(phase := Storing(i, JustCreated)))))
       case Unclear => Some(s'.(active := Some(a'.(phase := Asking(None)))))
       case Raised => Some(Release(s', Failed(ProcessRaised))))
    case (Asking(_), SearchAfter(found)) =>
      if found.Some? then
        Some(s.(active := Some(a.(phase := Storing(found.value, FoundAfter),
                                  log := a.log + [Entry(SearchAfterStep, Executed)]))))
      else Some(Release(s, Failed(OutcomeUnknown)))
    case (Storing(i, how), Store(w)) =>
      var m := a.meta.(url := Str(i.url), number := Int(i.number));
      var s' := s.(disk := Written(s.disk, m, w));
      if w == Stored then
        var log := if how == JustCreated then a.log + [Entry(SearchAfterStep, Skipped)] else a.log;
        Some(s'.(active := Some(a.(phase := Done(Published(i)), meta := m, log := log))))
      else if how == JustCreated then Some(s'.(active := Some(a.(phase := Asking(Some(w))))))
      else Some(Release(s', Failed(WriteFailed)))
    case (Done(r), Finish) =>
      Some(Release(s, if Ids(a.log) == Planned(c.viewPlanned) then Returned(r) else Failed(OmittedSteps)))
    case (Viewing, RecheckRaises) => Some(Release(s, Failed(ProcessRaised)))
    case (Searching, RecheckRaises) => Some(Release(s, Failed(ProcessRaised)))
    case (Asking(_), RecheckRaises) => Some(Release(s, Failed(ProcessRaised)))
    case (_, Crash) => Some(Release(s, Failed(Crashed)))
    case _ => None
  }

  /** A whole history: the state after the events, or None if one of them was impossible. */
  function Run(s: State, es: seq<Event>): Option<State>
    decreases |es|
  {
    if es == [] then Some(s)
    else
      var t := Next(s, es[0]);
      if t.None? then None else Run(t.value, es[1..])
  }

  /** How a run ended: in which phase, on which event, with what in its ledger and on disk. */
  datatype Ending = Ending(phase: Phase, event: Event, log: Log, disk: Disk)

  /** The ledger when the event has happened; a step whose process raises has been executed. */
  function FinalLog(a: Active, e: Event): Log {
    match (a.phase, e)
    case (Creating, Create(_, _)) => a.log + [Entry(GhStep, Executed)]
    case (Recording, RecordIntent(_)) => a.log + [Entry(IntentStep, Executed)]
    case (Asking(_), SearchAfter(_)) => a.log + [Entry(SearchAfterStep, Executed)]
    case (Asking(_), RecheckRaises) => a.log + [Entry(SearchAfterStep, Executed)]
    case (Searching, RecheckRaises) => a.log + [Entry(SearchBeforeStep, Executed)]
    case (Viewing, RecheckRaises) => a.log + [Entry(ViewStep, Executed)]
    case _ => a.log
  }

  function EndingOf(s: State, e: Event): Option<Ending> {
    var t := Next(s, e);
    if t.Some? && s.active.Some? && t.value.active.None?
    then Some(Ending(s.active.value.phase, e, FinalLog(s.active.value, e), t.value.disk))
    else None
  }

  /** The ends of all runs of a history, in order. */
  function Endings(s: State, es: seq<Event>): seq<Ending>
    decreases |es|
  {
    if es == [] || Next(s, es[0]).None? then []
    else (if EndingOf(s, es[0]).Some? then [EndingOf(s, es[0]).value] else []) + Endings(Next(s, es[0]).value, es[1..])
  }

  /** The run neither asked GitHub again after its create nor left an issue URL on disk. */
  predicate Unresolved(x: Ending) {
    Entry(SearchAfterStep, Executed) !in x.log && !UrlOnDisk(x.disk)
  }

  predicate NoEdits(es: seq<Event>) { forall i :: 0 <= i < |es| ==> !es[i].Edit? }

  lemma {:induction false} RunConcat(s: State, xs: seq<Event>, ys: seq<Event>)
    ensures Run(s, xs + ys) == (var t := Run(s, xs); if t.None? then None else Run(t.value, ys))
    decreases |xs|
  {
    if xs == [] {
      assert xs + ys == ys;
    } else {
      assert (xs + ys)[1..] == xs[1..] + ys;
      var t := Next(s, xs[0]);
      if t.Some? { RunConcat(t.value, xs[1..], ys); }
    }
  }

  // ---------------------------------------------------------------- at most one issue per overlooked issue

  /** Between an empty search and the create, one miss already pays for the create to come. */
  predicate Budget(s: State) {
    if s.active.Some? && (s.active.value.phase.Recording? || s.active.value.phase.Creating?)
    then |s.created| <= s.misses
    else |s.created| <= s.misses + 1
  }

  lemma BudgetStep(s: State, e: Event)
    requires Budget(s) && Next(s, e).Some?
    ensures Budget(Next(s, e).value)
  {
  }

  /** Over every history, with failures, crashes and even hand edits anywhere: GitHub
      creates at most one issue more than the number of searches that missed one. */
  lemma {:induction false} AtMostOnePlusMisses(s: State, es: seq<Event>)
    requires Budget(s) && Run(s, es).Some?
    ensures Budget(Run(s, es).value)
    ensures |Run(s, es).value.created| <= Run(s, es).value.misses + 1
    decreases |es|
  {
    if es != [] {
      BudgetStep(s, es[0]);
      AtMostOnePlusMisses(Next(s, es[0]).value, es[1..]);
    }
  }

  /** Every pre-create search in the history reports an issue if there is one. */
  predicate FaithfulSearches(s: State, es: seq<Event>)
    decreases |es|
  {
    es == [] || (
      && (es[0].SearchBefore? && s.created != [] ==> es[0].found.Some?)
      && Next(s, es[0]).Some?
      && FaithfulSearches(Next(s, es[0]).value, es[1..]))
  }

  lemma {:induction false} NoMisses(s: State, es: seq<Event>)
    requires FaithfulSearches(s, es)
    ensures Run(s, es).Some? && Run(s, es).value.misses == s.misses
    decreases |es|
  {
    if es != [] { NoMisses(Next(s, es[0]).value, es[1..]); }
  }

  /** With faithful searches at most one issue is ever created. */
  lemma AtMostOnce(es: seq<Event>)
    requires FaithfulSearches(INIT, es)
    ensures Run(INIT, es).Some? && |Run(INIT, es).value.created| <= 1
  {
    NoMisses(INIT, es);
    AtMostOnePlusMisses(INIT, es);
  }

  /** A run whose search finds nothing and whose create lands but raises, as on a timeout. */
  function BlindRound(i: Issue): seq<Event> {
    [Begin(0), SearchBefore(None), RecordIntent(Stored), Create(Some(i), Raised)]
  }

  function BlindRounds(issues: nat -> Issue, n: nat): seq<Event> {
    if n == 0 then [] else BlindRounds(issues, n - 1) + BlindRound(issues(n - 1))
  }

  /** A blind round adds its issue, stores nothing and ends unresolved; it is overlooked if an issue was there. */
  lemma BlindRoundRuns(s: State, i: Issue)
    requires s.active.None? && |s.commands| == 1 && Proceeds(s.commands[0]) && !s.commands[0].viewPlanned
    requires s.disk.Readable? && s.disk.meta.url == Null
    ensures var t := Run(s, BlindRound(i));
      && t.Some? && t.value.active.None? && t.value.commands == s.commands
      && t.value.disk.Readable? && t.value.disk.meta.url == Null
      && t.value.created == s.created + [i]
      && t.value.misses == s.misses + if s.created == [] then 0 else 1
    ensures var xs := Endings(s, BlindRound(i));
      |xs| == 1 && Entry(GhStep, Executed) in xs[0].log && Unresolved(xs[0])
  {
    var es := BlindRound(i);
    assert es[1..] == [SearchBefore(None), RecordIntent(Stored), Create(Some(i), Raised)];
    assert es[2..] == [RecordIntent(Stored), Create(Some(i), Raised)];
    assert es[3..] == [Create(Some(i), Raised)] && es[4..] == [];
    var s1 := Next(s, es[0]).value;
    var s2 := Next(s1, es[1]).value;
    var s3 := Next(s2, es[2]).value;
    var s4 := Next(s3, es[3]).value;
    BlindEndings(es, s, s1, s2, s3, s4);
    var last := EndingOf(s3, es[3]).value;
    BlindLog(s3.active.value.log);
    assert last.log == s3.active.value.log + [Entry(GhStep, Executed)];
  }

  lemma BlindLog(log: Log)
    requires log == [] + [Entry(SearchBeforeStep, Executed)] + [Entry(IntentStep, Executed)]
    ensures Entry(SearchAfterStep, Executed) !in log + [Entry(GhStep, Executed)]
  {
  }

  lemma BlindEndings(es: seq<Event>, s: State, s1: State, s2: State, s3: State, s4: State)
    requires |es| == 4 && Next(s, es[0]) == Some(s1) && Next(s1, es[1]) == Some(s2)
    requires Next(s2, es[2]) == Some(s3) && Next(s3, es[3]) == Some(s4)
    requires s.active.None? && s1.active.Some? && s2.active.Some? && s3.active.Some? && s4.active.None?
    ensures Run(s, es) == Some(s4) && Endings(s, es) == [EndingOf(s3, es[3]).value]
  {
    EndingStep(es, 3, s3, s4);
    EndingStep(es, 2, s2, s3);
    EndingStep(es, 1, s1, s2);
    EndingStep(es, 0, s, s1);
    assert es[4..] == [] && es[0..] == es;
  }

  lemma EndingStep(es: seq<Event>, k: nat, s: State, t: State)
    requires k < |es| && Next(s, es[k]) == Some(t)
    ensures Run(s, es[k..]) == Run(t, es[k + 1..])
    ensures Endings(s, es[k..])
         == (if EndingOf(s, es[k]).Some? then [EndingOf(s, es[k]).value] else []) + Endings(t, es[k + 1..])
  {
    assert es[k..][0] == es[k] && es[k..][1..] == es[k + 1..];
  }

  function FirstOf(issues: nat -> Issue, n: nat): (r: seq<Issue>)
    ensures |r| == n && forall k :: 0 <= k < n ==> r[k] == issues(k)
  {
    seq(n, k requires 0 <= k < n => issues(k))
  }

  /** The bound is reached for every number of misses, with any issues one likes, one after the other. */
  lemma {:induction false} BoundIsTight(d: Draft, issues: nat -> Issue, n: nat)
    requires d.reportValid && ApprovedPayload(d)
    ensures var s := Run(INIT, [Capture(d, false)] + BlindRounds(issues, n + 1));
      && s.Some? && s.value.active.None? && s.value.commands == [Command(false, d, false)]
      && s.value.disk.Readable? && s.value.disk.meta.url == Null
      && s.value.misses == n && s.value.created == FirstOf(issues, n + 1)
  {
    var start := [Capture(d, false)];
    BlindRoundsNext(start, issues, n);
    if n == 0 {
      CaptureFresh(d);
      assert start + BlindRounds(issues, 0) == start;
      BlindRoundRuns(INIT.(commands := [Command(false, d, false)]), issues(0));
      assert INIT.created + [issues(0)] == FirstOf(issues, 1);
    } else {
      BoundIsTight(d, issues, n - 1);
      BlindRoundRuns(Run(INIT, start + BlindRounds(issues, n)).value, issues(n));
      assert FirstOf(issues, n) + [issues(n)] == FirstOf(issues, n + 1);
    }
  }

  lemma BlindRoundsNext(start: seq<Event>, issues: nat -> Issue, n: nat)
    ensures Run(INIT, start + BlindRounds(issues, n + 1))
         == (var t := Run(INIT, start + BlindRounds(issues, n));
             if t.None? then None else Run(t.value, BlindRound(issues(n))))
  {
    Regroup(start, BlindRounds(issues, n), BlindRound(issues(n)));
    RunConcat(INIT, start + BlindRounds(issues, n), BlindRound(issues(n)));
  }

  lemma CaptureFresh(d: Draft)
    ensures Run(INIT, [Capture(d, false)]) == Some(INIT.(commands := [Command(false, d, false)]))
  {
    var start := [Capture(d, false)];
    assert INIT.commands + [Command(false, d, false)] == [Command(false, d, false)];
    assert start[1..] == [];
    assert Next(INIT, start[0]) == Some(INIT.(commands := [Command(false, d, false)]));
  }

  // ---------------------------------------------------------------- the ledger

  lemma {:induction false} SkipOthersFacts(steps: seq<StepId>, except: set<StepId>)
    requires forall i, j :: 0 <= i < j < |steps| ==> steps[i] != steps[j]
    ensures Ids(SkipOthers(steps, except)) == (set x | x in steps) - except
    ensures Once(SkipOthers(steps, except))
    ensures forall i :: 0 <= i < |SkipOthers(steps, except)| ==> SkipOthers(steps, except)[i].how == Skipped
  {
    if steps != [] {
      SkipOthersFacts(steps[1..], except);
      var head: Log := if steps[0] in except then [] else [Entry(steps[0], Skipped)];
      IdsConcat(head, SkipOthers(steps[1..], except));
      assert steps == [steps[0]] + steps[1..];
      assert Ids(head) == if steps[0] in except then {} else {steps[0]} by {
        if steps[0] !in except { assert head[0].id == steps[0]; }
      }
    }
  }

  /** Skipping the rest accounts for every planned step exactly once. */
  lemma SkipRest(log: Log, viewPlanned: bool)
    requires Once(log) && Ids(log) <= Planned(viewPlanned)
    ensures var full := log + SkipOthers(Prepared(viewPlanned), Ids(log));
      && Once(full) && Ids(full) == Planned(viewPlanned)
      && (Entry(IntentStep, Executed) in full <==> Entry(IntentStep, Executed) in log)
  {
    var steps := Prepared(viewPlanned);
    assert (set x | x in steps) == Planned(viewPlanned);
    SkipOthersFacts(steps, Ids(log));
    IdsConcat(log, SkipOthers(steps, Ids(log)));
  }

  /** The view step is executed exactly when it was planned and a number was on disk under the lock. */
  function ViewPart(a: Active, viewPlanned: bool): set<StepId> {
    if viewPlanned && IsInt(a.read.number) then {ViewStep} else {}
  }

  predicate TookCreatePath(a: Active) { Entry(IntentStep, Executed) in a.log }

  /** What the ledger holds in each phase. */
  predicate LedgerShape(a: Active, viewPlanned: bool) {
    && Once(a.log)
    && (match a.phase
        case Viewing => a.log == [] && viewPlanned && IsInt(a.read.number)
        case Searching => Ids(a.log) == ViewPart(a, viewPlanned)
        case Recording => Ids(a.log) == ViewPart(a, viewPlanned) + {SearchBeforeStep}
        case Creating => Ids(a.log) == ViewPart(a, viewPlanned) + {SearchBeforeStep, IntentStep}
        case Asking(_) => Ids(a.log) == ViewPart(a, viewPlanned) + {SearchBeforeStep, IntentStep, GhStep}
        case Storing(_, JustCreated) => Ids(a.log) == ViewPart(a, viewPlanned) + {SearchBeforeStep, IntentStep, GhStep}
        case Storing(_, FoundAfter) =>
          Ids(a.log) == ViewPart(a, viewPlanned) + {SearchBeforeStep, IntentStep, GhStep, SearchAfterStep}
        case Storing(_, FoundBefore) => Ids(a.log) == Planned(viewPlanned)
        case Done(_) =>
          Ids(a.log) == if TookCreatePath(a)
            then ViewPart(a, viewPlanned) + {SearchBeforeStep, IntentStep, GhStep, SearchAfterStep}
            else Planned(viewPlanned))
    && (TookCreatePath(a) <==>
          match a.phase
          case Creating => true
          case Asking(_) => true
          case Storing(_, how) => how != FoundBefore
          case Done(_) => TookCreatePath(a)
          case _ => false)
  }

  predicate LedgerInv(s: State) {
    s.active.Some? ==>
      s.active.value.k < |s.commands| && LedgerShape(s.active.value, s.commands[s.active.value.k].viewPlanned)
  }

  lemma ExtendLog(log: Log, id: StepId, how: Use)
    requires Once(log) && id !in Ids(log)
    ensures Once(log + [Entry(id, how)]) && Ids(log + [Entry(id, how)]) == Ids(log) + {id}
    ensures Entry(IntentStep, Executed) in log + [Entry(id, how)]
      <==> Entry(IntentStep, Executed) in log || (id == IntentStep && how == Executed)
  {
    IdsExtend(log, Entry(id, how));
  }

  lemma LedgerStep(s: State, e: Event)
    requires LedgerInv(s) && Next(s, e).Some?
    ensures LedgerInv(Next(s, e).value)
  {
    if e.Begin? {
      BeginLedger(s, e);
    } else if s.active.Some? && !e.Edit? && !e.Capture? {
      AdvanceLedger(s, s.active.value, e);
    }
  }

  lemma PreparedDistinct(v: bool)
    ensures var steps := Prepared(v); forall i, j :: 0 <= i < j < |steps| ==> steps[i] != steps[j]
  {
  }

  lemma PreparedSet(v: bool)
    ensures (set x | x in Prepared(v)) == Planned(v)
  {
  }

  lemma SkipAll(v: bool)
    ensures Once(SkipOthers(Prepared(v), {})) && Ids(SkipOthers(Prepared(v), {})) == Planned(v)
    ensures Entry(IntentStep, Executed) !in SkipOthers(Prepared(v), {})
  {
    PreparedDistinct(v);
    PreparedSet(v);
    SkipOthersFacts(Prepared(v), {});
  }

  lemma BeginLedger(s: State, e: Event)
    requires e.Begin? && Next(s, e).Some?
    ensures LedgerInv(Next(s, e).value)
  {
    SkipAll(s.commands[e.command].viewPlanned);
    var none: Log := [];
    assert Ids(none) == {};
  }

  lemma AdvanceLedger(s: State, a: Active, e: Event)
    requires a.k < |s.commands| && s.active == Some(a)
    requires LedgerShape(a, s.commands[a.k].viewPlanned) && Advance(s, a, e).Some?
    ensures LedgerInv(Advance(s, a, e).value)
  {
    match a.phase
    case Viewing => RecheckLedger(s, a, e);
    case Searching => RecheckLedger(s, a, e);
    case Recording => CreateLedger(s, a, e);
    case Creating => CreateLedger(s, a, e);
    case Storing(_, _) => StoreLedger(s, a, e);
    case _ => LastLedger(s, a, e);
  }

  lemma RecheckLedger(s: State, a: Active, e: Event)
    requires a.k < |s.commands| && s.active == Some(a) && (a.phase.Viewing? || a.phase.Searching?)
    requires LedgerShape(a, s.commands[a.k].viewPlanned) && Advance(s, a, e).Some?
    ensures LedgerInv(Advance(s, a, e).value)
  {
    var v := s.commands[a.k].viewPlanned;
    var id := if a.phase.Viewing? then ViewStep else SearchBeforeStep;
    ExtendLog(a.log, id, Executed);
    SkipRest(a.log + [Entry(id, Executed)], v);
  }

  lemma CreateLedger(s: State, a: Active, e: Event)
    requires a.k < |s.commands| && s.active == Some(a) && (a.phase.Recording? || a.phase.Creating?)
    requires LedgerShape(a, s.commands[a.k].viewPlanned) && Advance(s, a, e).Some?
    ensures LedgerInv(Advance(s, a, e).value)
  {
    var id := if a.phase.Recording? then IntentStep else GhStep;
    ExtendLog(a.log, id, Executed);
  }

  lemma StoreLedger(s: State, a: Active, e: Event)
    requires a.k < |s.commands| && s.active == Some(a) && a.phase.Storing?
    requires LedgerShape(a, s.commands[a.k].viewPlanned) && Advance(s, a, e).Some?
    ensures LedgerInv(Advance(s, a, e).value)
  {
    if a.phase.how == JustCreated { ExtendLog(a.log, SearchAfterStep, Skipped); }
  }

  lemma LastLedger(s: State, a: Active, e: Event)
    requires a.k < |s.commands| && s.active == Some(a) && (a.phase.Asking? || a.phase.Done?)
    requires LedgerShape(a, s.commands[a.k].viewPlanned) && Advance(s, a, e).Some?
    ensures LedgerInv(Advance(s, a, e).value)
  {
    if a.phase.Asking? { ExtendLog(a.log, SearchAfterStep, Executed); }
  }

  lemma {:induction false} LedgerAlways(s: State, es: seq<Event>)
    requires LedgerInv(s) && Run(s, es).Some?
    ensures LedgerInv(Run(s, es).value)
    decreases |es|
  {
    if es != [] {
      LedgerStep(s, es[0]);
      LedgerAlways(Next(s, es[0]).value, es[1..]);
    }
  }

  /** The step that comes next has not been used yet. */
  lemma NextStepIsFree(start: State, es: seq<Event>)
    requires start.active.None? && Run(start, es).Some? && Run(start, es).value.active.Some?
    ensures var a := Run(start, es).value.active.value;
      match a.phase
      case Viewing => ViewStep !in Ids(a.log)
      case Searching => SearchBeforeStep !in Ids(a.log)
      case Recording => IntentStep !in Ids(a.log) && GhStep !in Ids(a.log)
      case Creating => GhStep !in Ids(a.log)
      case Asking(_) => SearchAfterStep !in Ids(a.log)
      case Storing(_, JustCreated) => SearchAfterStep !in Ids(a.log)
      case _ => true
  {
    LedgerAlways(start, es);
  }

  /** Exactly when a run that has its result is refused for an omitted step: the view
      step was planned, no number was on disk under the lock, and the run went on to
      create. No step is ever in the ledger twice. */
  lemma OmittedExactlyWhen(es: seq<Event>)
    requires Run(INIT, es).Some?
    ensures var s := Run(INIT, es).value;
      s.active.Some? && s.active.value.phase.Done? ==>
        var a := s.active.value;
        && a.k < |s.commands| && Once(a.log)
        && (Ids(a.log) != Planned(s.commands[a.k].viewPlanned) <==>
              s.commands[a.k].viewPlanned && !IsInt(a.read.number) && TookCreatePath(a))
  {
    LedgerAlways(INIT, es);
  }

  // ---------------------------------------------------------------- what the disk says

  /** Without hand edits the disk follows the active run, and a planned view step finds its number. */
  predicate DiskInv(s: State) {
    && (forall i :: 0 <= i < |s.commands| && s.commands[i].viewPlanned && s.disk.Readable? ==>
          IsInt(s.disk.meta.number))
    && (s.active.Some? ==>
          var a := s.active.value;
          && a.k < |s.commands| && Proceeds(s.commands[a.k])
          && (s.commands[a.k].viewPlanned ==> IsInt(a.read.number))
          && (match a.phase
              case Asking(_) => s.disk.Readable? ==> WroteOver(s.disk.meta, a.meta)
              case Storing(_, FoundAfter) => s.disk.Readable? ==> WroteOver(s.disk.meta, a.meta)
              case _ => s.disk == Readable(a.meta))
          && (a.phase.Creating? || a.phase.Asking? || (a.phase.Storing? && a.phase.how != FoundBefore) ==>
                a.meta.intent == Some(IntentOf(s.commands[a.k].draft))))
  }

  /** The metadata in memory, or that metadata with an issue filled in. */
  predicate WroteOver(d: Meta, m: Meta) {
    d == m || (d.intent == m.intent && d.number.Int?)
  }

  lemma DiskStep(s: State, e: Event)
    requires DiskInv(s) && !e.Edit? && Next(s, e).Some?
    ensures DiskInv(Next(s, e).value)
  {
    if e.Capture? {
      DiskCapture(s, e);
    } else if e.Store? || e.RecordIntent? {
      DiskWrite(s, e);
    } else {
      DiskKept(s, e);
    }
  }

  lemma DiskKept(s: State, e: Event)
    requires DiskInv(s) && !e.Edit? && !e.Capture? && !e.Store? && !e.RecordIntent? && Next(s, e).Some?
    ensures DiskInv(Next(s, e).value)
  {
    assert Next(s, e).value.disk == s.disk && Next(s, e).value.commands == s.commands;
  }

  lemma DiskWrite(s: State, e: Event)
    requires DiskInv(s) && (e.Store? || e.RecordIntent?) && Next(s, e).Some?
    ensures DiskInv(Next(s, e).value)
  {
  }

  lemma DiskCapture(s: State, e: Event)
    requires DiskInv(s) && e.Capture? && Next(s, e).Some?
    ensures DiskInv(Next(s, e).value)
  {
    var t := Next(s, e).value;
    forall i | 0 <= i < |t.commands| && t.commands[i].viewPlanned && t.disk.Readable?
      ensures IsInt(t.disk.meta.number)
    {
      if i < |s.commands| { assert s.commands[i].viewPlanned; }
    }
  }

  lemma {:induction false} DiskAlways(s: State, es: seq<Event>)
    requires DiskInv(s) && NoEdits(es) && Run(s, es).Some?
    ensures DiskInv(Run(s, es).value)
    decreases |es|
  {
    if es != [] {
      DiskStep(s, es[0]);
      DiskAlways(Next(s, es[0]).value, es[1..]);
    }
  }

  /** Without hand edits every run that has its result has accounted for every planned step exactly once,
      whatever the metadata held when the history began. */
  lemma LedgerExact(start: State, es: seq<Event>)
    requires DiskInv(start) && LedgerInv(start) && NoEdits(es) && Run(start, es).Some?
    ensures var s := Run(start, es).value;
      s.active.Some? && s.active.value.phase.Done? ==>
        s.active.value.k < |s.commands|
        && Once(s.active.value.log)
        && Ids(s.active.value.log) == Planned(s.commands[s.active.value.k].viewPlanned)
  {
    LedgerAlways(start, es);
    DiskAlways(start, es);
  }

  /** The condition is needed: delete the stored number by hand between capture and
      run, and a run that created and stored the issue still fails. */
  lemma HandEditOmitsView(d: Draft, i: Issue)
    requires d.reportValid && ApprovedPayload(d)
    ensures
      var edits := [Edit(Readable(FRESH.(number := Int(7)))), Capture(d, false), Edit(Readable(FRESH))];
      var run := [Begin(0), SearchBefore(None), RecordIntent(Stored), Create(Some(i), Named(i)), Store(Stored)];
      var s := Run(INIT, edits + (run + [Finish]));
      && s.Some? && s.value.created == [i] && s.value.outcomes == [Failed(OmittedSteps)]
      && s.value.disk.Readable? && s.value.disk.meta.url == Str(i.url)
  {
    var edits := [Edit(Readable(FRESH.(number := Int(7)))), Capture(d, false), Edit(Readable(FRESH))];
    var run := [Begin(0), SearchBefore(None), RecordIntent(Stored), Create(Some(i), Named(i)), Store(Stored)];
    var c := Command(false, d, true);
    var log: Log := [Entry(SearchBeforeStep, Executed), Entry(IntentStep, Executed), Entry(GhStep, Executed),
                     Entry(SearchAfterStep, Skipped)];
    CaptureWithNumber(d);
    PublishFromFresh(d, i, c, log);
    RunConcat(INIT, edits, run + [Finish]);
    RunConcat(INIT.(commands := [c]), run, [Finish]);
    FinishOmits(Run(INIT.(commands := [c]), run).value);
  }

  lemma CaptureWithNumber(d: Draft)
    ensures Run(INIT, [Edit(Readable(FRESH.(number := Int(7)))), Capture(d, false), Edit(Readable(FRESH))])
      == Some(INIT.(commands := [Command(false, d, true)]))
  {
    var numbered := Readable(FRESH.(number := Int(7)));
    var c := Command(false, d, true);
    var es := [Edit(numbered), Capture(d, false), Edit(Readable(FRESH))];
    var s1, s2, s3 := INIT.(disk := numbered), INIT.(disk := numbered, commands := [c]), INIT.(commands := [c]);
    assert es[1..] == [Capture(d, false), Edit(Readable(FRESH))];
    assert es[2..] == [Edit(Readable(FRESH))] && es[3..] == [];
    assert INIT.commands + [c] == [c];
    assert Next(INIT, es[0]) == Some(s1) && Next(s1, es[1]) == Some(s2) && Next(s2, es[2]) == Some(s3);
    assert Run(s2, es[2..]) == Run(s3, es[3..]) == Some(s3);
    assert Run(s1, es[1..]) == Run(s2, es[2..]);
  }

  lemma FinishOmits(s: State)
    requires s.active.Some? && s.active.value.phase.Done? && s.active.value.k < |s.commands|
    requires s.commands[s.active.value.k].viewPlanned && ViewStep !in Ids(s.active.value.log)
    ensures Run(s, [Finish]) == Some(Release(s, Failed(OmittedSteps)))
  {
    assert ViewStep in Planned(true);
    assert [Finish][1..] == [];
    assert Next(s, Finish) == Some(Release(s, Failed(OmittedSteps)));
  }

  /** The plain successful run of a captured command on fresh metadata. */
  lemma PublishFromFresh(d: Draft, i: Issue, c: Command, log: Log)
    requires c.draft == d && Proceeds(c)
    requires log == [Entry(SearchBeforeStep, Executed), Entry(IntentStep, Executed), Entry(GhStep, Executed),
                     Entry(SearchAfterStep, Skipped)]
    ensures var m := Meta(Str(i.url), Int(i.number), Some(IntentOf(d)));
      Run(INIT.(commands := [c]),
          [Begin(0), SearchBefore(None), RecordIntent(Stored), Create(Some(i), Named(i)), Store(Stored)])
      == Some(State(Readable(m), [i], 0, [c], Some(Active(0, Done(Published(i)), FRESH, m, log)), []))
  {
    var es := [Begin(0), SearchBefore(None), RecordIntent(Stored), Create(Some(i), Named(i)), Store(Stored)];
    var mi := FRESH.(intent := Some(IntentOf(d)));
    var m := Meta(Str(i.url), Int(i.number), Some(IntentOf(d)));
    assert log[..1] == [] + [Entry(SearchBeforeStep, Executed)];
    assert log[..2] == log[..1] + [Entry(IntentStep, Executed)];
    assert log[..3] == log[..2] + [Entry(GhStep, Executed)];
    assert log == log[..3] + [Entry(SearchAfterStep, Skipped)];
    assert INIT.created + [i] == [i];
    var s0 := INIT.(commands := [c]);
    var s1 := s0.(active := Some(Active(0, Searching, FRESH, FRESH, [])));
    var s2 := s0.(active := Some(Active(0, Recording, FRESH, FRESH, log[..1])));
    var s3 := s0.(disk := Readable(mi), active := Some(Active(0, Creating, FRESH, mi, log[..2])));
    var s4 := s3.(created := [i], active := Some(Active(0, Storing(i, JustCreated), FRESH, mi, log[..3])));
    var s5 := State(Readable(m), [i], 0, [c], Some(Active(0, Done(Published(i)), FRESH, m, log)), []);
    assert Next(s0, es[0]) == Some(s1);
    assert Next(s1, es[1]) == Some(s2);
    assert Next(s2, es[2]) == Some(s3);
    assert Next(s3, es[3]) == Some(s4);
    assert Next(s4, es[4]) == Some(s5);
    FiveSteps(es, s0, s1, s2, s3, s4, s5);
  }

  lemma FiveSteps(es: seq<Event>, s0: State, s1: State, s2: State, s3: State, s4: State, s5: State)
    requires |es| == 5 && Next(s0, es[0]) == Some(s1) && Next(s1, es[1]) == Some(s2) && Next(s2, es[2]) == Some(s3)
    requires Next(s3, es[3]) == Some(s4) && Next(s4, es[4]) == Some(s5)
    ensures Run(s0, es) == Some(s5)
  {
    OneStep(es, 4, s4, s5);
    OneStep(es, 3, s3, s4);
    OneStep(es, 2, s2, s3);
    OneStep(es, 1, s1, s2);
    OneStep(es, 0, s0, s1);
    assert es[0..] == es && es[5..] == [];
  }

  lemma OneStep(es: seq<Event>, k: nat, s: State, t: State)
    requires k < |es| && Next(s, es[k]) == Some(t)
    ensures Run(s, es[k..]) == Run(t, es[k + 1..])
  {
    assert es[k..][0] == es[k] && es[k..][1..] == es[k + 1..];
  }

  // ---------------------------------------------------------------- intent before create

  /** Wherever a create can happen, the intent on disk names the payload of this very
      command, and the latest review approved exactly that hash. */
  lemma CreateFollowsApprovedIntent(es: seq<Event>, lands: Option<Issue>, answer: CreateAnswer)
    requires NoEdits(es) && Run(INIT, es).Some? && Next(Run(INIT, es).value, Create(lands, answer)).Some?
    ensures var s := Run(INIT, es).value;
      && s.active.Some? && s.active.value.k < |s.commands|
      && s.disk.Readable? && s.disk.meta.intent.Some?
      && var d := s.commands[s.active.value.k].draft;
         && s.disk.meta.intent.value == Intent(d.repository, d.title, d.sha)
         && d.reportValid && ApprovedByHighest(d)
  {
    DiskAlways(INIT, es);
    ApprovedMeans(Run(INIT, es).value.commands[Run(INIT, es).value.active.value.k].draft);
  }

  /** What a capture plans: the view step exactly for a stored number and no stored URL, by Python's own notions of
      both. */
  lemma CapturePlans(s: State, d: Draft, dryRun: bool)
    requires s.disk.Readable?
    ensures var m, t := s.disk.meta, Next(s, Capture(d, dryRun));
      && t.Some? && |t.value.commands| == |s.commands| + 1
      && var c := t.value.commands[|s.commands|];
         && c.dryRun == dryRun && c.draft == d
         && (c.viewPlanned <==>
               && (m.number.Int? || m.number.Bool?)
               && (m.url.Null? || m.url == Str("") || m.url == Int(0) || m.url == Bool(false) || m.url == Other(false)))
  {
  }

  // ---------------------------------------------------------------- after the create

  predicate UrlOnDisk(d: Disk) { d.Readable? && HasUrl(d.meta) }

  /** Before a run is done its metadata names no URL; what a recheck found or executed is in its ledger. */
  predicate CreateInv(s: State) {
    s.active.Some? ==>
      var a := s.active.value;
      match a.phase
      case Done(_) =>
        UrlOnDisk(s.disk) || Entry(SearchAfterStep, Executed) in a.log || Entry(GhStep, Executed) !in a.log
      case Storing(_, FoundAfter) => Entry(SearchAfterStep, Executed) in a.log
      case Storing(_, FoundBefore) => Entry(GhStep, Executed) !in a.log
      case Storing(i, JustCreated) => i.url != "" && !HasUrl(a.meta)
      case Asking(failed) => UrlOnDisk(s.disk) <==> failed == Some(StoredThenFailed)
      case _ => !HasUrl(a.meta)
  }

  /** The URL of a created issue is text that matched a pattern, so it is not empty. */
  predicate NamesUrl(e: Event) { e.Create? && e.answer.Named? ==> e.answer.issue.url != "" }

  predicate NameUrls(es: seq<Event>) { forall i :: 0 <= i < |es| ==> NamesUrl(es[i]) }

  lemma CreateStep(s: State, e: Event)
    requires CreateInv(s) && LedgerInv(s) && DiskInv(s) && !e.Edit? && NamesUrl(e) && Next(s, e).Some?
    ensures CreateInv(Next(s, e).value)
  {
    if s.active.Some? && (s.active.value.phase.Viewing? || s.active.value.phase.Searching?)
       && (e.View? || e.SearchBefore?) {
      FoundStep(s, e);
    }
  }

  lemma FoundStep(s: State, e: Event)
    requires s.active.Some? && LedgerInv(s) && CreateInv(s) && NamesUrl(e) && Next(s, e).Some?
    requires (s.active.value.phase.Viewing? && e.View?) || (s.active.value.phase.Searching? && e.SearchBefore?)
    ensures CreateInv(Next(s, e).value)
  {
    var a := s.active.value;
    NotIn(a.log, GhStep);
    NotExecuted(a.log, GhStep, if e.View? then ViewStep else SearchBeforeStep, s.commands[a.k].viewPlanned);
  }

  /** Executing another step and skipping the rest does not execute this one. */
  lemma NotExecuted(log: Log, id: StepId, other: StepId, v: bool)
    requires Entry(id, Executed) !in log && id != other
    ensures var next := log + [Entry(other, Executed)];
      Entry(id, Executed) !in next && Entry(id, Executed) !in next + SkipOthers(Prepared(v), Ids(next))
  {
    PreparedDistinct(v);
    SkipOthersFacts(Prepared(v), Ids(log + [Entry(other, Executed)]));
  }

  lemma NotIn(log: Log, id: StepId)
    requires id !in Ids(log)
    ensures Entry(id, Executed) !in log && Entry(id, Skipped) !in log
  {
    assert forall i :: 0 <= i < |log| ==> log[i].id in Ids(log);
  }

  /** The process died before the new issue was stored, or before the second search when its store had not taken
      effect. */
  predicate CrashedOpen(x: Ending) {
    && x.event.Crash?
    && (match x.phase
        case Storing(_, how) => how == JustCreated
        case Asking(failed) => failed != Some(StoredThenFailed)
        case _ => false)
  }

  predicate CreateRaised(x: Ending) { x.event.Create? && x.event.answer.Raised? }

  predicate ResolvedUnlessRaised(x: Ending) {
    Entry(GhStep, Executed) in x.log ==> (Unresolved(x) <==> CreateRaised(x) || CrashedOpen(x))
  }

  lemma EndingResolved(s: State, e: Event)
    requires CreateInv(s) && LedgerInv(s) && DiskInv(s) && !e.Edit? && EndingOf(s, e).Some?
    ensures ResolvedUnlessRaised(EndingOf(s, e).value)
  {
    var a := s.active.value;
    if GhStep !in Ids(a.log) { NotIn(a.log, GhStep); }
    if SearchAfterStep !in Ids(a.log) { NotIn(a.log, SearchAfterStep); }
  }

  /** The written requirement after a create, and exactly where the code misses it: a run that executed `gh issue
      create` ends without asking GitHub again and without a stored URL if and only if the create raised, or the
      process died while the outcome was open. */
  lemma {:induction false} UnresolvedExactlyWhen(s: State, es: seq<Event>)
    requires CreateInv(s) && LedgerInv(s) && DiskInv(s) && NoEdits(es) && NameUrls(es) && Run(s, es).Some?
    ensures forall i :: 0 <= i < |Endings(s, es)| ==> ResolvedUnlessRaised(Endings(s, es)[i])
    decreases |es|
  {
    if es != [] {
      assert !es[0].Edit? && NamesUrl(es[0]);
      CreateStep(s, es[0]);
      LedgerStep(s, es[0]);
      DiskStep(s, es[0]);
      if EndingOf(s, es[0]).Some? { EndingResolved(s, es[0]); }
      UnresolvedExactlyWhen(Next(s, es[0]).value, es[1..]);
    }
  }

  // ---------------------------------------------------------------- publication

  /** GitHub's side of the bargain: issues have URLs, and an answer names an issue that exists. */
  predicate HonestStep(s: State, e: Event) {
    var known := s.created + if e.Create? && e.lands.Some? then [e.lands.value] else [];
    && (e.Create? && e.lands.Some? ==> e.lands.value.url != "")
    && (match e
        case View(Some(i)) => i in known
        case SearchBefore(Some(i)) => i in known
        case SearchAfter(Some(i)) => i in known
        case Create(_, Named(i)) => i in known
        case _ => true)
  }

  predicate Honest(s: State, es: seq<Event>)
    decreases |es|
  {
    es == [] || (HonestStep(s, es[0]) && Next(s, es[0]).Some? && Honest(Next(s, es[0]).value, es[1..]))
  }

  predicate StoresIssue(d: Disk, i: Issue) {
    d.Readable? && d.meta.url == Str(i.url) && d.meta.number == Int(i.number)
  }

  predicate TruthInv(s: State) {
    && (forall i :: i in s.created ==> i.url != "")
    && (s.disk.Readable? && HasUrl(s.disk.meta) ==> KnownUrl(s, s.disk.meta.url.s))
    && (s.active.Some? ==>
          match s.active.value.phase
          case Storing(i, _) => i in s.created
          case Done(Published(i)) => i in s.created && StoresIssue(s.disk, i)
          case Done(AlreadyPublished(u, _)) => KnownUrl(s, u) && s.disk.Readable? && s.disk.meta.url == Str(u)
          case _ => true)
    && (forall o :: o in s.outcomes && o.Returned? ==>
          match o.result
          case Published(i) => i in s.created
          case AlreadyPublished(u, _) => KnownUrl(s, u))
  }

  predicate KnownUrl(s: State, u: string) { exists i :: i in s.created && i.url == u }

  /** Issues are only ever added. */
  lemma CreatedGrows(s: State, e: Event)
    requires Next(s, e).Some?
    ensures forall i :: i in s.created ==> i in Next(s, e).value.created
    ensures forall u :: KnownUrl(s, u) ==> KnownUrl(Next(s, e).value, u)
  {
    var t := Next(s, e).value;
    assert forall i :: i in s.created ==> i in t.created;
    forall u | KnownUrl(s, u) ensures KnownUrl(t, u) {
      var i :| i in s.created && i.url == u;
      assert i in t.created;
    }
  }

  lemma TruthStep(s: State, e: Event)
    requires TruthInv(s) && DiskInv(s) && !e.Edit? && HonestStep(s, e) && Next(s, e).Some?
    ensures TruthInv(Next(s, e).value)
  {
    CreatedGrows(s, e);
    if e.Store? {
      TruthStore(s, e);
    } else if e.Create? || e.RecordIntent? {
      TruthCreate(s, e);
    }
  }

  lemma TruthStore(s: State, e: Event)
    requires TruthInv(s) && DiskInv(s) && e.Store? && HonestStep(s, e) && Next(s, e).Some?
    ensures TruthInv(Next(s, e).value)
  {
    CreatedGrows(s, e);
  }

  lemma TruthCreate(s: State, e: Event)
    requires TruthInv(s) && DiskInv(s) && (e.Create? || e.RecordIntent?) && HonestStep(s, e) && Next(s, e).Some?
    ensures TruthInv(Next(s, e).value)
  {
    CreatedGrows(s, e);
  }

  lemma {:induction false} TruthAlways(s: State, es: seq<Event>)
    requires TruthInv(s) && DiskInv(s) && NoEdits(es) && Honest(s, es)
    ensures Run(s, es).Some? && TruthInv(Run(s, es).value) && DiskInv(Run(s, es).value)
    decreases |es|
  {
    if es != [] {
      TruthStep(s, es[0]);
      DiskStep(s, es[0]);
      TruthAlways(Next(s, es[0]).value, es[1..]);
    }
  }

  /** A run about to return `published` names an issue that exists and whose URL and number are on disk;
      a stored URL, and every result ever returned, name existing issues. */
  lemma PublishedIsTrue(es: seq<Event>)
    requires NoEdits(es) && Honest(INIT, es)
    ensures Run(INIT, es).Some?
    ensures var s := Run(INIT, es).value;
      && (s.active.Some? && s.active.value.phase.Done? && s.active.value.phase.result.Published? ==>
            var i := s.active.value.phase.result.issue;
            i in s.created && StoresIssue(s.disk, i) && HasUrl(s.disk.meta))
      && (s.disk.Readable? && HasUrl(s.disk.meta) ==> KnownUrl(s, s.disk.meta.url.s))
      && (forall o :: o in s.outcomes && o.Returned? && o.result.Published? ==> o.result.issue in s.created)
      && (forall o :: o in s.outcomes && o.Returned? && o.result.AlreadyPublished? ==> KnownUrl(s, o.result.url))
  {
    TruthAlways(INIT, es);
  }

  /** The lock is free and a URL is stored. */
  predicate Settled(s: State) { s.active.None? && s.disk.Readable? && HasUrl(s.disk.meta) }

  /** A settled report, possibly with a run on its way out. */
  predicate Quiet(s: State) {
    && s.disk.Readable? && HasUrl(s.disk.meta)
    && (s.active.Some? ==>
          var a := s.active.value;
          && a.k < |s.commands|
          && a.phase == Done(AlreadyPublished(s.disk.meta.url.s, IntOf(s.disk.meta.number)))
          && Ids(a.log) == Planned(s.commands[a.k].viewPlanned))
  }

  predicate Repeats(o: Outcome, m: Meta) {
    m.url.Str? && (o == Returned(AlreadyPublished(m.url.s, IntOf(m.number))) || o == Failed(Crashed))
  }

  /** What an event may add to a settled report. */
  predicate StaysQuiet(s: State, t: State) {
    && s.disk.Readable? && Quiet(t) && t.disk == s.disk && t.created == s.created && t.misses == s.misses
    && |s.outcomes| <= |t.outcomes| && t.outcomes[..|s.outcomes|] == s.outcomes
    && (forall o :: o in t.outcomes[|s.outcomes|..] ==> Repeats(o, s.disk.meta))
  }

  lemma NothingAdded(s: State, t: State)
    requires Quiet(s) && Quiet(t) && t == s.(commands := t.commands, active := t.active)
    ensures StaysQuiet(s, t)
  {
    assert t.outcomes[|s.outcomes|..] == [];
  }

  lemma QuietBegin(s: State, e: Event)
    requires Quiet(s) && e.Begin? && Next(s, e).Some?
    ensures StaysQuiet(s, Next(s, e).value)
  {
    SkipAll(s.commands[e.command].viewPlanned);
    NothingAdded(s, Next(s, e).value);
  }

  lemma QuietEnd(s: State, e: Event)
    requires Quiet(s) && s.active.Some? && (e.Finish? || e.Crash?) && Next(s, e).Some?
    ensures StaysQuiet(s, Next(s, e).value)
  {
    var t := Next(s, e).value;
    assert t.outcomes[|s.outcomes|..] == [t.outcomes[|s.outcomes|]];
  }

  lemma QuietStep(s: State, e: Event)
    requires Quiet(s) && !e.Edit? && Next(s, e).Some?
    ensures StaysQuiet(s, Next(s, e).value) && !e.Create?
  {
    if e.Begin? {
      QuietBegin(s, e);
    } else if e.Finish? || e.Crash? {
      QuietEnd(s, e);
    } else {
      assert e.Capture?;
      NothingAdded(s, Next(s, e).value);
    }
  }

  /** Once a URL is stored and the lock is free, nothing is ever created or written again:
      every run that takes the lock returns that URL as already published, or crashes. */
  lemma {:induction false} SettledForever(s: State, es: seq<Event>)
    requires Quiet(s) && NoEdits(es) && Run(s, es).Some?
    ensures var t := Run(s, es).value;
      && Quiet(t) && t.disk == s.disk && t.created == s.created && t.misses == s.misses
      && |s.outcomes| <= |t.outcomes| && t.outcomes[..|s.outcomes|] == s.outcomes
      && (forall o :: o in t.outcomes[|s.outcomes|..] ==> Repeats(o, s.disk.meta))
    ensures forall i :: 0 <= i < |es| ==> !es[i].Create?
    decreases |es|
  {
    if es != [] {
      QuietStep(s, es[0]);
      var m := Next(s, es[0]).value;
      SettledForever(m, es[1..]);
      var t := Run(s, es).value;
      assert t.outcomes[|s.outcomes|..] == m.outcomes[|s.outcomes|..] + t.outcomes[|m.outcomes|..];
    }
  }

  /** The events of a run that finds issue `i`: by its stored number, or by the report marker after a number that was
      looked up in vain, if one was. */
  function RecoveryEvents(k: nat, viewing: bool, byNumber: bool, i: Issue): seq<Event> {
    [Begin(k)]
    + (if viewing && byNumber then [View(Some(i))]
      else (if viewing then [View(None)] else []) + [SearchBefore(Some(i))])
    + ([Store(Stored)] + [Finish])
  }

  /** Recovery. In every state with a free lock and readable metadata without a URL, a command that proceeds and whose
      recheck finds an issue, by number or by marker, returns that issue as published once it is stored: nothing is
      created, every step is accounted for, and the report is settled. */
  lemma RecoveryPublishes(s: State, k: nat, byNumber: bool, i: Issue)
    requires s.active.None? && k < |s.commands| && Proceeds(s.commands[k])
    requires s.disk.Readable? && !HasUrl(s.disk.meta) && i.url != ""
    ensures var viewing := s.commands[k].viewPlanned && IsInt(s.disk.meta.number);
      var t := Run(s, RecoveryEvents(k, viewing, byNumber, i));
      && t.Some? && t.value.created == s.created && t.value.misses == s.misses && t.value.commands == s.commands
      && t.value.outcomes == s.outcomes + [Returned(Published(i))]
      && StoresIssue(t.value.disk, i) && Settled(t.value)
  {
    var viewing := s.commands[k].viewPlanned && IsInt(s.disk.meta.number);
    var s1 := Next(s, Begin(k)).value;
    var end := [Store(Stored)] + [Finish];
    var none: Log := [];
    assert Ids(none) == {};
    if viewing && byNumber {
      RunOne(s1, View(Some(i)), end);
      StoreFound(s1, View(Some(i)), i);
      assert RecoveryEvents(k, viewing, byNumber, i) == [Begin(k)] + ([View(Some(i))] + end);
      RunOne(s, Begin(k), [View(Some(i))] + end);
    } else if viewing {
      var s2 := Next(s1, View(None)).value;
      ExtendLog(none, ViewStep, Executed);
      StoreFound(s2, SearchBefore(Some(i)), i);
      RunOne(s2, SearchBefore(Some(i)), end);
      RunOne(s1, View(None), [SearchBefore(Some(i))] + end);
      assert RecoveryEvents(k, viewing, byNumber, i) == [Begin(k)] + ([View(None)] + ([SearchBefore(Some(i))] + end));
      RunOne(s, Begin(k), [View(None)] + ([SearchBefore(Some(i))] + end));
    } else {
      StoreFound(s1, SearchBefore(Some(i)), i);
      RunOne(s1, SearchBefore(Some(i)), end);
      assert RecoveryEvents(k, viewing, byNumber, i) == [Begin(k)] + ([SearchBefore(Some(i))] + end);
      RunOne(s, Begin(k), [SearchBefore(Some(i))] + end);
    }
  }

  lemma RunOne(s: State, e: Event, es: seq<Event>)
    ensures Run(s, [e] + es) == (var t := Next(s, e); if t.None? then None else Run(t.value, es))
  {
    assert ([e] + es)[1..] == es;
  }

  /** The found issue is stored and the run returns it. */
  lemma StoreFound(s: State, e: Event, i: Issue)
    requires s.active.Some? && s.active.value.k < |s.commands| && Once(s.active.value.log) && i.url != ""
    requires (e == View(Some(i)) && s.active.value.phase.Viewing?)
          || (e == SearchBefore(Some(i)) && s.active.value.phase.Searching?)
    requires var id := if e.View? then ViewStep else SearchBeforeStep;
      id !in Ids(s.active.value.log)
      && Ids(s.active.value.log) + {id} <= Planned(s.commands[s.active.value.k].viewPlanned)
    ensures Next(s, e).Some?
    ensures var t := Run(Next(s, e).value, [Store(Stored)] + [Finish]);
      && t.Some? && t.value.created == s.created && t.value.misses == s.misses && t.value.commands == s.commands
      && t.value.outcomes == s.outcomes + [Returned(Published(i))]
      && StoresIssue(t.value.disk, i) && Settled(t.value)
  {
    var a := s.active.value;
    var v := s.commands[a.k].viewPlanned;
    var id := if e.View? then ViewStep else SearchBeforeStep;
    var log := a.log + [Entry(id, Executed)];
    ExtendLog(a.log, id, Executed);
    SkipRest(log, v);
    FoundNext(s, e, i);
    StoreAndFinish(Next(s, e).value, i);
  }

  lemma FoundNext(s: State, e: Event, i: Issue)
    requires s.active.Some? && s.active.value.k < |s.commands|
    requires (e == View(Some(i)) && s.active.value.phase.Viewing?)
          || (e == SearchBefore(Some(i)) && s.active.value.phase.Searching?)
    ensures var a := s.active.value;
      var log := a.log + [Entry(if e.View? then ViewStep else SearchBeforeStep, Executed)];
      Next(s, e) == Some(s.(active := Some(Recovered(a, s.commands[a.k].viewPlanned, i, log))))
  {
  }

  lemma StoreAndFinish(s: State, i: Issue)
    requires s.active.Some? && s.active.value.k < |s.commands| && i.url != ""
    requires s.active.value.phase == Storing(i, FoundBefore)
    requires Ids(s.active.value.log) == Planned(s.commands[s.active.value.k].viewPlanned)
    ensures var t := Run(s, [Store(Stored)] + [Finish]);
      && t.Some? && t.value.created == s.created && t.value.misses == s.misses && t.value.commands == s.commands
      && t.value.outcomes == s.outcomes + [Returned(Published(i))]
      && StoresIssue(t.value.disk, i) && Settled(t.value)
  {
    var a := s.active.value;
    var m := a.meta.(url := Str(i.url), number := Int(i.number));
    var u := s.(disk := Readable(m), active := Some(a.(phase := Done(Published(i)), meta := m)));
    assert Next(s, Store(Stored)) == Some(u);
    assert Next(u, Finish) == Some(Release(u, Returned(Published(i))));
    RunOne(s, Store(Stored), [Finish]);
    assert [Finish] == [Finish] + [];
    RunOne(u, Finish, []);
  }

  /** The invariants hold at the start, so the theorems above apply to every history of a fresh report. */
  lemma InitGood()
    ensures Budget(INIT) && LedgerInv(INIT) && DiskInv(INIT) && TruthInv(INIT) && CreateInv(INIT)
    ensures forall s: State :: Settled(s) ==> Quiet(s)
  {
  }
}

/** `_SubmissionExecutor` of `bug_report.py`, statement by statement, against a world of
    one metadata file and one GitHub repository. Its runs are histories of the protocol
    machine, so every theorem about the machine is a theorem about this code. */
module BugReportExecutor {
  import opened Text
  import opened StepLedger
  import opened BugReportProtocol

  /** A recheck process names an issue, names none (or fails), or raises, as on a timeout. */
  datatype Recheck = Found(issue: Issue) | NotFound | RecheckRaised

  /** The answers of processes and the fate of writes that one run will meet. */
  datatype Environment = Environment(
    view: Recheck, before: Recheck, intentWrite: Write,
    lands: Option<Issue>, create: CreateAnswer, store: Write, after: Recheck, storeAgain: Write)

  datatype PreflightError = Invalid | ReviewLimit | ReviewRequired | StaleHash

  datatype Blocker = MissingReview | NotApproved | HashMismatch | Stopped

  const MAX_REVIEW_ROUNDS := 3

  function Refusals(reviews: seq<Review>): nat {
    if reviews == [] then 0
    else (if reviews[0].verdict == ChangesRequested then 1 else 0) + Refusals(reviews[1..])
  }

  /** As many as there are reviews that asked for changes: removing the others leaves exactly these. */
  lemma {:induction false} RefusalsCount(reviews: seq<Review>, refused: seq<Review>)
    requires multiset(refused) <= multiset(reviews)
    requires forall r :: r in multiset(reviews) ==>
      (r.verdict == ChangesRequested ==> multiset(refused)[r] == multiset(reviews)[r])
      && (r.verdict == Approved ==> multiset(refused)[r] == 0)
    ensures Refusals(reviews) == |refused|
  {
    if reviews == [] {
      assert |refused| == |multiset(refused)|;
    } else {
      var r := reviews[0];
      assert reviews == [r] + reviews[1..];
      assert r in multiset(reviews);
      if r.verdict == ChangesRequested {
        assert r in multiset(refused);
        var k :| 0 <= k < |refused| && refused[k] == r;
        var rest := refused[..k] + refused[k + 1..];
        assert refused == refused[..k] + [r] + refused[k + 1..];
        assert multiset(rest) == multiset(refused) - multiset{r};
        RefusalsCount(reviews[1..], rest);
      } else {
        RefusalsCount(reviews[1..], refused);
      }
    }
  }

  method ValidateForSubmit(d: Draft) returns (ready: bool, blockers: seq<Blocker>, latest: Option<Review>)
    ensures latest == Latest(d.reviews)
    ensures latest.None? <==> d.reviews == []
    ensures latest.Some? ==> latest.value in d.reviews && forall x :: x in d.reviews ==> x.round <= latest.value.round
    ensures ready <==> d.reportValid && blockers == []
    ensures blockers == [] <==> ApprovedPayload(d)
    ensures blockers == [] <==> latest.Some? && latest.value.verdict == Approved && latest.value.sha == d.sha
    ensures MissingReview in blockers <==> d.reviews == []
    ensures NotApproved in blockers <==> latest.Some? && latest.value.verdict == ChangesRequested
    ensures HashMismatch in blockers <==> latest.Some? && latest.value.sha != d.sha
    ensures Stopped in blockers <==>
      latest.Some? && latest.value.verdict == ChangesRequested && Refusals(d.reviews) >= 3
  {
    LatestIsHighest(d.reviews);
    blockers := [];
    latest := Latest(d.reviews);
    if latest.None? {
      blockers := blockers + [MissingReview];
    } else {
      if latest.value.verdict != Approved { blockers := blockers + [NotApproved]; }
      if latest.value.sha != d.sha { blockers := blockers + [HashMismatch]; }
      if Refusals(d.reviews) >= MAX_REVIEW_ROUNDS && latest.value.verdict != Approved {
        blockers := blockers + [Stopped];
      }
    }
    ready := d.reportValid && blockers == [];
  }

  /** What preflight decides: go on to the lock, return the preview of a dry run, or refuse. */
  datatype Decision = Proceed | Preview(reportValid: bool, submitReady: bool) | Refuse(error: PreflightError)

  /** A dry run gets its preview; any other run proceeds exactly with a valid report and an approved payload. */
  method Preflight(c: Command) returns (r: Decision)
    ensures r.Proceed? <==> Proceeds(c)
    ensures r.Proceed? ==> !c.dryRun && c.draft.reportValid && ApprovedByHighest(c.draft)
    ensures r.Refuse? && c.draft.reportValid ==> c.draft.reviews == [] || OpenAtHighest(c.draft)
    ensures r.Preview? <==> c.dryRun
    ensures r.Preview? ==>
      r.reportValid == c.draft.reportValid && r.submitReady == (c.draft.reportValid && ApprovedPayload(c.draft))
    ensures r == Refuse(Invalid) <==> !c.dryRun && !c.draft.reportValid
    ensures r == Refuse(ReviewLimit) <==>
      !c.dryRun && c.draft.reportValid && !ApprovedPayload(c.draft) && Refusals(c.draft.reviews) >= 3
    ensures r == Refuse(StaleHash) <==>
      !c.dryRun && c.draft.reportValid && Refusals(c.draft.reviews) < 3
      && var l := Latest(c.draft.reviews); l.Some? && l.value.verdict == Approved && l.value.sha != c.draft.sha
  {
    var d := c.draft;
    var ready, _, latest := ValidateForSubmit(d);
    ApprovedMeans(d);
    if c.dryRun { return Preview(d.reportValid, ready); }
    if !d.reportValid { return Refuse(Invalid); }
    if ready { return Proceed; }
    if Refusals(d.reviews) >= MAX_REVIEW_ROUNDS { return Refuse(ReviewLimit); }
    if latest.Some? && latest.value.verdict != Approved { return Refuse(ReviewRequired); }
    if latest.Some? && latest.value.sha != d.sha { return Refuse(StaleHash); }
    r := Refuse(ReviewRequired);
  }

  class World {
    var disk: Disk
    var created: seq<Issue>
    ghost const start: State
    ghost var machine: State
    ghost var history: seq<Event>

    ghost predicate Valid()
      reads this
    {
      && disk == machine.disk && created == machine.created
      && Follows()
    }

    constructor (start: State)
      requires start.active.None?
      ensures Valid() && this.start == start && machine == start && history == []
    {
      this.start, machine, history := start, start, [];
      disk, created := start.disk, start.created;
    }

    ghost predicate Follows()
      reads this
    {
      start.active.None? && Run(start, history) == Some(machine)
    }

    ghost predicate At(p: Phase)
      reads this
    {
      machine.active.Some? && machine.active.value.phase == p && machine.active.value.k < |machine.commands|
    }

    ghost predicate AtAsking()
      reads this
    {
      machine.active.Some? && machine.active.value.phase.Asking? && machine.active.value.k < |machine.commands|
    }

    /** Record what the code just did; the machine must be able to follow. */
    ghost method Emit(e: Event)
      requires Follows() && Next(machine, e).Some?
      modifies `machine, `history
      ensures machine == Next(old(machine), e).value
      ensures Follows() && history == old(history) + [e]
    {
      RunConcat(start, history, [e]);
      assert [e][1..] == [];
      machine, history := Next(machine, e).value, history + [e];
    }

    ghost method EmitBegin(k: nat)
      requires Follows() && machine.active.None? && k < |machine.commands|
      requires Proceeds(machine.commands[k]) && machine.disk.Readable?
      modifies `machine, `history
      ensures history == old(history) + [Begin(k)]
      ensures Follows()
      ensures machine
           == old(machine).(active := Some(Enter(k, old(machine).commands[k].viewPlanned, old(machine).disk.meta)))
    {
      Emit(Begin(k));
    }

    /** A recheck, by number or by marker, found nothing. */
    ghost method EmitNotFound(byNumber: bool)
      requires Follows() && At(if byNumber then Viewing else Searching)
      modifies `machine, `history
      ensures old(history) < history
      ensures Follows() && machine.active.Some?
      ensures machine == old(machine).(misses := machine.misses, active := machine.active)
      ensures machine.active.value == old(machine).active.value.(
        phase := if byNumber then Searching else Recording,
        log := old(machine).active.value.log + [Entry(if byNumber then ViewStep else SearchBeforeStep, Executed)])
    {
      Emit(if byNumber then View(None) else SearchBefore(None));
    }

    /** A recheck found the issue and the other steps were skipped. */
    ghost method EmitFound(byNumber: bool, issue: Issue)
      requires Follows() && At(if byNumber then Viewing else Searching)
      modifies `machine, `history
      ensures old(history) < history
      ensures Follows()
      ensures var a := old(machine).active.value;
        machine == old(machine).(active := Some(Recovered(a, old(machine).commands[a.k].viewPlanned, issue,
          a.log + [Entry(if byNumber then ViewStep else SearchBeforeStep, Executed)])))
    {
      Emit(if byNumber then View(Some(issue)) else SearchBefore(Some(issue)));
    }

    /** A recheck process raised, and the exception leaves the callback. */
    ghost method EmitRaises()
      requires Follows() && (At(Viewing) || At(Searching) || AtAsking())
      modifies `machine, `history
      ensures old(history) < history
      ensures Follows() && machine == Release(old(machine), Failed(ProcessRaised))
    {
      Emit(RecheckRaises);
    }

    ghost method EmitIntent(w: Write, m: Meta)
      requires Follows() && At(Recording)
      requires m == machine.active.value.meta.(intent := Some(IntentOf(machine.commands[machine.active.value.k].draft)))
      modifies `machine, `history
      ensures old(history) < history
      ensures Follows()
      ensures var s := old(machine).(disk := Written(old(machine).disk, m, w));
        var a := old(machine).active.value;
        machine == if w == Stored
          then s.(active := Some(a.(phase := Creating, meta := m, log := a.log + [Entry(IntentStep, Executed)])))
          else Release(s, Failed(WriteFailed))
    {
      Emit(RecordIntent(w));
    }

    ghost method EmitCreate(lands: Option<Issue>, answer: CreateAnswer)
      requires Follows() && At(Creating)
      modifies `machine, `history
      ensures old(history) < history
      ensures Follows()
      ensures var s := old(machine).(created := old(machine).created + if lands.Some? then [lands.value] else []);
        var a := old(machine).active.value.(log := old(machine).active.value.log + [Entry(GhStep, Executed)]);
        machine == if answer.Raised? then Release(s, Failed(ProcessRaised))
          else s.(active := Some(a.(
            phase := if answer.Named? then Storing(answer.issue, JustCreated) else Asking(None))))
    {
      Emit(Create(lands, answer));
    }

    ghost method EmitAfter(found: Option<Issue>)
      requires Follows() && AtAsking()
      modifies `machine, `history
      ensures old(history) < history
      ensures Follows()
      ensures var a := old(machine).active.value;
        machine == if found.None? then Release(old(machine), Failed(OutcomeUnknown))
          else old(machine).(active := Some(a.(phase := Storing(found.value, FoundAfter),
            log := a.log + [Entry(SearchAfterStep, Executed)])))
    {
      Emit(SearchAfter(found));
    }

    ghost method EmitStore(issue: Issue, how: How, w: Write, m: Meta)
      requires Follows() && At(Storing(issue, how))
      requires m == machine.active.value.meta.(url := Str(issue.url), number := Int(issue.number))
      modifies `machine, `history
      ensures old(history) < history
      ensures Follows()
      ensures var s := old(machine).(disk := Written(old(machine).disk, m, w));
        var a := old(machine).active.value;
        machine ==
          if w == Stored then
            s.(active := Some(a.(phase := Done(Published(issue)), meta := m,
              log := if how == JustCreated then a.log + [Entry(SearchAfterStep, Skipped)] else a.log)))
          else if how == JustCreated then s.(active := Some(a.(phase := Asking(Some(w)))))
          else Release(s, Failed(WriteFailed))
    {
      Emit(Store(w));
    }

    ghost method EmitFinish(r: SubmitResult)
      requires Follows() && At(Done(r))
      modifies `machine, `history
      ensures old(history) < history
      ensures Follows()
      ensures var a := old(machine).active.value;
        machine == Release(old(machine),
          if Ids(a.log) == Planned(old(machine).commands[a.k].viewPlanned) then Returned(r) else Failed(OmittedSteps))
    {
      Emit(Finish);
    }

    /** The step that comes next has not been used yet. */
    ghost method NextStepFree()
      requires Follows() && machine.active.Some?
      ensures var a := machine.active.value;
        && (a.phase.Viewing? ==> ViewStep !in Ids(a.log))
        && (a.phase.Searching? ==> SearchBeforeStep !in Ids(a.log))
        && (a.phase.Recording? ==> IntentStep !in Ids(a.log) && GhStep !in Ids(a.log))
        && (a.phase.Asking? ==> SearchAfterStep !in Ids(a.log))
        && (a.phase.Storing? && a.phase.how == JustCreated ==> SearchAfterStep !in Ids(a.log))
    {
      NextStepIsFree(start, history);
    }
  }

  /** `{**metadata, "issue_url": ..., "issue_number": ...}` */
  function Filled(m: Meta, i: Issue): Meta { m.(url := Str(i.url), number := Int(i.number)) }

  function StepMap(viewPlanned: bool): (m: map<StepId, StepKind>)
    ensures m.Keys == Planned(viewPlanned)
    ensures forall x :: x in m ==> m[x] == if x == IntentStep then ActionStep else ProcessStep
  {
    map x | x in Planned(viewPlanned) :: if x == IntentStep then ActionStep else ProcessStep
  }

  lemma {:induction false} SkipOthersSnoc(steps: seq<StepId>, x: StepId, except: set<StepId>)
    ensures SkipOthers(steps + [x], except) ==
      SkipOthers(steps, except) + if x in except then [] else [Entry(x, Skipped)]
  {
    if steps == [] {
      assert (steps + [x])[1..] == [];
    } else {
      assert (steps + [x])[1..] == steps[1..] + [x];
      SkipOthersSnoc(steps[1..], x, except);
    }
  }

  lemma PreparedFacts(viewPlanned: bool)
    ensures var steps := Prepared(viewPlanned);
      && (forall i, j :: 0 <= i < j < |steps| ==> steps[i] != steps[j])
      && (forall i :: 0 <= i < |steps| ==> steps[i] in Planned(viewPlanned))
      && (forall x :: x in Planned(viewPlanned) ==> exists i :: 0 <= i < |steps| && steps[i] == x)
      && steps == if viewPlanned then [IntentStep, SearchBeforeStep, ViewStep, GhStep, SearchAfterStep]
                  else [IntentStep, SearchBeforeStep, GhStep, SearchAfterStep]
  {
    var steps := Prepared(viewPlanned);
    var n := |steps|;
    assert steps[0] == IntentStep && steps[1] == SearchBeforeStep && steps[n - 2] == GhStep
        && steps[n - 1] == SearchAfterStep;
    assert viewPlanned ==> steps[2] == ViewStep;
  }

  // ---------------------------------------------------------------- what one run answers

  /** What a write leaves on disk. */
  predicate Leaves(before: Disk, m: Meta, w: Write, after: Disk) {
    && (w == Stored || w == StoredThenFailed ==> after == Readable(m))
    && (w == NotOpened ==> after == before)
    && (w == Torn ==> after == Unreadable)
  }

  /** An issue was found and its URL and number are stored beside the intent. */
  predicate AnswersFound(before: Disk, m: Meta, i: Issue, w: Write, o: Outcome, after: Disk) {
    && Leaves(before, Meta(Str(i.url), Int(i.number), m.intent), w, after)
    && (w == Stored ==> o == Returned(Published(i)))
    && (w != Stored ==> o == Failed(WriteFailed))
  }

  /** GitHub is asked again. */
  predicate AnswersAsked(before: Disk, m: Meta, found: Recheck, w: Write, o: Outcome, after: Disk) {
    match found
    case RecheckRaised => o == Failed(ProcessRaised) && after == before
    case NotFound => o == Failed(OutcomeUnknown) && after == before
    case Found(i) => AnswersFound(before, m, i, w, o, after)
  }

  /** The issue is created; `m` holds the intent. A store that fails is followed by a second search. */
  ghost predicate AnswersCreated(m: Meta, env: Environment, o: Outcome, after: Disk) {
    match env.create
    case Raised => o == Failed(ProcessRaised) && after == Readable(m)
    case Unclear => AnswersAsked(Readable(m), m, env.after, env.store, o, after)
    case Named(i) => AnswersNamed(m, i, env, o, after)
  }

  ghost predicate AnswersNamed(m: Meta, i: Issue, env: Environment, o: Outcome, after: Disk) {
    var filled := Meta(Str(i.url), Int(i.number), m.intent);
    && (env.store == Stored ==> o == Returned(Published(i)) && after == Readable(filled))
    && (env.store != Stored ==>
          exists mid :: Leaves(Readable(m), filled, env.store, mid)
                        && AnswersAsked(mid, m, env.after, env.storeAgain, o, after))
  }

  /** Nothing was found: the intent is stored first, and without it nothing is created. */
  ghost predicate AnswersSubmitted(d: Draft, m: Meta, env: Environment, o: Outcome, after: Disk, added: seq<Issue>) {
    var intended := Meta(m.url, m.number, Some(Intent(d.repository, d.title, d.sha)));
    && (env.intentWrite != Stored ==>
          o == Failed(WriteFailed) && added == [] && Leaves(Readable(m), intended, env.intentWrite, after))
    && (env.intentWrite == Stored ==>
          && added == (if env.lands.None? then [] else [env.lands.value])
          && AnswersCreated(intended, env, o, after))
  }

  /** The number is one that `gh issue view` is asked about. */
  predicate Viewed(c: Command, m: Meta) { c.viewPlanned && (m.number.Int? || m.number.Bool?) }

  /** The whole callback: a stored URL is returned; else the number, then the marker is looked up; else an issue is
      created. */
  ghost predicate Answers(c: Command, m: Meta, env: Environment, o: Outcome, after: Disk, added: seq<Issue>) {
    if m.url.Str? && m.url.s != "" then
      && after == Readable(m) && added == []
      && o.Returned? && o.result.AlreadyPublished? && o.result.url == m.url.s
      && o.result.number == (if m.number.Int? then m.number.n else if m.number == Bool(true) then 1 else 0)
    else if Viewed(c, m) && env.view != NotFound then
      && added == []
      && (env.view == RecheckRaised ==> o == Failed(ProcessRaised) && after == Readable(m))
      && (env.view.Found? ==> AnswersFound(Readable(m), m, env.view.issue, env.store, o, after))
    else if env.before != NotFound then
      && added == []
      && (env.before == RecheckRaised ==> o == Failed(ProcessRaised) && after == Readable(m))
      && (env.before.Found? ==> AnswersFound(Readable(m), m, env.before.issue, env.store, o, after))
    else
      AnswersSubmitted(c.draft, m, env, o, after, added)
  }

  /** A planned view step that no stored number called for is missing from the ledger of a run that created. */
  predicate LeavesViewOut(c: Command, m: Meta, env: Environment) {
    c.viewPlanned && !(m.number.Int? || m.number.Bool?) && !(m.url.Str? && m.url.s != "") && env.before == NotFound
  }

  /** What the ledger check makes of the callback's outcome. */
  function Checked(c: Command, m: Meta, env: Environment, o: Outcome): Outcome {
    if o.Returned? && LeavesViewOut(c, m, env) then Failed(OmittedSteps) else o
  }

  lemma RecheckAnswers(c: Command, m: Meta, env: Environment, o: Outcome, after: Disk)
    requires !HasUrl(m)
    requires var found := if Viewed(c, m) && env.view != NotFound then env.view else env.before;
      && found != NotFound
      && (found == RecheckRaised ==> o == Failed(ProcessRaised) && after == Readable(m))
      && (found.Found? ==> AnswersFound(Readable(m), m, found.issue, env.store, o, after))
    ensures Answers(c, m, env, o, after, []) && !(o.Returned? && LeavesViewOut(c, m, env))
  {
  }

  lemma SubmitAnswers(c: Command, m: Meta, env: Environment, o: Outcome, after: Disk, added: seq<Issue>)
    requires !HasUrl(m) && env.before == NotFound && (Viewed(c, m) ==> env.view == NotFound)
    requires AnswersSubmitted(c.draft, m, env, o, after, added)
    ensures Answers(c, m, env, o, after, added)
  {
  }

  /** The steps that a creating run uses are the planned ones unless the view is left out. */
  lemma ViewLeftOut(c: Command, m: Meta, env: Environment)
    requires !HasUrl(m) && env.before == NotFound
    ensures var used := {SearchBeforeStep} + (if Viewed(c, m) then {ViewStep} else {})
        + {IntentStep, GhStep, SearchAfterStep};
      used == StepMap(c.viewPlanned).Keys <==> !LeavesViewOut(c, m, env)
  {
    if LeavesViewOut(c, m, env) { assert ViewStep in StepMap(c.viewPlanned); }
  }

  class SubmissionExecutor {
    const command: Command
    ghost const k: nat

    constructor (command: Command, ghost k: nat)
      ensures this.command == command && this.k == k
    {
      this.command, this.k := command, k;
    }

    /** The lock is held by this run and the machine agrees on phase, metadata and ledger. */
    ghost predicate Linked(world: World, context: RunContext<StepId>, metadata: Meta)
      reads world, context
    {
      && world.Valid() && context.Valid() && context.steps == StepMap(command.viewPlanned)
      && k < |world.machine.commands| && world.machine.commands[k] == command
      && world.machine.active.Some?
      && world.machine.active.value.k == k
      && world.machine.active.value.meta == metadata
      && world.machine.active.value.log == context.log
    }

    /** The callback has its result; only the ledger check is left. */
    ghost predicate Finished(world: World, context: RunContext<StepId>, r: SubmitResult)
      reads world, context
    {
      && world.machine.active.Some?
      && Linked(world, context, world.machine.active.value.meta)
      && world.machine.active.value.phase == Done(r)
    }

    /** The run is over: the lock is free and `o` is its recorded outcome. */
    ghost predicate Over(world: World, before: seq<Outcome>, o: Outcome)
      reads world
    {
      world.Valid() && world.machine.active.None? && world.machine.outcomes == before + [o]
    }

    method SkipPreparedSteps(context: RunContext<StepId>, prepared: seq<StepId>, except: set<StepId>)
      requires context.Valid() && except == context.consumed
      requires forall i, j :: 0 <= i < j < |prepared| ==> prepared[i] != prepared[j]
      requires forall i :: 0 <= i < |prepared| ==> prepared[i] in context.steps
      modifies context`consumed, context`log
      ensures context.Valid()
      ensures context.log == old(context.log) + SkipOthers(prepared, except)
      ensures context.consumed == old(context.consumed) + (set x | x in prepared)
    {
      var i := 0;
      while i < |prepared|
        invariant 0 <= i <= |prepared|
        invariant context.Valid()
        invariant forall j :: i <= j < |prepared| ==> (prepared[j] in context.consumed <==> prepared[j] in except)
        invariant context.log == old(context.log) + SkipOthers(prepared[..i], except)
        invariant context.consumed == old(context.consumed) + (set x | x in prepared[..i])
      {
        assert prepared[..i + 1] == prepared[..i] + [prepared[i]];
        SkipOthersSnoc(prepared[..i], prepared[i], except);
        if prepared[i] !in except {
          var error := context.Skip(prepared[i]);
          assert error.None?;
        }
        i := i + 1;
      }
      assert prepared[..|prepared|] == prepared;
    }

    /** Whatever has not been executed is skipped, and the ledger is complete. */
    method SkipTheRest(context: RunContext<StepId>, executed: set<StepId>)
      requires context.Valid() && context.steps == StepMap(command.viewPlanned) && executed == context.consumed
      modifies context`consumed, context`log
      ensures context.Valid() && context.consumed == context.steps.Keys
      ensures context.log == old(context.log) + SkipOthers(Prepared(command.viewPlanned), executed)
    {
      PreparedFacts(command.viewPlanned);
      PreparedSet(command.viewPlanned);
      SkipPreparedSteps(context, Prepared(command.viewPlanned), executed);
    }

    /** Look for the issue by its stored number, then by the report marker. When one is found the
        protocol event stays to be recorded, after the remaining steps have been skipped. */
    method RecheckBeforeCreate(world: World, context: RunContext<StepId>, metadata: Meta, env: Environment)
      returns (found: Recheck, executed: set<StepId>, ghost byNumber: bool)
      requires Linked(world, context, metadata) && context.consumed == {}
      requires world.At(if command.viewPlanned && IsInt(metadata.number) then Viewing else Searching)
      modifies world`machine, world`history, context`consumed, context`log
      ensures found == if Viewed(command, metadata) && env.view != NotFound then env.view else env.before
      ensures found.NotFound? ==>
        context.consumed == {SearchBeforeStep} + if Viewed(command, metadata) then {ViewStep} else {}
      ensures old(world.history) <= world.history
      ensures !found.RecheckRaised? ==> world.machine.outcomes == old(world.machine.outcomes)
      ensures found.RecheckRaised? ==> Over(world, old(world.machine.outcomes), Failed(ProcessRaised))
      ensures found.NotFound? ==> Linked(world, context, metadata) && world.At(Recording)
      ensures found.Found? ==>
        && world.Valid() && context.Valid() && executed == context.consumed
        && world.machine.commands == old(world.machine.commands)
        && world.At(if byNumber then Viewing else Searching)
        && world.machine.active.value.k == k
        && world.machine.active.value.meta == metadata
        && context.log == world.machine.active.value.log
          + [Entry(if byNumber then ViewStep else SearchBeforeStep, Executed)]
    {
      executed := {};
      if command.viewPlanned && IsInt(metadata.number) {
        var error := context.Process(ViewStep);
        assert error.None?;
        executed := executed + {ViewStep};
        if env.view.RecheckRaised? {
          world.EmitRaises();
          return RecheckRaised, executed, true;
        }
        if env.view.Found? {
          return env.view, executed, true;
        }
        world.EmitNotFound(true);
      }
      world.NextStepFree();
      var error := context.Process(SearchBeforeStep);
      assert error.None?;
      executed := executed + {SearchBeforeStep};
      byNumber := false;
      found := env.before;
      match found {
        case RecheckRaised => world.EmitRaises();
        case NotFound => world.EmitNotFound(false);
        case Found(_) =>
      }
    }

    method PersistIssueOutcome(world: World, metadata: Meta, issue: Issue, w: Write) returns (ok: bool)
      modifies world`disk
      ensures world.disk == Written(old(world.disk), Filled(metadata, issue), w)
      ensures ok == (w == Stored)
    {
      var updated := metadata.(url := Str(issue.url), number := Int(issue.number));
      world.disk := Written(world.disk, updated, w);
      ok := w == Stored;
    }

    method RecoverBeforeCreate(world: World, context: RunContext<StepId>, metadata: Meta, env: Environment)
      returns (outcome: Option<Outcome>)
      requires Linked(world, context, metadata) && context.consumed == {}
      requires world.At(if command.viewPlanned && IsInt(metadata.number) then Viewing else Searching)
      modifies world`disk, world`machine, world`history, context`consumed, context`log
      ensures var found := if Viewed(command, metadata) && env.view != NotFound then env.view else env.before;
        && (outcome.None? <==> found == NotFound)
        && (found == NotFound || found == RecheckRaised ==> world.disk == old(world.disk))
        && (found == RecheckRaised ==> outcome == Some(Failed(ProcessRaised)))
        && (found.Found? ==>
              AnswersFound(old(world.disk), metadata, found.issue, env.store, outcome.value, world.disk))
      ensures outcome.None? ==>
        context.consumed == {SearchBeforeStep} + if Viewed(command, metadata) then {ViewStep} else {}
      ensures outcome.Some? && outcome.value.Returned? ==> context.consumed == context.steps.Keys
      ensures old(world.history) <= world.history
      ensures outcome.None? || outcome.value.Returned? ==> world.machine.outcomes == old(world.machine.outcomes)
      ensures outcome.None? ==> Linked(world, context, metadata) && world.At(Recording)
      ensures outcome.Some? && outcome.value.Failed? ==> Over(world, old(world.machine.outcomes), outcome.value)
      ensures outcome.Some? && outcome.value.Returned? ==>
        Finished(world, context, outcome.value.result)
    {
      var found, executed, byNumber := RecheckBeforeCreate(world, context, metadata, env);
      if found.RecheckRaised? {
        return Some(Failed(ProcessRaised));
      }
      if found.NotFound? {
        return None;
      }
      var answer := StoreFoundIssue(world, context, metadata, found.issue, env.store, executed, byNumber);
      outcome := Some(answer);
    }

    /** The rest of the plan is skipped and the issue that was found is stored. */
    method StoreFoundIssue(world: World, context: RunContext<StepId>, metadata: Meta, issue: Issue, w: Write,
                           executed: set<StepId>, ghost byNumber: bool)
      returns (outcome: Outcome)
      requires world.Valid() && context.Valid() && context.steps == StepMap(command.viewPlanned)
      requires executed == context.consumed && k < |world.machine.commands| && world.machine.commands[k] == command
      requires world.At(if byNumber then Viewing else Searching)
      requires world.machine.active.value.k == k && world.machine.active.value.meta == metadata
      requires context.log == world.machine.active.value.log
        + [Entry(if byNumber then ViewStep else SearchBeforeStep, Executed)]
      modifies world`disk, world`machine, world`history, context`consumed, context`log
      ensures AnswersFound(old(world.disk), metadata, issue, w, outcome, world.disk)
      ensures context.consumed == context.steps.Keys
      ensures old(world.history) <= world.history
      ensures outcome.Returned? ==> world.machine.outcomes == old(world.machine.outcomes)
      ensures outcome.Failed? ==> Over(world, old(world.machine.outcomes), outcome)
      ensures outcome.Returned? ==> Finished(world, context, outcome.result)
    {
      SkipTheRest(context, executed);
      world.EmitFound(byNumber, issue);
      var ok := PersistIssueOutcome(world, metadata, issue, w);
      world.EmitStore(issue, FoundBefore, w, Filled(metadata, issue));
      if ok {
        outcome := Returned(Published(issue));
      } else {
        outcome := Failed(WriteFailed);
      }
    }

    method RecordSubmitIntent(world: World, metadata: Meta, w: Write) returns (updated: Meta, ok: bool)
      modifies world`disk
      ensures updated == metadata.(intent := Some(IntentOf(command.draft)))
      ensures world.disk == Written(old(world.disk), updated, w)
      ensures ok == (w == Stored)
    {
      updated := metadata.(intent := Some(Intent(command.draft.repository, command.draft.title, command.draft.sha)));
      world.disk := Written(world.disk, updated, w);
      ok := w == Stored;
    }

    /** Ask GitHub again after an uncertain create, and store what it finds. */
    method RecoverAfterUncertainOutcome(world: World, context: RunContext<StepId>, metadata: Meta, env: Environment,
                                        w: Write)
      returns (outcome: Outcome)
      requires Linked(world, context, metadata) && world.AtAsking()
      modifies world`disk, world`machine, world`history, context`consumed, context`log
      ensures AnswersAsked(old(world.disk), metadata, env.after, w, outcome, world.disk)
      ensures outcome.Returned? ==> context.consumed == old(context.consumed) + {SearchAfterStep}
      ensures old(world.history) <= world.history
      ensures outcome.Returned? ==> world.machine.outcomes == old(world.machine.outcomes)
      ensures outcome.Failed? ==> Over(world, old(world.machine.outcomes), outcome)
      ensures outcome.Returned? ==> Finished(world, context, outcome.result)
    {
      world.NextStepFree();
      var error := context.Process(SearchAfterStep);
      assert error.None?;
      if env.after.RecheckRaised? {
        world.EmitRaises();
        return Failed(ProcessRaised);
      }
      if env.after.NotFound? {
        world.EmitAfter(None);
        return Failed(OutcomeUnknown);
      }
      var issue := env.after.issue;
      world.EmitAfter(Some(issue));
      var ok := PersistIssueOutcome(world, metadata, issue, w);
      world.EmitStore(issue, FoundAfter, w, Filled(metadata, issue));
      if ok {
        outcome := Returned(Published(issue));
      } else {
        outcome := Failed(WriteFailed);
      }
    }

    method CreateAndRecover(world: World, context: RunContext<StepId>, metadata: Meta, env: Environment)
      returns (outcome: Outcome)
      requires Linked(world, context, metadata) && world.At(Recording) && world.disk == Readable(metadata)
      modifies world`disk, world`created, world`machine, world`history, context
      ensures old(world.created) <= world.created
      ensures AnswersSubmitted(command.draft, metadata, env, outcome, world.disk,
                               world.created[|old(world.created)|..])
      ensures outcome.Returned? ==> context.consumed == old(context.consumed) + {IntentStep, GhStep, SearchAfterStep}
      ensures old(world.history) <= world.history
      ensures outcome.Returned? ==> world.machine.outcomes == old(world.machine.outcomes)
      ensures outcome.Failed? ==> Over(world, old(world.machine.outcomes), outcome)
      ensures outcome.Returned? ==> Finished(world, context, outcome.result)
    {
      world.NextStepFree();
      var error := context.Action(IntentStep);
      assert error.None?;
      var updated, recorded := RecordSubmitIntent(world, metadata, env.intentWrite);
      world.EmitIntent(env.intentWrite, updated);
      if !recorded {
        return Failed(WriteFailed);
      }
      error := context.CompleteAction(IntentStep);
      outcome := CreateRecorded(world, context, updated, env);
    }

    /** `gh issue create` runs; what it answers decides the phase. */
    method RunCreate(world: World, context: RunContext<StepId>, updated: Meta, env: Environment)
      requires Linked(world, context, updated) && world.At(Creating) && GhStep !in context.consumed
      modifies world`created, world`machine, world`history, context`consumed, context`log
      ensures world.created == old(world.created) + if env.lands.None? then [] else [env.lands.value]
      ensures context.consumed == old(context.consumed) + {GhStep}
      ensures old(world.history) <= world.history
      ensures env.create.Raised? ==> Over(world, old(world.machine.outcomes), Failed(ProcessRaised))
      ensures !env.create.Raised? ==>
        Linked(world, context, updated) && world.machine.outcomes == old(world.machine.outcomes)
      ensures env.create.Named? ==> world.At(Storing(env.create.issue, JustCreated))
      ensures env.create.Unclear? ==> world.AtAsking()
    {
      var error := context.Process(GhStep);
      assert error.None?;
      if env.lands.Some? {
        world.created := world.created + [env.lands.value];
      }
      world.EmitCreate(env.lands, env.create);
    }

    /** The intent is stored: run `gh issue create` and settle what it answered. */
    method CreateRecorded(world: World, context: RunContext<StepId>, updated: Meta, env: Environment)
      returns (outcome: Outcome)
      requires Linked(world, context, updated) && world.At(Creating) && world.disk == Readable(updated)
      requires GhStep !in context.consumed
      modifies world`disk, world`created, world`machine, world`history, context
      ensures world.created == old(world.created) + if env.lands.None? then [] else [env.lands.value]
      ensures AnswersCreated(updated, env, outcome, world.disk)
      ensures outcome.Returned? ==> context.consumed == old(context.consumed) + {GhStep, SearchAfterStep}
      ensures old(world.history) <= world.history
      ensures outcome.Returned? ==> world.machine.outcomes == old(world.machine.outcomes)
      ensures outcome.Failed? ==> Over(world, old(world.machine.outcomes), outcome)
      ensures outcome.Returned? ==> Finished(world, context, outcome.result)
    {
      RunCreate(world, context, updated, env);
      match env.create {
        case Raised => outcome := Failed(ProcessRaised);
        case Named(issue) => outcome := PersistCreatedIssue(world, context, updated, issue, env);
        case Unclear => outcome := RecoverAfterUncertainOutcome(world, context, updated, env, env.store);
      }
    }

    method PersistCreatedIssue(world: World, context: RunContext<StepId>, metadata: Meta, issue: Issue,
                               env: Environment)
      returns (outcome: Outcome)
      requires Linked(world, context, metadata) && world.At(Storing(issue, JustCreated))
      requires world.disk == Readable(metadata)
      modifies world`disk, world`machine, world`history, context`consumed, context`log
      ensures AnswersNamed(metadata, issue, env, outcome, world.disk)
      ensures outcome.Returned? ==> context.consumed == old(context.consumed) + {SearchAfterStep}
      ensures old(world.history) <= world.history
      ensures outcome.Returned? ==> world.machine.outcomes == old(world.machine.outcomes)
      ensures outcome.Failed? ==> Over(world, old(world.machine.outcomes), outcome)
      ensures outcome.Returned? ==> Finished(world, context, outcome.result)
    {
      var ok := PersistIssueOutcome(world, metadata, issue, env.store);
      if !ok {
        world.EmitStore(issue, JustCreated, env.store, Filled(metadata, issue));
        outcome := RecoverAfterUncertainOutcome(world, context, metadata, env, env.storeAgain);
        return;
      }
      world.NextStepFree();
      var error := context.Skip(SearchAfterStep);
      assert error.None?;
      world.EmitStore(issue, JustCreated, env.store, Filled(metadata, issue));
      outcome := Returned(Published(issue));
    }

    /** A stored URL is returned and every step is skipped. */
    method AlreadyPublishedResult(world: World, context: RunContext<StepId>, metadata: Meta) returns (outcome: Outcome)
      requires world.Valid() && world.machine.active.None?
      requires k < |world.machine.commands| && world.machine.commands[k] == command && Proceeds(command)
      requires world.disk == Readable(metadata) && HasUrl(metadata)
      requires context.Valid() && context.steps == StepMap(command.viewPlanned) && context.log == []
      modifies world`machine, world`history, context`consumed, context`log
      ensures outcome == Returned(AlreadyPublished(metadata.url.s, IntOf(metadata.number)))
      ensures context.consumed == context.steps.Keys
      ensures Finished(world, context, outcome.result)
      ensures old(world.history) + [Begin(k)] <= world.history && world.machine.outcomes == old(world.machine.outcomes)
    {
      SkipTheRest(context, {});
      world.EmitBegin(k);
      outcome := Returned(AlreadyPublished(metadata.url.s, IntOf(metadata.number)));
    }

    /** `run` under the lock: re-read the metadata, then return, recover or create. */
    method RunCallback(world: World, context: RunContext<StepId>, env: Environment) returns (outcome: Outcome)
      requires world.Valid() && world.machine.active.None?
      requires k < |world.machine.commands| && world.machine.commands[k] == command && Proceeds(command)
      requires world.disk.Readable?
      requires context.Valid() && context.steps == StepMap(command.viewPlanned) && context.log == []
      modifies world`disk, world`created, world`machine, world`history, context
      ensures old(world.created) <= world.created
      ensures Answers(command, old(world.disk).meta, env, outcome, world.disk, world.created[|old(world.created)|..])
      ensures outcome.Returned? ==>
        (context.consumed == context.steps.Keys <==> !LeavesViewOut(command, old(world.disk).meta, env))
      ensures old(world.history) + [Begin(k)] <= world.history
      ensures outcome.Returned? ==> world.machine.outcomes == old(world.machine.outcomes)
      ensures outcome.Failed? ==> Over(world, old(world.machine.outcomes), outcome)
      ensures outcome.Returned? ==> Finished(world, context, outcome.result)
    {
      var metadata := world.disk.meta;
      if HasUrl(metadata) {
        outcome := AlreadyPublishedResult(world, context, metadata);
        return;
      }
      world.EmitBegin(k);
      outcome := RecoverOrCreate(world, context, metadata, env);
    }

    method RecoverOrCreate(world: World, context: RunContext<StepId>, metadata: Meta, env: Environment)
      returns (outcome: Outcome)
      requires Linked(world, context, metadata) && context.consumed == {}
      requires world.At(if command.viewPlanned && IsInt(metadata.number) then Viewing else Searching)
      requires world.disk == Readable(metadata) && !HasUrl(metadata)
      modifies world`disk, world`created, world`machine, world`history, context
      ensures old(world.created) <= world.created
      ensures Answers(command, metadata, env, outcome, world.disk, world.created[|old(world.created)|..])
      ensures outcome.Returned? ==>
        (context.consumed == context.steps.Keys <==> !LeavesViewOut(command, metadata, env))
      ensures old(world.history) <= world.history
      ensures outcome.Returned? ==> world.machine.outcomes == old(world.machine.outcomes)
      ensures outcome.Failed? ==> Over(world, old(world.machine.outcomes), outcome)
      ensures outcome.Returned? ==> Finished(world, context, outcome.result)
    {
      var recovered := RecoverBeforeCreate(world, context, metadata, env);
      if recovered.Some? {
        outcome := recovered.value;
        RecheckAnswers(command, metadata, env, outcome, world.disk);
        assert world.created[|world.created|..] == [];
      } else {
        outcome := CreateAndRecover(world, context, metadata, env);
        SubmitAnswers(command, metadata, env, outcome, world.disk, world.created[|old(world.created)|..]);
        ViewLeftOut(command, metadata, env);
      }
    }

    /** One whole run: a fresh ledger, the callback, and the ledger check. Whatever the environment
        answers, the run is a history of the machine that ends with the lock free and this outcome. */
    method RunLocked(world: World, env: Environment) returns (outcome: Outcome)
      requires world.Valid() && world.machine.active.None?
      requires k < |world.machine.commands| && world.machine.commands[k] == command && Proceeds(command)
      requires world.disk.Readable?
      modifies world
      ensures old(world.history) + [Begin(k)] <= world.history
      ensures Over(world, old(world.machine.outcomes), outcome)
      ensures old(world.created) <= world.created
      ensures exists o ::
        && Answers(command, old(world.disk).meta, env, o, world.disk, world.created[|old(world.created)|..])
        && outcome == Checked(command, old(world.disk).meta, env, o)
    {
      var context := new RunContext<StepId>(StepMap(command.viewPlanned));
      outcome := RunCallback(world, context, env);
      ghost var answer := outcome;
      if outcome.Returned? {
        var result := outcome.result;
        var error := context.Complete();
        if error.Some? {
          outcome := Failed(OmittedSteps);
        }
        world.EmitFinish(result);
      }
    }

    /** `run` as a whole, with no condition on the command. Preflight decides first; what it refuses touches
        nothing. A dry run returns its preview to a ledger that still has all its steps planned, so the ledger check
        refuses it. Metadata that cannot be read raises under the lock. Everything else is one run of the machine. */
    method Submit(world: World, env: Environment) returns (r: Submission)
      requires world.Valid() && world.machine.active.None?
      requires k < |world.machine.commands| && world.machine.commands[k] == command
      modifies world
      ensures r.Ran? <==> Proceeds(command) && old(world.disk).Readable?
      ensures r.Ran? ==> !command.dryRun && command.draft.reportValid && ApprovedByHighest(command.draft)
      ensures r.Ran? ==>
        old(world.history) + [Begin(k)] <= world.history && Over(world, old(world.machine.outcomes), r.outcome)
      ensures !r.Ran? ==> world.disk == old(world.disk) && world.created == old(world.created)
                          && world.machine == old(world.machine) && world.history == old(world.history)
      ensures old(world.created) <= world.created
      ensures r.Ran? ==> exists o ::
        && Answers(command, old(world.disk).meta, env, o, world.disk, world.created[|old(world.created)|..])
        && r.outcome == Checked(command, old(world.disk).meta, env, o)
      ensures r.MetadataUnreadable? <==> Proceeds(command) && !old(world.disk).Readable?
      ensures r.PreviewOmitsSteps? <==> command.dryRun
      ensures r.Refused? <==> !command.dryRun && !Proceeds(command)
    {
      var decision := Preflight(command);
      match decision
      case Refuse(error) => r := Refused(error);
      case Preview(valid, ready) =>
        var context := new RunContext<StepId>(StepMap(command.viewPlanned));
        var error := context.Complete();
        assert IntentStep in context.steps && IntentStep !in context.consumed;
        r := if error.Some? then PreviewOmitsSteps else Previewed(valid, ready);
      case Proceed =>
        if !world.disk.Readable? { return MetadataUnreadable; }
        var outcome := RunLocked(world, env);
        r := Ran(outcome);
    }
  }

  /** What a caller of the command sees. */
  datatype Submission =
    | Ran(outcome: Outcome)
    | Refused(error: PreflightError)
    | Previewed(reportValid: bool, submitReady: bool)
    | PreviewOmitsSteps
    | MetadataUnreadable
}

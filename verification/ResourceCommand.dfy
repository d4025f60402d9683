/** `commands/resource.py`: a read-only inventory that runs two optional probes inside one step ledger. */
module ResourceCommand {
  import opened Text
  import opened StepLedger

  datatype Op<Id> = RunProcess(id: Id) | Begin(id: Id) | Finish(id: Id) | SkipStep(id: Id)

  /** How a callback ends: normally, with an `Exception`, or with a `BaseException` such as an interrupt. */
  datatype Ending = Normal | Error | Interrupt

  /** A probe: its captured steps, what its callback does with the ledger up to where it stops, and how it stops.
      A failure at any point is the script cut off there. */
  datatype Child<Id> = Child(steps: seq<Id>, script: seq<Op<Id>>, ending: Ending)

  /** The steps that the operations account for: executed, opened or skipped. */
  function Accounted<Id(==)>(script: seq<Op<Id>>): set<Id> {
    set k | 0 <= k < |script| && !script[k].Finish? :: script[k].id
  }

  /** A prepared callback uses its own steps only. */
  predicate Confined<Id(==)>(c: Child<Id>) { forall k :: 0 <= k < |c.script| ==> c.script[k].id in c.steps }

  /** What a probe leaves unaccounted for when its callback returns normally. */
  function Leftover<Id(==)>(c: Child<Id>): set<Id> { Set(c.steps) - Accounted(c.script) }

  class Catalogue {
    var closed: nat
    constructor ()
      ensures closed == 0
    {
      closed := 0;
    }
    method Close()
      modifies this
      ensures closed == old(closed) + 1
    {
      closed := closed + 1;
    }
  }

  /** The actions that the operations open, and those they close. */
  function Opened<Id(==)>(script: seq<Op<Id>>): set<Id> {
    set k | 0 <= k < |script| && script[k].Begin? :: script[k].id
  }

  function Closed<Id(==)>(script: seq<Op<Id>>): set<Id> {
    set k | 0 <= k < |script| && script[k].Finish? :: script[k].id
  }

  /** The `k`-th operation is one the ledger takes, given which steps were used and which actions were open before the
      first: a step of the right kind that nothing has used, or an open action. */
  predicate TakenAt<Id(==)>(plan: map<Id, StepKind>, used: set<Id>, open: set<Id>, script: seq<Op<Id>>, k: nat)
    requires k < |script|
  {
    var id, past := script[k].id, script[..k];
    match script[k]
    case Finish(_) => (id in open || id in Opened(past)) && id !in Closed(past)
    case RunProcess(_) => id in plan && plan[id] == ProcessStep && id !in used && id !in Accounted(past)
    case Begin(_) => id in plan && plan[id] == ActionStep && id !in used && id !in Accounted(past)
    case SkipStep(_) => id in plan && id !in used && id !in Accounted(past)
  }

  predicate Taken<Id(==)>(plan: map<Id, StepKind>, used: set<Id>, open: set<Id>, script: seq<Op<Id>>) {
    TakenUpTo(plan, used, open, script, |script|)
  }

  predicate TakenUpTo<Id(==)>(plan: map<Id, StepKind>, used: set<Id>, open: set<Id>, script: seq<Op<Id>>, n: nat)
    requires n <= |script|
  {
    forall k :: 0 <= k < n ==> TakenAt(plan, used, open, script, k)
  }

  /** What was used or open elsewhere does not matter to a callback that stays within its own steps. */
  lemma TakenElsewhere<Id>(plan: map<Id, StepKind>, used: set<Id>, open: set<Id>, script: seq<Op<Id>>)
    requires forall k :: 0 <= k < |script| ==> script[k].id !in used && script[k].id !in open
    ensures Taken(plan, used, open, script) <==> Taken(plan, {}, {}, script)
  {
    forall k | 0 <= k < |script| ensures TakenAt(plan, used, open, script, k) <==> TakenAt(plan, {}, {}, script, k) {}
  }

  /** What the ledger takes as it stands. */
  predicate Admits<Id(==)>(plan: map<Id, StepKind>, consumed: set<Id>, started: set<Id>, op: Op<Id>) {
    match op
    case RunProcess(id) => id in plan && plan[id] == ProcessStep && id !in consumed
    case Begin(id) => id in plan && plan[id] == ActionStep && id !in consumed
    case Finish(id) => id in started
    case SkipStep(id) => id in plan && id !in consumed
  }

  lemma TakenIsAdmitted<Id>(plan: map<Id, StepKind>, used: set<Id>, open: set<Id>, script: seq<Op<Id>>, k: nat)
    requires k < |script|
    ensures var past := script[..k];
      TakenAt(plan, used, open, script, k)
      <==> Admits(plan, used + Accounted(past), open + Opened(past) - Closed(past), script[k])
  {
  }

  /** What is open after an operation that was taken. */
  lemma OpenNext<Id>(consumed: set<Id>, open: set<Id>, begun: set<Id>, ended: set<Id>, op: Op<Id>)
    requires ended <= consumed
    ensures op.Begin? && op.id !in consumed ==>
      open + begun - ended + {op.id} == open + (begun + {op.id}) - ended
    ensures op.Finish? ==> open + begun - ended - {op.id} == open + begun - (ended + {op.id})
  {
  }

  method Perform<Id(==)>(context: RunContext<Id>, op: Op<Id>) returns (error: bool)
    requires context.Valid()
    modifies context
    ensures context.Valid()
    ensures error <==> !Admits(context.steps, old(context.consumed), old(context.started), op)
    ensures old(context.consumed) <= context.consumed <= old(context.consumed) + {op.id}
    ensures !error ==> context.consumed == old(context.consumed) + if op.Finish? then {} else {op.id}
    ensures !error && op.Begin? ==> context.started == old(context.started) + {op.id}
    ensures !error && op.Finish? ==> context.started == old(context.started) - {op.id}
    ensures op.RunProcess? || op.SkipStep? || (error && op.Begin?) ==> context.started == old(context.started)
    ensures old(context.started) - {op.id} <= context.started
  {
    var e: Option<LedgerError<Id>>;
    match op {
      case RunProcess(id) => e := context.Process(id);
      case Begin(id) => e := context.Action(id);
      case Finish(id) => e := context.CompleteAction(id);
      case SkipStep(id) => e := context.Skip(id);
    }
    error := e.Some?;
  }

  lemma OneMore<Id>(script: seq<Op<Id>>, k: nat)
    requires k < |script|
    ensures script[..k + 1] == script[..k] + [script[k]]
    ensures Accounted(script[..k + 1]) == Accounted(script[..k]) + if script[k].Finish? then {} else {script[k].id}
    ensures Opened(script[..k + 1]) == Opened(script[..k]) + if script[k].Begin? then {script[k].id} else {}
    ensures Closed(script[..k + 1]) == Closed(script[..k]) + if script[k].Finish? then {script[k].id} else {}
  {
    var a, b := script[..k], script[..k + 1];
    assert b == a + [script[k]];
    assert forall i :: 0 <= i < k ==> b[i] == a[i];
  }

  /** Run the operations one by one up to the first that the ledger refuses, which raises like any other failure. */
  method RunScript<Id(==,!new)>(context: RunContext<Id>, script: seq<Op<Id>>, ghost own: set<Id>) returns (error: bool)
    requires context.Valid() && forall k :: 0 <= k < |script| ==> script[k].id in own
    modifies context
    ensures context.Valid()
    ensures error <==> !Taken(context.steps, old(context.consumed), old(context.started), script)
    ensures old(context.consumed) <= context.consumed <= old(context.consumed) + own
    ensures !error ==> context.consumed == old(context.consumed) + Accounted(script)
    ensures !error ==> context.started == old(context.started) + Opened(script) - Closed(script)
    ensures old(context.started) - own <= context.started
  {
    ghost var plan, used, open := context.steps, context.consumed, context.started;
    for k := 0 to |script|
      invariant context.Valid()
      invariant TakenUpTo(plan, used, open, script, k)
      invariant Accounted(script[..k]) <= own && Closed(script[..k]) <= own * context.consumed
      invariant context.consumed == used + Accounted(script[..k])
      invariant context.started == open + Opened(script[..k]) - Closed(script[..k])
    {
      OneMore(script, k);
      TakenIsAdmitted(plan, used, open, script, k);
      OpenNext(context.consumed, open, Opened(script[..k]), Closed(script[..k]), script[k]);
      error := Perform(context, script[k]);
      if error { return; }
    }
    assert script[..|script|] == script;
    error := false;
  }

  /** A callback raises where the ledger refuses it, and ends as it does otherwise. */
  method RunChild<Id(==,!new)>(context: RunContext<Id>, c: Child<Id>) returns (ending: Ending)
    requires context.Valid() && Confined(c)
    modifies context
    ensures context.Valid()
    ensures var taken := Taken(context.steps, old(context.consumed), old(context.started), c.script);
      (taken ==> ending == c.ending) && (!taken ==> ending == Error)
    ensures old(context.consumed) <= context.consumed <= old(context.consumed) + Set(c.steps)
    ensures ending.Normal? ==> context.consumed == old(context.consumed) + Accounted(c.script)
    ensures old(context.started) - Set(c.steps) <= context.started
  {
    var error := RunScript(context, c.script, Set(c.steps));
    ending := if error then Error else c.ending;
  }

  function Set<T>(s: seq<T>): set<T> { set x | x in s }

  /** `_fail_child_actions` */
  method FailChildActions<Id(==)>(context: RunContext<Id>, steps: seq<Id>)
    requires context.Valid()
    modifies context`started
    ensures context.Valid() && context.started == old(context.started) - Set(steps)
  {
    for k := 0 to |steps|
      invariant context.Valid() && context.started == old(context.started) - Set(steps[..k])
    {
      var closed := context.FailAction(steps[k]);
      assert Set(steps[..k + 1]) == Set(steps[..k]) + {steps[k]} by {
        assert steps[..k + 1] == steps[..k] + [steps[k]];
      }
    }
    assert steps[..|steps|] == steps;
  }

  /** `_skip_remaining`: whatever the probe left over is skipped, and nothing else. */
  method SkipRemaining<Id(==)>(context: RunContext<Id>, steps: seq<Id>)
    requires context.Valid()
    modifies context`consumed, context`log
    ensures context.Valid()
    ensures context.consumed == old(context.consumed) + (Set(steps) * context.steps.Keys)
  {
    for k := 0 to |steps|
      invariant context.Valid()
      invariant context.consumed == old(context.consumed) + (Set(steps[..k]) * context.steps.Keys)
    {
      assert Set(steps[..k + 1]) == Set(steps[..k]) + {steps[k]} by {
        assert steps[..k + 1] == steps[..k] + [steps[k]];
      }
      if steps[k] in context.steps && steps[k] !in context.consumed {
        var e := context.Skip(steps[k]);
      }
    }
    assert steps[..|steps|] == steps;
  }

  /** One probe with its recovery: a failed probe has all its steps accounted for and its actions closed;
      one that returned has accounted for what its callback did. */
  method Probe<Id(==,!new)>(context: RunContext<Id>, c: Child<Id>) returns (ending: Ending)
    requires context.Valid() && Confined(c) && Set(c.steps) <= context.steps.Keys
    modifies context
    ensures context.Valid()
    ensures old(context.consumed) <= context.consumed <= old(context.consumed) + Set(c.steps)
    ensures ending.Error? ==> context.consumed == old(context.consumed) + Set(c.steps)
    ensures ending.Normal? ==> context.consumed == old(context.consumed) + Accounted(c.script)
    ensures var taken := Taken(context.steps, old(context.consumed), old(context.started), c.script);
      (taken ==> ending == c.ending) && (!taken ==> ending == Error)
    ensures ending.Error? ==> context.started !! Set(c.steps)
    ensures old(context.started) - Set(c.steps) <= context.started
  {
    ending := RunChild(context, c);
    if ending.Error? {
      FailChildActions(context, c.steps);
      SkipRemaining(context, c.steps);
    }
  }

  /** The command: its own action, the steps of the probes there are, and the catalogue it holds open. */
  class ResourceRun<Id(==,!new)> {
    const own: Id
    const database: Option<Child<Id>>
    const snapshot: Option<Child<Id>>
    const catalogue: Option<Catalogue>

    constructor (own: Id, database: Option<Child<Id>>, snapshot: Option<Child<Id>>, catalogue: Option<Catalogue>)
      ensures this.own == own && this.database == database && this.snapshot == snapshot && this.catalogue == catalogue
    {
      this.own, this.database, this.snapshot, this.catalogue := own, database, snapshot, catalogue;
    }

    ghost function Steps(c: Option<Child<Id>>): set<Id> { if c.None? then {} else Set(c.value.steps) }

    /** The ledger is fresh and plans exactly the command's action and its probes' steps, all different. */
    ghost predicate Ready(context: RunContext<Id>)
      reads context
    {
      && context.Valid() && context.consumed == {} && context.started == {}
      && context.steps.Keys == {own} + Steps(database) + Steps(snapshot)
      && own !in Steps(database) && own !in Steps(snapshot) && Steps(database) !! Steps(snapshot)
      && context.steps[own] == ActionStep
      && (database.Some? ==> Confined(database.value)) && (snapshot.Some? ==> Confined(snapshot.value))
    }

    /** How a probe ends: a missing one normally, a present one with an error if the ledger refuses what it does. */
    ghost predicate EndsAs(c: Option<Child<Id>>, plan: map<Id, StepKind>, ending: Ending) {
      && (c.None? ==> ending == Normal)
      && (c.Some? && Taken(plan, {}, {}, c.value.script) ==> ending == c.value.ending)
      && (c.Some? && !Taken(plan, {}, {}, c.value.script) ==> ending == Error)
    }

    /** What a probe that ended this way leaves for the ledger check to find. */
    ghost function Left(c: Option<Child<Id>>, ending: Ending): set<Id> {
      if c.Some? && ending.Normal? then Leftover(c.value) else {}
    }

    /** `run`. `collects` says whether the final collection succeeds; a probe that is not there ends normally. */
    method Run(context: RunContext<Id>, collects: bool)
      returns (returned: bool, first: Ending, second: Ending, ranSnapshot: bool)
      requires Ready(context)
      modifies context, if catalogue.Some? then {catalogue.value} else {}
      ensures context.Valid() && Once(context.log)
      ensures first.Error? ==> Steps(database) <= Ids(context.log)
      ensures second.Error? ==> Steps(snapshot) <= Ids(context.log)
      ensures ranSnapshot <==> !first.Interrupt? && snapshot.Some?
      ensures !first.Interrupt? && !second.Interrupt? ==>
        context.steps.Keys - Ids(context.log) == Left(database, first) + Left(snapshot, second)
      ensures returned <==> !first.Interrupt? && !second.Interrupt? && collects
      ensures EndsAs(database, context.steps, first)
      ensures !first.Interrupt? ==> EndsAs(snapshot, context.steps, second)
      ensures catalogue.Some? ==> catalogue.value.closed == old(catalogue.value.closed) + 1
    {
      var error := context.Action(own);
      returned, first, second, ranSnapshot := Body(context, collects);
      if catalogue.Some? { catalogue.value.Close(); }
    }

    /** The `try` block. */
    method Body(context: RunContext<Id>, collects: bool)
      returns (returned: bool, first: Ending, second: Ending, ranSnapshot: bool)
      requires context.Valid() && context.consumed == {own} == context.started
      requires own !in Steps(database) && own !in Steps(snapshot) && Steps(database) !! Steps(snapshot)
      requires context.steps.Keys == {own} + Steps(database) + Steps(snapshot)
      requires (database.Some? ==> Confined(database.value)) && (snapshot.Some? ==> Confined(snapshot.value))
      modifies context
      ensures context.Valid()
      ensures first.Error? ==> Steps(database) <= context.consumed
      ensures second.Error? ==> Steps(snapshot) <= context.consumed
      ensures ranSnapshot <==> !first.Interrupt? && snapshot.Some?
      ensures !first.Interrupt? && !second.Interrupt? ==>
        context.steps.Keys - context.consumed == Left(database, first) + Left(snapshot, second)
      ensures returned <==> !first.Interrupt? && !second.Interrupt? && collects
      ensures EndsAs(database, context.steps, first)
      ensures !first.Interrupt? ==> EndsAs(snapshot, context.steps, second)
    {
      returned, first, second, ranSnapshot := false, Normal, Normal, false;
      if database.Some? {
        AccountedConfined(database.value);
        TakenElsewhere(context.steps, context.consumed, context.started, database.value.script);
        first := Probe(context, database.value);
        if first.Interrupt? { return; }
      }
      if snapshot.Some? {
        AccountedConfined(snapshot.value);
        TakenElsewhere(context.steps, context.consumed, context.started, snapshot.value.script);
        ranSnapshot := true;
        second := Probe(context, snapshot.value);
        if second.Interrupt? { return; }
      }
      if !collects { return; }
      var error := context.CompleteAction(own);
      returned := error.None?;
    }

    /** The whole invocation: the ledger check accepts a returned run exactly when no probe returned with steps left
        over. */
    method Invoke(context: RunContext<Id>, collects: bool) returns (accepted: bool, first: Ending, second: Ending)
      requires Ready(context)
      modifies context, if catalogue.Some? then {catalogue.value} else {}
      ensures accepted <==> !first.Interrupt? && !second.Interrupt? && collects
                            && Left(database, first) == {} && Left(snapshot, second) == {}
      ensures EndsAs(database, context.steps, first)
      ensures !first.Interrupt? ==> EndsAs(snapshot, context.steps, second)
      ensures accepted ==> Once(context.log) && Ids(context.log) == context.steps.Keys
      ensures catalogue.Some? ==> catalogue.value.closed == old(catalogue.value.closed) + 1
    {
      var returned, ran;
      returned, first, second, ran := Run(context, collects);
      if !returned { return false, first, second; }
      var error := context.Complete();
      accepted := error.None?;
    }
  }

  lemma AccountedConfined<Id>(c: Child<Id>)
    requires Confined(c)
    ensures Accounted(c.script) <= Set(c.steps)
  {
  }
}

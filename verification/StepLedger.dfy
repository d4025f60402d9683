/** `internal/proc/__init__.py`: the per-run ledger that makes a callback account
    for every captured step once. */
module StepLedger {
  import opened Text

  datatype StepKind = ProcessStep | ActionStep

  datatype Use = Executed | Skipped

  datatype LedgerError<Id> =
    | Unplanned(id: Id)
    | Duplicate(id: Id)
    | Omitted(ids: set<Id>)

  datatype Entry<Id> = Entry(id: Id, how: Use)

  predicate Once<Id(==)>(log: seq<Entry<Id>>) {
    forall i, j :: 0 <= i < j < |log| ==> log[i].id != log[j].id
  }

  function Ids<Id(==)>(log: seq<Entry<Id>>): set<Id> {
    set i | 0 <= i < |log| :: log[i].id
  }

  lemma IdsExtend<Id>(log: seq<Entry<Id>>, e: Entry<Id>)
    ensures Ids(log + [e]) == Ids(log) + {e.id}
    ensures Once(log) && e.id !in Ids(log) ==> Once(log + [e])
  {
    var t := log + [e];
    forall x ensures x in Ids(t) <==> x in Ids(log) + {e.id} {
      if x in Ids(log) { var i :| 0 <= i < |log| && log[i].id == x; assert t[i].id == x; }
      if x == e.id { assert t[|log|].id == x; }
      if x in Ids(t) { var i :| 0 <= i < |t| && t[i].id == x; assert i < |log| ==> log[i].id == x; }
    }
    assert forall i :: 0 <= i < |log| ==> log[i].id in Ids(log);
  }

  lemma IdsConcat<Id>(a: seq<Entry<Id>>, b: seq<Entry<Id>>)
    ensures Ids(a + b) == Ids(a) + Ids(b)
    ensures Once(a) && Once(b) && Ids(a) !! Ids(b) ==> Once(a + b)
  {
    var t := a + b;
    forall x ensures x in Ids(t) <==> x in Ids(a) + Ids(b) {
      if x in Ids(a) { var i :| 0 <= i < |a| && a[i].id == x; assert t[i].id == x; }
      if x in Ids(b) { var i :| 0 <= i < |b| && b[i].id == x; assert t[|a| + i].id == x; }
      if x in Ids(t) {
        var i :| 0 <= i < |t| && t[i].id == x;
        assert if i < |a| then a[i].id == x else b[i - |a|].id == x;
      }
    }
    assert forall i :: 0 <= i < |a| ==> a[i].id in Ids(a);
    assert forall i :: 0 <= i < |b| ==> b[i].id in Ids(b);
  }

  /** `RunContext`: fresh for each invocation of a command. */
  class RunContext<Id(==)> {
    const steps: map<Id, StepKind>
    var consumed: set<Id>
    var started: set<Id>
    ghost var log: seq<Entry<Id>>

    /** Whatever has been accounted for was planned and was accounted for once. */
    ghost predicate Valid()
      reads this
    {
      && consumed <= steps.Keys
      && started <= consumed
      && Once(log)
      && Ids(log) == consumed
    }

    constructor (steps: map<Id, StepKind>)
      ensures Valid() && this.steps == steps && consumed == {} && started == {} && log == []
    {
      this.steps := steps;
      consumed, started, log := {}, {}, [];
    }

    method Consume(id: Id, how: Use) returns (error: Option<LedgerError<Id>>)
      requires Valid()
      modifies `consumed, `log
      ensures Valid()
      ensures error == if id !in steps then Some(Unplanned(id))
                       else if id in old(consumed) then Some(Duplicate(id)) else None
      ensures error.None? ==> consumed == old(consumed) + {id} && log == old(log) + [Entry(id, how)]
      ensures error.Some? ==> consumed == old(consumed) && log == old(log)
    {
      if id !in steps { return Some(Unplanned(id)); }
      if id in consumed { return Some(Duplicate(id)); }
      IdsExtend(log, Entry(id, how));
      consumed := consumed + {id};
      log := log + [Entry(id, how)];
      error := None;
    }

    /** Consume a captured process; an action id is not a process. */
    method Process(id: Id) returns (error: Option<LedgerError<Id>>)
      requires Valid()
      modifies `consumed, `log
      ensures Valid()
      ensures error == if id !in steps || steps[id] != ProcessStep then Some(Unplanned(id))
                       else if id in old(consumed) then Some(Duplicate(id)) else None
      ensures error.None? ==> consumed == old(consumed) + {id} && log == old(log) + [Entry(id, Executed)]
      ensures error.Some? ==> consumed == old(consumed) && log == old(log)
    {
      if id !in steps || steps[id] != ProcessStep { return Some(Unplanned(id)); }
      error := Consume(id, Executed);
    }

    /** Consume a captured action and open it; a process id is consumed before it is refused. */
    method Action(id: Id) returns (error: Option<LedgerError<Id>>)
      requires Valid()
      modifies this
      ensures Valid()
      ensures error == if id !in steps then Some(Unplanned(id))
                       else if id in old(consumed) then Some(Duplicate(id))
                       else if steps[id] != ActionStep then Some(Unplanned(id)) else None
      ensures id in steps && id !in old(consumed) ==>
        consumed == old(consumed) + {id} && log == old(log) + [Entry(id, Executed)]
      ensures !(id in steps && id !in old(consumed)) ==> consumed == old(consumed) && log == old(log)
      ensures started == old(started) + if error.None? then {id} else {}
    {
      error := Consume(id, Executed);
      if error.None? && steps[id] != ActionStep { return Some(Unplanned(id)); }
      if error.None? { started := started + {id}; }
    }

    method CompleteAction(id: Id) returns (error: Option<LedgerError<Id>>)
      requires Valid()
      modifies `started
      ensures Valid()
      ensures error == if id in old(started) then None else Some(Unplanned(id))
      ensures started == old(started) - {id}
    {
      if id !in started { return Some(Unplanned(id)); }
      started := started - {id};
      error := None;
    }

    /** Close an action after a nested effect failed; false when it was not open. */
    method FailAction(id: Id) returns (closed: bool)
      requires Valid()
      modifies `started
      ensures Valid() && closed == (id in old(started)) && started == old(started) - {id}
    {
      closed := id in started;
      started := started - {id};
    }

    method Skip(id: Id) returns (error: Option<LedgerError<Id>>)
      requires Valid()
      modifies `consumed, `log
      ensures Valid()
      ensures error == if id !in steps then Some(Unplanned(id))
                       else if id in old(consumed) then Some(Duplicate(id)) else None
      ensures error.None? ==> consumed == old(consumed) + {id} && log == old(log) + [Entry(id, Skipped)]
      ensures error.Some? ==> consumed == old(consumed) && log == old(log)
    {
      error := Consume(id, Skipped);
    }

    /** The callback has returned: nothing planned may be left over. On success every
        planned step is in the log exactly once. */
    method Complete() returns (error: Option<LedgerError<Id>>)
      requires Valid()
      ensures error == if consumed == steps.Keys then None else Some(Omitted(steps.Keys - consumed))
      ensures error.None? ==> Once(log) && Ids(log) == steps.Keys
    {
      assert forall x :: x in steps.Keys && x !in consumed ==> x in steps.Keys - consumed;
      if steps.Keys - consumed != {} { return Some(Omitted(steps.Keys - consumed)); }
      error := None;
    }
  }
}

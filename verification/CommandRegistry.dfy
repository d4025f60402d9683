/** `execution.py`: the process-wide table from `id(command)` to the private
    executable snapshot. Python reuses an id as soon as its object is gone. */
module CommandRegistry {
  import opened Text
  import opened Json
  import opened PlanIdentity

  /** A prepared command: the public projections of its steps and the callback that runs them. */
  datatype Snapshot = Snapshot(steps: seq<Json>, callback: int)

  datatype Command = Command(id: int, plan: ExecutionPlan)

  /** The table, the live Command objects by reference, and the snapshot each
      object was built from; copies and decoded objects were built from none. */
  datatype Heap = Heap(table: map<int, Snapshot>, live: map<nat, Command>, origin: map<nat, Snapshot>)

  datatype Event =
    | Build(ref: nat, id: int, plan: ExecutionPlan, prepared: Snapshot)   // Command.from_prepared
    | Copy(ref: nat, id: int, plan: ExecutionPlan)                        // copy, replace, decode
    | Collect(ref: nat)                                                   // the object dies, __del__ runs

  const EMPTY := Heap(map[], map[], map[])

  /** The allocator hands out references and ids that no live object has. */
  predicate Possible(h: Heap, e: Event) {
    match e
    case Build(r, id, _, _) => r !in h.live && forall o :: o in h.live ==> h.live[o].id != id
    case Copy(r, id, _) => r !in h.live && forall o :: o in h.live ==> h.live[o].id != id
    case Collect(r) => r in h.live
  }

  /** The heap after one event. `stamp` attaches a fingerprint to a plan that has none. */
  function Apply(h: Heap, e: Event, stamp: ExecutionPlan -> ExecutionPlan): Heap
    requires Possible(h, e)
  {
    match e
    case Build(r, id, plan, prepared) =>
      if plan.steps != prepared.steps then h
      else
        var stored := if plan.fingerprint == "" then stamp(plan) else plan;
        Heap(h.table[id := prepared], h.live[r := Command(id, stored)], h.origin[r := prepared])
    case Copy(r, id, plan) => Heap(h.table, h.live[r := Command(id, plan)], h.origin)
    case Collect(r) => Heap(h.table - {h.live[r].id}, h.live - {r}, h.origin - {r})
  }

  /** `Command.run` looks the snapshot up by id; `None` is `PlanError`. */
  function Lookup(h: Heap, r: nat): Option<Snapshot>
    requires r in h.live
  {
    if h.live[r].id in h.table then Some(h.table[h.live[r].id]) else None
  }

  ghost predicate Consistent(h: Heap) {
    && (forall o, p :: o in h.live && p in h.live && o != p ==> h.live[o].id != h.live[p].id)
    && (forall o :: o in h.origin ==>
          o in h.live && h.live[o].id in h.table && h.table[h.live[o].id] == h.origin[o]
          && h.live[o].plan.steps == h.origin[o].steps)
    && (forall id :: id in h.table ==> Owned(h, id))
  }

  ghost predicate Owned(h: Heap, id: int) {
    exists o :: o in h.origin && o in h.live && h.live[o].id == id
  }

  ghost predicate KeepsSteps(stamp: ExecutionPlan -> ExecutionPlan) {
    forall p :: stamp(p).steps == p.steps
  }

  lemma ApplyConsistent(h: Heap, e: Event, stamp: ExecutionPlan -> ExecutionPlan)
    requires Consistent(h) && Possible(h, e) && KeepsSteps(stamp)
    ensures Consistent(Apply(h, e, stamp))
  {
    match e
    case Build(r, id, plan, prepared) =>
      if plan.steps == prepared.steps {
        var stored := if plan.fingerprint == "" then stamp(plan) else plan;
        BuildConsistent(h, r, Command(id, stored), prepared);
      }
    case Copy(r, id, plan) => CopyConsistent(h, r, Command(id, plan));
    case Collect(r) => CollectConsistent(h, r);
  }

  lemma BuildConsistent(h: Heap, r: nat, c: Command, prepared: Snapshot)
    requires Consistent(h) && r !in h.live && c.plan.steps == prepared.steps
    requires forall o :: o in h.live ==> h.live[o].id != c.id
    ensures Consistent(Heap(h.table[c.id := prepared], h.live[r := c], h.origin[r := prepared]))
  {
    var g := Heap(h.table[c.id := prepared], h.live[r := c], h.origin[r := prepared]);
    forall id | id in g.table ensures Owned(g, id) {
      if id == c.id {
        assert r in g.origin && r in g.live;
      } else {
        assert Owned(h, id);
        var o :| o in h.origin && o in h.live && h.live[o].id == id;
        assert o in g.origin && o in g.live;
      }
    }
  }

  lemma CopyConsistent(h: Heap, r: nat, c: Command)
    requires Consistent(h) && r !in h.live
    requires forall o :: o in h.live ==> h.live[o].id != c.id
    ensures Consistent(Heap(h.table, h.live[r := c], h.origin))
  {
    var g := Heap(h.table, h.live[r := c], h.origin);
    assert forall o :: o in h.live ==> o in g.live && g.live[o] == h.live[o];
    forall id | id in g.table ensures Owned(g, id) { OwnedStays(h, g, id); }
  }

  lemma OwnedStays(h: Heap, g: Heap, id: int)
    requires Owned(h, id) && h.origin == g.origin
    requires forall o :: o in h.live ==> o in g.live && g.live[o] == h.live[o]
    ensures Owned(g, id)
  {
    var o :| o in h.origin && o in h.live && h.live[o].id == id;
    assert o in g.origin && o in g.live && g.live[o].id == id;
  }

  lemma FreeIdIsAbsent(h: Heap, id: int)
    requires Consistent(h) && forall o :: o in h.live ==> h.live[o].id != id
    ensures id !in h.table
  {
    assert id in h.table ==> Owned(h, id);
  }

  lemma CollectConsistent(h: Heap, r: nat)
    requires Consistent(h) && r in h.live
    ensures Consistent(Heap(h.table - {h.live[r].id}, h.live - {r}, h.origin - {r}))
  {
    var g := Heap(h.table - {h.live[r].id}, h.live - {r}, h.origin - {r});
    forall id | id in g.table ensures Owned(g, id) {
      assert Owned(h, id);
      var o :| o in h.origin && o in h.live && h.live[o].id == id;
      assert o in g.origin && o in g.live;
    }
  }

  ghost predicate Runs(h: Heap, es: seq<Event>, stamp: ExecutionPlan -> ExecutionPlan, g: Heap)
    decreases |es|
  {
    if es == [] then h == g
    else Possible(h, es[0]) && Runs(Apply(h, es[0], stamp), es[1..], stamp, g)
  }

  lemma {:induction false} RunsConsistent(h: Heap, es: seq<Event>, stamp: ExecutionPlan -> ExecutionPlan, g: Heap)
    requires Consistent(h) && KeepsSteps(stamp) && Runs(h, es, stamp, g)
    ensures Consistent(g)
    decreases |es|
  {
    if es != [] {
      ApplyConsistent(h, es[0], stamp);
      RunsConsistent(Apply(h, es[0], stamp), es[1..], stamp, g);
    }
  }

  /** After any creations, copies, deletions and id reuse: a live command built from a
      snapshot runs exactly that one, its public steps are the snapshot's, and every
      other command is refused. */
  lemma LiveCommandRunsItsOwnSnapshot(es: seq<Event>, stamp: ExecutionPlan -> ExecutionPlan, g: Heap, r: nat)
    requires KeepsSteps(stamp) && Runs(EMPTY, es, stamp, g) && r in g.live
    ensures r in g.origin ==> Lookup(g, r) == Some(g.origin[r]) && g.live[r].plan.steps == g.origin[r].steps
    ensures r !in g.origin ==> Lookup(g, r) == None
  {
    RunsConsistent(EMPTY, es, stamp, g);
    assert g.live[r].id in g.table ==> Owned(g, g.live[r].id);
  }

  // ---------------------------------------------------------------- fingerprints

  /** The plan of the live command is one the run built a command from: as given if it had a fingerprint, else
      with the one `stamp` attaches. */
  ghost predicate FromBuild(c: Command, snapshot: Snapshot, es: seq<Event>, stamp: ExecutionPlan -> ExecutionPlan) {
    exists i :: 0 <= i < |es| && es[i].Build? && es[i].id == c.id && es[i].prepared == snapshot
      && (es[i].plan.fingerprint != "" ==> c.plan == es[i].plan)
      && (es[i].plan.fingerprint == "" ==> c.plan == stamp(es[i].plan))
  }

  ghost predicate AllFromBuilds(h: Heap, es: seq<Event>, stamp: ExecutionPlan -> ExecutionPlan) {
    forall o :: o in h.origin && o in h.live ==> FromBuild(h.live[o], h.origin[o], es, stamp)
  }

  lemma FromBuildStays(c: Command, snapshot: Snapshot, es: seq<Event>, e: Event, stamp: ExecutionPlan -> ExecutionPlan)
    requires FromBuild(c, snapshot, es, stamp)
    ensures FromBuild(c, snapshot, es + [e], stamp)
  {
    var i :| 0 <= i < |es| && es[i].Build? && es[i].id == c.id && es[i].prepared == snapshot
      && (es[i].plan.fingerprint != "" ==> c.plan == es[i].plan)
      && (es[i].plan.fingerprint == "" ==> c.plan == stamp(es[i].plan));
    assert (es + [e])[i] == es[i];
  }

  lemma BuildsStep(h: Heap, es: seq<Event>, e: Event, stamp: ExecutionPlan -> ExecutionPlan)
    requires AllFromBuilds(h, es, stamp) && Possible(h, e)
    requires forall o :: o in h.origin ==> o in h.live
    ensures AllFromBuilds(Apply(h, e, stamp), es + [e], stamp)
  {
    var g := Apply(h, e, stamp);
    forall o | o in g.origin && o in g.live ensures FromBuild(g.live[o], g.origin[o], es + [e], stamp) {
      if e.Build? && o == e.ref {
        assert (es + [e])[|es|] == e;
      } else {
        FromBuildStays(h.live[o], h.origin[o], es, e, stamp);
      }
    }
  }

  lemma {:induction false} RunsFromBuilds(h: Heap, past: seq<Event>, es: seq<Event>,
                                          stamp: ExecutionPlan -> ExecutionPlan, g: Heap)
    requires Consistent(h) && KeepsSteps(stamp) && Runs(h, es, stamp, g) && AllFromBuilds(h, past, stamp)
    ensures AllFromBuilds(g, past + es, stamp)
    decreases |es|
  {
    if es == [] {
      assert past + es == past;
    } else {
      ApplyConsistent(h, es[0], stamp);
      BuildsStep(h, past, es[0], stamp);
      RunsFromBuilds(Apply(h, es[0], stamp), past + [es[0]], es[1..], stamp, g);
      assert past + [es[0]] + es[1..] == past + es;
    }
  }

  /** In every run a live command built from a snapshot has a plan with a fingerprint: the one it was given, or, for
      a plan given without, the plan's own. */
  lemma BuiltCommandsAreStamped(es: seq<Event>, redactor: Redactor, sha256: seq<Byte> -> string, g: Heap, r: nat)
    requires var stamp := (p: ExecutionPlan) => Attach(p, redactor, sha256); Runs(EMPTY, es, stamp, g)
    requires r in g.live && r in g.origin && forall bytes :: sha256(bytes) != ""
    ensures g.live[r].plan.fingerprint != ""
    ensures exists i ::
      && 0 <= i < |es| && es[i].Build? && es[i].prepared == g.origin[r]
      && var given := es[i].plan;
         g.live[r].plan == given.(fingerprint :=
           if given.fingerprint != "" then given.fingerprint else sha256(CanonicalBytes(given, redactor)))
  {
    var stamp := (p: ExecutionPlan) => Attach(p, redactor, sha256);
    RunsFromBuilds(EMPTY, [], es, stamp, g);
    RunsConsistent(EMPTY, es, stamp, g);
    assert [] + es == es;
    assert FromBuild(g.live[r], g.origin[r], es, stamp);
  }

  /** The module-level dictionary and the objects that use it. */
  class Interpreter {
    var table: map<int, Snapshot>
    var live: map<nat, Command>
    ghost var origin: map<nat, Snapshot>

    ghost function State(): Heap
      reads this
    {
      Heap(table, live, origin)
    }

    constructor ()
      ensures State() == EMPTY && Consistent(State())
    {
      table, live, origin := map[], map[], map[];
    }

    method FromPrepared(ref: nat, id: int, plan: ExecutionPlan, prepared: Snapshot,
                        stamp: ExecutionPlan -> ExecutionPlan) returns (ok: bool)
      requires Consistent(State()) && KeepsSteps(stamp)
      requires Possible(State(), Build(ref, id, plan, prepared))
      modifies this
      ensures Consistent(State())
      ensures State() == Apply(old(State()), Build(ref, id, plan, prepared), stamp)
      ensures ok <==> plan.steps == prepared.steps
      ensures ok ==> Lookup(State(), ref) == Some(prepared)
      ensures ok ==> table == old(table)[id := prepared] && live.Keys == old(live).Keys + {ref} && live[ref].id == id
      ensures ok && plan.fingerprint != "" ==> live[ref].plan == plan
      ensures ok && plan.fingerprint == "" ==> live[ref].plan == stamp(plan)
      ensures !ok ==> table == old(table) && live == old(live)
    {
      ApplyConsistent(State(), Build(ref, id, plan, prepared), stamp);
      if plan.steps != prepared.steps {
        return false;
      }
      var stored := plan;
      if plan.fingerprint == "" {
        stored := stamp(plan);
      }
      live := live[ref := Command(id, stored)];
      table := table[id := prepared];
      origin := origin[ref := prepared];
      ok := true;
    }

    method Duplicate(ref: nat, id: int, plan: ExecutionPlan, ghost stamp: ExecutionPlan -> ExecutionPlan)
      requires Consistent(State()) && KeepsSteps(stamp) && Possible(State(), Copy(ref, id, plan))
      modifies this
      ensures Consistent(State()) && State() == Apply(old(State()), Copy(ref, id, plan), stamp)
      ensures table == old(table) && live == old(live)[ref := Command(id, plan)] && Lookup(State(), ref) == None
    {
      ApplyConsistent(State(), Copy(ref, id, plan), stamp);
      FreeIdIsAbsent(State(), id);
      live := live[ref := Command(id, plan)];
    }

    /** `__del__`, then the object is gone and its id is free again. */
    method Delete(ref: nat, ghost stamp: ExecutionPlan -> ExecutionPlan)
      requires Consistent(State()) && KeepsSteps(stamp) && ref in live
      modifies this
      ensures Consistent(State()) && State() == Apply(old(State()), Collect(ref), stamp)
      ensures old(live)[ref].id !in table && live == old(live) - {ref}
      ensures forall id :: id != old(live)[ref].id ==>
        (id in table <==> id in old(table)) && (id in table ==> table[id] == old(table)[id])
    {
      ApplyConsistent(State(), Collect(ref), stamp);
      table := table - {live[ref].id};
      live := live - {ref};
      origin := origin - {ref};
    }

    method Run(ref: nat) returns (snapshot: Option<Snapshot>)
      requires Consistent(State()) && ref in live
      ensures snapshot == if ref in origin then Some(origin[ref]) else None
      ensures snapshot.Some? ==> snapshot.value.steps == live[ref].plan.steps
    {
      var id := live[ref].id;
      if id in table {
        snapshot := Some(table[id]);
        assert Owned(State(), id);
      } else {
        snapshot := None;
      }
    }
  }
}

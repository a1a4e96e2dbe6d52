/**
 * `StateMachineService`: the registry that drives every state machine once per frame. Each
 * entry pairs a machine with the object that owns it; an entry whose owner has been destroyed
 * (or whose machine is missing) is dropped at the next update, and every other machine is
 * updated with the frame's delta. Which owners are still alive is engine state, given here
 * as the set `live` of owner identities.
 */
module StateMachineServices {
  import opened SimpleStateMachines

  /** The identity of an owning engine object. */
  type OwnerId = nat

  /** `FsmEntry`: an owner and its machine (possibly null). */
  datatype FsmEntry<S> = FsmEntry(owner: OwnerId, machine: SimpleStateMachine?<S>)

  /** An entry survives while its owner is alive and it has a machine. */
  predicate Alive<S>(e: FsmEntry<S>, live: set<OwnerId>) {
    e.owner in live && e.machine != null
  }

  /** The surviving entries, in their order. */
  function Survivors<S>(entries: seq<FsmEntry<S>>, live: set<OwnerId>): seq<FsmEntry<S>> {
    if |entries| == 0 then []
    else (if Alive(entries[0], live) then [entries[0]] else []) + Survivors(entries[1..], live)
  }

  /** The survivors are exactly the alive entries: every survivor is an alive entry, and every
      alive entry survives. */
  lemma {:induction false} SurvivorsAreAlive<S>(entries: seq<FsmEntry<S>>, live: set<OwnerId>)
    ensures forall e :: e in Survivors(entries, live) <==> e in entries && Alive(e, live)
  {
    if |entries| > 0 {
      SurvivorsAreAlive(entries[1..], live);
      assert entries == [entries[0]] + entries[1..];
    }
  }

  /** Pruning keeps the order: the survivors of two lists one after the other are the survivors
      of the first followed by those of the second. */
  lemma {:induction false} SurvivorsAppend<S>(s: seq<FsmEntry<S>>, t: seq<FsmEntry<S>>, live: set<OwnerId>)
    ensures Survivors(s + t, live) == Survivors(s, live) + Survivors(t, live)
  {
    if |s| == 0 {
      assert s + t == t;
    } else {
      SurvivorsAppend(s[1..], t, live);
      var head := if Alive(s[0], live) then [s[0]] else [];
      assert (s + t)[0] == s[0];
      assert (s + t)[1..] == s[1..] + t;
      calc {
        Survivors(s + t, live);
        head + Survivors(s[1..] + t, live);
        head + (Survivors(s[1..], live) + Survivors(t, live));
        (head + Survivors(s[1..], live)) + Survivors(t, live);
      }
    }
  }

  /** Pruning a second time removes nothing more. */
  lemma {:induction false} SurvivorsIdempotent<S>(entries: seq<FsmEntry<S>>, live: set<OwnerId>)
    ensures Survivors(Survivors(entries, live), live) == Survivors(entries, live)
  {
    if |entries| > 0 {
      SurvivorsIdempotent(entries[1..], live);
      var head := if Alive(entries[0], live) then [entries[0]] else [];
      SurvivorsAppend(head, Survivors(entries[1..], live), live);
      if Alive(entries[0], live) {
        assert head[1..] == [];
      }
    }
  }

  /** The machines of a list of entries. */
  function MachinesOf<S>(entries: seq<FsmEntry<S>>): set<SimpleStateMachine<S>> {
    set k | 0 <= k < |entries| && entries[k].machine != null :: entries[k].machine
  }

  /** No machine appears in two entries. */
  predicate DistinctMachines<S>(entries: seq<FsmEntry<S>>) {
    forall j, k :: 0 <= j < k < |entries| && entries[j].machine != null ==>
      entries[j].machine != entries[k].machine
  }

  /** `StateMachineService`. */
  class StateMachineService<S(==)> {
    var entries: seq<FsmEntry<S>>

    ghost predicate Valid()
      reads this, MachinesOf(entries)
    {
      DistinctMachines(entries) &&
      forall k :: 0 <= k < |entries| && entries[k].machine != null ==> entries[k].machine.Valid()
    }

    constructor ()
      ensures Valid() && entries == []
    {
      entries := [];
    }

    /**
     * `Create`: a new machine, built as its class's constructor builds it, is appended with
     * its owner and returned; nothing else is added.
     */
    method Create(owner: OwnerId, initialState: S, rules: seq<(S, seq<S>)>) returns (m: SimpleStateMachine<S>)
      requires Valid()
      modifies this
      ensures Valid() && fresh(m)
      ensures entries == old(entries) + [FsmEntry(owner, m)]
      ensures m.state == initialState && m.pending.None? && m.transitions == RulesMap(rules)
    {
      m := Build(initialState, rules);
      entries := entries + [FsmEntry(owner, m)];
    }

    /**
     * `Update`: entries whose owner is gone or whose machine is missing are removed, the others
     * keep their order, and each surviving machine takes exactly one update by `dt`; the
     * machines of removed entries are left as they were.
     */
    method Update(live: set<OwnerId>, dt: real)
      requires Valid()
      modifies this, MachinesOf(entries)
      ensures Valid()
      ensures entries == Survivors(old(entries), live)
      ensures var es := old(entries);
        forall k :: 0 <= k < |es| && Alive(es[k], live) ==>
          es[k].machine.Snap() == Stepped(old(es[k].machine.Snap()), dt)
      ensures var es := old(entries);
        forall k :: 0 <= k < |es| && !Alive(es[k], live) && es[k].machine != null ==>
          es[k].machine.Snap() == old(es[k].machine.Snap())
    {
      ghost var es := entries;
      var i := |entries| - 1;
      while i >= 0
        invariant -1 <= i < |es|
        invariant entries == es[..i + 1] + Survivors(es[i + 1..], live)
        invariant forall k :: 0 <= k < |es| && es[k].machine != null ==> es[k].machine.Valid()
        invariant forall k :: i < k < |es| && Alive(es[k], live) ==>
          es[k].machine.Snap() == Stepped(old(es[k].machine.Snap()), dt)
        invariant forall k :: 0 <= k < |es| && (k <= i || !Alive(es[k], live)) && es[k].machine != null ==>
          es[k].machine.Snap() == old(es[k].machine.Snap())
      {
        StepEntry(es, i, live, dt);
        i := i - 1;
      }
      assert es[0..] == es;
      SurvivorsDistinct(es, live);
      SurvivorsKeepValid(es, live);
    }

    /**
     * One iteration of `Update`'s backward loop, on entry `i` of the original list `es`: the
     * entry is dropped when it does not survive, and its machine takes one update when it
     * does; no other machine changes.
     */
    method StepEntry(ghost es: seq<FsmEntry<S>>, i: int, live: set<OwnerId>, dt: real)
      requires 0 <= i < |es| && DistinctMachines(es)
      requires entries == es[..i + 1] + Survivors(es[i + 1..], live)
      requires forall k :: 0 <= k < |es| && es[k].machine != null ==> es[k].machine.Valid()
      modifies this, if Alive(es[i], live) then {es[i].machine} else {}
      ensures entries == es[..i] + Survivors(es[i..], live)
      ensures forall k :: 0 <= k < |es| && es[k].machine != null ==> es[k].machine.Valid()
      ensures Alive(es[i], live) ==> es[i].machine.Snap() == Stepped(old(es[i].machine.Snap()), dt)
      ensures forall k :: 0 <= k < |es| && (k != i || !Alive(es[i], live)) && es[k].machine != null ==>
        es[k].machine.Snap() == old(es[k].machine.Snap())
    {
      SurvivorsStep(es, i, live);
      var entry := entries[i];
      if entry.owner !in live || entry.machine == null {
        DropAt(es[..i + 1], Survivors(es[i + 1..], live), i);
        entries := entries[..i] + entries[i + 1..];
      } else {
        assert forall k :: 0 <= k < |es| && k != i && es[k].machine != null ==> es[k].machine != entry.machine;
        entry.machine.Update(dt);
        assert es[..i + 1] == es[..i] + [es[i]];
      }
    }
  }

  /** One entry of pruning: the survivors of `es[i..]` are `es[i]` when it is alive, followed
      by the survivors of the rest. */
  lemma SurvivorsStep<S>(es: seq<FsmEntry<S>>, i: nat, live: set<OwnerId>)
    requires i < |es|
    ensures Survivors(es[i..], live) == (if Alive(es[i], live) then [es[i]] else []) + Survivors(es[i + 1..], live)
  {
    assert es[i..][1..] == es[i + 1..];
  }

  /** Removing the last element of a prefix that ends at `i`. */
  lemma DropAt<T>(p: seq<T>, r: seq<T>, i: nat)
    requires |p| == i + 1
    ensures (p + r)[..i] + (p + r)[i + 1..] == p[..i] + r
  {
    assert (p + r)[..i] == p[..i];
    assert (p + r)[i + 1..] == r;
  }

  /** Every surviving machine is a machine of the list, so it is valid when they all are. */
  lemma SurvivorsKeepValid<S>(es: seq<FsmEntry<S>>, live: set<OwnerId>)
    requires forall k :: 0 <= k < |es| && es[k].machine != null ==> es[k].machine.Valid()
    ensures var r := Survivors(es, live);
      forall k :: 0 <= k < |r| && r[k].machine != null ==> r[k].machine.Valid()
  {
    var r := Survivors(es, live);
    forall k | 0 <= k < |r| && r[k].machine != null
      ensures r[k].machine.Valid()
    {
      assert r[k] in r;
      SurvivorIsAlive(es, live, r[k]);
      var j :| 0 <= j < |es| && es[j] == r[k];
    }
  }

  /** A survivor is an alive entry of the list. */
  lemma SurvivorIsAlive<S>(entries: seq<FsmEntry<S>>, live: set<OwnerId>, e: FsmEntry<S>)
    requires e in Survivors(entries, live)
    ensures e in entries && Alive(e, live)
  {
    SurvivorsAreAlive(entries, live);
  }

  /** Pruning keeps the machines distinct. */
  lemma {:induction false} SurvivorsDistinct<S>(entries: seq<FsmEntry<S>>, live: set<OwnerId>)
    requires DistinctMachines(entries)
    ensures DistinctMachines(Survivors(entries, live))
  {
    if |entries| > 0 {
      assert DistinctMachines(entries[1..]) by {
        forall j, k | 0 <= j < k < |entries[1..]| && entries[1..][j].machine != null
          ensures entries[1..][j].machine != entries[1..][k].machine
        {
          assert entries[1..][j] == entries[j + 1] && entries[1..][k] == entries[k + 1];
        }
      }
      SurvivorsDistinct(entries[1..], live);
      SurvivorsAreAlive(entries[1..], live);
      var rest := Survivors(entries[1..], live);
      if Alive(entries[0], live) {
        var r := [entries[0]] + rest;
        forall j, k | 0 <= j < k < |r| && r[j].machine != null
          ensures r[j].machine != r[k].machine
        {
          if j == 0 {
            assert r[k] == rest[k - 1] && rest[k - 1] in rest;
            var tail := entries[1..];
            SurvivorIsAlive(tail, live, rest[k - 1]);
            var m :| 0 <= m < |tail| && tail[m] == r[k];
            assert entries[m + 1] == r[k];
          } else {
            assert r[j] == rest[j - 1] && r[k] == rest[k - 1];
          }
        }
      }
    }
  }
}

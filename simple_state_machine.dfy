/**
 * `SimpleStateMachine<TState>`: a finite state machine over an enumeration of states. Each
 * state has a set of allowed target states; a transition may happen at once (`Go`) or be
 * scheduled after a delay (`GoLater`) and carried out by `Update` once the delay has run out.
 * `ResetTo` moves to any state, ignoring the rules. Times are seconds, as reals.
 */
module SimpleStateMachines {
  import opened Wrappers

  /** `DelayedTransitionData`: the scheduled target and the delay it was scheduled with. */
  datatype DelayedTransition<S> = DelayedTransition(target: S, delay: real)

  /** The whole state of a machine, as a value. */
  datatype Snapshot<S> = Snapshot(state: S, transitions: map<S, set<S>>,
                                  pending: Option<DelayedTransition<S>>, timeToTransition: real)

  /** The rules allow going from `from` to `to`: never to the same state, else when `to` is
      in the set of `from`. */
  predicate Allows<S(==)>(transitions: map<S, set<S>>, from: S, to: S) {
    from != to && from in transitions && to in transitions[from]
  }

  /** Nothing pending means no time left either; the machine keeps this at all times. */
  predicate Consistent<S>(s: Snapshot<S>) {
    s.pending.None? ==> s.timeToTransition == 0.0
  }

  /** `Mathf.Clamp01`. */
  function Clamp01(x: real): (r: real)
    ensures 0.0 <= r <= 1.0
    ensures 0.0 <= x <= 1.0 ==> r == x
    ensures x < 0.0 ==> r == 0.0
    ensures x > 1.0 ==> r == 1.0
  {
    if x < 0.0 then 0.0 else if x > 1.0 then 1.0 else x
  }

  /**
   * `Progress`: 0 with nothing pending, else the share of the delay that has run out, clamped
   * to [0, 1]. A zero delay divides by zero in floating point: a positive remaining time gives
   * 0 and a negative one gives 1, as the infinities do. A zero remaining time over a zero delay,
   * right after `GoLater(0, s)`, is NaN in floating point; a real has none, and 0 stands for it.
   */
  function ProgressOf<S>(pending: Option<DelayedTransition<S>>, timeToTransition: real): (p: real)
    ensures 0.0 <= p <= 1.0
    ensures pending.None? ==> p == 0.0
    ensures pending.Some? && pending.value.delay > 0.0 ==>
      (timeToTransition <= 0.0 ==> p == 1.0) &&
      (timeToTransition >= pending.value.delay ==> p == 0.0) &&
      (0.0 <= timeToTransition <= pending.value.delay ==>
         p * pending.value.delay == pending.value.delay - timeToTransition)
  {
    match pending
    case None => 0.0
    case Some(d) =>
      if d.delay == 0.0 then (if timeToTransition < 0.0 then 1.0 else 0.0)
      else
        var share := 1.0 - timeToTransition / d.delay;
        if d.delay > 0.0 then
          RemainingShare(timeToTransition, d.delay);
          Clamp01(share)
        else Clamp01(share)
  }

  /** The share `1 - t / delay` of a positive delay that has run out when `t` of it remains:
      at least 1 when nothing remains, at most 0 when all of it remains, and otherwise
      `(delay - t) / delay`. */
  lemma RemainingShare(t: real, delay: real)
    requires delay > 0.0
    ensures t <= 0.0 ==> 1.0 - t / delay >= 1.0
    ensures t >= delay ==> 1.0 - t / delay <= 0.0
    ensures 0.0 <= t <= delay ==> (1.0 - t / delay) * delay == delay - t
  {
    var q := t / delay;
    assert q * delay == t;
    assert (1.0 - q) * delay == delay - q * delay;
    if t <= 0.0 {
      assert q <= 0.0;
    }
    if t >= delay {
      assert (q - 1.0) * delay == t - delay;
      NonNegativeFactor(q - 1.0, delay);
    }
  }

  /** A product with a positive factor that is not negative has a non-negative other factor. */
  lemma NonNegativeFactor(a: real, b: real)
    requires b > 0.0 && a * b >= 0.0
    ensures a >= 0.0
  {
  }

  /** The set of the elements of a list. */
  function Elements<S>(s: seq<S>): set<S> {
    set t | t in s
  }

  /** The state after a successful `Go`: the target, with nothing pending. */
  function Went<S>(s: Snapshot<S>, target: S): Snapshot<S> {
    s.(state := target, pending := None, timeToTransition := 0.0)
  }

  /** The state after `Update(dt)`: nothing happens with nothing pending; otherwise the
      remaining time goes down by `dt`, or the transition fires and nothing is pending any more. */
  function Stepped<S(==)>(s: Snapshot<S>, dt: real): (r: Snapshot<S>)
    ensures s.pending.None? ==> r == s
    ensures s.pending.Some? && r.pending.Some? ==> r == s.(timeToTransition := s.timeToTransition - dt)
    ensures r.pending.None? ==> r.timeToTransition == 0.0 || s.pending.None?
  {
    match s.pending
    case None => s
    case Some(d) =>
      var t := s.timeToTransition - dt;
      if t <= 0.0 && Allows(s.transitions, s.state, d.target) then Went(s, d.target)
      else s.(timeToTransition := t)
  }

  /** `Update` never breaks a rule: the state changes only along an allowed transition, to
      the scheduled target, and the rules themselves do not change. */
  lemma SteppedFollowsRules<S>(s: Snapshot<S>, dt: real)
    ensures var r := Stepped(s, dt);
      r.transitions == s.transitions &&
      (r.state != s.state ==> s.pending.Some? && r.state == s.pending.value.target &&
                              Allows(s.transitions, s.state, r.state))
  {
  }

  /** `Update` keeps a consistent state consistent. */
  lemma SteppedConsistent<S>(s: Snapshot<S>, dt: real)
    requires Consistent(s)
    ensures Consistent(Stepped(s, dt))
  {
  }

  /**
   * The scheduled transition happens at the first update at which the remaining time reaches
   * zero, provided the rules still allow it then; before that, the remaining time only goes
   * down by each delta.
   */
  lemma SteppedFiresIff<S>(s: Snapshot<S>, dt: real)
    requires s.pending.Some?
    ensures var r := Stepped(s, dt);
      (r.pending.None? <==> s.timeToTransition - dt <= 0.0 && Allows(s.transitions, s.state, s.pending.value.target)) &&
      (r.pending.Some? ==> r.pending == s.pending && r.state == s.state && r.timeToTransition == s.timeToTransition - dt)
  {
  }

  /** Two updates that do not fire leave the same state as one update by their sum. */
  lemma {:induction false} SteppedAdds<S>(s: Snapshot<S>, dt1: real, dt2: real)
    requires Stepped(s, dt1).pending.Some?
    ensures Stepped(Stepped(s, dt1), dt2).pending.Some? ==> Stepped(Stepped(s, dt1), dt2) == Stepped(s, dt1 + dt2)
  {
    var d := s.pending.value;
    var once := Stepped(s, dt1);
    assert once == s.(timeToTransition := s.timeToTransition - dt1);
    var twice := Stepped(once, dt2);
    if twice.pending.Some? {
      assert twice == s.(timeToTransition := s.timeToTransition - dt1 - dt2);
      assert s.timeToTransition - dt1 - dt2 == s.timeToTransition - (dt1 + dt2);
    }
  }

  /** While a transition with a positive delay is pending, an update by a non-negative delta
      never lowers `Progress`. */
  lemma ProgressGrows<S>(s: Snapshot<S>, dt: real)
    requires s.pending.Some? && s.pending.value.delay > 0.0 && dt >= 0.0
    requires Stepped(s, dt).pending.Some?
    ensures ProgressOf(s.pending, s.timeToTransition) <=
            ProgressOf(Stepped(s, dt).pending, Stepped(s, dt).timeToTransition)
  {
    var d := s.pending.value.delay;
    var t := s.timeToTransition;
    assert t / d >= (t - dt) / d by {
      assert t / d - (t - dt) / d == dt / d;
    }
  }

  /** `SimpleStateMachine<TState>`. */
  class SimpleStateMachine<S(==)> {
    var state: S
    var transitions: map<S, set<S>>
    var pending: Option<DelayedTransition<S>>
    var timeToTransition: real

    /** The machine's fields as one value. */
    function Snap(): Snapshot<S>
      reads this
    {
      Snapshot(state, transitions, pending, timeToTransition)
    }

    ghost predicate Valid()
      reads this
    {
      Consistent(Snap())
    }

    /** The initial state is the constructor argument; no rules, nothing pending. */
    constructor (initialState: S)
      ensures Valid()
      ensures state == initialState && transitions == map[] && pending.None?
    {
      state := initialState;
      transitions := map[];
      pending := None;
      timeToTransition := 0.0;
    }

    /** `Progress` of the pending transition. */
    function Progress(): (p: real)
      reads this
      ensures 0.0 <= p <= 1.0
      ensures pending.None? ==> p == 0.0
    {
      ProgressOf(pending, timeToTransition)
    }

    /**
     * `AddTransitions`: the targets are added to the set of `source`, creating the set when
     * there is a first target; nothing else changes, and an empty target list adds no entry.
     */
    method AddTransitions(source: S, targets: seq<S>)
      modifies this`transitions
      ensures |targets| == 0 ==> transitions == old(transitions)
      ensures |targets| > 0 ==> transitions == old(transitions)[source :=
        (if source in old(transitions) then old(transitions)[source] else {}) + Elements(targets)]
    {
      ghost var base := if source in transitions then transitions[source] else {};
      var i := 0;
      while i < |targets|
        invariant 0 <= i <= |targets|
        invariant i == 0 ==> transitions == old(transitions)
        invariant i > 0 ==> transitions == old(transitions)[source := base + Elements(targets[..i])]
      {
        ghost var current := if source in transitions then transitions[source] else {};
        assert current == base + Elements(targets[..i]) by {
          if i == 0 {
            assert Elements(targets[..0]) == {};
          }
        }
        if source !in transitions {
          transitions := transitions[source := {}];
        }
        transitions := transitions[source := transitions[source] + {targets[i]}];
        assert current + {targets[i]} == base + Elements(targets[..i + 1]);
        assert Elements(targets[..i + 1]) == Elements(targets[..i]) + {targets[i]} by {
          assert targets[..i + 1] == targets[..i] + [targets[i]];
        }
        i := i + 1;
      }
      assert targets[..|targets|] == targets;
    }

    /** `ResetTo`: any state, regardless of the rules; a pending transition stays pending. */
    method ResetTo(target: S)
      modifies this`state
      ensures state == target
    {
      state := target;
    }

    /** `CanGo`: never to the current state; otherwise exactly when the current state's set
        holds the target. */
    function CanGo(target: S): (can: bool)
      reads this
      ensures can <==> Allows(transitions, state, target)
    {
      if state == target then false
      else state in transitions && target in transitions[state]
    }

    /** `Go`: succeeds exactly when `CanGo`; success moves to the target and drops the
        pending transition, failure changes nothing. */
    method Go(target: S) returns (ok: bool)
      requires Valid()
      modifies this
      ensures Valid()
      ensures ok == old(CanGo(target))
      ensures Snap() == if ok then Went(old(Snap()), target) else old(Snap())
    {
      if !CanGo(target) {
        return false;
      }
      state := target;
      pending := None;
      timeToTransition := 0.0;
      ok := true;
    }

    /** `GoLater`: a disallowed target schedules nothing; an allowed one replaces whatever was
        pending, with the full delay left. */
    method GoLater(delay: real, target: S) returns (ok: bool)
      requires Valid()
      modifies this`pending, this`timeToTransition
      ensures Valid()
      ensures ok == CanGo(target)
      ensures ok ==> pending == Some(DelayedTransition(target, delay)) && timeToTransition == delay
      ensures !ok ==> pending == old(pending) && timeToTransition == old(timeToTransition)
    {
      if !CanGo(target) {
        return false;
      }
      pending := Some(DelayedTransition(target, delay));
      timeToTransition := delay;
      ok := true;
    }

    /** `Update`: counts the pending delay down by `dt` and, once it has run out, attempts the
        transition; a refused transition stays pending. */
    method Update(dt: real)
      requires Valid()
      modifies this
      ensures Valid()
      ensures Snap() == Stepped(old(Snap()), dt)
    {
      if pending.Some? {
        timeToTransition := timeToTransition - dt;
        if timeToTransition <= 0.0 {
          var _ := Go(pending.value.target);
        }
      }
    }
  }

  /** Builds a machine as a subclass constructor does: the initial state, then one
      `AddTransitions` per rule, in order. */
  method Build<S(==)>(initialState: S, rules: seq<(S, seq<S>)>) returns (m: SimpleStateMachine<S>)
    ensures fresh(m) && m.Valid()
    ensures m.state == initialState && m.pending.None? && m.transitions == RulesMap(rules)
  {
    m := new SimpleStateMachine(initialState);
    var i := 0;
    while i < |rules|
      invariant 0 <= i <= |rules|
      invariant m.Valid() && m.state == initialState && m.pending.None?
      invariant m.transitions == RulesMap(rules[..i])
    {
      assert rules[..i + 1][..i] == rules[..i];
      m.AddTransitions(rules[i].0, rules[i].1);
      i := i + 1;
    }
    assert rules[..|rules|] == rules;
  }

  /** The rules a list of `AddTransitions` calls leaves, starting from none. */
  function RulesMap<S>(rules: seq<(S, seq<S>)>): map<S, set<S>> {
    if |rules| == 0 then map[]
    else
      var prev := RulesMap(rules[..|rules| - 1]);
      var (source, targets) := rules[|rules| - 1];
      if |targets| == 0 then prev
      else prev[source := (if source in prev then prev[source] else {}) + Elements(targets)]
  }

  /** One more `AddTransitions` call adds its targets to the rules of the calls before it. */
  lemma RulesMapAppend<S>(rules: seq<(S, seq<S>)>, source: S, targets: seq<S>)
    ensures var prev := RulesMap(rules);
      RulesMap(rules + [(source, targets)]) ==
        if |targets| == 0 then prev
        else prev[source := (if source in prev then prev[source] else {}) + Elements(targets)]
  {
    assert (rules + [(source, targets)])[..|rules|] == rules;
  }
}

/**
 * The concrete machines built on `SimpleStateMachine`: the three-state test machine of the
 * unit tests, whose scenarios are restated here as methods with their expected outcomes in
 * the contracts, and Sharky's idle / patrol / wait machine.
 */
module StateMachineScenarios {
  import opened SimpleStateMachines

  /** The test machine's states: B is initial and goes to A or C; A goes to C; C is final. */
  datatype TestState = A | B | C

  /** The rules of the test machine, as its constructor adds them. */
  const TestRules: seq<(TestState, seq<TestState>)> := [(B, [A, C]), (A, [C])]

  /** The rules of the test machine, as a map. */
  lemma TestRulesMap()
    ensures RulesMap(TestRules) == map[B := {A, C}, A := {C}]
  {
    var none: seq<(TestState, seq<TestState>)> := [];
    var first := [(B, [A, C])];
    RulesMapAppend(none, B, [A, C]);
    assert none + first == first;
    var ac: set<TestState> := {} + Elements([A, C]);
    assert ac == {A, C};
    assert RulesMap(first) == map[B := ac];
    RulesMapAppend(first, A, [C]);
    assert first + [(A, [C])] == TestRules;
    var c: set<TestState> := {} + Elements([C]);
    assert c == {C};
    assert RulesMap(TestRules) == map[B := ac][A := c];
  }

  /** `TestStateMachine`: starts in B with the rules B -> A, C and A -> C. */
  method NewTestMachine() returns (m: SimpleStateMachine<TestState>)
    ensures fresh(m) && m.Valid()
    ensures m.state == B && m.pending.None? && m.transitions == map[B := {A, C}, A := {C}]
  {
    m := Build(B, TestRules);
    TestRulesMap();
  }

  /** A new machine is in its initial state. */
  method SetsDefaultStateDuringCreation() returns (s: TestState)
    ensures s == B
  {
    var m := NewTestMachine();
    s := m.state;
  }

  /** `ResetTo` reaches any state, whatever the rules. */
  method AllowsResettingToAnyStateIgnoringRules() returns (s1: TestState, s2: TestState, s3: TestState)
    ensures s1 == C && s2 == A && s3 == B
  {
    var m := NewTestMachine();
    m.ResetTo(C);
    s1 := m.state;
    m.ResetTo(A);
    s2 := m.state;
    m.ResetTo(B);
    s3 := m.state;
  }

  /** `CanGo` from each state, as the rules say, and never to the same state. */
  method ReturnsProperPermissionsForSpecificTransition()
    returns (bToA: bool, bToC: bool, bToB: bool, aToC: bool, aToB: bool, cToA: bool, cToB: bool)
    ensures bToA && bToC && !bToB
    ensures aToC && !aToB
    ensures !cToA && !cToB
  {
    var m := NewTestMachine();
    m.ResetTo(B);
    bToA, bToC, bToB := m.CanGo(A), m.CanGo(C), m.CanGo(B);
    m.ResetTo(A);
    aToC, aToB := m.CanGo(C), m.CanGo(B);
    m.ResetTo(C);
    cToA, cToB := m.CanGo(A), m.CanGo(B);
  }

  /** `Go` performs an allowed transition and refuses a disallowed one, keeping the state. */
  method GoesToAllowedStatesAndReturnsResult() returns (ok1: bool, s1: TestState, ok2: bool, s2: TestState)
    ensures ok1 && s1 == A
    ensures !ok2 && s2 == A
  {
    var m := NewTestMachine();
    m.ResetTo(B);
    ok1 := m.Go(A);
    s1 := m.state;
    ok2 := m.Go(B);
    s2 := m.state;
  }

  /** A transition scheduled 0.5 s ahead has not happened after 0.25 s and has after 0.5 s. */
  method PerformsDelayedTransition() returns (mid: TestState, final: TestState)
    ensures mid == B && final == A
  {
    var m := NewTestMachine();
    var _ := m.GoLater(0.5, A);
    m.Update(0.25);
    mid := m.state;
    m.Update(0.25);
    final := m.state;
  }

  /** A disallowed delayed transition is refused at once and never happens. */
  method ImmediatelyReturnsFalseIfDelayedTransitionIsProhibited() returns (ok: bool, s: TestState)
    ensures !ok && s == C
  {
    var m := NewTestMachine();
    m.ResetTo(C);
    ok := m.GoLater(0.5, A);
    m.Update(0.5);
    s := m.state;
  }

  /** After 0.1 s of a 0.5 s delay, the progress is 0.2. */
  method ReturnsProgressForPendingState() returns (p: real)
    ensures p == 0.2
  {
    var m := NewTestMachine();
    var _ := m.GoLater(0.5, A);
    m.Update(0.1);
    p := m.Progress();
  }

  /** Sharky's states. */
  datatype SharkyState = Idle | Patrol | Wait

  /** The rules of `SharkyStateMachine`: each state goes to both others. */
  const SharkyRules: seq<(SharkyState, seq<SharkyState>)> :=
    [(Idle, [Patrol, Wait]), (Patrol, [Idle, Wait]), (Wait, [Idle, Patrol])]

  /** Sharky may go from any state to any other, and never stays by a transition. */
  lemma SharkyAllowsEveryChange(from: SharkyState, to: SharkyState)
    ensures Allows(RulesMap(SharkyRules), from, to) <==> from != to
  {
    var none: seq<(SharkyState, seq<SharkyState>)> := [];
    var first := [(Idle, [Patrol, Wait])];
    var second := first + [(Patrol, [Idle, Wait])];
    RulesMapAppend(none, Idle, [Patrol, Wait]);
    assert none + first == first;
    var pw: set<SharkyState> := {} + Elements([Patrol, Wait]);
    assert pw == {Patrol, Wait};
    assert RulesMap(first) == map[Idle := pw];
    RulesMapAppend(first, Patrol, [Idle, Wait]);
    var iw: set<SharkyState> := {} + Elements([Idle, Wait]);
    assert iw == {Idle, Wait};
    assert RulesMap(second) == map[Idle := pw][Patrol := iw];
    RulesMapAppend(second, Wait, [Idle, Patrol]);
    assert second + [(Wait, [Idle, Patrol])] == SharkyRules;
    var ip: set<SharkyState> := {} + Elements([Idle, Patrol]);
    assert ip == {Idle, Patrol};
    assert RulesMap(SharkyRules) == map[Idle := pw][Patrol := iw][Wait := ip];
  }

  /** `SharkyStateMachine`: starts idle, with every change of state allowed. */
  method NewSharkyMachine() returns (m: SimpleStateMachine<SharkyState>)
    ensures fresh(m) && m.Valid() && m.state == Idle && m.pending.None?
    ensures forall from, to :: Allows(m.transitions, from, to) <==> from != to
  {
    m := Build(Idle, SharkyRules);
    forall from, to ensures Allows(m.transitions, from, to) <==> from != to {
      SharkyAllowsEveryChange(from, to);
    }
  }
}

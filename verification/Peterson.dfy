/** Peterson's solution to the critical section problem, looped forever by two processes, one memory
    access a step (src/60-330/peterson.c). */
module Peterson {
  import opened Runs

  type Process = i: nat | i < 2

  /** The other one of the two. */
  function Other(i: Process): Process {
    1 - i
  }

  /** The memory access a process makes next; Critical is the critical section, up to the store that
      clears the flag. */
  datatype Pc = SetFlag | SetTurn | TestFlag | TestTurn | Critical

  datatype State = State(flag: seq<bool>, turn: int, pc: seq<Pc>)

  predicate WellTyped(s: State) {
    |s.flag| == 2 && |s.pc| == 2
  }

  predicate Initial(s: State) {
    WellTyped(s) && s.flag == [false, false] && s.pc == [SetFlag, SetFlag]
  }

  function Goto(s: State, i: Process, p: Pc): State
    requires WellTyped(s)
  {
    s.(pc := s.pc[i := p])
  }

  /** The next memory access of process i. */
  function Next(s: State, i: Process): State
    requires WellTyped(s)
  {
    var j := Other(i);
    match s.pc[i]
    case SetFlag => Goto(s.(flag := s.flag[i := true]), i, SetTurn)
    case SetTurn => Goto(s.(turn := j), i, TestFlag)
    case TestFlag => Goto(s, i, if s.flag[j] then TestTurn else Critical)
    case TestTurn => Goto(s, i, if s.turn == j then TestFlag else Critical)
    case Critical => Goto(s.(flag := s.flag[i := false]), i, SetFlag)
  }

  predicate Waiting(p: Pc) {
    p == TestFlag || p == TestTurn
  }

  /** Process i has its flag set while it competes; and if it got in, the other one has not set turn
      since, or turn is in i's favour. */
  predicate Side(s: State, i: Process)
    requires WellTyped(s)
  {
    && (s.flag[i] <==> s.pc[i] != SetFlag)
    && (Waiting(s.pc[i]) || s.pc[i] == Critical ==> s.turn == 0 || s.turn == 1)
    && (s.pc[i] == Critical ==> s.pc[Other(i)] == SetFlag || s.pc[Other(i)] == SetTurn || s.turn == i)
  }

  predicate Inv(s: State) {
    WellTyped(s) && Side(s, 0) && Side(s, 1)
  }

  lemma NextKeeps(s: State, i: Process)
    requires Inv(s)
    ensures Inv(Next(s, i))
  {
    var s' := Next(s, i);
    assert Side(s, i) && Side(s, Other(i));
    assert Side(s', i) && Side(s', Other(i));
  }

  // ------------------------------------------------------------------------------ runs

  ghost predicate IsStep(s: State, i: Process, s': State) {
    WellTyped(s) && s' == Next(s, i)
  }

  ghost predicate Follow(states: seq<State>, who: seq<Process>) {
    Chain(IsStep, states, who)
  }

  ghost predicate Reachable(s: State) {
    Reaches(IsStep, Initial, s)
  }

  lemma FollowKeeps(states: seq<State>, who: seq<Process>, k: nat)
    requires Follow(states, who) && Inv(states[0]) && k < |states|
    ensures Inv(states[k])
  {
    forall s: State, i: Process, s': State | Inv(s) && IsStep(s, i, s') ensures Inv(s') {
      NextKeeps(s, i);
    }
    ChainInvariant(IsStep, states, who, Inv, k);
  }

  lemma ReachableInv(s: State)
    requires Reachable(s)
    ensures Inv(s)
  {
    forall s0: State, i: Process, s1: State | Inv(s0) && IsStep(s0, i, s1) ensures Inv(s1) {
      NextKeeps(s0, i);
    }
    ReachesInvariant(IsStep, Initial, Inv, s);
  }

  /** The two are never in the critical section at once. */
  lemma MutualExclusion(s: State)
    requires Reachable(s)
    ensures WellTyped(s) && !(s.pc[0] == Critical && s.pc[1] == Critical)
  {
    ReachableInv(s);
  }

  /** Accesses process i has left to make until it is in, when turn is in its favour. */
  function Left(p: Pc): nat {
    if p == TestFlag then 2 else if p == TestTurn then 1 else 0
  }

  /** The two are never both stuck: when both spin, turn is in the favour of one, each access of whom
      brings it nearer, and nothing the other one does takes turn away from it. */
  lemma NotBothStuck(s: State, i: Process)
    requires Reachable(s) && WellTyped(s) && Waiting(s.pc[0]) && Waiting(s.pc[1])
    ensures s.turn == 0 || s.turn == 1
    ensures s.turn == i ==>
              && Left(Next(s, i).pc[i]) < Left(s.pc[i])
                  && (Left(Next(s, i).pc[i]) == 0 ==> Next(s, i).pc[i] == Critical)
              && Next(s, Other(i)).turn == i && Next(s, Other(i)).pc[i] == s.pc[i]
                  && Waiting(Next(s, Other(i)).pc[Other(i)])
  {
    ReachableInv(s);
  }

  /** How many of the accesses are i's. */
  function Accesses(who: seq<Process>, i: Process): nat {
    if who == [] then 0 else (if who[0] == i then 1 else 0) + Accesses(who[1..], i)
  }

  /** When both spin and turn is in i's favour, i is in once it has made two accesses, or one if it has
      just seen its rival's flag, whatever the rival does meanwhile. */
  lemma {:induction false} GetsIn(states: seq<State>, who: seq<Process>, i: Process)
    requires Follow(states, who) && Reachable(states[0]) && WellTyped(states[0])
    requires Waiting(states[0].pc[0]) && Waiting(states[0].pc[1]) && states[0].turn == i
    requires Accesses(who, i) >= Left(states[0].pc[i])
    ensures exists k :: 0 <= k < |states| && WellTyped(states[k]) && states[k].pc[i] == Critical
    decreases |who|
  {
    NotBothStuck(states[0], i);
    ChainRest(IsStep, states, who);
    ReachesOn(IsStep, Initial, states[0], who[0], states[1]);
    if states[1].pc[i] != Critical {
      GetsIn(states[1..], who[1..], i);
      var k :| 0 <= k < |states[1..]| && WellTyped(states[1..][k]) && states[1..][k].pc[i] == Critical;
      assert states[k + 1].pc[i] == Critical;
    }
  }

  /** Without a rival that competes, a process gets in at its next access. */
  lemma NoRivalNoWait(s: State, i: Process)
    requires Reachable(s) && WellTyped(s) && s.pc[i] == TestFlag && s.pc[Other(i)] == SetFlag
    ensures Next(s, i).pc[i] == Critical
  {
    ReachableInv(s);
    assert Side(s, Other(i));
  }

  // ---------------------------------------------------------------------- bounded bypass

  /** How often the rival of i can still get in while i waits. */
  function MayPass(s: State, i: Process): nat
    requires WellTyped(s)
  {
    if s.turn == Other(i) && Waiting(s.pc[Other(i)]) then 1 else 0
  }

  /** The rival gets in by this step. */
  predicate Passes(s: State, s': State, i: Process)
    requires WellTyped(s) && WellTyped(s')
  {
    s.pc[Other(i)] != Critical && s'.pc[Other(i)] == Critical
  }

  lemma PassStep(s: State, who: Process, i: Process)
    requires Inv(s) && Waiting(s.pc[i]) && Waiting(Next(s, who).pc[i])
    ensures MayPass(Next(s, who), i) + (if Passes(s, Next(s, who), i) then 1 else 0) <= MayPass(s, i)
  {
    assert Side(s, i) && Side(s, Other(i));
  }

  /** How often the rival of i gets in during a run. */
  ghost function Passed(states: seq<State>, i: Process): nat
    requires forall k :: 0 <= k < |states| ==> WellTyped(states[k])
  {
    if |states| < 2 then 0
    else (if Passes(states[0], states[1], i) then 1 else 0) + Passed(states[1..], i)
  }

  lemma {:induction false} PassedBounded(states: seq<State>, who: seq<Process>, i: Process)
    requires Follow(states, who)
    requires forall k :: 0 <= k < |states| ==> WellTyped(states[k]) && Inv(states[k]) && Waiting(states[k].pc[i])
    ensures Passed(states, i) <= MayPass(states[0], i)
    decreases |states|
  {
    if |states| >= 2 {
      ChainRest(IsStep, states, who);
      PassStep(states[0], who[0], i);
      PassedBounded(states[1..], who[1..], i);
    }
  }

  /** While a process waits, having set turn, its rival gets in at most once. */
  lemma BoundedBypass(states: seq<State>, who: seq<Process>, i: Process)
    requires Follow(states, who) && Reachable(states[0])
    requires forall k :: 0 <= k < |states| ==> WellTyped(states[k]) && Waiting(states[k].pc[i])
    ensures Passed(states, i) <= 1
  {
    ReachableInv(states[0]);
    forall k | 0 <= k < |states| ensures Inv(states[k]) {
      FollowKeeps(states, who, k);
    }
    PassedBounded(states, who, i);
  }
}

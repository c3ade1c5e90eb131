/** Value iteration over the response MDP: one Jacobi-style Bellman round,
    the bounded loop with its early stop on a small change, greedy policy
    extraction, and the contraction argument that bounds how long the loop
    runs with the shipped tables. */
module MdpSolver {
  import opened MdpModel

  function Abs(x: real): real {
    if x < 0.0 then -x else x
  }

  function Max(a: real, b: real): real {
    if a >= b then a else b
  }

  /** The largest of the expected utilities of the first `n` actions. */
  function MaxQ(m: Mdp, u: Utilities, s: State, n: nat): real
    requires 1 <= n <= |AllActions|
  {
    if n == 1 then Q(m, u, s, Monitor) else Max(MaxQ(m, u, s, n - 1), Q(m, u, s, AllActions[n - 1]))
  }

  lemma MaxQIsMax(m: Mdp, u: Utilities, s: State)
    ensures forall a :: Q(m, u, s, a) <= MaxQ(m, u, s, |AllActions|)
    ensures exists a :: MaxQ(m, u, s, |AllActions|) == Q(m, u, s, a)
  {
    assert MaxQ(m, u, s, 1) == Q(m, u, s, Monitor);
    assert MaxQ(m, u, s, 2) == Max(MaxQ(m, u, s, 1), Q(m, u, s, Investigate));
    assert MaxQ(m, u, s, 3) == Max(MaxQ(m, u, s, 2), Q(m, u, s, Mitigate));
    assert MaxQ(m, u, s, 4) == Max(MaxQ(m, u, s, 3), Q(m, u, s, Recover));
    forall a
      ensures Q(m, u, s, a) <= MaxQ(m, u, s, |AllActions|)
    {
      match a
      case Monitor =>
      case Investigate =>
      case Mitigate =>
      case Recover =>
    }
  }

  /** New utility of `s` after one round: the value of the best action,
      which is the largest expected utility over all actions. */
  function Backup(m: Mdp, u: Utilities, s: State): (v: real)
    ensures forall a :: Q(m, u, s, a) <= v
    ensures exists a :: v == Q(m, u, s, a)
  {
    MaxQIsMax(m, u, s);
    MaxQ(m, u, s, |AllActions|)
  }

  /** The value the source stores, `action_values[best_action]`, is the backed-up value. */
  lemma BestActionValue(m: Mdp, u: Utilities, s: State)
    ensures Q(m, u, s, BestAction(m, u, s)) == Backup(m, u, s)
  {
    var b :| Backup(m, u, s) == Q(m, u, s, b);
    assert Q(m, u, s, b) <= Q(m, u, s, BestAction(m, u, s));
  }

  /** One round of value iteration. Every new entry is computed from `u`
      alone, never from entries already updated in the same round. */
  function Bellman(m: Mdp, u: Utilities): (v: Utilities)
    ensures forall s :: v.Get(s) == Backup(m, u, s)
  {
    Utilities(Backup(m, u, NoThreat), Backup(m, u, Suspicious), Backup(m, u, Attack), Backup(m, u, Compromised))
  }

  /** One round gives every state the largest expected utility over the
      actions, which is that of the action the source picks,
      `action_values[best_action]`. */
  lemma BellmanTakesBestAction(m: Mdp, u: Utilities)
    ensures forall s, a :: Q(m, u, s, a) <= Bellman(m, u).Get(s)
    ensures forall s :: Bellman(m, u).Get(s) == Q(m, u, s, BestAction(m, u, s))
  {
    forall s
      ensures Bellman(m, u).Get(s) == Q(m, u, s, BestAction(m, u, s))
    {
      BestActionValue(m, u, s);
    }
  }

  /** The running `delta = max(delta, abs(next[s] - prev[s]))` over the
      first `n` states, starting from 0. */
  function ChangeUpTo(prev: Utilities, next: Utilities, n: nat): real
    requires n <= |AllStates|
  {
    if n == 0 then 0.0
    else
      var s := AllStates[n - 1];
      Max(ChangeUpTo(prev, next, n - 1), Abs(next.Get(s) - prev.Get(s)))
  }

  /** The largest absolute change of any state between two vectors. */
  function MaxChange(prev: Utilities, next: Utilities): (d: real)
    ensures forall s :: Abs(next.Get(s) - prev.Get(s)) <= d
    ensures exists s :: d == Abs(next.Get(s) - prev.Get(s))
  {
    var d0 := Abs(next.noThreat - prev.noThreat);
    var d1 := Abs(next.suspicious - prev.suspicious);
    var d2 := Abs(next.attack - prev.attack);
    var d3 := Abs(next.compromised - prev.compromised);
    assert ChangeUpTo(prev, next, 1) == Max(0.0, d0);
    assert ChangeUpTo(prev, next, 2) == Max(Max(0.0, d0), d1);
    assert ChangeUpTo(prev, next, 3) == Max(Max(Max(0.0, d0), d1), d2);
    assert ChangeUpTo(prev, next, 4) == Max(Max(Max(Max(0.0, d0), d1), d2), d3);
    assert next.Get(NoThreat) - prev.Get(NoThreat) == next.noThreat - prev.noThreat;
    ChangeUpTo(prev, next, |AllStates|)
  }

  /** The value the source stores for `s`: the expected utility of the first
      best action. */
  method BackedUp(m: Mdp, prev: Utilities, s: State) returns (v: real)
    ensures v == Backup(m, prev, s)
  {
    var best := BestAction(m, prev, s);
    BestActionValue(m, prev, s);
    v := Q(m, prev, s, best);
  }

  /** One round as the source runs it: copy the vector, overwrite each state
      in turn with its backed-up value, and track the largest change. */
  method Round(m: Mdp, prev: Utilities) returns (next: Utilities, delta: real)
    ensures next == Bellman(m, prev)
    ensures delta == MaxChange(prev, next)
  {
    ghost var target := Bellman(m, prev);
    next := prev;
    delta := 0.0;
    var i := 0;
    while i < |AllStates|
      invariant 0 <= i <= |AllStates|
      invariant forall j | 0 <= j < i :: next.Get(AllStates[j]) == target.Get(AllStates[j])
      invariant forall j | i <= j < |AllStates| :: next.Get(AllStates[j]) == prev.Get(AllStates[j])
      invariant delta == ChangeUpTo(prev, target, i)
    {
      var s := AllStates[i];
      var v := BackedUp(m, prev, s);
      next := next.Set(s, v);
      delta := Max(delta, Abs(next.Get(s) - prev.Get(s)));
      i := i + 1;
    }
    assert AllStates[0] == NoThreat && AllStates[1] == Suspicious && AllStates[2] == Attack && AllStates[3] == Compromised;
    assert next.Get(NoThreat) == target.Get(NoThreat) && next.Get(Suspicious) == target.Get(Suspicious);
    assert next.Get(Attack) == target.Get(Attack) && next.Get(Compromised) == target.Get(Compromised);
  }

  /** The utility vector after `k` rounds from `u0`. */
  function Iterate(m: Mdp, u0: Utilities, k: nat): Utilities
    decreases k
  {
    if k == 0 then u0 else Iterate(m, Bellman(m, u0), k - 1)
  }

  /** Round `k + 1` applied to the vector after `k` rounds. */
  lemma {:induction false} IterateStep(m: Mdp, u0: Utilities, k: nat)
    ensures Iterate(m, u0, k + 1) == Bellman(m, Iterate(m, u0, k))
    decreases k
  {
    if k > 0 {
      IterateStep(m, Bellman(m, u0), k - 1);
    }
  }

  /** The `delta` that round `k + 1` reports. */
  function RoundChange(m: Mdp, u0: Utilities, k: nat): real {
    MaxChange(Iterate(m, u0, k), Iterate(m, u0, k + 1))
  }

  /** Stopping after `rounds` rounds is what the bounded loop does: it never
      exceeds the bound, no earlier round reported a change below `epsilon`,
      and it stops before the bound only on a round whose change is below
      `epsilon`. */
  ghost predicate StopsAfter(m: Mdp, maxIterations: nat, epsilon: real, rounds: nat) {
    && rounds <= maxIterations
    && (forall k :: 0 <= k < rounds - 1 ==> epsilon <= RoundChange(m, Zero, k))
    && (rounds < maxIterations ==> 0 < rounds && RoundChange(m, Zero, rounds - 1) < epsilon)
  }

  /** The stopping rule determines the number of rounds, so the solve is deterministic. */
  lemma StopsAfterIsUnique(m: Mdp, maxIterations: nat, epsilon: real, r1: nat, r2: nat)
    requires StopsAfter(m, maxIterations, epsilon, r1) && StopsAfter(m, maxIterations, epsilon, r2)
    ensures r1 == r2
  {
  }

  /** Runs round `k + 1`, reporting its change. */
  method NextRound(m: Mdp, u: Utilities, ghost k: nat) returns (next: Utilities, delta: real)
    requires u == Iterate(m, Zero, k)
    ensures next == Iterate(m, Zero, k + 1)
    ensures delta == RoundChange(m, Zero, k)
  {
    IterateStep(m, Zero, k);
    next, delta := Round(m, u);
  }

  /** Bounded value iteration from the all-zero vector, stopping after the
      first round whose largest change is below `epsilon`. */
  method ValueIteration(m: Mdp, maxIterations: nat, epsilon: real) returns (u: Utilities, rounds: nat)
    ensures StopsAfter(m, maxIterations, epsilon, rounds)
    ensures u == Iterate(m, Zero, rounds)
  {
    u := Zero;
    rounds := 0;
    while rounds < maxIterations
      invariant rounds <= maxIterations
      invariant u == Iterate(m, Zero, rounds)
      invariant forall k :: 0 <= k < rounds ==> epsilon <= RoundChange(m, Zero, k)
    {
      var delta;
      u, delta := NextRound(m, u, rounds);
      if delta < epsilon {
        StopsEarly(m, maxIterations, epsilon, rounds);
        return u, rounds + 1;
      }
      rounds := rounds + 1;
    }
  }

  lemma StopsEarly(m: Mdp, maxIterations: nat, epsilon: real, k: nat)
    requires k < maxIterations
    requires forall j :: 0 <= j < k ==> epsilon <= RoundChange(m, Zero, j)
    requires RoundChange(m, Zero, k) < epsilon
    ensures StopsAfter(m, maxIterations, epsilon, k + 1)
  {
  }

  /** The greedy policy of `u`: defined for every state, each entry the
      first action of maximal expected utility. */
  function GreedyPolicy(m: Mdp, u: Utilities): (p: map<State, Action>)
    ensures forall s :: s in p && IsFirstMax(m, u, s, p[s])
  {
    var p := map s | s in AllStates :: BestAction(m, u, s);
    assert forall s :: s in p && p[s] == BestAction(m, u, s) by {
      forall s ensures s in p && p[s] == BestAction(m, u, s) {
        assert AllStates[StateIndex(s)] == s;
      }
    }
    p
  }

  /** The solver's output: the policy, the utilities it was extracted from,
      and the number of rounds run. */
  datatype Solution = Solution(policy: map<State, Action>, utilities: Utilities, rounds: nat)

  /** Value iteration followed by greedy policy extraction on the final utilities. */
  method ComputeOptimalPolicy(m: Mdp, maxIterations: nat, epsilon: real) returns (sol: Solution)
    ensures StopsAfter(m, maxIterations, epsilon, sol.rounds)
    ensures sol.utilities == Iterate(m, Zero, sol.rounds)
    ensures forall s :: s in sol.policy && IsFirstMax(m, sol.utilities, s, sol.policy[s])
  {
    var u, rounds := ValueIteration(m, maxIterations, epsilon);
    sol := Solution(GreedyPolicy(m, u), u, rounds);
  }

  // ---------------------------------------------------------------------
  // Contraction: one round brings any two vectors closer by the factor gamma.

  /** For the shipped tables, next-state values that differ by at most `d`
      give expected next-state utilities that differ by at most `d`: each row
      is a convex combination. */
  lemma ShippedNextDifference(u: Utilities, v: Utilities, s: State, a: Action, d: real)
    requires Abs(u.noThreat - v.noThreat) <= d && Abs(u.suspicious - v.suspicious) <= d
    requires Abs(u.attack - v.attack) <= d && Abs(u.compromised - v.compromised) <= d
    ensures Abs(NextValue(Shipped, u, s, a) - NextValue(Shipped, v, s, a)) <= d
  {
    match a
    case Monitor => MonitorNextDifference(u, v, s, d);
    case Investigate => InvestigateNextDifference(u, v, s, d);
    case Mitigate => MitigateNextDifference(u, v, s, d);
    case Recover => RecoverNextDifference(u, v, s, d);
  }

  lemma MonitorNextDifference(u: Utilities, v: Utilities, s: State, d: real)
    requires Abs(u.noThreat - v.noThreat) <= d && Abs(u.suspicious - v.suspicious) <= d
    requires Abs(u.attack - v.attack) <= d && Abs(u.compromised - v.compromised) <= d
    ensures Abs(NextValue(Shipped, u, s, Monitor) - NextValue(Shipped, v, s, Monitor)) <= d
  {
    match s { case NoThreat => case Suspicious => case Attack => case Compromised => }
  }

  lemma InvestigateNextDifference(u: Utilities, v: Utilities, s: State, d: real)
    requires Abs(u.noThreat - v.noThreat) <= d && Abs(u.suspicious - v.suspicious) <= d
    requires Abs(u.attack - v.attack) <= d && Abs(u.compromised - v.compromised) <= d
    ensures Abs(NextValue(Shipped, u, s, Investigate) - NextValue(Shipped, v, s, Investigate)) <= d
  {
    match s { case NoThreat => case Suspicious => case Attack => case Compromised => }
  }

  lemma MitigateNextDifference(u: Utilities, v: Utilities, s: State, d: real)
    requires Abs(u.noThreat - v.noThreat) <= d && Abs(u.suspicious - v.suspicious) <= d
    requires Abs(u.attack - v.attack) <= d && Abs(u.compromised - v.compromised) <= d
    ensures Abs(NextValue(Shipped, u, s, Mitigate) - NextValue(Shipped, v, s, Mitigate)) <= d
  {
    match s { case NoThreat => case Suspicious => case Attack => case Compromised => }
  }

  lemma RecoverNextDifference(u: Utilities, v: Utilities, s: State, d: real)
    requires Abs(u.noThreat - v.noThreat) <= d && Abs(u.suspicious - v.suspicious) <= d
    requires Abs(u.attack - v.attack) <= d && Abs(u.compromised - v.compromised) <= d
    ensures Abs(NextValue(Shipped, u, s, Recover) - NextValue(Shipped, v, s, Recover)) <= d
  {
    match s { case NoThreat => case Suspicious => case Attack => case Compromised => }
  }

  lemma ShippedQ(u: Utilities, s: State, a: Action)
    ensures Q(Shipped, u, s, a) == Reward(Shipped, s, a) + 0.9 * NextValue(Shipped, u, s, a)
  {
    ShippedIsWellFormed();
    QIsRewardPlusDiscountedNext(Shipped, u, s, a);
  }

  /** Changing the next-state values by at most `d` changes an expected
      utility by at most `0.9 * d`. */
  lemma QDifference(u: Utilities, v: Utilities, s: State, a: Action)
    ensures Abs(Q(Shipped, u, s, a) - Q(Shipped, v, s, a)) <= 0.9 * MaxChange(u, v)
  {
    ShippedQ(u, s, a);
    ShippedQ(v, s, a);
    var d := MaxChange(u, v);
    assert Abs(v.Get(NoThreat) - u.Get(NoThreat)) <= d;
    assert Abs(v.Get(Suspicious) - u.Get(Suspicious)) <= d;
    assert Abs(v.Get(Attack) - u.Get(Attack)) <= d;
    assert Abs(v.Get(Compromised) - u.Get(Compromised)) <= d;
    ShippedNextDifference(u, v, s, a, d);
  }

  /** The backed-up value of a state moves by at most gamma times the largest change. */
  lemma BackupDifference(u: Utilities, v: Utilities, s: State)
    ensures Abs(Backup(Shipped, v, s) - Backup(Shipped, u, s)) <= 0.9 * MaxChange(u, v)
  {
    var a :| Backup(Shipped, u, s) == Q(Shipped, u, s, a);
    var b :| Backup(Shipped, v, s) == Q(Shipped, v, s, b);
    QDifference(u, v, s, a);
    QDifference(u, v, s, b);
    assert Q(Shipped, v, s, a) <= Backup(Shipped, v, s);
    assert Q(Shipped, u, s, b) <= Backup(Shipped, u, s);
  }

  /** A round of the shipped process is a 0.9-contraction in the largest-change distance. */
  lemma BellmanContraction(u: Utilities, v: Utilities)
    ensures MaxChange(Bellman(Shipped, u), Bellman(Shipped, v)) <= 0.9 * MaxChange(u, v)
  {
    var bu, bv := Bellman(Shipped, u), Bellman(Shipped, v);
    var s :| MaxChange(bu, bv) == Abs(bv.Get(s) - bu.Get(s));
    assert bv.Get(s) == Backup(Shipped, v, s) && bu.Get(s) == Backup(Shipped, u, s);
    BackupDifference(u, v, s);
  }

  /** One round brings any two vectors closer by the factor 0.9. */
  ghost predicate Contracting(m: Mdp) {
    forall u: Utilities, v: Utilities :: MaxChange(Bellman(m, u), Bellman(m, v)) <= 0.9 * MaxChange(u, v)
  }

  lemma ShippedIsContracting()
    ensures Contracting(Shipped)
  {
    forall u: Utilities, v: Utilities
      ensures MaxChange(Bellman(Shipped, u), Bellman(Shipped, v)) <= 0.9 * MaxChange(u, v)
    {
      BellmanContraction(u, v);
    }
  }

  /** Each round's change is at most 0.9 times the previous round's. */
  lemma RoundChangeShrinks(m: Mdp, u0: Utilities, k: nat)
    requires Contracting(m)
    ensures RoundChange(m, u0, k + 1) <= 0.9 * RoundChange(m, u0, k)
  {
    var x := Iterate(m, u0, k);
    var y := Bellman(m, x);
    var z := Bellman(m, y);
    IterateStep(m, u0, k);
    IterateStep(m, u0, k + 1);
    assert MaxChange(y, z) <= 0.9 * MaxChange(x, y);
  }

  function Power(x: real, n: nat): real {
    if n == 0 then 1.0 else x * Power(x, n - 1)
  }

  /** A nonnegative sequence of changes that shrinks by at least 0.9 per step. */
  ghost predicate ShrinksByNineTenths(c: nat -> real) {
    forall k: nat :: 0.0 <= c(k) && c(k + 1) <= 0.9 * c(k)
  }

  /** Ten such steps shrink a change by more than the factor 0.35, since 0.9^10 < 0.35. */
  lemma TenStepsShrink(c: nat -> real, k: nat)
    requires ShrinksByNineTenths(c)
    ensures c(k + 10) <= 0.35 * c(k)
  {
    assert c(k + 1) <= 0.9 * c(k);
    assert c(k + 2) <= 0.81 * c(k);
    assert c(k + 3) <= 0.729 * c(k);
    assert c(k + 4) <= 0.6561 * c(k);
    assert c(k + 5) <= 0.59049 * c(k);
    assert c(k + 6) <= 0.531441 * c(k);
    assert c(k + 7) <= 0.4782969 * c(k);
    assert c(k + 8) <= 0.43046721 * c(k);
    assert c(k + 9) <= 0.387420489 * c(k);
  }

  /** After `10 * j` steps a change that starts at most 50 is at most 50 * 0.35^j. */
  lemma {:induction false} DecadeBound(c: nat -> real, j: nat)
    requires ShrinksByNineTenths(c) && c(0) <= 50.0
    ensures c(10 * j) <= 50.0 * Power(0.35, j)
  {
    if j > 0 {
      DecadeBound(c, j - 1);
      TenStepsShrink(c, 10 * (j - 1));
      assert 10 * j == 10 * (j - 1) + 10;
    }
  }

  /** The change of a round is never negative. */
  lemma MaxChangeNonNegative(u: Utilities, v: Utilities)
    ensures 0.0 <= MaxChange(u, v)
  {
    assert Abs(v.Get(NoThreat) - u.Get(NoThreat)) <= MaxChange(u, v);
  }

  /** Every state has an action with a reward in [0, 50], and no reward exceeds 50. */
  ghost predicate RewardsWithinFifty(m: Mdp) {
    && (forall s, a :: Reward(m, s, a) <= 50.0)
    && (forall s :: 0.0 <= Reward(m, s, Monitor) || 0.0 <= Reward(m, s, Investigate)
                    || 0.0 <= Reward(m, s, Mitigate) || 0.0 <= Reward(m, s, Recover))
  }

  /** Against the zero vector an expected utility is just the immediate reward. */
  lemma QOfZero(m: Mdp, s: State, a: Action)
    requires WellFormed(m)
    ensures Q(m, Zero, s, a) == Reward(m, s, a)
  {
    QIsRewardPlusDiscountedNext(m, Zero, s, a);
  }

  /** From the zero vector the first round gives each state its best
      immediate reward, which lies in [0, 50]. */
  lemma FirstBackup(m: Mdp, s: State)
    requires WellFormed(m) && RewardsWithinFifty(m)
    ensures 0.0 <= Backup(m, Zero, s) <= 50.0
  {
    var b :| Backup(m, Zero, s) == Q(m, Zero, s, b);
    QOfZero(m, s, b);
    QOfZero(m, s, Monitor);
    QOfZero(m, s, Investigate);
    QOfZero(m, s, Mitigate);
    QOfZero(m, s, Recover);
    assert Q(m, Zero, s, Monitor) <= Backup(m, Zero, s) && Q(m, Zero, s, Investigate) <= Backup(m, Zero, s);
    assert Q(m, Zero, s, Mitigate) <= Backup(m, Zero, s) && Q(m, Zero, s, Recover) <= Backup(m, Zero, s);
  }

  /** From the zero vector the first round moves each state to its best
      immediate reward, which lies in [0, 50]. */
  lemma FirstRoundChange(m: Mdp)
    requires WellFormed(m) && RewardsWithinFifty(m)
    ensures RoundChange(m, Zero, 0) <= 50.0
  {
    forall s
      ensures 0.0 <= Backup(m, Zero, s) <= 50.0
    {
      FirstBackup(m, s);
    }
    ChangeFromZero(m);
  }

  lemma ChangeFromZero(m: Mdp)
    requires forall s :: 0.0 <= Backup(m, Zero, s) <= 50.0
    ensures RoundChange(m, Zero, 0) <= 50.0
  {
    var v := Bellman(m, Zero);
    IterateStep(m, Zero, 0);
    var s :| RoundChange(m, Zero, 0) == Abs(v.Get(s) - Zero.Get(s));
    assert v.Get(s) == Backup(m, Zero, s);
  }

  /** The changes reported by successive rounds of the shipped process. */
  ghost function ShippedChanges(k: nat): real {
    RoundChange(Shipped, Zero, k)
  }

  lemma ShippedChangesShrink()
    ensures ShrinksByNineTenths(ShippedChanges)
  {
    ShippedIsContracting();
    forall k: nat
      ensures 0.0 <= ShippedChanges(k) && ShippedChanges(k + 1) <= 0.9 * ShippedChanges(k)
    {
      MaxChangeNonNegative(Iterate(Shipped, Zero, k), Iterate(Shipped, Zero, k + 1));
      RoundChangeShrinks(Shipped, Zero, k);
    }
  }

  lemma ShippedFirstChange()
    ensures ShippedChanges(0) <= 50.0
  {
    ShippedIsWellFormed();
    FirstRoundChange(Shipped);
  }

  /** With the shipped tables the change reported by round 91 is already
      below the default epsilon of 0.01. */
  lemma ShippedChangeSmallByRound91()
    ensures RoundChange(Shipped, Zero, 90) < 0.01
  {
    ShippedChangesShrink();
    ShippedFirstChange();
    DecadeBound(ShippedChanges, 9);
    assert Power(0.35, 9) < 0.0002;
  }

  /** The engine's start-up solve: the shipped tables, the default bound of
      100 rounds and epsilon 0.01. It always stops early, within 91 rounds,
      so the "did not converge" case never arises. */
  method Initialize() returns (sol: Solution)
    ensures 0 < sol.rounds <= 91
    ensures RoundChange(Shipped, Zero, sol.rounds - 1) < 0.01
    ensures sol.utilities == Iterate(Shipped, Zero, sol.rounds)
    ensures forall s :: s in sol.policy && IsFirstMax(Shipped, sol.utilities, s, sol.policy[s])
  {
    sol := ComputeOptimalPolicy(Shipped, 100, 0.01);
    ShippedChangeSmallByRound91();
  }
}

/** The Markov decision process of the response engine: the closed state and
    action enumerations, the transition and reward tables (with the shipped
    values), and the expected utility of one action in one state.
    Probabilities and rewards are exact decimals. */
module MdpModel {

  /** Security posture, in declaration order. */
  datatype State = NoThreat | Suspicious | Attack | Compromised

  /** Response action, in declaration order (the order that breaks ties). */
  datatype Action = Monitor | Investigate | Mitigate | Recover

  const AllStates: seq<State> := [NoThreat, Suspicious, Attack, Compromised]
  const AllActions: seq<Action> := [Monitor, Investigate, Mitigate, Recover]

  /** Position of an action in the enumeration. */
  function ActionIndex(a: Action): (i: nat)
    ensures i < |AllActions| && AllActions[i] == a
  {
    match a
    case Monitor => 0
    case Investigate => 1
    case Mitigate => 2
    case Recover => 3
  }

  /** Position of a state in the enumeration. */
  function StateIndex(s: State): (i: nat)
    ensures i < |AllStates| && AllStates[i] == s
  {
    match s
    case NoThreat => 0
    case Suspicious => 1
    case Attack => 2
    case Compromised => 3
  }

  /** The tables of the process: `transitions(a, s)` is the sparse
      distribution of the next state after `a` in `s` (the source's
      `transition_probs[a][s]`), `rewards(s, a)` the reward of `a` in `s`
      (`rewards[s][a]`), and `gamma` the discount factor. Both tables are
      total over the closed enumerations. */
  datatype Mdp = Mdp(
    transitions: (Action, State) -> map<State, real>,
    rewards: (State, Action) -> real,
    gamma: real)

  /** `row.get(t, 0)`: an unlisted next state has probability 0. */
  function Entry(row: map<State, real>, t: State): real {
    if t in row then row[t] else 0.0
  }

  /** P(t | s, a). */
  function Prob(m: Mdp, a: Action, s: State, t: State): real {
    Entry(m.transitions(a, s), t)
  }

  /** R(s, a). */
  function Reward(m: Mdp, s: State, a: Action): real {
    m.rewards(s, a)
  }

  /** A row lists positive probabilities that sum to 1. */
  ghost predicate IsDistribution(row: map<State, real>) {
    && (forall t :: t in row ==> 0.0 < row[t] <= 1.0)
    && Entry(row, NoThreat) + Entry(row, Suspicious) + Entry(row, Attack) + Entry(row, Compromised) == 1.0
  }

  /** A valid configuration: every row is a distribution and 0 < gamma <= 1. */
  ghost predicate WellFormed(m: Mdp) {
    && 0.0 < m.gamma <= 1.0
    && (forall a, s :: IsDistribution(m.transitions(a, s)))
  }

  /** The shipped transition table (`transition_probs[a][s]`). */
  function ShippedTransitions(a: Action, s: State): map<State, real> {
    match a
    case Monitor => (
      match s
      case NoThreat => map[NoThreat := 0.95, Suspicious := 0.05]
      case Suspicious => map[NoThreat := 0.1, Suspicious := 0.8, Attack := 0.1]
      case Attack => map[Attack := 0.8, Compromised := 0.2]
      case Compromised => map[Compromised := 1.0])
    case Investigate => (
      match s
      case NoThreat => map[NoThreat := 0.98, Suspicious := 0.02]
      case Suspicious => map[NoThreat := 0.4, Suspicious := 0.5, Attack := 0.1]
      case Attack => map[Suspicious := 0.2, Attack := 0.7, Compromised := 0.1]
      case Compromised => map[Attack := 0.1, Compromised := 0.9])
    case Mitigate => (
      match s
      case NoThreat => map[NoThreat := 0.99, Suspicious := 0.01]
      case Suspicious => map[NoThreat := 0.7, Suspicious := 0.3]
      case Attack => map[NoThreat := 0.2, Suspicious := 0.5, Attack := 0.3]
      case Compromised => map[Attack := 0.3, Compromised := 0.7])
    case Recover => (
      match s
      case NoThreat => map[NoThreat := 0.95, Suspicious := 0.05]
      case Suspicious => map[NoThreat := 0.5, Suspicious := 0.5]
      case Attack => map[NoThreat := 0.4, Suspicious := 0.4, Attack := 0.2]
      case Compromised => map[NoThreat := 0.5, Suspicious := 0.3, Attack := 0.2])
  }

  /** The shipped reward table (`rewards[s][a]`). */
  function ShippedRewards(s: State, a: Action): real {
    match s
    case NoThreat => (
      match a
      case Monitor => 10.0
      case Investigate => -5.0
      case Mitigate => -20.0
      case Recover => -50.0)
    case Suspicious => (
      match a
      case Monitor => 0.0
      case Investigate => 15.0
      case Mitigate => -5.0
      case Recover => -30.0)
    case Attack => (
      match a
      case Monitor => -30.0
      case Investigate => 5.0
      case Mitigate => 25.0
      case Recover => 5.0)
    case Compromised => (
      match a
      case Monitor => -100.0
      case Investigate => -20.0
      case Mitigate => 5.0
      case Recover => 50.0)
  }

  /** The shipped process, discounted by 0.9. */
  const Shipped: Mdp := Mdp(ShippedTransitions, ShippedRewards, 0.9)

  /** Every shipped row is a distribution. */
  lemma ShippedRowIsDistribution(a: Action, s: State)
    ensures IsDistribution(ShippedTransitions(a, s))
  {
    match a
    case Monitor => match s { case NoThreat => case Suspicious => case Attack => case Compromised => }
    case Investigate => match s { case NoThreat => case Suspicious => case Attack => case Compromised => }
    case Mitigate => match s { case NoThreat => case Suspicious => case Attack => case Compromised => }
    case Recover => match s { case NoThreat => case Suspicious => case Attack => case Compromised => }
  }

  /** Every shipped row sums to 1 and gamma is in (0, 1]. */
  lemma ShippedIsWellFormed()
    ensures WellFormed(Shipped)
  {
    forall a, s
      ensures IsDistribution(Shipped.transitions(a, s))
    {
      ShippedRowIsDistribution(a, s);
    }
  }

  /** Probabilities of a well-formed process lie in [0, 1] and each row sums to 1. */
  lemma TransitionsAreDistributions(m: Mdp, a: Action, s: State)
    requires WellFormed(m)
    ensures forall t :: 0.0 <= Prob(m, a, s, t) <= 1.0
    ensures Prob(m, a, s, NoThreat) + Prob(m, a, s, Suspicious) + Prob(m, a, s, Attack) + Prob(m, a, s, Compromised) == 1.0
  {
    assert IsDistribution(m.transitions(a, s));
  }

  /** A utility for each of the four states. */
  datatype Utilities = Utilities(noThreat: real, suspicious: real, attack: real, compromised: real) {

    function Get(s: State): real {
      match s
      case NoThreat => noThreat
      case Suspicious => suspicious
      case Attack => attack
      case Compromised => compromised
    }

    /** This vector with the entry of `s` replaced by `v`. */
    function Set(s: State, v: real): (r: Utilities)
      ensures r.Get(s) == v
      ensures forall t :: t != s ==> r.Get(t) == Get(t)
    {
      match s
      case NoThreat => this.(noThreat := v)
      case Suspicious => this.(suspicious := v)
      case Attack => this.(attack := v)
      case Compromised => this.(compromised := v)
    }
  }

  /** The starting vector of value iteration: every state at 0. */
  const Zero: Utilities := Utilities(0.0, 0.0, 0.0, 0.0)

  /** One summand of the expected utility: a next state of probability 0 contributes nothing. */
  function Contribution(m: Mdp, u: Utilities, s: State, a: Action, t: State): real {
    var p := Prob(m, a, s, t);
    if p > 0.0 then p * (Reward(m, s, a) + m.gamma * u.Get(t)) else 0.0
  }

  /** Expected utility of taking `a` in `s` when the next states are valued
      by `u`: the source's `expected_utility += ...` loop over next states. */
  function Q(m: Mdp, u: Utilities, s: State, a: Action): real {
    SumFrom(m, u, s, a, |AllStates|)
  }

  /** The running sum of the contributions of the first `n` next states. */
  function SumFrom(m: Mdp, u: Utilities, s: State, a: Action, n: nat): real
    requires n <= |AllStates|
  {
    if n == 0 then 0.0 else SumFrom(m, u, s, a, n - 1) + Contribution(m, u, s, a, AllStates[n - 1])
  }

  lemma QUnfolded(m: Mdp, u: Utilities, s: State, a: Action)
    ensures Q(m, u, s, a) == Contribution(m, u, s, a, NoThreat) + Contribution(m, u, s, a, Suspicious)
      + Contribution(m, u, s, a, Attack) + Contribution(m, u, s, a, Compromised)
  {
    assert SumFrom(m, u, s, a, 1) == Contribution(m, u, s, a, NoThreat);
    assert SumFrom(m, u, s, a, 2) == SumFrom(m, u, s, a, 1) + Contribution(m, u, s, a, Suspicious);
    assert SumFrom(m, u, s, a, 3) == SumFrom(m, u, s, a, 2) + Contribution(m, u, s, a, Attack);
    assert SumFrom(m, u, s, a, 4) == SumFrom(m, u, s, a, 3) + Contribution(m, u, s, a, Compromised);
  }

  /** Expected next-state utility under `u` after taking `a` in `s`. */
  function NextValue(m: Mdp, u: Utilities, s: State, a: Action): real {
    Prob(m, a, s, NoThreat) * u.Get(NoThreat) + Prob(m, a, s, Suspicious) * u.Get(Suspicious)
      + Prob(m, a, s, Attack) * u.Get(Attack) + Prob(m, a, s, Compromised) * u.Get(Compromised)
  }

  lemma ContributionSplit(m: Mdp, u: Utilities, s: State, a: Action, t: State)
    requires 0.0 <= Prob(m, a, s, t)
    ensures Contribution(m, u, s, a, t) == Reward(m, s, a) * Prob(m, a, s, t) + m.gamma * (Prob(m, a, s, t) * u.Get(t))
  {
    var p, r, g, x := Prob(m, a, s, t), Reward(m, s, a), m.gamma, u.Get(t);
    assert p * (r + g * x) == r * p + g * (p * x);
  }

  /** The algebra behind `QIsRewardPlusDiscountedNext`, on plain numbers:
      summands `r * p_i + g * (p_i * x_i)` with the `p_i` summing to 1 add up
      to `r + g * (p_0 * x_0 + ... + p_3 * x_3)`. */
  lemma RegroupSum(q: real, r: real, g: real, c0: real, c1: real, c2: real, c3: real,
                   p0: real, p1: real, p2: real, p3: real, x0: real, x1: real, x2: real, x3: real)
    requires q == c0 + c1 + c2 + c3
    requires c0 == r * p0 + g * (p0 * x0) && c1 == r * p1 + g * (p1 * x1)
    requires c2 == r * p2 + g * (p2 * x2) && c3 == r * p3 + g * (p3 * x3)
    requires p0 + p1 + p2 + p3 == 1.0
    ensures q == r + g * (p0 * x0 + p1 * x1 + p2 * x2 + p3 * x3)
  {
    var y0, y1, y2, y3 := p0 * x0, p1 * x1, p2 * x2, p3 * x3;
    assert r * p0 + r * p1 + r * p2 + r * p3 == r * (p0 + p1 + p2 + p3);
    assert g * y0 + g * y1 + g * y2 + g * y3 == g * (y0 + y1 + y2 + y3);
  }

  /** Because each row is a distribution, the guarded sum equals the immediate
      reward plus the discounted expected utility of the next state. */
  lemma QIsRewardPlusDiscountedNext(m: Mdp, u: Utilities, s: State, a: Action)
    requires WellFormed(m)
    ensures Q(m, u, s, a) == Reward(m, s, a) + m.gamma * NextValue(m, u, s, a)
  {
    TransitionsAreDistributions(m, a, s);
    QRegroup(m, u, s, a);
  }

  lemma QRegroup(m: Mdp, u: Utilities, s: State, a: Action)
    requires 0.0 <= Prob(m, a, s, NoThreat) && 0.0 <= Prob(m, a, s, Suspicious)
    requires 0.0 <= Prob(m, a, s, Attack) && 0.0 <= Prob(m, a, s, Compromised)
    requires Prob(m, a, s, NoThreat) + Prob(m, a, s, Suspicious) + Prob(m, a, s, Attack) + Prob(m, a, s, Compromised) == 1.0
    ensures Q(m, u, s, a) == Reward(m, s, a) + m.gamma * NextValue(m, u, s, a)
  {
    QUnfolded(m, u, s, a);
    ContributionSplit(m, u, s, a, NoThreat);
    ContributionSplit(m, u, s, a, Suspicious);
    ContributionSplit(m, u, s, a, Attack);
    ContributionSplit(m, u, s, a, Compromised);
    RegroupSum(Q(m, u, s, a), Reward(m, s, a), m.gamma,
      Contribution(m, u, s, a, NoThreat), Contribution(m, u, s, a, Suspicious),
      Contribution(m, u, s, a, Attack), Contribution(m, u, s, a, Compromised),
      Prob(m, a, s, NoThreat), Prob(m, a, s, Suspicious), Prob(m, a, s, Attack), Prob(m, a, s, Compromised),
      u.Get(NoThreat), u.Get(Suspicious), u.Get(Attack), u.Get(Compromised));
  }

  /** `a` is the action Python's `max(values, key=values.get)` returns: its
      value is maximal and every action before it in enumeration order is
      strictly worse. */
  ghost predicate IsFirstMax(m: Mdp, u: Utilities, s: State, a: Action) {
    && (forall b :: Q(m, u, s, b) <= Q(m, u, s, a))
    && (forall b :: ActionIndex(b) < ActionIndex(a) ==> Q(m, u, s, b) < Q(m, u, s, a))
  }

  /** Scan of the actions from position `i` on, keeping the first maximum
      found so far and replacing it only by a strictly larger value. */
  function FirstMaxFrom(m: Mdp, u: Utilities, s: State, i: nat, best: Action): (r: Action)
    requires i <= |AllActions| && ActionIndex(best) < i
    requires forall b :: ActionIndex(b) < i ==> Q(m, u, s, b) <= Q(m, u, s, best)
    requires forall b :: ActionIndex(b) < ActionIndex(best) ==> Q(m, u, s, b) < Q(m, u, s, best)
    ensures IsFirstMax(m, u, s, r)
    decreases |AllActions| - i
  {
    if i == |AllActions| then
      assert forall b :: ActionIndex(b) < i;
      best
    else
      var a := AllActions[i];
      if Q(m, u, s, a) > Q(m, u, s, best) then FirstMaxFrom(m, u, s, i + 1, a)
      else FirstMaxFrom(m, u, s, i + 1, best)
  }

  /** The greedy action of `s` under `u`, ties going to the earliest action. */
  function BestAction(m: Mdp, u: Utilities, s: State): (a: Action)
    ensures IsFirstMax(m, u, s, a)
  {
    FirstMaxFrom(m, u, s, 1, Monitor)
  }

  /** The tie-break makes the greedy action unique. */
  lemma FirstMaxIsUnique(m: Mdp, u: Utilities, s: State, a: Action, b: Action)
    requires IsFirstMax(m, u, s, a) && IsFirstMax(m, u, s, b)
    ensures a == b
  {
    assert AllActions[ActionIndex(a)] == a && AllActions[ActionIndex(b)] == b;
  }
}

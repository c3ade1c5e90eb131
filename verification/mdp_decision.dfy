/** The decision side of the response MDP: classifying an event into a
    security state, looking up the policy's action, scoring the confidence of
    that choice, describing it, and logging the decision. */
module MdpDecision {
  import opened Wrappers
  import opened Common
  import opened Text
  import opened MdpModel
  import opened MdpSolver
  import opened DataStorage

  /** The event fields the classifier and the analyser read; each may be absent. */
  datatype EventData = EventData(
    sourceIp: Option<string>,
    packetCount: Option<int>,
    protocol: Option<string>,
    username: Option<string>,
    successful: Option<bool>,
    timestamp: Option<real>)

  /** Severity order of the states. */
  function Rank(s: State): nat {
    match s
    case NoThreat => 0
    case Suspicious => 1
    case Attack => 2
    case Compromised => 3
  }

  /** A network-traffic event carries both a protocol and a packet count. */
  predicate IsNetwork(e: EventData) {
    e.protocol.Some? && e.packetCount.Some?
  }

  /** A login event carries both a user name and a success flag. */
  predicate IsLogin(e: EventData) {
    e.username.Some? && e.successful.Some?
  }

  /** A source outside 192.168.x.x, a missing address counting as outside. */
  predicate IsExternal(e: EventData) {
    !StartsWith(e.sourceIp.GetOr(""), "192.168.")
  }

  /** The current state suggested by an event. Network events are judged by
      source and volume, login events by failed administrator logins, and
      anything else is treated as suspicious. */
  function ClassifyEvent(e: EventData): (s: State)
    ensures s != Compromised
    ensures s == Attack <==>
      IsNetwork(e) && IsExternal(e) && e.packetCount.value > 800 && e.protocol.value == "UDP"
    ensures s == NoThreat <==>
      || (IsNetwork(e) && e.packetCount.value <= 900 && (!IsExternal(e) || e.packetCount.value <= 500))
      || (!IsNetwork(e) && IsLogin(e) && (e.username.value != "admin" || e.successful.value))
  {
    if IsNetwork(e) then
      var count := e.packetCount.value;
      if IsExternal(e) && count > 500 then
        if e.protocol.value == "UDP" && count > 800 then Attack else Suspicious
      else if count > 900 then Suspicious
      else NoThreat
    else if IsLogin(e) then
      if e.username.value == "admin" && !e.successful.value then Suspicious else NoThreat
    else
      Suspicious
  }

  /** More packets never make a network event look less severe. */
  lemma MorePacketsNoLessSevere(e: EventData, n: int)
    requires IsNetwork(e) && e.packetCount.value <= n
    ensures Rank(ClassifyEvent(e)) <= Rank(ClassifyEvent(e.(packetCount := Some(n))))
  {
  }

  /** The same traffic from outside the local network is at least as severe
      as from inside it. */
  lemma ExternalNoLessSevere(e: EventData, ip: string)
    requires IsNetwork(e) && !IsExternal(e) && !StartsWith(ip, "192.168.")
    ensures Rank(ClassifyEvent(e)) <= Rank(ClassifyEvent(e.(sourceIp := Some(ip))))
  {
  }

  /** An event that is neither network traffic nor a login is suspicious. */
  lemma UnknownEventIsSuspicious(e: EventData)
    requires !IsNetwork(e) && !IsLogin(e)
    ensures ClassifyEvent(e) == Suspicious
  {
  }

  // ---------------------------------------------------------------------
  // Confidence

  /** `xs` without `a`, in the same order. */
  function Without(xs: seq<Action>, a: Action): (r: seq<Action>)
    ensures forall b :: b in r <==> b in xs && b != a
    ensures a !in xs ==> r == xs
    ensures a in xs && NoDuplicates(xs) ==> |r| == |xs| - 1
  {
    if xs == [] then []
    else if xs[0] == a then
      assert NoDuplicates(xs) ==> a !in xs[1..];
      Without(xs[1..], a)
    else [xs[0]] + Without(xs[1..], a)
  }

  /** The actions other than `a`, in declaration order. */
  function Others(a: Action): (r: seq<Action>)
    ensures |r| == |AllActions| - 1
    ensures forall b :: b in r <==> b != a
  {
    assert AllActions[ActionIndex(a)] == a;
    assert forall b :: b in AllActions by {
      forall b ensures b in AllActions {
        assert AllActions[ActionIndex(b)] == b;
      }
    }
    Without(AllActions, a)
  }

  /** Python's `max(xs, default=d)`. */
  function MaxOr(xs: seq<real>, d: real): (v: real)
    ensures xs == [] ==> v == d
    ensures xs != [] ==> v in xs && forall x | x in xs :: x <= v
  {
    if xs == [] then d
    else if |xs| == 1 then xs[0]
    else
      var rest := MaxOr(xs[1..], d);
      assert xs == [xs[0]] + xs[1..];
      if xs[0] >= rest then xs[0] else rest
  }

  /** The largest expected utility among the actions other than `a` (0 if there were none). */
  function SecondBest(m: Mdp, u: Utilities, s: State, a: Action): (v: real)
    ensures forall b | b != a :: Q(m, u, s, b) <= v
    ensures exists b | b != a :: v == Q(m, u, s, b)
  {
    var others := Others(a);
    var values := seq(|others|, i requires 0 <= i < |others| => Q(m, u, s, others[i]));
    var v := MaxOr(values, 0.0);
    assert forall b | b != a :: Q(m, u, s, b) <= v by {
      forall b | b != a
        ensures Q(m, u, s, b) <= v
      {
        assert b in others;
        var i :| 0 <= i < |others| && others[i] == b;
        assert values[i] == Q(m, u, s, b) && values[i] in values;
      }
    }
    var i :| 0 <= i < |values| && values[i] == v;
    assert v == Q(m, u, s, others[i]);
    v
  }

  /** Every action's expected utility is within 10^-6 of that of `a`. */
  predicate AllClose(m: Mdp, u: Utilities, s: State, a: Action) {
    forall b :: Abs(Q(m, u, s, b) - Q(m, u, s, a)) < 0.000001
  }

  /** Confidence in choosing `a` in `s`: 0.5 plus one hundredth of its lead over
      the runner-up, capped at 1, and exactly 0.5 when all actions are within
      10^-6 of each other. */
  function Confidence(m: Mdp, u: Utilities, s: State, a: Action): (c: real)
    ensures c <= 1.0
    ensures AllClose(m, u, s, a) ==> c == 0.5
    ensures !AllClose(m, u, s, a) ==>
      (c == 1.0 <==> forall b | b != a :: Q(m, u, s, b) + 50.0 <= Q(m, u, s, a))
    ensures 0.5 <= c <==> AllClose(m, u, s, a) || forall b :: Q(m, u, s, b) <= Q(m, u, s, a)
  {
    var best := Q(m, u, s, a);
    var second := SecondBest(m, u, s, a);
    var confidence := MinReal(0.5 + (best - second) / 100.0, 1.0);
    if AllClose(m, u, s, a) then 0.5 else confidence
  }

  // ---------------------------------------------------------------------
  // Descriptions

  /** The state an action is aimed at; Monitor is aimed at none. */
  function Target(a: Action): Option<State> {
    match a
    case Monitor => None
    case Investigate => Some(Suspicious)
    case Mitigate => Some(Attack)
    case Recover => Some(Compromised)
  }

  /** Whether `s` is the state `a` is aimed at. */
  predicate AimedAt(a: Action, s: State) {
    Target(a) == Some(s)
  }

  /** The seven pieces of advice the engine gives, one per description text. */
  datatype Advice =
    | ContinueMonitoring
    | InvestigateActivity
    | PrecautionaryInvestigation
    | MitigateAttack
    | PreventiveMeasures
    | InitiateRecovery
    | PrecautionaryRestoration

  /** Which advice goes with recommending `a` in state `s`. */
  function Advise(a: Action, s: State): Advice {
    match a
    case Monitor => ContinueMonitoring
    case Investigate => if s == Suspicious then InvestigateActivity else PrecautionaryInvestigation
    case Mitigate => if s == Attack then MitigateAttack else PreventiveMeasures
    case Recover => if s == Compromised then InitiateRecovery else PrecautionaryRestoration
  }

  /** The wording of each piece of advice. */
  function AdviceText(d: Advice): string {
    match d
    case ContinueMonitoring => "Continue monitoring, no significant threat detected."
    case InvestigateActivity => "Investigate suspicious activity for potential threats."
    case PrecautionaryInvestigation => "Further investigation recommended as a precautionary measure."
    case MitigateAttack => "Mitigate ongoing attack by implementing security controls."
    case PreventiveMeasures => "Apply preventative security measures to address potential threat."
    case InitiateRecovery => "Initiate recovery procedures to restore system integrity."
    case PrecautionaryRestoration => "Consider system restoration as a precautionary measure."
  }

  /** The human-readable description of recommending `a` in state `s`. */
  function Describe(a: Action, s: State): string {
    AdviceText(Advise(a, s))
  }

  /** Two recommendations get the same advice exactly when they are for the
      same action and either it is Monitor or both states agree on being the
      action's target: the advice names the action and whether it is aimed
      at the current state, and nothing else about the state. */
  lemma AdviceIdentifies(a1: Action, s1: State, a2: Action, s2: State)
    ensures Advise(a1, s1) == Advise(a2, s2) <==>
      a1 == a2 && (a1 == Monitor || AimedAt(a1, s1) == AimedAt(a2, s2))
  {
  }

  /** The length of each advice text; the seven lengths differ. */
  function TextLength(d: Advice): nat {
    match d
    case ContinueMonitoring => 52
    case InvestigateActivity => 54
    case PrecautionaryInvestigation => 61
    case MitigateAttack => 58
    case PreventiveMeasures => 65
    case InitiateRecovery => 57
    case PrecautionaryRestoration => 55
  }

  // One length per lemma: measuring several literals in one proof is far
  // more expensive for the solver than measuring each alone.
  lemma ContinueMonitoringLength()
    ensures |AdviceText(ContinueMonitoring)| == 52
  {
  }

  lemma InvestigateActivityLength()
    ensures |AdviceText(InvestigateActivity)| == 54
  {
  }

  lemma PrecautionaryInvestigationLength()
    ensures |AdviceText(PrecautionaryInvestigation)| == 61
  {
  }

  lemma MitigateAttackLength()
    ensures |AdviceText(MitigateAttack)| == 58
  {
  }

  lemma PreventiveMeasuresLength()
    ensures |AdviceText(PreventiveMeasures)| == 65
  {
  }

  lemma InitiateRecoveryLength()
    ensures |AdviceText(InitiateRecovery)| == 57
  {
  }

  lemma PrecautionaryRestorationLength()
    ensures |AdviceText(PrecautionaryRestoration)| == 55
  {
  }

  lemma TextLengths(d: Advice)
    ensures |AdviceText(d)| == TextLength(d)
  {
    match d
    case ContinueMonitoring => ContinueMonitoringLength();
    case InvestigateActivity => InvestigateActivityLength();
    case PrecautionaryInvestigation => PrecautionaryInvestigationLength();
    case MitigateAttack => MitigateAttackLength();
    case PreventiveMeasures => PreventiveMeasuresLength();
    case InitiateRecovery => InitiateRecoveryLength();
    case PrecautionaryRestoration => PrecautionaryRestorationLength();
  }

  /** Texts of different lengths differ. */
  lemma DistinctLengths(t1: string, t2: string, d1: Advice, d2: Advice)
    requires |t1| == TextLength(d1) && |t2| == TextLength(d2)
    ensures t1 == t2 ==> d1 == d2
  {
  }

  /** Different advice is worded differently. */
  lemma AdviceTextInjective(d1: Advice, d2: Advice)
    ensures AdviceText(d1) == AdviceText(d2) <==> d1 == d2
  {
    if d1 != d2 {
      TextLengths(d1);
      TextLengths(d2);
      DistinctLengths(AdviceText(d1), AdviceText(d2), d1, d2);
    }
  }

  /** Two recommendations get the same description text exactly when they
      get the same advice, as `AdviceIdentifies` characterises it. */
  lemma DescribeIdentifies(a1: Action, s1: State, a2: Action, s2: State)
    ensures Describe(a1, s1) == Describe(a2, s2) <==>
      a1 == a2 && (a1 == Monitor || AimedAt(a1, s1) == AimedAt(a2, s2))
  {
    AdviceIdentifies(a1, s1, a2, s2);
    AdviceTextInjective(Advise(a1, s1), Advise(a2, s2));
  }

  // ---------------------------------------------------------------------
  // Analysis

  /** The record the analyser stores for each decision. */
  datatype DecisionRecord = DecisionRecord(
    timestamp: real,
    eventType: string,
    currentState: State,
    recommendedAction: Action,
    expectedUtility: real,
    confidence: real)

  const DecisionCategory: string := "mdp_decision"

  /** The outcome of analysing one event: the action, its description, the
      stored record and the store after logging it. */
  datatype Analysis = Analysis(
    action: Action,
    description: string,
    record: DecisionRecord,
    storage: Storage<DecisionRecord>)

  /** Analyses an event with a solved process: classifies it, takes the
      policy's action for that state, scores it with the solved utilities,
      logs the decision and describes the action. `now` stands for the clock
      reading used when the event carries no timestamp. */
  function AnalyzeEvent(m: Mdp, sol: Solution, store: Storage<DecisionRecord>,
                        eventType: string, e: EventData, now: real): (r: Analysis)
    requires forall s :: s in sol.policy
    ensures r.record.currentState == ClassifyEvent(e)
    ensures r.action == r.record.recommendedAction == sol.policy[ClassifyEvent(e)]
    ensures r.record.timestamp == (if e.timestamp.Some? then e.timestamp.value else now)
    ensures r.record.eventType == eventType
    ensures r.record.expectedUtility == Q(m, sol.utilities, ClassifyEvent(e), r.action)
    ensures r.record.confidence == Confidence(m, sol.utilities, ClassifyEvent(e), r.action)
    ensures r.description == Describe(r.action, ClassifyEvent(e))
    ensures Records(r.storage, DecisionCategory) == Records(store, DecisionCategory) + [r.record]
    ensures forall c | c != DecisionCategory :: Records(r.storage, c) == Records(store, c)
  {
    var state := ClassifyEvent(e);
    var action := sol.policy[state];
    var record := DecisionRecord(
      e.timestamp.GetOr(now), eventType, state, action,
      Q(m, sol.utilities, state, action), Confidence(m, sol.utilities, state, action));
    Analysis(action, Describe(action, state), record, Store(store, DecisionCategory, record))
  }

  /** The policy is the greedy policy of the stored utilities, as the solver leaves it. */
  ghost predicate Consistent(m: Mdp, sol: Solution) {
    forall s :: s in sol.policy && IsFirstMax(m, sol.utilities, s, sol.policy[s])
  }

  /** With a consistent solution, the recommended action has the largest
      expected utility of all actions in the current state, its confidence
      lies in [0.5, 1], and the newest logged decision is this one. */
  lemma AnalysisIsOptimal(m: Mdp, sol: Solution, store: Storage<DecisionRecord>,
                          eventType: string, e: EventData, now: real)
    requires Consistent(m, sol)
    ensures var r := AnalyzeEvent(m, sol, store, eventType, e, now);
            && (forall a :: Q(m, sol.utilities, r.record.currentState, a) <= r.record.expectedUtility)
            && 0.5 <= r.record.confidence <= 1.0
            && RetrieveLatest(r.storage, DecisionCategory) == Some(r.record)
  {
    var r := AnalyzeEvent(m, sol, store, eventType, e, now);
    assert IsFirstMax(m, sol.utilities, r.record.currentState, r.action);
  }

  /** The engine as it starts: the shipped process solved with the default
      bound and epsilon, and an empty store. Every analysis it makes
      recommends an action of maximal expected utility. */
  method StartEngine() returns (sol: Solution, store: Storage<DecisionRecord>)
    ensures Consistent(Shipped, sol)
    ensures Records(store, DecisionCategory) == []
    ensures 0 < sol.rounds <= 91
  {
    sol := Initialize();
    store := New();
  }
}

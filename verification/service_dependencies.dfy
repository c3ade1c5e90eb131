/** The microservice dependency graph: each service lists the services that
    depend on it. A change to a service impacts everything reachable from it
    along those edges, and the severity of the change is judged from the
    criticality of the impacted services or from a list of known bad commits. */
module ServiceDependencies {
  import opened Wrappers
  import opened Common

  /** One row of the graph: a service and the services that depend on it. */
  datatype Entry<S> = Entry(service: S, dependents: seq<S>)

  /** The graph as its rows in declaration order; a dictionary never repeats
      a key, which `DistinctKeys` states. */
  type Graph<S> = seq<Entry<S>>

  predicate DistinctKeys<S(==,!new)>(g: Graph<S>) {
    forall i, j | 0 <= i < j < |g| :: g[i].service != g[j].service
  }

  function Keys<S(==,!new)>(g: Graph<S>): set<S> {
    set i | 0 <= i < |g| :: g[i].service
  }

  /** `graph.get(s, [])`: the dependents listed in the row of `s`, or none. */
  function Dependents<S(==,!new)>(g: Graph<S>, s: S): (r: seq<S>)
    ensures s !in Keys(g) ==> r == []
    ensures s in Keys(g) ==> exists i | 0 <= i < |g| :: g[i].service == s && r == g[i].dependents
  {
    if g == [] then []
    else if g[0].service == s then g[0].dependents
    else
      assert forall i | 1 <= i < |g| :: g[i].service == g[1..][i - 1].service;
      Dependents(g[1..], s)
  }

  /** With distinct keys, the row found for a key is that key's row. */
  lemma DependentsOfRow<S(!new)>(g: Graph<S>, i: nat)
    requires DistinctKeys(g) && i < |g|
    ensures Dependents(g, g[i].service) == g[i].dependents
  {
  }

  // ---------------------------------------------------------------------
  // The upstream (reverse) map
  // ---------------------------------------------------------------------

  /** `service` once for every time `k` appears among its `dependents`. */
  function Occurrences<S(==,!new)>(k: S, service: S, dependents: seq<S>): (r: seq<S>)
    ensures service in r <==> k in dependents
    ensures forall x | x in r :: x == service
  {
    if dependents == [] then []
    else (if dependents[0] == k then [service] else []) + Occurrences(k, service, dependents[1..])
  }

  /** What `k` depends on: the services, in row order, whose dependents list
      `k`, one copy per mention. This is the list the reverse-map loop builds
      for `k`. */
  function UpstreamOf<S(==,!new)>(g: Graph<S>, k: S): (r: seq<S>)
    ensures forall x :: x in r <==> exists i | 0 <= i < |g| :: g[i].service == x && k in g[i].dependents
  {
    if g == [] then []
    else
      var rest := UpstreamOf(g[1..], k);
      assert forall i | 1 <= i < |g| :: g[i] == g[1..][i - 1];
      Occurrences(k, g[0].service, g[0].dependents) + rest
  }

  /** The reverse map: the same keys in the same order, each with what it
      depends on. */
  function BuildUpstream<S(==,!new)>(g: Graph<S>): (r: Graph<S>)
    ensures |r| == |g|
    ensures forall i | 0 <= i < |g| :: r[i].service == g[i].service
    ensures forall i | 0 <= i < |g| :: r[i].dependents == UpstreamOf(g, g[i].service)
  {
    seq(|g|, i requires 0 <= i < |g| => Entry(g[i].service, UpstreamOf(g, g[i].service)))
  }

  /** The reverse map has the graph's keys, each once. */
  lemma UpstreamKeys<S(!new)>(g: Graph<S>)
    requires DistinctKeys(g)
    ensures Keys(BuildUpstream(g)) == Keys(g)
    ensures DistinctKeys(BuildUpstream(g))
  {
    var up := BuildUpstream(g);
    forall y ensures y in Keys(up) <==> y in Keys(g) {
      if y in Keys(g) {
        var i :| 0 <= i < |g| && g[i].service == y;
        assert up[i].service == y;
      }
    }
  }

  /** The reverse map inverts the graph: `x` is upstream of the key `d`
      exactly when `x` is a key whose row lists `d`. */
  lemma UpstreamInverts<S(!new)>(g: Graph<S>, x: S, d: S)
    requires DistinctKeys(g)
    requires d in Keys(g)
    ensures x in Dependents(BuildUpstream(g), d) <==> x in Keys(g) && d in Dependents(g, x)
  {
    var up := BuildUpstream(g);
    UpstreamKeys(g);
    var j :| 0 <= j < |g| && g[j].service == d;
    DependentsOfRow(up, j);
    assert Dependents(up, d) == UpstreamOf(g, d);
    if x in Keys(g) {
      var i :| 0 <= i < |g| && g[i].service == x;
      DependentsOfRow(g, i);
    }
  }

  // ---------------------------------------------------------------------
  // Downstream impacts
  // ---------------------------------------------------------------------

  /** `p` follows dependency edges from its first service to its last. */
  ghost predicate IsPath<S(!new)>(g: Graph<S>, p: seq<S>) {
    && |p| >= 1
    && forall i | 0 <= i < |p| - 1 :: p[i + 1] in Dependents(g, p[i])
  }

  /** `to` is reached from `from` along zero or more dependency edges. */
  ghost predicate Reachable<S(!new)>(g: Graph<S>, from: S, to: S) {
    exists p :: IsPath(g, p) && p[0] == from && p[|p| - 1] == to
  }

  /** A reachable service's dependents are reachable too. */
  lemma ReachableStep<S(!new)>(g: Graph<S>, from: S, x: S, d: S)
    requires Reachable(g, from, x) && d in Dependents(g, x)
    ensures Reachable(g, from, d)
  {
    var p :| IsPath(g, p) && p[0] == from && p[|p| - 1] == x;
    var q := p + [d];
    assert forall i | 0 <= i < |p| :: q[i] == p[i];
    assert IsPath(g, q);
  }

  /** A set closed under dependency edges holds everything reachable from
      its members. */
  lemma {:induction false} ClosedHoldsReachable<S(!new)>(g: Graph<S>, closed: set<S>, p: seq<S>)
    requires ClosedModulo(g, closed, [])
    requires IsPath(g, p) && p[0] in closed
    ensures p[|p| - 1] in closed
    decreases |p|
  {
    if |p| > 1 {
      var q := p[..|p| - 1];
      assert IsPath(g, q) by {
        assert forall i | 0 <= i < |q| :: q[i] == p[i];
      }
      ClosedHoldsReachable(g, closed, q);
      assert p[|p| - 1] in Dependents(g, p[|p| - 2]);
    }
  }

  /** Every service the graph mentions: its keys and everything they list. */
  function Mentioned<S(==,!new)>(g: Graph<S>): (r: set<S>)
    ensures forall i, d | 0 <= i < |g| && d in g[i].dependents :: d in r
  {
    if g == [] then {}
    else
      assert forall i | 1 <= i < |g| :: g[i] == g[1..][i - 1];
      (set d | d in g[0].dependents) + Mentioned(g[1..])
  }

  /** Everything visited or still to visit is reachable from `start`. */
  ghost predicate AllReachable<S(!new)>(g: Graph<S>, start: S, visited: set<S>, stack: seq<S>) {
    && (forall x | x in visited :: Reachable(g, start, x))
    && (forall x | x in stack :: Reachable(g, start, x))
  }

  /** Every dependent of a visited service is visited or still to visit. */
  ghost predicate ClosedModulo<S(!new)>(g: Graph<S>, visited: set<S>, stack: seq<S>) {
    forall v, d | v in visited && d in Dependents(g, v) :: d in visited || d in stack
  }

  /** Popping an already visited service keeps the search invariant. */
  lemma SkipKeepsInvariant<S(!new)>(g: Graph<S>, start: S, visited: set<S>, stack: seq<S>, rest: seq<S>)
    requires stack != [] && rest == stack[..|stack| - 1] && stack[|stack| - 1] in visited
    requires AllReachable(g, start, visited, stack) && ClosedModulo(g, visited, stack)
    ensures AllReachable(g, start, visited, rest) && ClosedModulo(g, visited, rest)
  {
    assert forall y | y in stack :: y in rest || y == stack[|stack| - 1];
    assert forall y | y in rest :: y in stack;
  }

  /** Visiting a new service and scheduling its dependents keeps the search
      invariant. */
  lemma VisitKeepsInvariant<S(!new)>(g: Graph<S>, start: S, visited: set<S>, stack: seq<S>, rest: seq<S>)
    requires stack != [] && rest == stack[..|stack| - 1]
    requires AllReachable(g, start, visited, stack) && ClosedModulo(g, visited, stack)
    ensures var x := stack[|stack| - 1];
      && AllReachable(g, start, visited + {x}, rest + Dependents(g, x))
      && ClosedModulo(g, visited + {x}, rest + Dependents(g, x))
  {
    var x := stack[|stack| - 1];
    var ds := Dependents(g, x);
    var next := rest + ds;
    assert forall y | y in stack :: y in rest || y == x;
    assert forall y | y in next :: y in rest || y in ds;
    assert forall y | y in rest :: y in stack;
    forall d | d in ds ensures Reachable(g, start, d) {
      ReachableStep(g, start, x, d);
    }
  }

  lemma AppendFresh<S(!new)>(xs: seq<S>, x: S)
    requires NoDuplicates(xs) && x !in xs
    ensures NoDuplicates(xs + [x])
  {
  }

  /** `get_downstream_impacts(service)`: every service a change to `service`
      reaches, without `service` itself and without repeats, in the order a
      depth-first search first meets them; nothing at all if `service` is not
      a key of the graph. */
  method DownstreamImpacts<S(==,!new)>(g: Graph<S>, service: S) returns (r: seq<S>)
    ensures service !in Keys(g) ==> r == []
    ensures NoDuplicates(r)
    ensures service in Keys(g) ==>
      forall x :: x in r <==> x != service && Reachable(g, service, x)
  {
    if service !in Keys(g) {
      return [];
    }
    var universe := Mentioned(g) + {service};
    var visited: set<S> := {};
    var order: seq<S> := [];
    var stack: seq<S> := [service];
    assert IsPath(g, [service]);
    while stack != []
      invariant forall x :: x in visited <==> x in order
      invariant NoDuplicates(order)
      invariant visited <= universe
      invariant forall x | x in stack :: x in universe
      invariant (order == [] && stack == [service]) || (order != [] && order[0] == service)
      invariant AllReachable(g, service, visited, stack)
      invariant ClosedModulo(g, visited, stack)
      decreases |universe - visited|, |stack|
    {
      var x := stack[|stack| - 1];
      var rest := stack[..|stack| - 1];
      if x in visited {
        SkipKeepsInvariant(g, service, visited, stack, rest);
        stack := rest;
      } else {
        var ds := Dependents(g, x);
        VisitKeepsInvariant(g, service, visited, stack, rest);
        assert forall d | d in ds :: d in universe;
        assert universe - (visited + {x}) < universe - visited by {
          assert x in universe - visited;
        }
        AppendFresh(order, x);
        visited := visited + {x};
        order := order + [x];
        stack := rest + ds;
      }
    }
    forall x | x != service && Reachable(g, service, x) ensures x in order {
      var p :| IsPath(g, p) && p[0] == service && p[|p| - 1] == x;
      ClosedHoldsReachable(g, visited, p);
    }
    r := order[1..];
    assert forall x :: x in order <==> x == service || x in r;
  }

  // ---------------------------------------------------------------------
  // Impact severity
  // ---------------------------------------------------------------------

  datatype Severity = Low | Medium | High | Critical

  /** A commit known to be problematic, with the services it affects. */
  datatype Issue<S> = Issue(description: string, severity: Severity, affected: seq<S>)

  /** The tables severity is judged from: the graph, each service's
      criticality on a 0 to 10 scale, and the known bad commits by SHA. */
  datatype Dependencies<S> = Dependencies(
    graph: Graph<S>,
    criticality: map<S, int>,
    knownIssues: map<string, Issue<S>>)

  /** Why a change got its severity: a known issue's description, or the
      number of downstream services it impacts. */
  datatype Reason = KnownIssue(description: string) | ImpactsDownstream(count: nat)

  datatype Impact<S> = Impact(severity: Severity, reason: Reason, affected: seq<S>, score: real)

  /** `service_criticality.get(s, 5)`. */
  function Criticality<S(==,!new)>(deps: Dependencies<S>, s: S): int {
    if s in deps.criticality then deps.criticality[s] else 5
  }

  function CriticalitySum<S(==,!new)>(deps: Dependencies<S>, xs: seq<S>): int {
    if xs == [] then 0 else Criticality(deps, xs[0]) + CriticalitySum(deps, xs[1..])
  }

  /** A sum of values between `lo` and `hi` lies between `n * lo` and `n * hi`. */
  lemma {:induction false} CriticalitySumBounds<S(!new)>(deps: Dependencies<S>, xs: seq<S>, lo: int, hi: int)
    requires forall x | x in xs :: lo <= Criticality(deps, x) <= hi
    ensures |xs| * lo <= CriticalitySum(deps, xs) <= |xs| * hi
  {
    if xs != [] {
      assert forall x | x in xs[1..] :: x in xs;
      CriticalitySumBounds(deps, xs[1..], lo, hi);
      assert xs[0] in xs && |xs| == |xs[1..]| + 1;
      Distribute(|xs[1..]|, lo);
      Distribute(|xs[1..]|, hi);
    }
  }

  /** Every criticality, listed or defaulted, is on the 0 to 10 scale. */
  ghost predicate CriticalityInRange<S(!new)>(deps: Dependencies<S>) {
    forall s | s in deps.criticality :: 0 <= deps.criticality[s] <= 10
  }

  /** The score of a list of impacted services: their mean criticality capped
      at 10, or 0 when nothing is impacted. */
  function ImpactScore<S(==,!new)>(deps: Dependencies<S>, impacted: seq<S>): real {
    if impacted == [] then 0.0
    else
      var mean := CriticalitySum(deps, impacted) as real / |impacted| as real;
      if 10.0 <= mean then 10.0 else mean
  }

  /** A total of `n` values between `lo` and `hi` has its mean between them. */
  lemma MeanBounds(sum: int, n: nat, lo: int, hi: int)
    requires 0 < n && n * lo <= sum <= n * hi
    ensures lo as real <= sum as real / n as real <= hi as real
  {
    var m := sum as real / n as real;
    assert sum as real == m * n as real;
    assert (sum - n * lo) as real == (m - lo as real) * n as real;
    assert (n * hi - sum) as real == (hi as real - m) * n as real;
    PositiveFactor(m - lo as real, n as real);
    PositiveFactor(hi as real - m, n as real);
  }

  lemma PositiveFactor(x: real, n: real)
    requires 0.0 < n && 0.0 <= x * n
    ensures 0.0 <= x
  {
  }

  lemma Distribute(n: int, c: int)
    ensures (n + 1) * c == n * c + c
  {
  }

  /** On the 0 to 10 criticality scale the score stays on that scale, and it
      lies between the least and the greatest criticality impacted. */
  lemma ScoreInRange<S(!new)>(deps: Dependencies<S>, impacted: seq<S>, lo: int, hi: int)
    requires 0 <= lo <= hi
    requires forall x | x in impacted :: lo <= Criticality(deps, x) <= hi
    ensures 0.0 <= ImpactScore(deps, impacted) <= 10.0
    ensures impacted != [] ==> (if 10 <= lo then 10 else lo) as real <= ImpactScore(deps, impacted) <= hi as real
  {
    if impacted != [] {
      CriticalitySumBounds(deps, impacted, lo, hi);
      MeanBounds(CriticalitySum(deps, impacted), |impacted|, lo, hi);
    }
  }

  /** The severity band of a score. */
  function Band(score: real): (b: Severity)
    ensures b == High <==> 8.0 <= score
    ensures b == Medium <==> 5.0 <= score < 8.0
    ensures b == Low <==> score < 5.0
  {
    if score >= 8.0 then High
    else if score >= 5.0 then Medium
    else Low
  }

  /** The known issue of `sha` that names `service`, if there is one. */
  function KnownIssueFor<S(==,!new)>(deps: Dependencies<S>, service: S, sha: Option<string>): (r: Option<Issue<S>>)
    ensures r.Some? <==> && sha.Some? && sha.value != "" && sha.value in deps.knownIssues
                          && service in deps.knownIssues[sha.value].affected
    ensures r.Some? ==> r.value == deps.knownIssues[sha.value]
  {
    if sha.Some? && sha.value != "" && sha.value in deps.knownIssues
       && service in deps.knownIssues[sha.value].affected
    then Some(deps.knownIssues[sha.value])
    else None
  }

  /** `get_impact_severity(service, commit_sha)`. A known bad commit naming
      the service decides the result outright at the top score; otherwise
      the downstream services are scored by criticality and banded. */
  method ImpactSeverity<S(==,!new)>(deps: Dependencies<S>, service: S, sha: Option<string>) returns (r: Impact<S>)
    ensures KnownIssueFor(deps, service, sha).Some? ==>
      var issue := KnownIssueFor(deps, service, sha).value;
      r == Impact(issue.severity, KnownIssue(issue.description), issue.affected, 10.0)
    ensures KnownIssueFor(deps, service, sha).None? ==>
      && (service !in Keys(deps.graph) ==> r.affected == [])
      && NoDuplicates(r.affected)
      && (forall x :: x in r.affected <==> service in Keys(deps.graph) && x != service && Reachable(deps.graph, service, x))
      && r.reason == ImpactsDownstream(|r.affected|)
      && r.score == ImpactScore(deps, r.affected)
      && r.severity == Band(r.score)
      && (CriticalityInRange(deps) ==> 0.0 <= r.score <= 10.0)
  {
    var issue := KnownIssueFor(deps, service, sha);
    if issue.Some? {
      return Impact(issue.value.severity, KnownIssue(issue.value.description), issue.value.affected, 10.0);
    }
    var impacted := DownstreamImpacts(deps.graph, service);
    if CriticalityInRange(deps) {
      ScoreInRange(deps, impacted, 0, 10);
    }
    var score := ImpactScore(deps, impacted);
    r := Impact(Band(score), ImpactsDownstream(|impacted|), impacted, score);
  }

  /** A service nothing depends on impacts nothing. */
  lemma NoDependentsNoImpact<S(!new)>(g: Graph<S>, service: S, x: S)
    requires Dependents(g, service) == []
    ensures Reachable(g, service, x) ==> x == service
  {
    if Reachable(g, service, x) {
      var p :| IsPath(g, p) && p[0] == service && p[|p| - 1] == x;
      ClosedHoldsReachable(g, {service}, p);
    }
  }

  // ---------------------------------------------------------------------
  // The shipped architecture
  // ---------------------------------------------------------------------

  /** The ten services of the shipped architecture, which the source keys
      by their display names ("Auth Service", "API Gateway", ...). */
  datatype Service =
    | AuthService | ApiGateway | UserService | PaymentService | DatabaseService
    | NotificationService | OrderService | WebFrontend | MobileApp | LoggingService

  /** The row of each service in the shipped graph. */
  function ServiceIndex(s: Service): nat {
    match s
    case AuthService => 0
    case ApiGateway => 1
    case UserService => 2
    case PaymentService => 3
    case DatabaseService => 4
    case NotificationService => 5
    case OrderService => 6
    case WebFrontend => 7
    case MobileApp => 8
    case LoggingService => 9
  }

  const ShippedGraph: Graph<Service> := [
    Entry(AuthService, [ApiGateway, UserService, PaymentService]),
    Entry(ApiGateway, [WebFrontend, MobileApp]),
    Entry(UserService, [ApiGateway, NotificationService]),
    Entry(PaymentService, [ApiGateway, OrderService]),
    Entry(DatabaseService, [AuthService, UserService, PaymentService, OrderService]),
    Entry(NotificationService, [WebFrontend, MobileApp]),
    Entry(OrderService, [ApiGateway, WebFrontend]),
    Entry(WebFrontend, []),
    Entry(MobileApp, []),
    Entry(LoggingService, [AuthService, ApiGateway, UserService, PaymentService,
                           DatabaseService, NotificationService, OrderService])
  ]

  const ShippedCriticality: map<Service, int> := map[
    AuthService := 10, ApiGateway := 9, DatabaseService := 10, UserService := 7,
    PaymentService := 9, OrderService := 8, NotificationService := 5,
    WebFrontend := 7, MobileApp := 7, LoggingService := 4]

  const ShippedIssues: map<string, Issue<Service>> := map[
    "a1b2c3d4e5f6a1b2c3d4e5f6a1b2c3d4e5f6a1b2" :=
      Issue("Known security vulnerability", Critical, [AuthService, ApiGateway])]

  const Shipped: Dependencies<Service> := Dependencies(ShippedGraph, ShippedCriticality, ShippedIssues)

  /** The shipped tables are well formed: one row per service, and every
      criticality on the 0 to 10 scale. */
  lemma ShippedIsWellFormed()
    ensures DistinctKeys(ShippedGraph)
    ensures forall s: Service :: s in Keys(ShippedGraph)
    ensures CriticalityInRange(Shipped)
  {
    assert forall i | 0 <= i < |ShippedGraph| :: ServiceIndex(ShippedGraph[i].service) == i;
    forall s: Service ensures s in Keys(ShippedGraph) {
      assert s == ShippedGraph[ServiceIndex(s)].service;
    }
  }

  /** The dependents of each shipped service are those of its row. */
  lemma ShippedDependents(s: Service)
    ensures Dependents(ShippedGraph, s) == ShippedGraph[ServiceIndex(s)].dependents
  {
    ShippedIsWellFormed();
    DependentsOfRow(ShippedGraph, ServiceIndex(s));
  }

  /** The front ends are leaves: a change to one impacts nothing else and is
      judged low. */
  lemma FrontEndsAreLeaves(s: Service, x: Service)
    requires s == WebFrontend || s == MobileApp
    ensures Reachable(ShippedGraph, s, x) ==> x == s
    ensures Band(ImpactScore(Shipped, [])) == Low
  {
    ShippedDependents(s);
    NoDependentsNoImpact(ShippedGraph, s, x);
  }
}

/** Bayesian scoring of a login attempt: a base rate of attacks is adjusted
    for risky features of the attempt, and Bayes' rule turns the adjusted
    prior into the probability that an alerting attempt is a real attack. */
module BayesianIds {
  import opened Wrappers
  import opened Text
  import DataStorage

  /** The base rate of attacks among login attempts. */
  const BaseRate: real := 0.02
  /** How often the detector alerts on a real attack. */
  const TruePositiveRate: real := 0.9
  /** How often the detector alerts on a harmless attempt. */
  const FalsePositiveRate: real := 0.1
  /** No adjusted prior exceeds this. */
  const PriorCap: real := 0.95

  /** The fields of a login attempt the scorer reads, each possibly absent. */
  datatype LoginData = LoginData(
    sourceIp: Option<string>,
    username: Option<string>,
    successful: Option<bool>,
    timestamp: Option<real>)

  /** The attempt comes from the 10.x.x.x range. */
  predicate FromTenNet(d: LoginData) {
    StartsWith(d.sourceIp.GetOr(""), "10.")
  }

  /** The attempt targets the administrator account. */
  predicate TargetsAdmin(d: LoginData) {
    d.username == Some("admin")
  }

  /** The attempt failed; a missing outcome counts as a success. */
  predicate Failed(d: LoginData) {
    !d.successful.GetOr(true)
  }

  /** The factor one feature multiplies the prior by. */
  function Factor(present: bool, factor: real): real {
    if present then factor else 1.0
  }

  /** The prior probability of attack for this attempt: the base rate raised
      by half for 10.x sources, doubled for the administrator account and
      tripled for failures, then capped. The cap never binds: the largest
      prior the factors reach is 0.18. */
  function AdjustedPrior(d: LoginData): (p: real)
    ensures p == BaseRate * Factor(FromTenNet(d), 1.5) * Factor(TargetsAdmin(d), 2.0) * Factor(Failed(d), 3.0)
    ensures BaseRate <= p <= 0.18
  {
    var p := BaseRate;
    var p := if FromTenNet(d) then p * 1.5 else p;
    var p := if TargetsAdmin(d) then p * 2.0 else p;
    var p := if Failed(d) then p * 3.0 else p;
    if p <= PriorCap then p else PriorCap
  }

  /** A failed attempt has a strictly higher prior than the same attempt
      succeeding. */
  lemma FailureRaisesPrior(d: LoginData)
    ensures AdjustedPrior(d.(successful := Some(true))) < AdjustedPrior(d.(successful := Some(false)))
  {
  }

  /** The probability of an alert, by the law of total probability. */
  function AlertProbability(p: real): (r: real)
    requires 0.0 <= p <= 1.0
    ensures 0.1 <= r <= 0.9
  {
    TruePositiveRate * p + FalsePositiveRate * (1.0 - p)
  }

  /** The probability of attack given an alert, by Bayes' rule. */
  function Posterior(p: real): (r: real)
    requires 0.0 <= p <= 1.0
    ensures r * AlertProbability(p) == TruePositiveRate * p
  {
    TruePositiveRate * p / AlertProbability(p)
  }

  /** An alert multiplies the odds of attack by the likelihood ratio 9; so
      for a prior strictly between 0 and 1 the posterior is strictly between
      the prior and 1. */
  lemma PosteriorOdds(p: real)
    requires 0.0 < p < 1.0
    ensures 0.0 < Posterior(p) < 1.0
    ensures p < Posterior(p)
    ensures Posterior(p) / (1.0 - Posterior(p)) == 9.0 * (p / (1.0 - p))
  {
    var a := AlertProbability(p);
    var r := Posterior(p);
    assert r * a == 0.9 * p;
    assert (1.0 - r) * a == 0.1 * (1.0 - p);
    assert 0.0 < r by {
      PositiveQuotient(r, a, 0.9 * p);
    }
    assert 0.0 < 1.0 - r by {
      PositiveQuotient(1.0 - r, a, 0.1 * (1.0 - p));
    }
    assert p < r by {
      assert (r - p) * a == 0.8 * p * (1.0 - p);
      PositiveQuotient(r - p, a, 0.8 * p * (1.0 - p));
    }
    OddsRatio(r, 1.0 - r, a, p);
  }

  lemma PositiveQuotient(x: real, a: real, y: real)
    requires 0.0 < a && 0.0 < y && x * a == y
    ensures 0.0 < x
  {
  }

  lemma ProductPositive(a: real, b: real)
    requires 0.0 < a && 0.0 < b
    ensures 0.0 < a * b
  {
  }

  lemma OddsRatio(r: real, s: real, a: real, p: real)
    requires 0.0 < a && 0.0 < s && 0.0 < p < 1.0
    requires r * a == 0.9 * p && s * a == 0.1 * (1.0 - p)
    ensures r / s == 9.0 * (p / (1.0 - p))
  {
    assert r / s == (r * a) / (s * a);
  }

  /** A larger prior gives a strictly larger posterior. */
  lemma PosteriorIncreasing(p: real, q: real)
    requires 0.0 <= p < q <= 1.0
    ensures Posterior(p) < Posterior(q)
  {
    var a := AlertProbability(p);
    var b := AlertProbability(q);
    var rp := Posterior(p);
    var rq := Posterior(q);
    assert rp * a == 0.9 * p && rq * b == 0.9 * q;
    assert (rq - rp) * (a * b) == 0.09 * (q - p) by {
      assert (rq - rp) * (a * b) == (rq * b) * a - (rp * a) * b;
    }
    ProductPositive(a, b);
    PositiveQuotient(rq - rp, a * b, 0.09 * (q - p));
  }

  /** What the scorer logs for each attempt. */
  datatype LoginRecord = LoginRecord(timestamp: real, username: string, sourceIp: string, attackProbability: real)

  const LoginCategory: string := "login_analysis"

  /** `analyze_login_attempt`: the probability that the attempt is an attack
      given that it raised an alert, and the store with that result logged. */
  function AnalyzeLoginAttempt(store: DataStorage.Storage<LoginRecord>, d: LoginData)
    : (r: (real, DataStorage.Storage<LoginRecord>))
    ensures r.0 == Posterior(AdjustedPrior(d))
    ensures AdjustedPrior(d) < r.0 < 1.0
    ensures DataStorage.Records(r.1, LoginCategory) ==
      DataStorage.Records(store, LoginCategory) +
      [LoginRecord(d.timestamp.GetOr(0.0), d.username.GetOr(""), d.sourceIp.GetOr(""), r.0)]
    ensures forall c | c != LoginCategory :: DataStorage.Records(r.1, c) == DataStorage.Records(store, c)
  {
    var p := AdjustedPrior(d);
    var prob := Posterior(p);
    PosteriorOdds(p);
    (prob, DataStorage.Store(store, LoginCategory,
       LoginRecord(d.timestamp.GetOr(0.0), d.username.GetOr(""), d.sourceIp.GetOr(""), prob)))
  }

  /** The riskiest attempt, a failed administrator login from 10.x.x.x, has
      posterior 81/122, and the most harmless one 9/58. */
  lemma ExtremePosteriors()
    ensures Posterior(0.18) == 81.0 / 122.0
    ensures Posterior(0.02) == 9.0 / 58.0
  {
  }
}

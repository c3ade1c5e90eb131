# Cybersecurity decision engine — Dafny model

This project models the decision core of a small cybersecurity monitoring
application and proves properties of that model. The core has six parts:

- **Response MDP.** A Markov decision process over four security states
  (no threat, suspicious, attack, compromised) and four responses (monitor,
  investigate, mitigate, recover). Bounded value iteration solves it, and a
  greedy policy is read off with ties going to the first action. An event
  classifier maps raw events to a state. The engine then recommends the
  policy's action, with a confidence score and a description, and logs the
  decision.
- **Service dependency graph.** The reverse (upstream) map. The downstream
  impact of a change, computed by a depth-first search. A severity score:
  the capped mean criticality of the impacted services, overridden by a list
  of known bad commits.
- **Categorised log.** The in-memory store every analyser appends to:
  `store`, `retrieve` and `retrieve_latest`.
- **Git activity heuristics.** Working hours, sensitive paths, and additive
  risk scores for pushes, clones and branch events, banded into low, medium
  or high.
- **Bayesian login scorer.** A prior adjusted by the features of the
  attempt, and the posterior by Bayes' rule.
- **Bayesian traffic scorer.** Conditional probability tables and their
  weighted combination.

Modules follow the source files:

| module | file |
|---|---|
| `MdpModel`, `MdpSolver`, `MdpDecision` | `markov_process.py` |
| `ServiceDependencies` | `service_dependencies.py` |
| `DataStorage` | `data_storage.py` |
| `GitMonitor` | `git_monitor.py` |
| `BayesianIds` | `bayesian_ids.py` |
| `BayesianNetwork` | `bayesian_network.py` |

`Wrappers` (`Option`, `Result`), `Text` (prefix and substring tests,
first line, ASCII lower-casing) and `Common` (`MinReal`, `NoDuplicates`) are
shared helpers.

All probabilities, rewards and scores are exact `real`s. The source's
decimal constants are therefore modelled without rounding.

Facts about the code that a reader might not expect:

- **Confidence.** The docstring and comments of `_calculate_confidence`
  (`markov_process.py` lines 277, 284 and 316) say the confidence lies
  between 0.5 and 1.0. The code at line 317 computes
  `min(0.5 + advantage / 100, 1)` with no lower clamp, so the value falls
  under 0.5 when the scored action is not a best one. The model follows the
  code, and `Confidence` states exactly when it is at least 0.5.
- **Malformed events.** Missing fields take the source's defaults: a
  missing source address counts as `''` (external), a missing login outcome
  as a success, and so on. No event is rejected.
- **Table sums.** They are not checked at start-up. `ShippedIsWellFormed`
  proves them for the shipped tables.
- **Iteration bound.** Value iteration stops silently at the bound and
  keeps the last vector.
- **Unknown table keys.** In the traffic scorer an unknown volume or
  protocol raises a key error. It is modelled as a `Failure` result.

Two comments in `bayesian_ids.py` disagree with its code, and the model
follows the code. The code raises the prior for `10.` addresses, which the
comment calls external. It caps the prior at 0.95, where the comment says
1.0.

## Model

| member | source | states |
|---|---|---|
| MdpModel.ShippedRowIsDistribution | markov_decision_process/markov_process.py:47-72 | each shipped row P(· given s, a) lists only positive probabilities and sums to exactly 1 over the four states |
| MdpModel.ShippedIsWellFormed | markov_decision_process/markov_process.py:47-104 | the shipped process is well formed: every row is a distribution and the discount 0.9 lies in (0, 1] |
| MdpModel.QIsRewardPlusDiscountedNext | markov_decision_process/markov_process.py:139-152 | for any well-formed process, the loop that adds `prob * (reward + gamma * U(next))` over next states of positive probability equals R(s, a) + gamma * expected next utility |
| MdpModel.BestAction | markov_decision_process/markov_process.py:154-156 | `max(values, key=values.get)` picks an action of maximal expected utility, and every action before it in the order Monitor, Investigate, Mitigate, Recover is strictly worse |
| MdpModel.FirstMaxIsUnique | markov_decision_process/markov_process.py:154-156 | at most one action satisfies that tie-break, so the choice is deterministic |
| MdpSolver.Backup | markov_decision_process/markov_process.py:133-156 | a state's new utility is at least every action's expected utility and equals one of them |
| MdpSolver.BestActionValue | markov_decision_process/markov_process.py:155-156 | the value stored, `action_values[best_action]`, is that maximum |
| MdpSolver.BellmanTakesBestAction | markov_decision_process/markov_process.py:133-156 | after one round every state's utility is at least every action's expected utility under the previous vector, and equals that of the action the source picks, `action_values[best_action]` |
| MdpSolver.MaxChange | markov_decision_process/markov_process.py:131-159 | the reported delta bounds the absolute change of every state and is attained by one of them |
| MdpSolver.Round | markov_decision_process/markov_process.py:130-159 | one in-place pass over the states yields exactly the Bellman update of the copied vector, with delta its largest change |
| MdpSolver.ValueIteration | markov_decision_process/markov_process.py:126-163 | runs at most `max_iterations` rounds from the zero vector and stops after the first round whose change is below epsilon; the result is the vector after that many rounds |
| MdpSolver.StopsAfterIsUnique | markov_decision_process/markov_process.py:129-163 | the stopping rule determines the number of rounds |
| MdpSolver.GreedyPolicy | markov_decision_process/markov_process.py:166-181 | the policy is defined for every state and picks the first action of maximal expected utility under the final vector |
| MdpSolver.ComputeOptimalPolicy | markov_decision_process/markov_process.py:114-184 | the policy and the utilities kept alongside it come from the same final vector |
| MdpSolver.BellmanContraction | markov_decision_process/markov_process.py:133-156 | for the shipped tables, one round brings any two vectors closer by at least the factor 0.9 in the largest-change distance |
| MdpSolver.RoundChangeShrinks | markov_decision_process/markov_process.py:158-163 | for a contracting process, each round's delta is at most 0.9 times the previous one |
| MdpSolver.ShippedChangeSmallByRound91 | markov_decision_process/markov_process.py:114-163 | for the shipped tables the delta of round 91 is below 0.01, so the default epsilon is met well before the bound of 100 |
| MdpSolver.Initialize | markov_decision_process/markov_process.py:104-110 | the start-up solve stops early, after at most 91 rounds, on a round whose delta is below 0.01, and its policy is greedy for its utilities |
| MdpDecision.ClassifyEvent | markov_decision_process/markov_process.py:186-226 | the classifier never says Compromised; it says Attack exactly for external UDP network traffic above 800 packets, and NoThreat exactly for quiet network traffic or harmless logins |
| MdpDecision.MorePacketsNoLessSevere | markov_decision_process/markov_process.py:197-212 | raising the packet count never lowers the severity of the state |
| MdpDecision.ExternalNoLessSevere | markov_decision_process/markov_process.py:197-212 | moving the same traffic to an external source never lowers the severity |
| MdpDecision.UnknownEventIsSuspicious | markov_decision_process/markov_process.py:225-226 | an event that is neither network traffic nor a login is Suspicious |
| MdpDecision.Others | markov_decision_process/markov_process.py:308 | the actions other than the scored one are exactly the three others |
| MdpDecision.SecondBest | markov_decision_process/markov_process.py:308 | the runner-up value is at least every other action's expected utility and equals one of them |
| MdpDecision.Confidence | markov_decision_process/markov_process.py:270-323 | confidence is at most 1; it is 0.5 when all actions are within 1e-6; otherwise it is 1 exactly when every other action trails by at least 50; it is at least 0.5 exactly when all are close or the action is a best one |
| MdpDecision.AdviceIdentifies | markov_decision_process/markov_process.py:336-355 | two recommendations get the same advice exactly when the action is the same and, unless it is Monitor, the states agree on being the action's target |
| MdpDecision.AdviceTextInjective | markov_decision_process/markov_process.py:336-355 | the seven description texts are pairwise different strings |
| MdpDecision.DescribeIdentifies | markov_decision_process/markov_process.py:336-355 | two recommendations get the same description text exactly when the action is the same and, unless it is Monitor, the states agree on being the action's target |
| MdpDecision.AnalyzeEvent | markov_decision_process/markov_process.py:228-268 | the decision uses the classified state and that state's policy action; it records the expected utility of that action under the solved utilities, with its confidence and description; exactly that record is appended to the decision log, and nothing else changes |
| MdpDecision.AnalysisIsOptimal | markov_decision_process/markov_process.py:243-263 | with a policy greedy for its utilities, the recorded expected utility is the maximum over actions, the confidence lies in [0.5, 1], and the newest logged decision is this one |
| MdpDecision.StartEngine | markov_decision_process/markov_process.py:104-110 | the engine starts with a policy greedy for its utilities and an empty decision log |
| DataStorage.New | data_storage.py:5-12 | the store starts with exactly the four categories, all empty |
| DataStorage.Store | data_storage.py:14-19 | storing appends to the category's list, creating the category if needed, and leaves every other category unchanged |
| DataStorage.StoreKeepsHistory | data_storage.py:14-19 | storing never removes or reorders records: the old list is a prefix of the new one |
| DataStorage.Retrieve | data_storage.py:21-28 | an unknown category gives no records; a missing or zero limit gives all of them |
| DataStorage.RetrievePositiveLimit | data_storage.py:26-27 | a positive limit gives the newest `min(limit, count)` records in stored order |
| DataStorage.RetrieveNegativeLimit | data_storage.py:26-27 | a negative limit, through the slice rules, drops the oldest `-limit` records instead |
| DataStorage.RetrieveLatest | data_storage.py:30-35 | the latest record is absent exactly when the category has none, and is otherwise the last one stored |
| DataStorage.LatestAfterStore | data_storage.py:14-35 | right after storing `x`, the latest record of that category is `x` |
| ServiceDependencies.Dependents | service_impact/service_dependencies.py:87 | `graph.get(s, [])` gives the row of `s` if it is a key, and nothing otherwise |
| ServiceDependencies.UpstreamOf | service_impact/service_dependencies.py:54-63 | the services the reverse map lists for `k` are exactly those whose rows name `k` |
| ServiceDependencies.UpstreamKeys | service_impact/service_dependencies.py:54-63 | the reverse map has exactly the graph's keys, each once |
| ServiceDependencies.UpstreamInverts | service_impact/service_dependencies.py:54-63 | `x` is upstream of the key `d` exactly when `x` is a key whose row lists `d` |
| ServiceDependencies.DownstreamImpacts | service_impact/service_dependencies.py:65-97 | an unknown service impacts nothing; otherwise the result holds, without repeats, exactly the services other than the start that are reachable along dependency edges |
| ServiceDependencies.NoDependentsNoImpact | service_impact/service_dependencies.py:79-97 | a service nothing depends on reaches only itself |
| ServiceDependencies.ScoreInRange | service_impact/service_dependencies.py:125-131 | the capped mean criticality lies between the least and greatest criticality impacted, and within [0, 10] |
| ServiceDependencies.Band | service_impact/service_dependencies.py:133-139 | high exactly when the score is at least 8, medium exactly when it is in [5, 8), low otherwise |
| ServiceDependencies.ImpactSeverity | service_impact/service_dependencies.py:99-146 | a known issue decides the result at score 10; otherwise the affected services are the downstream impacts, the score is their capped mean criticality in [0, 10], and the severity is its band |
| ServiceDependencies.ShippedIsWellFormed | service_impact/service_dependencies.py:14-43 | the shipped graph has one row per service, and every criticality is on the 0 to 10 scale |
| ServiceDependencies.FrontEndsAreLeaves | service_impact/service_dependencies.py:22-23 | the web front end and the mobile app reach nothing but themselves, and an empty impact is judged low |
| GitMonitor.WithinActiveHours | git_security/git_monitor.py:197-205 | an hour is a working hour exactly when it lies in one of the half-open ranges |
| GitMonitor.DefaultHoursAreNineToFive | git_security/git_monitor.py:29-30 | with the default baseline `[(9, 17)]` exactly the hours 9 to 16 are working hours |
| GitMonitor.MatchesAny | git_security/git_monitor.py:207-212 | a path is sensitive exactly when one of the patterns matches it |
| GitMonitor.SensitivePathCases | git_security/git_monitor.py:37-45 | a path is sensitive exactly when it starts with `security/` or `auth/`, or its first line contains `password`, `credential`, `config`, `secret` or `/.env` |
| GitMonitor.SingleLineSecretIsSensitive | git_security/git_monitor.py:43 | a one-line path containing `secret` anywhere is sensitive |
| GitMonitor.Filter | git_security/git_monitor.py:126-128 | the kept files are exactly the sensitive ones |
| GitMonitor.SensitiveFilesOf | git_security/git_monitor.py:122-128 | every sensitive file changed by any commit is collected, and only those |
| GitMonitor.AnalyzePush | git_security/git_monitor.py:102-140 | one factor per check that fires (off hours, more than 10 commits, sensitive files, force push); the score is the sum of the factors' weights and lies in [0, 1.25] |
| GitMonitor.AnalyzeClone | git_security/git_monitor.py:142-169 | one factor per check that fires (off hours, non-empty address outside 192.168., first clone); the score is the sum of the weights and lies in [0, 0.45] |
| GitMonitor.AnalyzeBranch | git_security/git_monitor.py:171-195 | one factor per check that fires (suspicious word, deleted within an hour, sensitive name); the score is the sum of the weights and lies in [0, 0.6] |
| GitMonitor.Level | git_security/git_monitor.py:92-98 | high exactly above 0.7, medium exactly in (0.3, 0.7], low otherwise |
| GitMonitor.AssessEvent | git_security/git_monitor.py:60-80 | the score is the sum of the weights of the reported factors and lies in [0, 1.25]; an unknown event type gives score 0 and no factors |
| GitMonitor.AnalyzeGitActivity | git_security/git_monitor.py:47-100 | the level is the band of the event's score, so it is low exactly when the factors weigh at most 0.3, and low when there are no factors; exactly the event's record is appended to the activity log |
| BayesianIds.AdjustedPrior | bayesian_analysis/bayesian_ids.py:22-37 | the prior is 0.02 times 1.5 for `10.` addresses, 2 for `admin` and 3 for failures, and lies in [0.02, 0.18], so the 0.95 cap never binds |
| BayesianIds.FailureRaisesPrior | bayesian_analysis/bayesian_ids.py:32-34 | a failed attempt has a strictly higher prior than the same attempt succeeding |
| BayesianIds.AlertProbability | bayesian_analysis/bayesian_ids.py:40-41 | the probability of an alert lies in [0.1, 0.9], so the division by it is defined |
| BayesianIds.PosteriorOdds | bayesian_analysis/bayesian_ids.py:40-44 | for a prior in (0, 1) the posterior lies strictly between the prior and 1, and its odds are 9 times the prior odds |
| BayesianIds.PosteriorIncreasing | bayesian_analysis/bayesian_ids.py:40-44 | a larger prior gives a strictly larger posterior |
| BayesianIds.ExtremePosteriors | bayesian_analysis/bayesian_ids.py:22-44 | the riskiest attempt scores 81/122 and the most harmless 9/58 |
| BayesianIds.AnalyzeLoginAttempt | bayesian_analysis/bayesian_ids.py:16-54 | the result is the posterior of the adjusted prior, strictly above that prior and below 1, and exactly its record is appended to the login log |
| BayesianNetwork.TablesAreDistributions | bayesian_analysis/bayesian_network.py:11-31 | every row of every table sums to 1 with non-negative entries |
| BayesianNetwork.CombineIsAverage | bayesian_analysis/bayesian_network.py:49-50 | the combination lies between the least and greatest of the three probabilities, and so within [0, 1] |
| BayesianNetwork.CombineMonotone | bayesian_analysis/bayesian_network.py:49-50 | raising any of the three probabilities never lowers the combination |
| BayesianNetwork.AnalyzeNetworkTraffic | bayesian_analysis/bayesian_network.py:33-60 | missing evidence defaults to low, TCP and internal; an unknown volume fails before an unknown protocol; on success the result is the weighted combination, lies in [0.17, 0.58], the least and greatest the tables allow, and its record is appended to the network log |
| BayesianNetwork.RiskierEvidenceScoresHigher | bayesian_analysis/bayesian_network.py:14-50 | high volume scores at least as much as low, and an external source at least as much as an internal one, all else equal |

## Left out

- Printing, the clock and randomness are parameters or dropped. The current time used for a missing timestamp is the parameter `now`. The clone heuristic's random draw is the parameter `draw`. The `print` calls are dropped.
- The hour of a push or clone is an input field. The source derives it from the timestamp through the local time zone.
- Risk-factor messages are modelled as `Factor` values carrying what the message shows (user, branch name, commit count, the first five sensitive files and their total). The f-string wording and number formatting are not modelled. The same holds for the impact reason `Change impacts N downstream services`.
- The description's final fallback text is unreachable, because the action type is a closed enumeration. The model has no branch for it.
- `ServiceDependencies.DownstreamImpacts` returns the impacted services in the order the depth-first search first meets them. The source returns them in the iteration order of a hash set, which is unspecified. Only the contents and the absence of repeats are stated.
- `MdpSolver.BellmanContraction` is proved for the shipped tables only, and so is the bound of 91 rounds. For other tables the solver's contracts still hold, but convergence is not claimed.
- `MdpSolver.ShippedChangeSmallByRound91` bounds the round at which iteration stops. Which action wins in each state after the solve is not computed.
- Each analyser's log entries are modelled with one record type per category. The source stores untyped dictionaries in one shared store.
- Floating-point rounding is not modelled. All numbers are exact reals.
- GitMonitor.AnalyzeGitActivity: the bands are taken over exact sums, so the level can differ from the source's where a floating-point sum lands just above 0.3 or 0.7. A push in working hours with at most 10 commits, exactly 3 sensitive files and no force push weighs `min(0.1 * 3, 0.4)`, which is 0.30000000000000004 in floating point; the source reports medium and the model low. The same holds for an off-hours clone from a `192.168.` address on a first-clone draw, whose score `0.2 + 0.1` is also 0.30000000000000004, and for a push in working hours with 20 commits, 1 sensitive file and no force push, whose score `0.2 + 0.1` is the same. At the upper band, an off-hours push with 15 commits, 3 sensitive files and no force push sums to `0.25 + 0.15 + 0.30000000000000004`, which is 0.7000000000000001; the source reports high and the model medium.
- `agent.py` and `cybersec_app.py` are not part of this model: the first dispatches events and formats alerts, the second generates mock data and runs the simulation loop. `service_impact.py` is a thin wrapper that adds a timestamp and a storage call around the severity computation, and is not part of this model either.
- `Text.Lower` lower-cases ASCII letters only. Python's `str.lower` also folds other Unicode letters.

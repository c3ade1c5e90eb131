/** Heuristics that score git activity (pushes, clones and branch events) for
    signs of misuse, and band the score into a risk level. Each heuristic
    that fires adds a fixed or capped weight to the score and reports one
    risk factor. */
module GitMonitor {
  import opened Wrappers
  import opened Common
  import opened Text
  import DataStorage

  // ---------------------------------------------------------------------
  // Working hours
  // ---------------------------------------------------------------------

  /** A half-open range of hours `[start, end)`. */
  datatype HourRange = HourRange(start: int, end: int)

  /** The working hours every user has: nine to five. */
  const DefaultActiveHours: seq<HourRange> := [HourRange(9, 17)]

  /** Whether `hour` falls in one of the ranges, checked in order. */
  function WithinActiveHours(ranges: seq<HourRange>, hour: int): (r: bool)
    ensures r <==> exists i | 0 <= i < |ranges| :: ranges[i].start <= hour < ranges[i].end
  {
    if ranges == [] then false
    else if ranges[0].start <= hour < ranges[0].end then true
    else
      var r := WithinActiveHours(ranges[1..], hour);
      assert forall i | 1 <= i < |ranges| :: ranges[i] == ranges[1..][i - 1];
      r
  }

  /** With the default baseline exactly the hours 9 to 16 count as working
      hours. */
  lemma DefaultHoursAreNineToFive(hour: int)
    ensures WithinActiveHours(DefaultActiveHours, hour) <==> 9 <= hour <= 16
  {
  }

  // ---------------------------------------------------------------------
  // Sensitive paths
  // ---------------------------------------------------------------------

  /** The two shapes of the sensitive-path patterns. `lit/.*` matched from
      the start of a path requires the path to begin with `lit/`;
      `.*lit.*` matched from the start requires `lit` to occur before the
      first line break, because `.` does not match a line break. */
  datatype Pattern = Prefix(lit: string) | Anywhere(lit: string)

  function Matches(p: Pattern, path: string): bool {
    match p
    case Prefix(lit) => StartsWith(path, lit)
    case Anywhere(lit) => Contains(FirstLine(path), lit)
  }

  const SensitivePatterns: seq<Pattern> := [
    Prefix("security/"), Prefix("auth/"), Anywhere("password"), Anywhere("credential"),
    Anywhere("config"), Anywhere("secret"), Anywhere("/.env")]

  /** Whether some pattern in `patterns` matches `path`, checked in order. */
  function MatchesAny(patterns: seq<Pattern>, path: string): (r: bool)
    ensures r <==> exists i | 0 <= i < |patterns| :: Matches(patterns[i], path)
  {
    if patterns == [] then false
    else if Matches(patterns[0], path) then true
    else
      var r := MatchesAny(patterns[1..], path);
      assert forall i | 1 <= i < |patterns| :: patterns[i] == patterns[1..][i - 1];
      r
  }

  /** A path is sensitive when it lies under `security/` or `auth/`, or its
      first line mentions a password, credential, config, secret or `.env`
      file. */
  predicate IsSensitivePath(path: string) {
    MatchesAny(SensitivePatterns, path)
  }

  /** The sensitive paths, spelled out. */
  lemma SensitivePathCases(path: string)
    ensures IsSensitivePath(path) <==>
      || StartsWith(path, "security/") || StartsWith(path, "auth/")
      || Contains(FirstLine(path), "password") || Contains(FirstLine(path), "credential")
      || Contains(FirstLine(path), "config") || Contains(FirstLine(path), "secret")
      || Contains(FirstLine(path), "/.env")
  {
    var ps := SensitivePatterns;
    assert ps[0] == Prefix("security/") && ps[1] == Prefix("auth/");
    assert ps[2] == Anywhere("password") && ps[3] == Anywhere("credential");
    assert ps[4] == Anywhere("config") && ps[5] == Anywhere("secret") && ps[6] == Anywhere("/.env");
    if !IsSensitivePath(path) {
      assert forall i | 0 <= i < |ps| :: !Matches(ps[i], path);
    }
  }

  /** A path without line breaks that merely contains a sensitive word is
      sensitive wherever the word occurs. */
  lemma SingleLineSecretIsSensitive(path: string, i: int)
    requires NoNewline(path)
    requires OccursAt(path, "secret", i)
    ensures IsSensitivePath(path)
  {
    FirstLineOfSingleLine(path);
    assert Matches(SensitivePatterns[5], path);
  }

  lemma {:induction false} FirstLineOfSingleLine(s: string)
    requires NoNewline(s)
    ensures FirstLine(s) == s
  {
    if s != [] {
      FirstLineOfSingleLine(s[1..]);
    }
  }

  // ---------------------------------------------------------------------
  // Risk factors
  // ---------------------------------------------------------------------

  /** The risk factors the heuristics report, with what their messages show. */
  datatype Factor =
    | PushOffHours(user: string)
    | LargePush(commits: nat)
    | SensitiveFiles(shown: seq<string>, total: nat)
    | ForcePush
    | CloneOffHours
    | ExternalClone(ip: string)
    | FirstTimeClone(user: string)
    | SuspiciousBranchName(branch: string)
    | ShortLivedBranch(branch: string)
    | SensitiveBranch(branch: string)

  /** What each factor adds to the score. */
  function Weight(f: Factor): real {
    match f
    case PushOffHours(_) => 0.25
    case LargePush(n) => MinReal(0.1 * n as real / 10.0, 0.3)
    case SensitiveFiles(_, k) => MinReal(0.1 * k as real, 0.4)
    case ForcePush => 0.3
    case CloneOffHours => 0.2
    case ExternalClone(_) => 0.15
    case FirstTimeClone(_) => 0.1
    case SuspiciousBranchName(_) => 0.15
    case ShortLivedBranch(_) => 0.2
    case SensitiveBranch(_) => 0.25
  }

  function TotalWeight(fs: seq<Factor>): real {
    if fs == [] then 0.0 else Weight(fs[0]) + TotalWeight(fs[1..])
  }

  lemma {:induction false} TotalWeightAppend(fs: seq<Factor>, gs: seq<Factor>)
    ensures TotalWeight(fs + gs) == TotalWeight(fs) + TotalWeight(gs)
    decreases |fs|
  {
    if fs != [] {
      assert (fs + gs)[0] == fs[0] && (fs + gs)[1..] == fs[1..] + gs;
      TotalWeightAppend(fs[1..], gs);
    } else {
      assert fs + gs == gs;
    }
  }

  /** The score of a heuristic together with the factors that made it up. */
  datatype Assessment = Assessment(score: real, factors: seq<Factor>)

  /** Adds `f` to the assessment when `fired`. */
  function AddIf(a: Assessment, fired: bool, f: Factor): (r: Assessment)
    ensures a.score == TotalWeight(a.factors) ==> r.score == TotalWeight(r.factors)
    ensures r.factors == a.factors + (if fired then [f] else [])
    ensures r.score == a.score + (if fired then Weight(f) else 0.0)
  {
    TotalWeightAppend(a.factors, [f]);
    if fired then Assessment(a.score + Weight(f), a.factors + [f]) else a
  }

  const NoRisk := Assessment(0.0, [])

  // ---------------------------------------------------------------------
  // Events
  // ---------------------------------------------------------------------

  datatype Commit = Commit(filesChanged: Option<seq<string>>)

  /** The fields of a git event the heuristics read, each possibly absent.
      `hour` is the local hour of the event's time. */
  datatype GitEvent = GitEvent(
    eventType: Option<string>,
    repoName: Option<string>,
    user: Option<string>,
    timestamp: Option<real>,
    hour: int,
    ipAddress: Option<string>,
    commits: Option<seq<Commit>>,
    forcePush: bool,
    branchName: Option<string>,
    action: Option<string>,
    branchAgeHours: Option<real>)

  /** The sensitive files of the commits, in commit order and file order. */
  function SensitiveFilesOf(commits: seq<Commit>): (r: seq<string>)
    ensures forall f | f in r :: IsSensitivePath(f)
    ensures forall i, f | 0 <= i < |commits| && f in commits[i].filesChanged.GetOr([]) && IsSensitivePath(f) :: f in r
  {
    if commits == [] then []
    else
      var rest := SensitiveFilesOf(commits[1..]);
      assert forall i | 1 <= i < |commits| :: commits[i] == commits[1..][i - 1];
      Filter(commits[0].filesChanged.GetOr([])) + rest
  }

  /** The sensitive paths among `files`, in order. */
  function Filter(files: seq<string>): (r: seq<string>)
    ensures forall f :: f in r <==> f in files && IsSensitivePath(f)
    ensures |r| <= |files|
  {
    if files == [] then []
    else (if IsSensitivePath(files[0]) then [files[0]] else []) + Filter(files[1..])
  }

  /** The first five sensitive files are named; the rest are counted. */
  function SensitiveFilesFactor(files: seq<string>): Factor {
    SensitiveFiles(if |files| <= 5 then files else files[..5], |files|)
  }

  /** `_analyze_push_event`: off-hours pushes, large pushes, sensitive files
      and force pushes. */
  function AnalyzePush(e: GitEvent): (r: Assessment)
    ensures r.score == TotalWeight(r.factors)
    ensures 0.0 <= r.score <= 1.25
    ensures var commits := e.commits.GetOr([]);
      var files := SensitiveFilesOf(commits);
      r.factors ==
        (if !WithinActiveHours(DefaultActiveHours, e.hour) then [PushOffHours(e.user.GetOr(""))] else [])
        + (if |commits| > 10 then [LargePush(|commits|)] else [])
        + (if files != [] then [SensitiveFilesFactor(files)] else [])
        + (if e.forcePush then [ForcePush] else [])
  {
    var commits := e.commits.GetOr([]);
    var files := SensitiveFilesOf(commits);
    var a0 := AddIf(NoRisk, !WithinActiveHours(DefaultActiveHours, e.hour), PushOffHours(e.user.GetOr("")));
    assert a0.factors == (if !WithinActiveHours(DefaultActiveHours, e.hour) then [PushOffHours(e.user.GetOr(""))] else []);
    var a1 := AddIf(a0, |commits| > 10, LargePush(|commits|));
    var a2 := AddIf(a1, files != [], SensitiveFilesFactor(files));
    assert 0.0 <= Weight(LargePush(|commits|)) <= 0.3;
    assert 0.0 <= Weight(SensitiveFilesFactor(files)) <= 0.4;
    AddIf(a2, e.forcePush, ForcePush)
  }

  /** `_analyze_clone_event`: off-hours clones, clones from outside the local
      network, and first clones. The first-clone check is a random draw in
      the source, supplied here as `draw`. */
  function AnalyzeClone(e: GitEvent, draw: real): (r: Assessment)
    ensures r.score == TotalWeight(r.factors)
    ensures 0.0 <= r.score <= 0.45
    ensures var ip := e.ipAddress.GetOr("");
      r.factors ==
        (if !WithinActiveHours(DefaultActiveHours, e.hour) then [CloneOffHours] else [])
        + (if ip != "" && !StartsWith(ip, "192.168.") then [ExternalClone(ip)] else [])
        + (if draw < 0.2 then [FirstTimeClone(e.user.GetOr(""))] else [])
  {
    var ip := e.ipAddress.GetOr("");
    var a0 := AddIf(NoRisk, !WithinActiveHours(DefaultActiveHours, e.hour), CloneOffHours);
    assert a0.factors == (if !WithinActiveHours(DefaultActiveHours, e.hour) then [CloneOffHours] else []);
    var a1 := AddIf(a0, ip != "" && !StartsWith(ip, "192.168."), ExternalClone(ip));
    AddIf(a1, draw < 0.2, FirstTimeClone(e.user.GetOr("")))
  }

  const SuspiciousWords: seq<string> := ["temp", "test", "fix", "quick", "hidden", "private"]

  /** Whether the lower-cased name contains one of the suspicious words. */
  predicate HasSuspiciousWord(name: string) {
    exists i | 0 <= i < |SuspiciousWords| :: Contains(Lower(name), SuspiciousWords[i])
  }

  /** `_analyze_branch_event`: suspicious names, branches deleted within an
      hour of their creation, and branches named like sensitive paths. A
      missing action counts as a creation and a missing age as zero hours. */
  function AnalyzeBranch(e: GitEvent): (r: Assessment)
    ensures r.score == TotalWeight(r.factors)
    ensures 0.0 <= r.score <= 0.6
    ensures var name := e.branchName.GetOr("");
      r.factors ==
        (if HasSuspiciousWord(name) then [SuspiciousBranchName(name)] else [])
        + (if e.action.GetOr("created") == "deleted" && e.branchAgeHours.GetOr(0.0) < 1.0
           then [ShortLivedBranch(name)] else [])
        + (if IsSensitivePath(name) then [SensitiveBranch(name)] else [])
  {
    var name := e.branchName.GetOr("");
    var a0 := AddIf(NoRisk, HasSuspiciousWord(name), SuspiciousBranchName(name));
    assert a0.factors == (if HasSuspiciousWord(name) then [SuspiciousBranchName(name)] else []);
    var a1 := AddIf(a0, e.action.GetOr("created") == "deleted" && e.branchAgeHours.GetOr(0.0) < 1.0,
                    ShortLivedBranch(name));
    AddIf(a1, IsSensitivePath(name), SensitiveBranch(name))
  }

  // ---------------------------------------------------------------------
  // Overall assessment
  // ---------------------------------------------------------------------

  datatype RiskLevel = Low | Medium | High

  /** The risk level of a score. */
  function Level(score: real): (l: RiskLevel)
    ensures l == High <==> score > 0.7
    ensures l == Medium <==> 0.3 < score <= 0.7
    ensures l == Low <==> score <= 0.3
  {
    if score > 0.7 then High
    else if score > 0.3 then Medium
    else Low
  }

  /** What the monitor logs for each event. */
  datatype ActivityRecord = ActivityRecord(
    timestamp: real,
    eventType: Option<string>,
    repo: string,
    user: string,
    riskScore: real,
    riskFactors: seq<Factor>)

  const ActivityCategory: string := "git_activity_analysis"

  datatype Verdict = Verdict(level: RiskLevel, factors: seq<Factor>, storage: DataStorage.Storage<ActivityRecord>)

  /** The assessment of an event by its type; an unknown or missing type
      carries no risk. */
  function AssessEvent(e: GitEvent, draw: real): (r: Assessment)
    ensures r.score == TotalWeight(r.factors)
    ensures 0.0 <= r.score <= 1.25
    ensures e.eventType != Some("push") && e.eventType != Some("clone") && e.eventType != Some("branch")
      ==> r == NoRisk
  {
    if e.eventType == Some("push") then AnalyzePush(e)
    else if e.eventType == Some("clone") then AnalyzeClone(e, draw)
    else if e.eventType == Some("branch") then AnalyzeBranch(e)
    else NoRisk
  }

  /** `analyze_git_activity`: assesses the event, logs the assessment, and
      returns the risk level with the factors behind it. `now` stands for the
      current time, used when the event has no timestamp. */
  function AnalyzeGitActivity(
    store: DataStorage.Storage<ActivityRecord>, e: GitEvent, draw: real, now: real): (r: Verdict)
    ensures var a := AssessEvent(e, draw);
      && r.level == Level(a.score)
      && r.factors == a.factors
      && DataStorage.Records(r.storage, ActivityCategory) ==
           DataStorage.Records(store, ActivityCategory) +
           [ActivityRecord(e.timestamp.GetOr(now), e.eventType, e.repoName.GetOr(""), e.user.GetOr(""), a.score, a.factors)]
      && forall c | c != ActivityCategory :: DataStorage.Records(r.storage, c) == DataStorage.Records(store, c)
    ensures r.level == Low <==> TotalWeight(r.factors) <= 0.3
    ensures r.factors == [] ==> r.level == Low
  {
    var a := AssessEvent(e, draw);
    var record := ActivityRecord(e.timestamp.GetOr(now), e.eventType, e.repoName.GetOr(""), e.user.GetOr(""), a.score, a.factors);
    Verdict(Level(a.score), a.factors, DataStorage.Store(store, ActivityCategory, record))
  }
}

/**
 * The statistics of internal/jira/stats.go: classification counters and
 * percentages, the status and issue-type histograms, assignee
 * deduplication and the avatar-URL choice.
 *
 * Each method loops as the Go code does and is proved against
 * specification functions over the ticket list (`Tally`, `Values`,
 * `Histogram`, `FirstWith`, `LastWith`); the lemmas state what those
 * functions mean.
 */
module Stats {
  import opened Wrappers
  import opened Model

  datatype Assignee = Assignee(accountId: string, displayName: string, avatarUrl: string, active: bool)

  datatype EpicStats = EpicStats(
    total: nat,
    toDo: nat,
    inProgress: nat,
    done: nat,
    percentage: real,
    progressPer: real)

  datatype StatusClassified = StatusClassified(classification: string, count: nat)

  function ClassificationOf(t: Ticket): string { t.fields.statusCategory.key }
  function StatusNameOf(t: Ticket): string { t.fields.status.name }
  function TypeNameOf(t: Ticket): string { t.fields.issueType.name }
  function AccountIdOf(t: Ticket): string { t.fields.assignee.accountId }

  // ---------------------------------------------------------------------
  // Specification functions over a ticket list

  /** The attribute values that occur in `ts`. */
  function Values(ts: seq<Ticket>, attr: Ticket -> string): set<string>
  {
    set i | 0 <= i < |ts| :: attr(ts[i])
  }

  /** The number of tickets whose attribute is `v`. */
  function Tally(ts: seq<Ticket>, attr: Ticket -> string, v: string): (n: nat)
    ensures n <= |ts|
  {
    if ts == [] then 0
    else Tally(ts[..|ts| - 1], attr, v) + (if attr(ts[|ts| - 1]) == v then 1 else 0)
  }

  /** Counting one more ticket whose value is `a`. */
  function Bump(h: map<string, nat>, a: string): map<string, nat>
  {
    h[a := (if a in h then h[a] else 0) + 1]
  }

  /** The value histogram of `ts`, counted in ticket order as the loops
      of stats.go do; HistogramMeaning states what it holds. */
  function Histogram(ts: seq<Ticket>, attr: Ticket -> string): map<string, nat>
  {
    if ts == [] then map[] else Bump(Histogram(ts[..|ts| - 1], attr), attr(ts[|ts| - 1]))
  }

  /** The position of the first ticket whose attribute is `v`. */
  function FirstWith(ts: seq<Ticket>, attr: Ticket -> string, v: string): (r: nat)
    requires v in Values(ts, attr)
    ensures r < |ts| && attr(ts[r]) == v
    ensures forall j :: 0 <= j < r ==> attr(ts[j]) != v
  {
    var p := ts[..|ts| - 1];
    if exists j :: 0 <= j < |p| && attr(p[j]) == v then FirstWith(p, attr, v) else |ts| - 1
  }

  /** The position of the last ticket whose attribute is `v`. */
  function LastWith(ts: seq<Ticket>, attr: Ticket -> string, v: string): (r: nat)
    requires v in Values(ts, attr)
    ensures r < |ts| && attr(ts[r]) == v
    ensures forall j :: r < j < |ts| ==> attr(ts[j]) != v
  {
    var p := ts[..|ts| - 1];
    if attr(ts[|ts| - 1]) == v then |ts| - 1
    else
      assert exists j :: 0 <= j < |p| && attr(p[j]) == v by {
        var j :| 0 <= j < |ts| && attr(ts[j]) == v;
        assert j < |p| && attr(p[j]) == v;
      }
      LastWith(p, attr, v)
  }

  /** A value occurs exactly when at least one ticket carries it. */
  lemma {:induction false} TallyPositive(ts: seq<Ticket>, attr: Ticket -> string, v: string)
    ensures Tally(ts, attr, v) > 0 <==> v in Values(ts, attr)
    decreases |ts|
  {
    if ts != [] {
      var p := ts[..|ts| - 1];
      TallyPositive(p, attr, v);
      ValuesStep(ts, attr);
    }
  }

  lemma ValuesStep(ts: seq<Ticket>, attr: Ticket -> string)
    requires ts != []
    ensures Values(ts, attr) == Values(ts[..|ts| - 1], attr) + {attr(ts[|ts| - 1])}
  {
    var p := ts[..|ts| - 1];
    forall v | v in Values(ts, attr) ensures v in Values(p, attr) + {attr(ts[|ts| - 1])} {
      var j :| 0 <= j < |ts| && attr(ts[j]) == v;
      if j < |p| {
        assert attr(p[j]) == v;
      }
    }
    forall v | v in Values(p, attr) ensures v in Values(ts, attr) {
      var j :| 0 <= j < |p| && attr(p[j]) == v;
      assert attr(ts[j]) == v;
    }
  }

  /** The histogram has one entry per occurring value, holding the number
      of tickets that carry the value. */
  lemma {:induction false} HistogramMeaning(ts: seq<Ticket>, attr: Ticket -> string)
    ensures Histogram(ts, attr).Keys == Values(ts, attr)
    ensures forall v :: v in Histogram(ts, attr) ==> Histogram(ts, attr)[v] == Tally(ts, attr, v)
    decreases |ts|
  {
    if ts != [] {
      var p := ts[..|ts| - 1];
      HistogramMeaning(p, attr);
      ValuesStep(ts, attr);
      TallyPositive(p, attr, attr(ts[|ts| - 1]));
    }
  }

  /** The counts of a histogram add up to the number of tickets. */
  lemma {:induction false} HistogramTotal(ts: seq<Ticket>, attr: Ticket -> string)
    ensures SumCounts(Histogram(ts, attr)) == |ts|
    decreases |ts|
  {
    if ts != [] {
      HistogramTotal(ts[..|ts| - 1], attr);
      SumCountsIncrement(Histogram(ts[..|ts| - 1], attr), attr(ts[|ts| - 1]));
    }
  }

  // ---------------------------------------------------------------------
  // Sums over a map of counts

  /** The sum of the counts of `m`, in no particular key order. */
  ghost function SumCounts(m: map<string, nat>): nat
    decreases |m|
  {
    if m == map[] then 0
    else
      var k :| k in m;
      m[k] + SumCounts(m - {k})
  }

  /** Any key may be taken out first. */
  lemma {:induction false} SumCountsRemove(m: map<string, nat>, k: string)
    requires k in m
    ensures SumCounts(m) == m[k] + SumCounts(m - {k})
    decreases |m|
  {
    var k' :| k' in m && SumCounts(m) == m[k'] + SumCounts(m - {k'});
    if k' != k {
      SumCountsRemove(m - {k'}, k);
      SumCountsRemove(m - {k}, k');
      assert (m - {k'}) - {k} == (m - {k}) - {k'};
    }
  }

  lemma SumCountsUpdate(m: map<string, nat>, k: string, v: nat)
    ensures SumCounts(m[k := v]) == SumCounts(m - {k}) + v
  {
    SumCountsRemove(m[k := v], k);
    assert m[k := v] - {k} == m - {k};
  }

  /** Counting one more occurrence of `a` adds one to the sum. */
  lemma SumCountsIncrement(m: map<string, nat>, a: string)
    ensures SumCounts(Bump(m, a)) == SumCounts(m) + 1
  {
    SumCountsUpdate(m, a, (if a in m then m[a] else 0) + 1);
    if a in m {
      SumCountsRemove(m, a);
    } else {
      assert m - {a} == m;
    }
  }

  // ---------------------------------------------------------------------
  // One-step facts about prefixes, used by the loops

  lemma TallyPrefix(ts: seq<Ticket>, attr: Ticket -> string, v: string, i: nat)
    requires i < |ts|
    ensures Tally(ts[..i + 1], attr, v) == Tally(ts[..i], attr, v) + (if attr(ts[i]) == v then 1 else 0)
  {
    assert ts[..i + 1][..i] == ts[..i];
  }

  lemma HistogramPrefix(ts: seq<Ticket>, attr: Ticket -> string, i: nat)
    requires i < |ts|
    ensures Histogram(ts[..i + 1], attr) == Bump(Histogram(ts[..i], attr), attr(ts[i]))
  {
    assert ts[..i + 1][..i] == ts[..i];
  }

  lemma ValuesPrefix(ts: seq<Ticket>, attr: Ticket -> string, i: nat)
    requires i < |ts|
    ensures Values(ts[..i + 1], attr) == Values(ts[..i], attr) + {attr(ts[i])}
  {
    assert ts[..i + 1][..i] == ts[..i];
    ValuesStep(ts[..i + 1], attr);
  }

  // ---------------------------------------------------------------------
  // CalculateStats

  /** Done as a share of all tickets, in percent; 0 for no tickets. */
  function Percentage(done: nat, total: nat): real
  {
    if total > 0 then (done as real / total as real) * 100.0 else 0.0
  }

  /** A part of a positive whole, as a share, lies in [0, 1]. */
  lemma ShareAtMostOne(part: real, whole: real)
    requires 0.0 <= part <= whole && whole > 0.0
    ensures 0.0 <= part / whole <= 1.0
    ensures part / whole == 1.0 <==> part == whole
    ensures part / whole == 0.0 <==> part == 0.0
  {
    var q := part / whole;
    assert q * whole == part;
    assert (1.0 - q) * whole == whole - part;
  }

  lemma PercentageRange(done: nat, total: nat)
    requires done <= total
    ensures 0.0 <= Percentage(done, total) <= 100.0
    ensures Percentage(done, total) == 0.0 <==> done == 0
    ensures Percentage(done, total) == 100.0 <==> total > 0 && done == total
  {
    if total > 0 {
      ShareAtMostOne(done as real, total as real);
    }
  }

  /** In-progress tickets as a share of the tickets not done, in percent.
      This is the evidently intended reading: when every ticket is done
      (or there are none) the share is taken to be 0. */
  function ProgressPer(inProgress: nat, total: nat, done: nat): real
  {
    if total > done then (inProgress as real / (total - done) as real) * 100.0 else 0.0
  }

  lemma ProgressPerRange(inProgress: nat, total: nat, done: nat)
    requires inProgress + done <= total
    ensures 0.0 <= ProgressPer(inProgress, total, done) <= 100.0
    ensures ProgressPer(inProgress, total, done) == 0.0 <==> inProgress == 0
  {
    if total > done {
      ShareAtMostOne(inProgress as real, (total - done) as real);
    }
  }

  /** A float64 value: a finite number, NaN or an infinity. */
  datatype Float64 = Finite(x: real) | NaN | PosInf | NegInf

  /** IEEE 754 division of two finite numbers. */
  function Divide(a: real, b: real): (r: Float64)
    ensures b != 0.0 ==> r == Finite(a / b)
    ensures b == 0.0 ==> (r == NaN <==> a == 0.0)
  {
    if b != 0.0 then Finite(a / b)
    else if a == 0.0 then NaN
    else if a > 0.0 then PosInf
    else NegInf
  }

  /** Multiplication by a positive constant. */
  function Scale(f: Float64, c: real): Float64
    requires c > 0.0
  {
    match f
    case Finite(x) => Finite(x * c)
    case _ => f
  }

  /** ProgressPer as written: the division by Total - Done is unguarded. */
  function ProgressPerAsWritten(inProgress: nat, total: nat, done: nat): Float64
  {
    Scale(Divide(inProgress as real, (total - done) as real), 100.0)
  }

  /** When every ticket is done, or there are no tickets, the written
      division is 0/0 and the result is NaN, which encoding/json refuses
      to encode. */
  lemma ProgressPerAsWrittenNaN(ts: seq<Ticket>)
    requires Tally(ts, ClassificationOf, "done") == |ts|
    ensures ProgressPerAsWritten(
              Tally(ts, ClassificationOf, "indeterminate"), |ts|, Tally(ts, ClassificationOf, "done")) == NaN
  {
    ClassTalliesBounded(ts);
  }

  /** The empty ticket list already shows it. */
  lemma ProgressPerAsWrittenEmpty()
    ensures ProgressPerAsWritten(0, 0, 0) == NaN
    ensures ProgressPer(0, 0, 0) == 0.0
  {
  }

  /** Wherever the written division is defined, the corrected function
      agrees with it. */
  lemma ProgressPerAgrees(inProgress: nat, total: nat, done: nat)
    requires total > done
    ensures ProgressPerAsWritten(inProgress, total, done) == Finite(ProgressPer(inProgress, total, done))
  {
  }

  /** The three counted classifications never exceed the ticket count. */
  lemma {:induction false} ClassTalliesBounded(ts: seq<Ticket>)
    ensures Tally(ts, ClassificationOf, "new") + Tally(ts, ClassificationOf, "indeterminate")
              + Tally(ts, ClassificationOf, "done") <= |ts|
    decreases |ts|
  {
    if ts != [] {
      ClassTalliesBounded(ts[..|ts| - 1]);
    }
  }

  method CalculateStats(issues: seq<Ticket>) returns (stats: EpicStats)
    ensures stats.total == |issues|
    ensures stats.toDo == Tally(issues, ClassificationOf, "new")
    ensures stats.inProgress == Tally(issues, ClassificationOf, "indeterminate")
    ensures stats.done == Tally(issues, ClassificationOf, "done")
    ensures stats.toDo + stats.inProgress + stats.done <= stats.total
    ensures stats.percentage == Percentage(stats.done, stats.total)
    ensures stats.progressPer == ProgressPer(stats.inProgress, stats.total, stats.done)
  {
    var total, toDo, inProgress, done := 0, 0, 0, 0;
    for i := 0 to |issues|
      invariant total == i
      invariant toDo == Tally(issues[..i], ClassificationOf, "new")
      invariant inProgress == Tally(issues[..i], ClassificationOf, "indeterminate")
      invariant done == Tally(issues[..i], ClassificationOf, "done")
      invariant toDo + inProgress + done <= total
    {
      total := total + 1;
      var classification := issues[i].fields.statusCategory.key;
      if classification == "new" {
        toDo := toDo + 1;
      } else if classification == "indeterminate" {
        inProgress := inProgress + 1;
      } else if classification == "done" {
        done := done + 1;
      }
      TallyPrefix(issues, ClassificationOf, "new", i);
      TallyPrefix(issues, ClassificationOf, "indeterminate", i);
      TallyPrefix(issues, ClassificationOf, "done", i);
    }
    SliceWhole(issues);
    var percentage := 0.0;
    if total > 0 {
      percentage := (done as real / total as real) * 100.0;
    }
    var totalWithoutCompleted := total - done;
    var progressPer := 0.0;
    if totalWithoutCompleted > 0 {
      progressPer := (inProgress as real / totalWithoutCompleted as real) * 100.0;
    }
    stats := EpicStats(total, toDo, inProgress, done, percentage, progressPer);
  }

  // ---------------------------------------------------------------------
  // CalculateStatusCounts and CalculateTypeCounts

  /** The counts of a status histogram, without the classifications. */
  function CountsOf(m: map<string, StatusClassified>): (r: map<string, nat>)
    ensures r.Keys == m.Keys
    ensures forall k :: k in r ==> r[k] == m[k].count
  {
    map k | k in m :: m[k].count
  }

  lemma CountsOfUpdate(m: map<string, StatusClassified>, k: string, v: StatusClassified)
    ensures CountsOf(m[k := v]) == CountsOf(m)[k := v.count]
  {
  }

  /** The status map after counting `t`: a new name is classified by `t`,
      a known one has its count raised. */
  function CountStatus(counts: map<string, StatusClassified>, t: Ticket): map<string, StatusClassified>
  {
    var status := StatusNameOf(t);
    if status in counts then counts[status := counts[status].(count := counts[status].count + 1)]
    else counts[status := StatusClassified(ClassificationOf(t), 1)]
  }

  /** The status map built from `ts` in order. */
  function StatusCountsOf(ts: seq<Ticket>): map<string, StatusClassified>
  {
    if ts == [] then map[] else CountStatus(StatusCountsOf(ts[..|ts| - 1]), ts[|ts| - 1])
  }

  lemma StatusCountsOfPrefix(ts: seq<Ticket>, i: nat)
    requires i < |ts|
    ensures StatusCountsOf(ts[..i + 1]) == CountStatus(StatusCountsOf(ts[..i]), ts[i])
  {
    assert ts[..i + 1][..i] == ts[..i];
  }

  /** Without the classifications, the status map is the status-name
      histogram. */
  lemma {:induction false} StatusCountsOfHistogram(ts: seq<Ticket>)
    ensures CountsOf(StatusCountsOf(ts)) == Histogram(ts, StatusNameOf)
    decreases |ts|
  {
    if ts != [] {
      var counts := StatusCountsOf(ts[..|ts| - 1]);
      var t := ts[|ts| - 1];
      StatusCountsOfHistogram(ts[..|ts| - 1]);
      CountsOfUpdate(counts, StatusNameOf(t), CountStatus(counts, t)[StatusNameOf(t)]);
    }
  }

  /** Each entry of the status map is classified by the first ticket with
      that status name. */
  lemma {:induction false} StatusCountsOfFirst(ts: seq<Ticket>)
    ensures StatusCountsOf(ts).Keys == Values(ts, StatusNameOf)
    ensures forall name :: name in StatusCountsOf(ts) ==>
              StatusCountsOf(ts)[name].classification == ClassificationOf(ts[FirstWith(ts, StatusNameOf, name)])
    decreases |ts|
  {
    StatusCountsOfHistogram(ts);
    HistogramMeaning(ts, StatusNameOf);
    if ts != [] {
      var p := ts[..|ts| - 1];
      var t := ts[|ts| - 1];
      var counts := StatusCountsOf(p);
      StatusCountsOfFirst(p);
      ValuesStep(ts, StatusNameOf);
      forall name | name in StatusCountsOf(ts)
        ensures StatusCountsOf(ts)[name].classification == ClassificationOf(ts[FirstWith(ts, StatusNameOf, name)])
      {
        if name in counts {
          var j := FirstWith(p, StatusNameOf, name);
          assert StatusNameOf(p[j]) == name;
          assert FirstWith(ts, StatusNameOf, name) == j;
        } else {
          assert !exists j :: 0 <= j < |p| && StatusNameOf(p[j]) == name;
        }
      }
    }
  }

  /**
   * One entry per distinct status name, counting its tickets, with the
   * classification of the first ticket that has the name. The Go map holds
   * references to entries whose count is incremented in place; nothing else
   * refers to them, so a map of values is equivalent.
   */
  method CalculateStatusCounts(issues: seq<Ticket>) returns (counts: map<string, StatusClassified>)
    ensures counts.Keys == Values(issues, StatusNameOf)
    ensures forall name :: name in counts ==> counts[name].count == Tally(issues, StatusNameOf, name)
    ensures forall name :: name in counts ==>
              counts[name].classification == ClassificationOf(issues[FirstWith(issues, StatusNameOf, name)])
    ensures SumCounts(CountsOf(counts)) == |issues|
  {
    counts := map[];
    for i := 0 to |issues|
      invariant counts == StatusCountsOf(issues[..i])
    {
      var issue := issues[i];
      var status := issue.fields.status.name;
      if status !in counts {
        counts := counts[status := StatusClassified(issue.fields.statusCategory.key, 1)];
      } else {
        var value := counts[status];
        counts := counts[status := value.(count := value.count + 1)];
      }
      StatusCountsOfPrefix(issues, i);
    }
    SliceWhole(issues);
    StatusCountsOfHistogram(issues);
    HistogramMeaning(issues, StatusNameOf);
    StatusCountsOfFirst(issues);
    HistogramTotal(issues, StatusNameOf);
  }

  /** The number of tickets of each issue type that occurs. */
  method CalculateTypeCounts(issues: seq<Ticket>) returns (counts: map<string, nat>)
    ensures counts.Keys == Values(issues, TypeNameOf)
    ensures forall name :: name in counts ==> counts[name] == Tally(issues, TypeNameOf, name)
    ensures SumCounts(counts) == |issues|
  {
    counts := map[];
    for i := 0 to |issues|
      invariant counts == Histogram(issues[..i], TypeNameOf)
    {
      var issueType := issues[i].fields.issueType.name;
      HistogramPrefix(issues, TypeNameOf, i);
      counts := counts[issueType := (if issueType in counts then counts[issueType] else 0) + 1];
    }
    SliceWhole(issues);
    HistogramMeaning(issues, TypeNameOf);
    HistogramTotal(issues, TypeNameOf);
  }

  // ---------------------------------------------------------------------
  // getAvatarURL

  const PreferredSizes: seq<string> := ["48x48", "32x32", "24x24", "16x16"]

  predicate HasUrl(urls: map<string, string>, size: string)
  {
    size in urls && urls[size] != ""
  }

  /** The first size in `sizes` with a non-empty URL, if any. */
  function FirstPreferredSize(urls: map<string, string>, sizes: seq<string>): (r: Option<nat>)
    ensures r.Some? ==> r.value < |sizes| && HasUrl(urls, sizes[r.value])
    ensures r.Some? ==> forall j :: 0 <= j < r.value ==> !HasUrl(urls, sizes[j])
    ensures r.None? <==> forall j :: 0 <= j < |sizes| ==> !HasUrl(urls, sizes[j])
  {
    if sizes == [] then None
    else if HasUrl(urls, sizes[0]) then Some(0)
    else
      match FirstPreferredSize(urls, sizes[1..])
      case None => None
      case Some(i) => Some(i + 1)
  }

  /** The URLs getAvatarURL may return: the preferred size's URL when one
      is present and non-empty; otherwise any non-empty URL of the map,
      chosen by map iteration order; "" only when there is none. */
  predicate IsAvatarChoice(urls: map<string, string>, r: string)
  {
    match FirstPreferredSize(urls, PreferredSizes)
    case Some(i) => r == urls[PreferredSizes[i]]
    case None =>
      if exists k :: k in urls && urls[k] != "" then r != "" && exists k :: k in urls && urls[k] == r
      else r == ""
  }

  method GetAvatarURL(urls: map<string, string>) returns (r: string)
    ensures IsAvatarChoice(urls, r)
  {
    var sizes := PreferredSizes;
    for i := 0 to |sizes|
      invariant forall j :: 0 <= j < i ==> !HasUrl(urls, sizes[j])
    {
      var size := sizes[i];
      if size in urls && urls[size] != "" {
        return urls[size];
      }
    }
    var remaining := urls.Keys;
    while remaining != {}
      invariant remaining <= urls.Keys
      invariant forall k :: k in urls && k !in remaining ==> urls[k] == ""
      decreases remaining
    {
      var k :| k in remaining;
      if urls[k] != "" {
        return urls[k];
      }
      remaining := remaining - {k};
    }
    return "";
  }

  /** The chosen URL is "" exactly when every URL in the map is empty, and
      a non-empty choice is one of the map's URLs. */
  lemma AvatarChoiceEmpty(urls: map<string, string>, r: string)
    requires IsAvatarChoice(urls, r)
    ensures r == "" <==> forall k :: k in urls ==> urls[k] == ""
    ensures r != "" ==> exists k :: k in urls && urls[k] == r
  {
    match FirstPreferredSize(urls, PreferredSizes)
    case Some(i) =>
      assert PreferredSizes[i] in urls && urls[PreferredSizes[i]] == r;
    case None =>
  }

  /** With a preferred size present the choice is unique. */
  lemma AvatarChoicePreferred(urls: map<string, string>, r: string, i: nat)
    requires IsAvatarChoice(urls, r)
    requires i < |PreferredSizes| && HasUrl(urls, PreferredSizes[i])
    requires forall j :: 0 <= j < i ==> !HasUrl(urls, PreferredSizes[j])
    ensures r == urls[PreferredSizes[i]]
  {
    var f := FirstPreferredSize(urls, PreferredSizes);
    assert f.Some?;
    assert f.value == i;
  }

  // ---------------------------------------------------------------------
  // ExtractAssignees

  /** `a` describes user `u`, with an avatar getAvatarURL may pick. */
  predicate IsEntryFor(u: User, a: Assignee)
  {
    a.accountId == u.accountId && a.displayName == u.displayName && a.active == u.active
    && IsAvatarChoice(u.avatarUrls, a.avatarUrl)
  }

  /** The account ids of a list of assignees. */
  function AccountIds(s: seq<Assignee>): set<string>
  {
    set a | a in s :: a.accountId
  }

  lemma AccountIdsAppend(s: seq<Assignee>, a: Assignee)
    ensures AccountIds(s + [a]) == AccountIds(s) + {a.accountId}
  {
    assert forall x :: x in s + [a] <==> x in s || x == a;
  }

  /** The user of the last ticket for each non-empty account id, built
      from `ts` in order. */
  function LatestUsers(ts: seq<Ticket>): map<string, User>
  {
    if ts == [] then map[]
    else
      var m := LatestUsers(ts[..|ts| - 1]);
      var u := ts[|ts| - 1].fields.assignee;
      if u.accountId != "" then m[u.accountId := u] else m
  }

  lemma LatestUsersPrefix(ts: seq<Ticket>, i: nat)
    requires i < |ts|
    ensures var u := ts[i].fields.assignee;
            LatestUsers(ts[..i + 1]) == if u.accountId != "" then LatestUsers(ts[..i])[u.accountId := u] else LatestUsers(ts[..i])
  {
    assert ts[..i + 1][..i] == ts[..i];
  }

  /** Every non-empty account id has exactly one entry: the user of the
      last ticket with that id. */
  lemma {:induction false} LatestUsersMeaning(ts: seq<Ticket>)
    ensures LatestUsers(ts).Keys == Values(ts, AccountIdOf) - {""}
    ensures forall id :: id in LatestUsers(ts) ==>
              LatestUsers(ts)[id] == ts[LastWith(ts, AccountIdOf, id)].fields.assignee
    decreases |ts|
  {
    if ts != [] {
      var p := ts[..|ts| - 1];
      LatestUsersMeaning(p);
      ValuesStep(ts, AccountIdOf);
      forall id | id in LatestUsers(ts)
        ensures LatestUsers(ts)[id] == ts[LastWith(ts, AccountIdOf, id)].fields.assignee
      {
        if id != AccountIdOf(ts[|ts| - 1]) {
          assert LastWith(ts, AccountIdOf, id) == LastWith(p, AccountIdOf, id);
        }
      }
    }
  }

  /**
   * One assignee per distinct non-empty account id, described by the last
   * ticket with that id. The Go code fills a map and then lists its values
   * in map iteration order; the order of the result is therefore left
   * open.
   */
  method ExtractAssignees(issues: seq<Ticket>) returns (assignees: seq<Assignee>)
    ensures AccountIds(assignees) == Values(issues, AccountIdOf) - {""}
    ensures forall i, j :: 0 <= i < j < |assignees| ==> assignees[i].accountId != assignees[j].accountId
    ensures forall a :: a in assignees ==>
              a.accountId in Values(issues, AccountIdOf)
              && IsEntryFor(issues[LastWith(issues, AccountIdOf, a.accountId)].fields.assignee, a)
  {
    var assigneeMap: map<string, Assignee> := map[];
    for i := 0 to |issues|
      invariant assigneeMap.Keys == LatestUsers(issues[..i]).Keys
      invariant forall id :: id in assigneeMap ==>
                  assigneeMap[id].accountId == id && IsEntryFor(LatestUsers(issues[..i])[id], assigneeMap[id])
    {
      var user := issues[i].fields.assignee;
      if user.accountId != "" {
        var avatarUrl := GetAvatarURL(user.avatarUrls);
        assigneeMap := assigneeMap[user.accountId := Assignee(user.accountId, user.displayName, avatarUrl, user.active)];
      }
      LatestUsersPrefix(issues, i);
    }
    SliceWhole(issues);
    LatestUsersMeaning(issues);

    assignees := ListAssignees(assigneeMap);
  }

  /** The map's values in map iteration order (stats.go keeps them as a
      slice); each value is filed under its own account id. */
  method ListAssignees(m: map<string, Assignee>) returns (assignees: seq<Assignee>)
    requires forall id :: id in m ==> m[id].accountId == id
    ensures AccountIds(assignees) == m.Keys
    ensures forall a :: a in assignees ==> a.accountId in m && m[a.accountId] == a
    ensures forall i, j :: 0 <= i < j < |assignees| ==> assignees[i].accountId != assignees[j].accountId
  {
    assignees := [];
    var remaining := m.Keys;
    while remaining != {}
      invariant remaining <= m.Keys
      invariant AccountIds(assignees) == m.Keys - remaining
      invariant forall a :: a in assignees ==> a.accountId in m && m[a.accountId] == a
      invariant forall i, j :: 0 <= i < j < |assignees| ==> assignees[i].accountId != assignees[j].accountId
      decreases remaining
    {
      var id :| id in remaining;
      AccountIdsAppend(assignees, m[id]);
      assignees := assignees + [m[id]];
      remaining := remaining - {id};
    }
  }
}

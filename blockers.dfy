/**
 * The blockers reporter: classifies the active bugs of a set of components
 * into overlapping buckets (urgent, blocker+, blocker?, to triage, needing an
 * UpcomingSprint keyword, serious keywords) and counts severity and priority
 * histograms. The channel report is in `BlockersReport`, the per-assignee
 * notifications in `BlockersSync`.
 */
module Blockers {
  import opened Wrappers
  import opened Bugzilla
  import opened Strings
  import opened Strconv
  import opened Counts
  import opened Seqs

  /** The target release of a bug that has none. */
  const Unset := "---"

  const SeriousKeywords: seq<string> := ["ServiceDeliveryBlocker", "TestBlocker", "UpgradeBlocker"]

  /** The order in which severity and priority histograms are rendered. */
  const SortedPrioNames: seq<string> := ["urgent", "high", "medium", "low", "unspecified"]

  // ---------------------------------------------------------------------------
  // Rules of the classifier
  // ---------------------------------------------------------------------------

  /** `hasFlag`: some flag carries both the name and the status. */
  function HasFlag(flags: seq<Flag>, name: string, value: string): (r: bool)
    ensures r <==> exists i :: 0 <= i < |flags| && flags[i].name == name && flags[i].status == value
  {
    if flags == [] then false
    else (flags[0].name == name && flags[0].status == value) || HasFlag(flags[1..], name, value)
  }

  /** The first target release of a bug, or "---" when it has none. */
  function ResolvedRelease(b: Bug): string
  {
    if |b.targetRelease| > 0 then b.targetRelease[0] else Unset
  }

  /** The bug counts against the current release: it targets it or targets nothing. */
  predicate InCurrentRelease(b: Bug, current: string)
  {
    ResolvedRelease(b) == current || ResolvedRelease(b) == Unset
  }

  /** The buckets of the summary. They overlap: each rule is checked on its own. */
  datatype Bucket =
    | Serious(keyword: string)
    | Stale
    | Urgent
    | NeedUpcomingSprint
    | BlockerPlus
    | BlockerQuestionmark
    | ToTriage
    | CurrentRelease

  predicate InBucket(b: Bug, k: Bucket, current: string)
  {
    match k
    case Serious(keyword) => keyword in b.keywords
    case Stale => Contains(b.whiteboard, "LifecycleStale")
    case Urgent => b.priority == "urgent" || b.severity == "urgent"
    case NeedUpcomingSprint => "UpcomingSprint" !in b.keywords
    case BlockerPlus => HasFlag(b.flags, "blocker", "+") && InCurrentRelease(b, current)
    case BlockerQuestionmark => HasFlag(b.flags, "blocker", "?") && InCurrentRelease(b, current)
    case ToTriage =>
      || (ResolvedRelease(b) == current && b.status in {"NEW", ""})
      || ResolvedRelease(b) == Unset
      || b.priority == "unspecified" || b.priority == ""
      || b.severity == "unspecified" || b.severity == ""
    case CurrentRelease => InCurrentRelease(b, current)
  }

  // ---------------------------------------------------------------------------
  // Specification of the summary
  // ---------------------------------------------------------------------------

  /** The positions of the bugs that fall into bucket `k`, in input order. */
  function Members(bugs: seq<Bug>, k: Bucket, current: string): (m: seq<nat>)
    ensures forall t :: 0 <= t < |m| ==> m[t] < |bugs|
  {
    if bugs == [] then []
    else
      var init := bugs[..|bugs| - 1];
      Members(init, k, current) + (if InBucket(bugs[|bugs| - 1], k, current) then [|bugs| - 1] else [])
  }

  /** Position `j` is a member exactly when bug `j` falls into the bucket; positions ascend. */
  lemma {:induction false} MembersSpec(bugs: seq<Bug>, k: Bucket, current: string)
    ensures AscendingBelow(Members(bugs, k, current), |bugs|)
    ensures forall j :: j in Members(bugs, k, current) <==> 0 <= j < |bugs| && InBucket(bugs[j], k, current)
  {
    if bugs != [] {
      var init := bugs[..|bugs| - 1];
      MembersSpec(init, k, current);
      assert forall j :: 0 <= j < |init| ==> init[j] == bugs[j];
    }
  }

  function IdsOf(bugs: seq<Bug>): seq<int>
  {
    seq(|bugs|, j requires 0 <= j < |bugs| => bugs[j].id)
  }

  function LinesOf(bugs: seq<Bug>, format: Bug -> string): seq<string>
  {
    seq(|bugs|, j requires 0 <= j < |bugs| => format(bugs[j]))
  }

  /** The severities of the bugs, in input order. */
  function Severities(bugs: seq<Bug>): (r: seq<string>)
    ensures |r| == |bugs|
  {
    if bugs == [] then [] else Severities(bugs[..|bugs| - 1]) + [bugs[|bugs| - 1].severity]
  }

  /** The priorities of the bugs, in input order. */
  function Priorities(bugs: seq<Bug>): (r: seq<string>)
    ensures |r| == |bugs|
  {
    if bugs == [] then [] else Priorities(bugs[..|bugs| - 1]) + [bugs[|bugs| - 1].priority]
  }

  /** `bugSummary`. Each ID list has a parallel list of rendered lines. */
  datatype Summary = Summary(
    seriousIDs: map<string, seq<int>>,
    blockerPlus: seq<string>,
    blockerPlusIDs: seq<int>,
    blockerQuestionmark: seq<string>,
    blockerQuestionmarkIDs: seq<int>,
    toTriage: seq<string>,
    toTriageIDs: seq<int>,
    needUpcomingSprint: seq<string>,
    needUpcomingSprintIDs: seq<int>,
    urgentIDs: seq<int>,
    urgent: seq<string>,
    staleCount: int,
    priorityCount: map<string, int>,
    severityCount: map<string, int>,
    currentReleaseCount: int
  )

  /** What one bug adds to the ID list of bucket `k`. */
  function IdIf(b: Bug, k: Bucket, current: string): seq<int>
  {
    if InBucket(b, k, current) then [b.id] else []
  }

  /** What one bug adds to the line list of bucket `k`. */
  function LineIf(b: Bug, k: Bucket, current: string, format: Bug -> string): seq<string>
  {
    if InBucket(b, k, current) then [format(b)] else []
  }

  /** The IDs of the bugs in bucket `k`, in input order. */
  function BucketIds(bugs: seq<Bug>, k: Bucket, current: string): seq<int>
  {
    if bugs == [] then []
    else BucketIds(bugs[..|bugs| - 1], k, current) + IdIf(bugs[|bugs| - 1], k, current)
  }

  /** The rendered lines of the bugs in bucket `k`, in input order. */
  function BucketLines(bugs: seq<Bug>, k: Bucket, current: string, format: Bug -> string): seq<string>
  {
    if bugs == [] then []
    else BucketLines(bugs[..|bugs| - 1], k, current, format) + LineIf(bugs[|bugs| - 1], k, current, format)
  }

  /**
   * What one bug adds to entry `key` of the serious map: its ID under each
   * serious keyword it carries, and under "blocker+" or "blocker?" when it is
   * in that blocker bucket.
   */
  function SeriousIdIf(b: Bug, key: string, current: string): seq<int>
  {
    if key == "blocker+" then IdIf(b, BlockerPlus, current)
    else if key == "blocker?" then IdIf(b, BlockerQuestionmark, current)
    else if key in SeriousKeywords then IdIf(b, Serious(key), current)
    else []
  }

  /** Entry `key` of the serious map of `bugs`. */
  function SeriousIds(bugs: seq<Bug>, key: string, current: string): seq<int>
  {
    if key == "blocker+" then BucketIds(bugs, BlockerPlus, current)
    else if key == "blocker?" then BucketIds(bugs, BlockerQuestionmark, current)
    else if key in SeriousKeywords then BucketIds(bugs, Serious(key), current)
    else []
  }

  /** `m` is the serious map of `bugs`: each entry as above, and a key only for a non-empty entry. */
  ghost predicate SeriousMap(m: map<string, seq<int>>, current: string, bugs: seq<Bug>)
  {
    && (forall key :: key in m <==> SeriousIds(bugs, key, current) != [])
    && (forall key :: Lookup(m, key) == SeriousIds(bugs, key, current))
  }

  /** The ID lists and their parallel line lists of `bugs`. */
  ghost predicate BucketLists(r: Summary, current: string, bugs: seq<Bug>, format: Bug -> string)
  {
    && r.urgentIDs == BucketIds(bugs, Urgent, current)
    && r.urgent == BucketLines(bugs, Urgent, current, format)
    && r.needUpcomingSprintIDs == BucketIds(bugs, NeedUpcomingSprint, current)
    && r.needUpcomingSprint == BucketLines(bugs, NeedUpcomingSprint, current, format)
    && r.blockerPlusIDs == BucketIds(bugs, BlockerPlus, current)
    && r.blockerPlus == BucketLines(bugs, BlockerPlus, current, format)
    && r.blockerQuestionmarkIDs == BucketIds(bugs, BlockerQuestionmark, current)
    && r.blockerQuestionmark == BucketLines(bugs, BlockerQuestionmark, current, format)
    && r.toTriageIDs == BucketIds(bugs, ToTriage, current)
    && r.toTriage == BucketLines(bugs, ToTriage, current, format)
  }

  /** The counters of `bugs`. */
  ghost predicate Counters(r: Summary, current: string, bugs: seq<Bug>)
  {
    && r.staleCount == |BucketIds(bugs, Stale, current)|
    && r.currentReleaseCount == |BucketIds(bugs, CurrentRelease, current)|
    && r.severityCount == Tally(Severities(bugs))
    && r.priorityCount == Tally(Priorities(bugs))
  }

  /** `r` is the summary of `bugs`. */
  ghost predicate Summarizes(r: Summary, current: string, bugs: seq<Bug>, format: Bug -> string)
  {
    SeriousMap(r.seriousIDs, current, bugs) && BucketLists(r, current, bugs, format) && Counters(r, current, bugs)
  }

  /** How one more bug changes the serious map. */
  ghost predicate SeriousStep(m: map<string, seq<int>>, m': map<string, seq<int>>, b: Bug, current: string)
  {
    && (forall key :: key in m' <==> key in m || SeriousIdIf(b, key, current) != [])
    && (forall key :: Lookup(m', key) == Lookup(m, key) + SeriousIdIf(b, key, current))
  }

  /** How one more bug changes the ID and line lists. */
  ghost predicate ListsStep(r: Summary, r': Summary, b: Bug, current: string, format: Bug -> string)
  {
    && r'.urgentIDs == r.urgentIDs + IdIf(b, Urgent, current)
    && r'.urgent == r.urgent + LineIf(b, Urgent, current, format)
    && r'.needUpcomingSprintIDs == r.needUpcomingSprintIDs + IdIf(b, NeedUpcomingSprint, current)
    && r'.needUpcomingSprint == r.needUpcomingSprint + LineIf(b, NeedUpcomingSprint, current, format)
    && r'.blockerPlusIDs == r.blockerPlusIDs + IdIf(b, BlockerPlus, current)
    && r'.blockerPlus == r.blockerPlus + LineIf(b, BlockerPlus, current, format)
    && r'.blockerQuestionmarkIDs == r.blockerQuestionmarkIDs + IdIf(b, BlockerQuestionmark, current)
    && r'.blockerQuestionmark == r.blockerQuestionmark + LineIf(b, BlockerQuestionmark, current, format)
    && r'.toTriageIDs == r.toTriageIDs + IdIf(b, ToTriage, current)
    && r'.toTriage == r.toTriage + LineIf(b, ToTriage, current, format)
  }

  /** How one more bug changes the counters. */
  ghost predicate CountersStep(r: Summary, r': Summary, b: Bug, current: string)
  {
    && r'.staleCount == r.staleCount + |IdIf(b, Stale, current)|
    && r'.currentReleaseCount == r.currentReleaseCount + |IdIf(b, CurrentRelease, current)|
    && r'.severityCount == Inc(r.severityCount, b.severity)
    && r'.priorityCount == Inc(r.priorityCount, b.priority)
  }

  /** How one more bug changes the summary. */
  ghost predicate SummaryStep(r: Summary, r': Summary, b: Bug, current: string, format: Bug -> string)
  {
    SeriousStep(r.seriousIDs, r'.seriousIDs, b, current) && ListsStep(r, r', b, current, format) && CountersStep(r, r', b, current)
  }

  /** Summarizing one more bug extends the summary of the bugs before it. */
  lemma SummarizesSnoc(r: Summary, r': Summary, bugs: seq<Bug>, i: nat, current: string, format: Bug -> string)
    requires i < |bugs|
    requires Summarizes(r, current, bugs[..i], format)
    requires SummaryStep(r, r', bugs[i], current, format)
    ensures Summarizes(r', current, bugs[..i + 1], format)
  {
    var upto := bugs[..i + 1];
    assert upto[..i] == bugs[..i] && upto[i] == bugs[i];
    SeriousMapSnoc(r.seriousIDs, r'.seriousIDs, bugs[..i], upto, current);
    BucketListsSnoc(r, r', bugs[..i], upto, current, format);
    CountersSnoc(r, r', bugs[..i], upto, current);
  }

  lemma SeriousMapSnoc(m: map<string, seq<int>>, m': map<string, seq<int>>, done: seq<Bug>, upto: seq<Bug>, current: string)
    requires |upto| > 0 && upto[..|upto| - 1] == done
    requires SeriousMap(m, current, done)
    requires SeriousStep(m, m', upto[|upto| - 1], current)
    ensures SeriousMap(m', current, upto)
  {
    forall key
      ensures (key in m' <==> SeriousIds(upto, key, current) != [])
      ensures Lookup(m', key) == SeriousIds(upto, key, current)
    {
      SeriousIdsSnoc(done, upto, key, current);
    }
  }

  /** Entry `key` of the serious map grows by what the last bug adds to it. */
  lemma SeriousIdsSnoc(done: seq<Bug>, upto: seq<Bug>, key: string, current: string)
    requires |upto| > 0 && upto[..|upto| - 1] == done
    ensures SeriousIds(upto, key, current) == SeriousIds(done, key, current) + SeriousIdIf(upto[|upto| - 1], key, current)
  {
  }

  lemma BucketListsSnoc(r: Summary, r': Summary, done: seq<Bug>, upto: seq<Bug>, current: string, format: Bug -> string)
    requires |upto| > 0 && upto[..|upto| - 1] == done
    requires BucketLists(r, current, done, format)
    requires ListsStep(r, r', upto[|upto| - 1], current, format)
    ensures BucketLists(r', current, upto, format)
  {
  }

  lemma CountersSnoc(r: Summary, r': Summary, done: seq<Bug>, upto: seq<Bug>, current: string)
    requires |upto| > 0 && upto[..|upto| - 1] == done
    requires Counters(r, current, done)
    requires CountersStep(r, r', upto[|upto| - 1], current)
    ensures Counters(r', current, upto)
  {
  }

  // ---------------------------------------------------------------------------
  // summarizeBugs
  // ---------------------------------------------------------------------------

  // The body of `summarizeBugs`' loop, in the groups its statements fall into.

  /** The keys of the serious map are pairwise different. */
  lemma SeriousKeysDistinct()
    ensures forall t, u :: 0 <= t < u < |SeriousKeywords| ==> SeriousKeywords[t] != SeriousKeywords[u]
    ensures "blocker+" !in SeriousKeywords && "blocker?" !in SeriousKeywords
    ensures "blocker+" != "blocker?"
  {
    assert |SeriousKeywords[0]| == 22 && |SeriousKeywords[1]| == 11 && |SeriousKeywords[2]| == 14;
    assert |"blocker+"| == 8;
    assert "blocker+"[7] != "blocker?"[7];
  }

  lemma BlockerKeysNotKeywords()
    ensures "blocker+" !in SeriousKeywords && "blocker?" !in SeriousKeywords
  {
    assert |SeriousKeywords[0]| == 22 && |SeriousKeywords[1]| == 11 && |SeriousKeywords[2]| == 14;
  }

  /** Appends the bug's ID to the list of each of `keywords` that it carries. */
  method FileKeywords(m: map<string, seq<int>>, bug: Bug, keywords: seq<string>) returns (m': map<string, seq<int>>)
    requires forall t, u :: 0 <= t < u < |keywords| ==> keywords[t] != keywords[u]
    ensures forall key :: key in m' <==> key in m || (key in keywords && key in bug.keywords)
    ensures forall key :: Lookup(m', key) == Lookup(m, key) + (if key in keywords && key in bug.keywords then [bug.id] else [])
  {
    m' := m;
    var j := 0;
    while j < |keywords|
      invariant j <= |keywords|
      invariant KeywordsFiled(m, m', bug, keywords[..j])
    {
      var keyword := keywords[j];
      assert keyword !in keywords[..j];
      var next := if keyword in bug.keywords then m'[keyword := Lookup(m', keyword) + [bug.id]] else m';
      KeywordsFiledStep(m, m', bug, keywords[..j], keyword);
      assert keywords[..j + 1] == keywords[..j] + [keyword];
      m', j := next, j + 1;
    }
    assert keywords[..j] == keywords;
  }

  /** `m'` is `m` with the bug's ID appended under each of `ks` that the bug carries. */
  ghost predicate KeywordsFiled(m: map<string, seq<int>>, m': map<string, seq<int>>, bug: Bug, ks: seq<string>)
  {
    && (forall key :: key in m' <==> key in m || (key in ks && key in bug.keywords))
    && (forall key :: Lookup(m', key) == Lookup(m, key) + (if key in ks && key in bug.keywords then [bug.id] else []))
  }

  lemma KeywordsFiledStep(m: map<string, seq<int>>, m': map<string, seq<int>>, bug: Bug, ks: seq<string>, keyword: string)
    requires KeywordsFiled(m, m', bug, ks)
    requires keyword !in ks
    ensures KeywordsFiled(m, if keyword in bug.keywords then m'[keyword := Lookup(m', keyword) + [bug.id]] else m', bug, ks + [keyword])
  {
  }

  /** The stale, release and histogram counters. */
  method FileCounters(r: Summary, bug: Bug, current: string, targetRelease: string)
    returns (stale: int, severityCount: map<string, int>, priorityCount: map<string, int>, currentReleaseCount: int)
    requires targetRelease == ResolvedRelease(bug)
    ensures stale == r.staleCount + |IdIf(bug, Stale, current)|
    ensures currentReleaseCount == r.currentReleaseCount + |IdIf(bug, CurrentRelease, current)|
    ensures severityCount == Inc(r.severityCount, bug.severity)
    ensures priorityCount == Inc(r.priorityCount, bug.priority)
  {
    stale := r.staleCount;
    if Contains(bug.whiteboard, "LifecycleStale") {
      stale := stale + 1;
    }
    severityCount := Inc(r.severityCount, bug.severity);
    priorityCount := Inc(r.priorityCount, bug.priority);
    currentReleaseCount := r.currentReleaseCount;
    if targetRelease == current || targetRelease == Unset {
      currentReleaseCount := currentReleaseCount + 1;
    }
  }

  /** The urgent bugs and the bugs without an UpcomingSprint keyword. */
  method FileUrgent(r: Summary, bug: Bug, current: string, format: Bug -> string)
    returns (urgent: seq<string>, urgentIDs: seq<int>, needUpcomingSprint: seq<string>, needUpcomingSprintIDs: seq<int>)
    ensures urgentIDs == r.urgentIDs + IdIf(bug, Urgent, current)
    ensures urgent == r.urgent + LineIf(bug, Urgent, current, format)
    ensures needUpcomingSprintIDs == r.needUpcomingSprintIDs + IdIf(bug, NeedUpcomingSprint, current)
    ensures needUpcomingSprint == r.needUpcomingSprint + LineIf(bug, NeedUpcomingSprint, current, format)
  {
    urgent, urgentIDs := r.urgent, r.urgentIDs;
    if bug.priority == "urgent" || bug.severity == "urgent" {
      urgent, urgentIDs := urgent + [format(bug)], urgentIDs + [bug.id];
    }
    needUpcomingSprint, needUpcomingSprintIDs := r.needUpcomingSprint, r.needUpcomingSprintIDs;
    if "UpcomingSprint" !in bug.keywords {
      needUpcomingSprint, needUpcomingSprintIDs := needUpcomingSprint + [format(bug)], needUpcomingSprintIDs + [bug.id];
    }
  }

  /** What one bug adds to the "blocker+" and "blocker?" entries of the serious map. */
  function BlockerIdIf(b: Bug, key: string, current: string): seq<int>
  {
    if key == "blocker+" then IdIf(b, BlockerPlus, current)
    else if key == "blocker?" then IdIf(b, BlockerQuestionmark, current)
    else []
  }

  /** Filing a bug's serious keywords and then its blocker flags is one step of the serious map. */
  lemma SeriousSteps(m: map<string, seq<int>>, m1: map<string, seq<int>>, m2: map<string, seq<int>>, b: Bug, current: string)
    requires forall key :: key in m1 <==> key in m || (key in SeriousKeywords && key in b.keywords)
    requires forall key :: Lookup(m1, key) == Lookup(m, key) + (if key in SeriousKeywords && key in b.keywords then [b.id] else [])
    requires forall key :: key in m2 <==> key in m1 || BlockerIdIf(b, key, current) != []
    requires forall key :: Lookup(m2, key) == Lookup(m1, key) + BlockerIdIf(b, key, current)
    ensures SeriousStep(m, m2, b, current)
  {
    forall key
      ensures SeriousIdIf(b, key, current) == (if key in SeriousKeywords && key in b.keywords then [b.id] else []) + BlockerIdIf(b, key, current)
    {
      if key == "blocker+" || key == "blocker?" {
        BlockerKeysNotKeywords();
      }
    }
  }

  /** The blocker+ and blocker? bugs of the current release, also recorded in the serious map. */
  method FileBlockers(r: Summary, serious: map<string, seq<int>>, bug: Bug, current: string, targetRelease: string, format: Bug -> string)
    returns (blockerPlus: seq<string>, blockerPlusIDs: seq<int>, blockerQuestionmark: seq<string>, blockerQuestionmarkIDs: seq<int>,
             serious': map<string, seq<int>>)
    requires targetRelease == ResolvedRelease(bug)
    ensures blockerPlusIDs == r.blockerPlusIDs + IdIf(bug, BlockerPlus, current)
    ensures blockerPlus == r.blockerPlus + LineIf(bug, BlockerPlus, current, format)
    ensures blockerQuestionmarkIDs == r.blockerQuestionmarkIDs + IdIf(bug, BlockerQuestionmark, current)
    ensures blockerQuestionmark == r.blockerQuestionmark + LineIf(bug, BlockerQuestionmark, current, format)
    ensures forall key :: key in serious' <==> key in serious || BlockerIdIf(bug, key, current) != []
    ensures forall key :: Lookup(serious', key) == Lookup(serious, key) + BlockerIdIf(bug, key, current)
  {
    serious' := serious;
    blockerPlus, blockerPlusIDs := r.blockerPlus, r.blockerPlusIDs;
    if HasFlag(bug.flags, "blocker", "+") && (targetRelease == current || targetRelease == Unset) {
      blockerPlus, blockerPlusIDs := blockerPlus + [format(bug)], blockerPlusIDs + [bug.id];
      serious' := serious'["blocker+" := Lookup(serious', "blocker+") + [bug.id]];
    }
    blockerQuestionmark, blockerQuestionmarkIDs := r.blockerQuestionmark, r.blockerQuestionmarkIDs;
    if HasFlag(bug.flags, "blocker", "?") && (targetRelease == current || targetRelease == Unset) {
      blockerQuestionmark, blockerQuestionmarkIDs := blockerQuestionmark + [format(bug)], blockerQuestionmarkIDs + [bug.id];
      serious' := serious'["blocker?" := Lookup(serious', "blocker?") + [bug.id]];
    }
  }

  /** The bugs still to triage: untargeted, NEW in the current release, or without priority or severity. */
  method FileToTriage(r: Summary, bug: Bug, current: string, targetRelease: string, format: Bug -> string)
    returns (toTriage: seq<string>, toTriageIDs: seq<int>)
    requires targetRelease == ResolvedRelease(bug)
    ensures toTriageIDs == r.toTriageIDs + IdIf(bug, ToTriage, current)
    ensures toTriage == r.toTriage + LineIf(bug, ToTriage, current, format)
  {
    toTriage, toTriageIDs := r.toTriage, r.toTriageIDs;
    if (targetRelease == current && bug.status in {"NEW", ""}) || targetRelease == Unset
      || bug.priority == "unspecified" || bug.priority == ""
      || bug.severity == "unspecified" || bug.severity == ""
    {
      toTriage, toTriageIDs := toTriage + [format(bug)], toTriageIDs + [bug.id];
    }
  }

  /** The body of `summarizeBugs`' loop: files one bug into every bucket it belongs to. */
  method SummarizeBug(r: Summary, bug: Bug, current: string, format: Bug -> string) returns (r': Summary)
    ensures SummaryStep(r, r', bug, current, format)
  {
    SeriousKeysDistinct();
    var serious := FileKeywords(r.seriousIDs, bug, SeriousKeywords);
    var targetRelease := Unset;
    if |bug.targetRelease| > 0 {
      targetRelease := bug.targetRelease[0];
    }
    var stale, severityCount, priorityCount, currentReleaseCount := FileCounters(r, bug, current, targetRelease);
    var urgent, urgentIDs, needUpcomingSprint, needUpcomingSprintIDs := FileUrgent(r, bug, current, format);
    var blockerPlus, blockerPlusIDs, blockerQuestionmark, blockerQuestionmarkIDs, serious' :=
      FileBlockers(r, serious, bug, current, targetRelease, format);
    var toTriage, toTriageIDs := FileToTriage(r, bug, current, targetRelease, format);
    SeriousSteps(r.seriousIDs, serious, serious', bug, current);
    r' := Summary(serious', blockerPlus, blockerPlusIDs, blockerQuestionmark, blockerQuestionmarkIDs,
                  toTriage, toTriageIDs, needUpcomingSprint, needUpcomingSprintIDs, urgentIDs, urgent,
                  stale, priorityCount, severityCount, currentReleaseCount);
  }

  /** `summarizeBugs`: a single pass over the bugs, filling every bucket and counter. */
  method SummarizeBugs(current: string, bugs: seq<Bug>, format: Bug -> string) returns (r: Summary)
    ensures Summarizes(r, current, bugs, format)
  {
    r := Summary(map[], [], [], [], [], [], [], [], [], [], [], 0, map[], map[], 0);
    var i := 0;
    while i < |bugs|
      invariant i <= |bugs|
      invariant Summarizes(r, current, bugs[..i], format)
    {
      var r' := SummarizeBug(r, bugs[i], current, format);
      SummarizesSnoc(r, r', bugs, i, current, format);
      r, i := r', i + 1;
    }
    assert bugs[..|bugs|] == bugs;
  }

  // ---------------------------------------------------------------------------
  // Properties of the summary
  // ---------------------------------------------------------------------------

  /** Each bucket lists, in input order, the IDs and the lines of exactly its member positions. */
  lemma BucketPick(bugs: seq<Bug>, k: Bucket, current: string, format: Bug -> string)
    ensures AscendingBelow(Members(bugs, k, current), |bugs|)
    ensures BucketIds(bugs, k, current) == Pick(IdsOf(bugs), Members(bugs, k, current))
    ensures BucketLines(bugs, k, current, format) == Pick(LinesOf(bugs, format), Members(bugs, k, current))
  {
    MembersSpec(bugs, k, current);
    BucketIdsPick(bugs, k, current);
    BucketLinesPick(bugs, k, current, format);
  }

  lemma {:induction false} BucketIdsPick(bugs: seq<Bug>, k: Bucket, current: string)
    ensures BucketIds(bugs, k, current) == Pick(IdsOf(bugs), Members(bugs, k, current))
  {
    if bugs != [] {
      var n := |bugs| - 1;
      var init := bugs[..n];
      BucketIdsPick(init, k, current);
      var m := Members(init, k, current);
      assert IdsOf(bugs)[..n] == IdsOf(init);
      PickPrefix(IdsOf(init), IdsOf(bugs), m);
      if InBucket(bugs[n], k, current) {
        PickSnoc(IdsOf(bugs), m, n);
      }
    }
  }

  lemma {:induction false} BucketLinesPick(bugs: seq<Bug>, k: Bucket, current: string, format: Bug -> string)
    ensures BucketLines(bugs, k, current, format) == Pick(LinesOf(bugs, format), Members(bugs, k, current))
  {
    if bugs != [] {
      var n := |bugs| - 1;
      var init := bugs[..n];
      BucketLinesPick(init, k, current, format);
      var m := Members(init, k, current);
      assert LinesOf(bugs, format)[..n] == LinesOf(init, format);
      PickPrefix(LinesOf(init, format), LinesOf(bugs, format), m);
      if InBucket(bugs[n], k, current) {
        PickSnoc(LinesOf(bugs, format), m, n);
      }
    }
  }

  /**
   * The ID list and the line list of a bucket have the same length, and entry
   * `t` of both comes from the same bug, one that belongs to the bucket.
   */
  lemma BucketsParallel(bugs: seq<Bug>, k: Bucket, current: string, format: Bug -> string)
    ensures |BucketIds(bugs, k, current)| == |BucketLines(bugs, k, current, format)| <= |bugs|
    ensures forall t :: 0 <= t < |BucketIds(bugs, k, current)| ==>
      exists j :: 0 <= j < |bugs| && InBucket(bugs[j], k, current)
        && BucketIds(bugs, k, current)[t] == bugs[j].id && BucketLines(bugs, k, current, format)[t] == format(bugs[j])
  {
    BucketPick(bugs, k, current, format);
    MembersSpec(bugs, k, current);
    var m := Members(bugs, k, current);
    AscendingBelowLength(m, |bugs|);
    forall t | 0 <= t < |BucketIds(bugs, k, current)|
      ensures exists j ::
        0 <= j < |bugs| && InBucket(bugs[j], k, current)
        && BucketIds(bugs, k, current)[t] == bugs[j].id && BucketLines(bugs, k, current, format)[t] == format(bugs[j])
    {
      assert m[t] in m;
    }
  }

  /**
   * A bug is listed as urgent exactly when its priority or its severity is
   * urgent, and the urgent IDs keep the input order.
   */
  lemma UrgentBucket(r: Summary, current: string, bugs: seq<Bug>, format: Bug -> string)
    requires Summarizes(r, current, bugs, format)
    ensures AscendingBelow(Members(bugs, Urgent, current), |bugs|)
    ensures r.urgentIDs == Pick(IdsOf(bugs), Members(bugs, Urgent, current))
    ensures r.urgent == Pick(LinesOf(bugs, format), Members(bugs, Urgent, current))
    ensures forall j :: j in Members(bugs, Urgent, current) <==>
      0 <= j < |bugs| && (bugs[j].priority == "urgent" || bugs[j].severity == "urgent")
  {
    BucketPick(bugs, Urgent, current, format);
    MembersSpec(bugs, Urgent, current);
  }

  /** `needUpcomingSprintIDs` holds, in input order, exactly the bugs without the UpcomingSprint keyword. */
  lemma NeedUpcomingSprintBucket(r: Summary, current: string, bugs: seq<Bug>, format: Bug -> string)
    requires Summarizes(r, current, bugs, format)
    ensures AscendingBelow(Members(bugs, NeedUpcomingSprint, current), |bugs|)
    ensures r.needUpcomingSprintIDs == Pick(IdsOf(bugs), Members(bugs, NeedUpcomingSprint, current))
    ensures forall j :: j in Members(bugs, NeedUpcomingSprint, current) <==>
      0 <= j < |bugs| && "UpcomingSprint" !in bugs[j].keywords
  {
    BucketPick(bugs, NeedUpcomingSprint, current, format);
    MembersSpec(bugs, NeedUpcomingSprint, current);
  }

  /**
   * The blocker+ list holds, in input order, exactly the bugs with a blocker+
   * flag that target the current release or nothing; likewise for blocker?.
   */
  lemma BlockerBuckets(r: Summary, current: string, bugs: seq<Bug>, format: Bug -> string)
    requires Summarizes(r, current, bugs, format)
    ensures r.blockerPlusIDs == Pick(IdsOf(bugs), Members(bugs, BlockerPlus, current))
    ensures forall j :: j in Members(bugs, BlockerPlus, current) <==>
      0 <= j < |bugs| && HasFlag(bugs[j].flags, "blocker", "+")
      && (ResolvedRelease(bugs[j]) == current || ResolvedRelease(bugs[j]) == Unset)
    ensures r.blockerQuestionmarkIDs == Pick(IdsOf(bugs), Members(bugs, BlockerQuestionmark, current))
    ensures forall j :: j in Members(bugs, BlockerQuestionmark, current) <==>
      0 <= j < |bugs| && HasFlag(bugs[j].flags, "blocker", "?")
      && (ResolvedRelease(bugs[j]) == current || ResolvedRelease(bugs[j]) == Unset)
  {
    assert r.blockerPlusIDs == BucketIds(bugs, BlockerPlus, current);
    assert r.blockerQuestionmarkIDs == BucketIds(bugs, BlockerQuestionmark, current);
    BucketIdsPick(bugs, BlockerPlus, current);
    MembersSpec(bugs, BlockerPlus, current);
    BucketIdsPick(bugs, BlockerQuestionmark, current);
    MembersSpec(bugs, BlockerQuestionmark, current);
  }

  /** The serious map's "blocker+" and "blocker?" entries are the two blocker lists, present when non-empty. */
  lemma BlockerSeriousEntries(r: Summary, current: string, bugs: seq<Bug>, format: Bug -> string)
    requires Summarizes(r, current, bugs, format)
    ensures Lookup(r.seriousIDs, "blocker+") == r.blockerPlusIDs
    ensures Lookup(r.seriousIDs, "blocker?") == r.blockerQuestionmarkIDs
    ensures "blocker+" in r.seriousIDs <==> r.blockerPlusIDs != []
    ensures "blocker?" in r.seriousIDs <==> r.blockerQuestionmarkIDs != []
  {
    assert SeriousIds(bugs, "blocker+", current) == r.blockerPlusIDs;
    assert SeriousIds(bugs, "blocker?", current) == r.blockerQuestionmarkIDs;
  }

  /**
   * The serious map has an entry only for a serious keyword or a blocker flag
   * state; each keyword's entry lists, in input order, the bugs carrying it.
   */
  lemma SeriousEntries(r: Summary, current: string, bugs: seq<Bug>, format: Bug -> string)
    requires Summarizes(r, current, bugs, format)
    ensures forall key :: key in r.seriousIDs ==> key in SeriousKeywords || key == "blocker+" || key == "blocker?"
    ensures forall key :: key in r.seriousIDs ==> r.seriousIDs[key] != []
    ensures forall t :: 0 <= t < |SeriousKeywords| ==>
      Lookup(r.seriousIDs, SeriousKeywords[t]) == Pick(IdsOf(bugs), Members(bugs, Serious(SeriousKeywords[t]), current))
    ensures forall t, j :: 0 <= t < |SeriousKeywords| ==>
      (j in Members(bugs, Serious(SeriousKeywords[t]), current) <==> 0 <= j < |bugs| && SeriousKeywords[t] in bugs[j].keywords)
  {
    BlockerKeysNotKeywords();
    forall t | 0 <= t < |SeriousKeywords|
      ensures Lookup(r.seriousIDs, SeriousKeywords[t]) == Pick(IdsOf(bugs), Members(bugs, Serious(SeriousKeywords[t]), current))
      ensures forall j :: j in Members(bugs, Serious(SeriousKeywords[t]), current) <==> 0 <= j < |bugs| && SeriousKeywords[t] in bugs[j].keywords
    {
      BucketPick(bugs, Serious(SeriousKeywords[t]), current, format);
      MembersSpec(bugs, Serious(SeriousKeywords[t]), current);
    }
  }

  /** A bug of a bucket has its ID and its line listed there. */
  lemma MemberListed(bugs: seq<Bug>, k: Bucket, current: string, format: Bug -> string, j: nat)
    requires j < |bugs| && InBucket(bugs[j], k, current)
    ensures bugs[j].id in BucketIds(bugs, k, current) && format(bugs[j]) in BucketLines(bugs, k, current, format)
  {
    BucketPick(bugs, k, current, format);
    MembersSpec(bugs, k, current);
    var m := Members(bugs, k, current);
    var t :| 0 <= t < |m| && m[t] == j;
    assert BucketIds(bugs, k, current)[t] == bugs[j].id;
    assert BucketLines(bugs, k, current, format)[t] == format(bugs[j]);
  }

  /**
   * A bug with no target release resolves to "---": it is always to triage and
   * always counted against the current release.
   */
  lemma UnsetReleaseIsTriagedAndCounted(r: Summary, current: string, bugs: seq<Bug>, format: Bug -> string, j: nat)
    requires Summarizes(r, current, bugs, format)
    requires j < |bugs| && bugs[j].targetRelease == []
    ensures ResolvedRelease(bugs[j]) == Unset
    ensures j in Members(bugs, ToTriage, current) && bugs[j].id in r.toTriageIDs && format(bugs[j]) in r.toTriage
    ensures j in Members(bugs, CurrentRelease, current)
    ensures r.currentReleaseCount == |Members(bugs, CurrentRelease, current)|
  {
    assert r.toTriageIDs == BucketIds(bugs, ToTriage, current) && r.toTriage == BucketLines(bugs, ToTriage, current, format);
    assert r.currentReleaseCount == |BucketIds(bugs, CurrentRelease, current)|;
    assert InBucket(bugs[j], ToTriage, current) && InBucket(bugs[j], CurrentRelease, current);
    MemberListed(bugs, ToTriage, current, format, j);
    MembersSpec(bugs, ToTriage, current);
    MembersSpec(bugs, CurrentRelease, current);
    BucketPick(bugs, CurrentRelease, current, format);
  }

  /**
   * The severity and the priority histograms count every bug exactly once,
   * and the stale and current-release counters never exceed the number of bugs.
   */
  lemma HistogramTotals(r: Summary, current: string, bugs: seq<Bug>, format: Bug -> string)
    requires Summarizes(r, current, bugs, format)
    ensures Total(r.severityCount) == |bugs| && Total(r.priorityCount) == |bugs|
    ensures forall s :: Count(r.severityCount, s) == multiset(Severities(bugs))[s]
    ensures forall p :: Count(r.priorityCount, p) == multiset(Priorities(bugs))[p]
    ensures 0 <= r.currentReleaseCount <= |bugs| && 0 <= r.staleCount <= |bugs|
  {
    TallyTotal(Severities(bugs));
    TallyTotal(Priorities(bugs));
    TallyCounts(Severities(bugs));
    TallyCounts(Priorities(bugs));
    BucketsParallel(bugs, CurrentRelease, current, format);
    BucketsParallel(bugs, Stale, current, format);
  }
}

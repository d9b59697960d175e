/**
 * The channel side of the blockers reporter: the search query, the rendering
 * of the severity and priority breakdowns, the bug-list links, the channel
 * statistics and `Report`, which searches and summarizes.
 */
module BlockersReport {
  import opened Wrappers
  import opened Bugzilla
  import opened Strings
  import opened Strconv
  import opened Counts
  import opened Seqs
  import opened Blockers

  // ---------------------------------------------------------------------------
  // getBugsQuery
  // ---------------------------------------------------------------------------

  /** The statuses of an active bug. */
  const ActiveStatuses: seq<string> := ["NEW", "ASSIGNED", "POST", "ON_DEV"]

  /** The fields the search asks the tracker to fill in. */
  const RequestedFields: seq<string> :=
    ["id", "assigned_to", "keywords", "status", "resolution", "summary", "changeddate",
     "severity", "priority", "target_release", "whiteboard", "flags"]

  /** The tracker fields behind the bug fields the classifier and the grouping read. */
  const ClassifierFields: seq<string> :=
    ["id", "assigned_to", "keywords", "status", "severity", "priority", "target_release", "whiteboard", "flags"]

  /**
   * `getBugsQuery`: the active OpenShift bugs of the components and target
   * releases, leaving out those of low severity or low priority, with every
   * field the classifier reads requested.
   */
  function BugsQuery(components: seq<string>, targetRelease: seq<string>): (q: Query)
    ensures q.component == components && q.targetRelease == targetRelease
    ensures forall s :: s in q.status <==> s in ActiveStatuses
    ensures AdvancedQuery("bug_severity", "notequals", "low") in q.advanced
    ensures AdvancedQuery("priority", "notequals", "low") in q.advanced
    ensures forall f :: f in ClassifierFields ==> f in q.includeFields
  {
    Query(
      ["Red Hat"],
      ["OpenShift Container Platform"],
      ActiveStatuses,
      components,
      targetRelease,
      [AdvancedQuery("bug_severity", "notequals", "low"), AdvancedQuery("priority", "notequals", "low")],
      RequestedFields)
  }

  /** The query over every tracked release; bugs with no target release are included. */
  function AllReleasesQuery(components: seq<string>, targetReleases: seq<string>): Query
  {
    BugsQuery(components, [Unset] + targetReleases)
  }

  /** The query over the current release; bugs with no target release are included. */
  function CurrentReleaseQuery(components: seq<string>, current: string): Query
  {
    BugsQuery(components, [Unset, current])
  }

  // ---------------------------------------------------------------------------
  // Severity and priority breakdowns
  // ---------------------------------------------------------------------------

  /** One entry of a breakdown: the count and the name in underscores. */
  function Entry(n: int, name: string): string
  {
    Itoa(n) + " _" + name + "_"
  }

  /** The names whose counter is positive, in the order of `names`. */
  function Shown(names: seq<string>, counts: map<string, int>): seq<string>
  {
    if names == [] then []
    else
      var p := names[|names| - 1];
      Shown(names[..|names| - 1], counts) + (if Count(counts, p) > 0 then [p] else [])
  }

  /** The breakdown entries of the names whose counter is positive, in the order of `names`. */
  function BreakdownLines(names: seq<string>, counts: map<string, int>): seq<string>
  {
    if names == [] then []
    else
      var p := names[|names| - 1];
      BreakdownLines(names[..|names| - 1], counts) + (if Count(counts, p) > 0 then [Entry(Count(counts, p), p)] else [])
  }

  /** The loops of `getStatsForChannel` that render one histogram in the fixed name order. */
  method Breakdown(counts: map<string, int>) returns (messages: seq<string>)
    ensures messages == BreakdownLines(SortedPrioNames, counts)
  {
    messages := [];
    for i := 0 to |SortedPrioNames|
      invariant messages == BreakdownLines(SortedPrioNames[..i], counts)
    {
      var p := SortedPrioNames[i];
      assert SortedPrioNames[..i + 1][..i] == SortedPrioNames[..i];
      if Count(counts, p) > 0 {
        messages := messages + [Entry(Count(counts, p), p)];
      }
    }
    assert SortedPrioNames[..|SortedPrioNames|] == SortedPrioNames;
  }

  /**
   * A breakdown has one entry per shown name, in order, each with that name's
   * count; a name is shown exactly when it is listed and its count is positive.
   */
  lemma {:induction false} BreakdownShown(names: seq<string>, counts: map<string, int>)
    ensures |BreakdownLines(names, counts)| == |Shown(names, counts)| <= |names|
    ensures forall t :: 0 <= t < |Shown(names, counts)| ==>
      BreakdownLines(names, counts)[t] == Entry(Count(counts, Shown(names, counts)[t]), Shown(names, counts)[t])
    ensures forall p :: p in Shown(names, counts) <==> p in names && Count(counts, p) > 0
  {
    if names != [] {
      var init := names[..|names| - 1];
      BreakdownShown(init, counts);
      assert names == init + [names[|names| - 1]];
    }
  }

  /** Position `j` of the severities is bug `j`'s severity, and likewise for priorities. */
  lemma {:induction false} SeveritiesAndPriorities(bugs: seq<Bug>)
    ensures forall j :: 0 <= j < |bugs| ==> Severities(bugs)[j] == bugs[j].severity
    ensures forall j :: 0 <= j < |bugs| ==> Priorities(bugs)[j] == bugs[j].priority
  {
    if bugs != [] {
      SeveritiesAndPriorities(bugs[..|bugs| - 1]);
    }
  }

  /** A histogram of `keys` shows exactly the listed names that occur among the keys. */
  lemma ShownOfTally(names: seq<string>, keys: seq<string>)
    ensures forall p :: p in Shown(names, Tally(keys)) <==> p in names && p in keys
  {
    BreakdownShown(names, Tally(keys));
    TallyCounts(keys);
  }

  /**
   * The severity breakdown names exactly the ordered severities some bug has,
   * and the priority breakdown exactly the ordered priorities some bug has.
   */
  lemma BreakdownsOfBugs(s: Summary, current: string, bugs: seq<Bug>, format: Bug -> string)
    requires Summarizes(s, current, bugs, format)
    ensures forall p :: p in Shown(SortedPrioNames, s.severityCount) <==>
      p in SortedPrioNames && exists j :: 0 <= j < |bugs| && bugs[j].severity == p
    ensures forall p :: p in Shown(SortedPrioNames, s.priorityCount) <==>
      p in SortedPrioNames && exists j :: 0 <= j < |bugs| && bugs[j].priority == p
  {
    assert s.severityCount == Tally(Severities(bugs)) && s.priorityCount == Tally(Priorities(bugs));
    ShownOfTally(SortedPrioNames, Severities(bugs));
    ShownOfTally(SortedPrioNames, Priorities(bugs));
    SeveritiesAndPriorities(bugs);
    assert forall p :: p in Severities(bugs) <==> exists j :: 0 <= j < |bugs| && Severities(bugs)[j] == p;
    assert forall p :: p in Priorities(bugs) <==> exists j :: 0 <= j < |bugs| && Priorities(bugs)[j] == p;
  }

  // ---------------------------------------------------------------------------
  // makeBugzillaLink
  // ---------------------------------------------------------------------------

  /** The IDs in decimal, in order. */
  function IdStrings(ids: seq<int>): (r: seq<string>)
    ensures |r| == |ids|
  {
    seq(|ids|, i requires 0 <= i < |ids| => Itoa(ids[i]))
  }

  /** The `v1` value of a bug-list link: the IDs in decimal, comma-separated, in order. */
  function IdList(ids: seq<int>): string
  {
    Join(IdStrings(ids), ",")
  }

  /**
   * A link to the bug list of `ids` with the text `hrefText`; `listURL` stands
   * for the URL encoding of the list query around the `v1` value.
   */
  function BugListLink(hrefText: string, ids: seq<int>, listURL: string -> string): string
  {
    "<" + listURL(IdList(ids)) + "|" + hrefText + ">"
  }

  /** The `v1` value reads back as the IDs: split at the commas, each piece parses to its ID. */
  lemma IdListRoundTrip(ids: seq<int>)
    requires |ids| > 0
    requires forall i :: 0 <= i < |ids| ==> InInt64(ids[i])
    ensures |Split(IdList(ids), ',')| == |ids|
    ensures forall i :: 0 <= i < |ids| ==> Atoi(Split(IdList(ids), ',')[i]) == Some(ids[i])
  {
    var parts := IdStrings(ids);
    forall i | 0 <= i < |parts| ensures ',' !in parts[i] {
      assert parts[i] == Itoa(ids[i]);
    }
    SplitJoin(parts, ',');
    assert Split(IdList(ids), ',') == parts;
    forall i | 0 <= i < |ids| ensures Atoi(parts[i]) == Some(ids[i]) {
      AtoiItoa(ids[i]);
    }
  }

  /** `makeBugzillaLink`: renders each ID into a slice, then joins them into the link. */
  method MakeBugzillaLink(hrefText: string, ids: seq<int>, listURL: string -> string) returns (link: string)
    ensures link == BugListLink(hrefText, ids, listURL)
  {
    var stringIds := new string[|ids|];
    for i := 0 to stringIds.Length
      invariant stringIds[..i] == IdStrings(ids)[..i]
    {
      stringIds[i] := Itoa(ids[i]);
    }
    assert stringIds[..] == IdStrings(ids);
    link := "<" + listURL(Join(stringIds[..], ",")) + "|" + hrefText + ">";
  }

  // ---------------------------------------------------------------------------
  // getStatsForChannel
  // ---------------------------------------------------------------------------

  /** The saved search of the bugs marked LifecycleStale. */
  const StaleListURL :=
    "https://bugzilla.redhat.com/buglist.cgi?cmdtype=dorem&remaction=run&namedcmd=openshift-group-b-lifecycle-stale&sharer_id=290313"

  /** The five statistics lines that always open the channel report. */
  function FixedLines(targetRelease: string, activeBugsCount: int, s: Summary, allURL: string, currentURL: string): (r: seq<string>)
    ensures |r| == 5
  {
    [
      "> All active 4.x and 3.11 Bugs: <" + allURL + "|" + Itoa(activeBugsCount) + ">",
      "> All active " + targetRelease + " Bugs: <" + currentURL + "|" + Itoa(s.currentReleaseCount) + ">",
      "> Bugs Severity Breakdown: " + Join(BreakdownLines(SortedPrioNames, s.severityCount), ", "),
      "> Bugs Priority Breakdown: " + Join(BreakdownLines(SortedPrioNames, s.priorityCount), ", "),
      "> Bugs Marked as _LifecycleStale_: <" + StaleListURL + "|" + Itoa(s.staleCount) + ">"
    ]
  }

  /** The line for one serious keyword or blocker state: a link to its bugs, labelled with their number. */
  function SeriousLine(key: string, ids: seq<int>, listURL: string -> string): string
  {
    "> Bugs with _" + key + "_: " + BugListLink(Itoa(|ids|), ids, listURL)
  }

  /**
   * `lines` are the channel statistics: the five fixed lines, then one line per
   * non-empty entry of the serious map, in the order `keys`, which lists each
   * such entry once. Go leaves that order to the map iteration.
   */
  ghost predicate StatsLines(lines: seq<string>, keys: seq<string>, targetRelease: string, activeBugsCount: int,
                             s: Summary, allURL: string, currentURL: string, listURL: string -> string)
  {
    && |lines| == 5 + |keys|
    && lines[..5] == FixedLines(targetRelease, activeBugsCount, s, allURL, currentURL)
    && (forall k :: k in keys <==> k in s.seriousIDs && s.seriousIDs[k] != [])
    && (forall t, u :: 0 <= t < u < |keys| ==> keys[t] != keys[u])
    && (forall t :: 0 <= t < |keys| ==> keys[t] in s.seriousIDs && lines[5 + t] == SeriousLine(keys[t], s.seriousIDs[keys[t]], listURL))
  }

  /**
   * The loop of `getStatsForChannel` over the serious map: one line per
   * non-empty entry. Go ranges over the map in an unspecified order; `keys`
   * records the order this run took.
   */
  method SeriousLines(serious: map<string, seq<int>>, listURL: string -> string)
    returns (lines: seq<string>, ghost keys: seq<string>)
    ensures |lines| == |keys|
    ensures forall k :: k in keys <==> k in serious && serious[k] != []
    ensures forall t, u :: 0 <= t < u < |keys| ==> keys[t] != keys[u]
    ensures forall t :: 0 <= t < |keys| ==> keys[t] in serious && lines[t] == SeriousLine(keys[t], serious[keys[t]], listURL)
  {
    lines, keys := [], [];
    var remaining := serious.Keys;
    while remaining != {}
      invariant remaining <= serious.Keys
      invariant SeriousListed(serious, serious.Keys - remaining, lines, keys, listURL)
      decreases |remaining|
    {
      var keyword :| keyword in remaining;
      var ids := serious[keyword];
      SeriousListedStep(serious, serious.Keys - remaining, lines, keys, listURL, keyword);
      if |ids| > 0 {
        var keywordURL := MakeBugzillaLink(Itoa(|ids|), ids, listURL);
        lines := lines + ["> Bugs with _" + keyword + "_: " + keywordURL];
        keys := keys + [keyword];
      }
      assert serious.Keys - (remaining - {keyword}) == (serious.Keys - remaining) + {keyword};
      remaining := remaining - {keyword};
    }
    assert serious.Keys - remaining == serious.Keys;
  }

  /** `lines` hold one serious line per non-empty entry among the `visited` keys, in the order `keys`. */
  ghost predicate SeriousListed(serious: map<string, seq<int>>, visited: set<string>, lines: seq<string>,
                                keys: seq<string>, listURL: string -> string)
  {
    && |lines| == |keys|
    && (forall k :: k in keys <==> k in visited && k in serious && serious[k] != [])
    && (forall t, u :: 0 <= t < u < |keys| ==> keys[t] != keys[u])
    && (forall t :: 0 <= t < |keys| ==> keys[t] in serious && lines[t] == SeriousLine(keys[t], serious[keys[t]], listURL))
  }

  lemma SeriousListedStep(serious: map<string, seq<int>>, visited: set<string>, lines: seq<string>,
                          keys: seq<string>, listURL: string -> string, keyword: string)
    requires SeriousListed(serious, visited, lines, keys, listURL)
    requires keyword in serious && keyword !in visited
    ensures serious[keyword] == [] ==> SeriousListed(serious, visited + {keyword}, lines, keys, listURL)
    ensures serious[keyword] != [] ==>
      SeriousListed(serious, visited + {keyword}, lines + [SeriousLine(keyword, serious[keyword], listURL)], keys + [keyword], listURL)
  {
  }

  /** `getStatsForChannel`: the five fixed lines, then the serious lines. */
  method StatsForChannel(targetRelease: string, activeBugsCount: int, s: Summary,
                         allURL: string, currentURL: string, listURL: string -> string)
    returns (lines: seq<string>, ghost keys: seq<string>)
    ensures StatsLines(lines, keys, targetRelease, activeBugsCount, s, allURL, currentURL, listURL)
  {
    var severityMessages := Breakdown(s.severityCount);
    var priorityMessages := Breakdown(s.priorityCount);
    lines := [
      "> All active 4.x and 3.11 Bugs: <" + allURL + "|" + Itoa(activeBugsCount) + ">",
      "> All active " + targetRelease + " Bugs: <" + currentURL + "|" + Itoa(s.currentReleaseCount) + ">",
      "> Bugs Severity Breakdown: " + Join(severityMessages, ", "),
      "> Bugs Priority Breakdown: " + Join(priorityMessages, ", "),
      "> Bugs Marked as _LifecycleStale_: <" + StaleListURL + "|" + Itoa(s.staleCount) + ">"
    ];
    var serious;
    serious, keys := SeriousLines(s.seriousIDs, listURL);
    assert (lines + serious)[..5] == lines;
    lines := lines + serious;
  }

  // ---------------------------------------------------------------------------
  // Report
  // ---------------------------------------------------------------------------

  /** The channel message around the statistics lines. */
  function ChannelText(lines: seq<string>): string
  {
    "\n:bug: *Today 4.x Bug Report:* :bug:\n" + Join(lines, "\n") + "\n"
  }

  /** `channel` is the channel message around some run of the statistics. */
  ghost predicate ChannelReport(channel: string, targetRelease: string, activeBugsCount: int, s: Summary,
                                allURL: string, currentURL: string, listURL: string -> string)
  {
    exists lines, keys :: channel == ChannelText(lines)
      && StatsLines(lines, keys, targetRelease, activeBugsCount, s, allURL, currentURL, listURL)
  }

  /** What `Report` returns on success: the channel message, the summary and a bug list. */
  datatype ReportOut = ReportOut(channel: string, summary: Summary, bugs: seq<Bug>)

  /**
   * `Report` with the searched bugs handed back to the caller: searches every
   * tracked release, summarizes the result and renders the channel message.
   * A failed search is the error. `search`, `format`, `queryURL` and `listURL`
   * stand for the tracker client and the renderers the model does not see.
   */
  method ReportIntended(search: Query -> Result<seq<Bug>>, current: string, targetReleases: seq<string>,
                        components: seq<string>, format: Bug -> string, queryURL: Query -> string,
                        listURL: string -> string)
    returns (r: Result<ReportOut>)
    ensures r.Err? <==> search(AllReleasesQuery(components, targetReleases)).Err?
    ensures r.Ok? ==>
      var found := search(AllReleasesQuery(components, targetReleases)).value;
      && r.value.bugs == found
      && Summarizes(r.value.summary, current, found, format)
      && ChannelReport(r.value.channel, current, |found|, r.value.summary,
                       queryURL(AllReleasesQuery(components, targetReleases)),
                       queryURL(CurrentReleaseQuery(components, current)), listURL)
  {
    var allReleasesQuery := AllReleasesQuery(components, targetReleases);
    var currentReleaseQuery := CurrentReleaseQuery(components, current);
    var found := search(allReleasesQuery);
    if found.Err? {
      return Err(found.error);
    }
    var bugs := found.value;
    var summary := SummarizeBugs(current, bugs, format);
    var channelStats, keys := StatsForChannel(current, |bugs|, summary, queryURL(allReleasesQuery),
                                              queryURL(currentReleaseQuery), listURL);
    r := Ok(ReportOut(ChannelText(channelStats), summary, bugs));
  }

  /**
   * `Report` as written: the same search, summary and message, but the bug
   * list handed back is always empty.
   */
  method Report(search: Query -> Result<seq<Bug>>, current: string, targetReleases: seq<string>,
                components: seq<string>, format: Bug -> string, queryURL: Query -> string,
                listURL: string -> string)
    returns (r: Result<ReportOut>)
    ensures r.Err? <==> search(AllReleasesQuery(components, targetReleases)).Err?
    ensures r.Ok? ==>
      var found := search(AllReleasesQuery(components, targetReleases)).value;
      && r.value.bugs == []
      && Summarizes(r.value.summary, current, found, format)
      && ChannelReport(r.value.channel, current, |found|, r.value.summary,
                       queryURL(AllReleasesQuery(components, targetReleases)),
                       queryURL(CurrentReleaseQuery(components, current)), listURL)
  {
    r := ReportIntended(search, current, targetReleases, components, format, queryURL, listURL);
    if r.Ok? {
      r := Ok(r.value.(bugs := []));
    }
  }

  /**
   * The first two statistics lines count every searched bug and the bugs of
   * the current release; the serious lines cover exactly the serious keywords
   * and blocker states some bug has.
   */
  lemma StatsCounts(lines: seq<string>, keys: seq<string>, current: string, bugs: seq<Bug>, s: Summary,
                    format: Bug -> string, allURL: string, currentURL: string, listURL: string -> string)
    requires Summarizes(s, current, bugs, format)
    requires StatsLines(lines, keys, current, |bugs|, s, allURL, currentURL, listURL)
    ensures lines[0] == "> All active 4.x and 3.11 Bugs: <" + allURL + "|" + Itoa(|bugs|) + ">"
    ensures lines[1] == "> All active " + current + " Bugs: <" + currentURL + "|" + Itoa(|Members(bugs, CurrentRelease, current)|) + ">"
    ensures forall k :: k in keys ==> k in SeriousKeywords || k == "blocker+" || k == "blocker?"
    ensures "blocker+" in keys <==> s.blockerPlusIDs != []
    ensures "blocker?" in keys <==> s.blockerQuestionmarkIDs != []
  {
    assert lines[0] == lines[..5][0] && lines[1] == lines[..5][1];
    assert s.currentReleaseCount == |BucketIds(bugs, CurrentRelease, current)|;
    BucketPick(bugs, CurrentRelease, current, format);
    SeriousEntries(s, current, bugs, format);
    BlockerSeriousEntries(s, current, bugs, format);
  }
}

/**
 * The new-bug reporter: a watermark ("last seen bug ID") kept per component
 * set in a persistent key/value store, the search it drives, the admin
 * message listing the bugs found, and the new-bugs report.
 */
module NewBugs {
  import opened Wrappers
  import opened Bugzilla
  import opened Strings
  import opened Strconv

  // ---------------------------------------------------------------------
  // The persistent store

  /**
   * The persistent key/value store. A key never written reads as the empty
   * string. When `failure` is set, every write fails with that error and
   * changes nothing.
   */
  class Store {
    var values: map<string, string>
    var failure: Option<string>

    constructor(values: map<string, string>, failure: Option<string>)
      ensures this.values == values && this.failure == failure
    {
      this.values := values;
      this.failure := failure;
    }

    function Get(key: string): (s: string)
      reads this
      ensures key !in values ==> s == ""
      ensures key in values ==> s == values[key]
    {
      if key in values then values[key] else ""
    }

    method Set(key: string, value: string) returns (err: Option<string>)
      modifies this
      ensures failure == old(failure) && err == failure
      ensures failure.None? ==> values == old(values)[key := value]
      ensures failure.Some? ==> values == old(values)
    {
      err := failure;
      if failure.None? {
        values := values[key := value];
      }
    }
  }

  /** The key of the watermark of a component set. */
  function StateKey(components: seq<string>): (key: string)
    ensures HasPrefix(key, "new-bug-reporter.state-")
    ensures |components| == 1 ==> key[|"new-bug-reporter.state-"|..] == components[0]
  {
    "new-bug-reporter.state-" + Join(components, "-")
  }

  /** Two single components have distinct watermark keys. */
  lemma StateKeysDistinct(a: string, b: string)
    requires a != b
    ensures StateKey([a]) != StateKey([b])
  {
    assert StateKey([a])[|"new-bug-reporter.state-"|..] == a;
  }

  /**
   * The watermark read back from its stored text: none stored, or text that
   * does not parse as a number, gives 0 and the cycle goes on.
   */
  function ParseState(s: string): (lastID: int)
    ensures s == "" ==> lastID == 0
    ensures Atoi(s).None? ==> lastID == 0
    ensures Atoi(s).Some? ==> lastID == Atoi(s).value
    ensures InInt64(lastID)
  {
    if s == "" then 0
    else match Atoi(s)
      case None => 0
      case Some(n) => n
  }

  /** What a cycle persists, the next cycle reads back. */
  lemma PersistRoundTrip(lastID: int)
    requires InInt64(lastID)
    ensures ParseState(Itoa(lastID)) == lastID
  {
    AtoiItoa(lastID);
  }

  // ---------------------------------------------------------------------
  // The search

  /**
   * The search for new bugs: those of the last day when no watermark is
   * known, otherwise those with an ID above the watermark.
   */
  function NewBugsQuery(components: seq<string>, lastID: int): (q: Query)
    ensures q.component == components && q.status == ["NEW"]
    ensures lastID == 0 ==> q.advanced == [AdvancedQuery("creation_ts", "greaterthaneq", "-24h")]
    ensures lastID != 0 ==> q.advanced == [AdvancedQuery("bug_id", "greaterthan", Itoa(lastID))]
    ensures forall f :: f in ["id", "assigned_to", "component", "summary"] ==> f in q.includeFields
  {
    var aq := if lastID == 0 then AdvancedQuery("creation_ts", "greaterthaneq", "-24h")
              else AdvancedQuery("bug_id", "greaterthan", Itoa(lastID));
    Query(["Red Hat"], ["OpenShift Container Platform"], ["NEW"], components, [], [aq],
          ["id", "assigned_to", "component", "summary"])
  }

  // ---------------------------------------------------------------------
  // Listing the bugs found

  /** The chat link of a bug. */
  function Link(id: int): string
  {
    "<https://bugzilla.redhat.com/show_bug.cgi?id=" + Itoa(id) + "|#" + Itoa(id) + ">"
  }

  /** The links of the bugs, in order. */
  function IdLinks(bugs: seq<Bug>): (r: seq<string>)
    ensures |r| == |bugs|
    ensures forall i :: 0 <= i < |bugs| ==> r[i] == Link(bugs[i].id)
  {
    if bugs == [] then [] else IdLinks(bugs[..|bugs| - 1]) + [Link(bugs[|bugs| - 1].id)]
  }

  /** The report lines of the bugs, in order. */
  function BugLines(bugs: seq<Bug>, format: Bug -> string): (r: seq<string>)
    ensures |r| == |bugs|
    ensures forall i :: 0 <= i < |bugs| ==> r[i] == "> " + format(bugs[i])
  {
    if bugs == [] then [] else BugLines(bugs[..|bugs| - 1], format) + ["> " + format(bugs[|bugs| - 1])]
  }

  /** The line that stands for the bugs not listed. */
  function Trailer(more: int): string
  {
    " ... and " + Itoa(more) + " more"
  }

  function Min(x: int, y: int): (r: int)
    ensures r <= x && r <= y && (r == x || r == y)
  {
    if x < y then x else y
  }

  /**
   * The listing the loops produce: they stop after the element at index
   * `k + 1`, so `k + 2` items are listed, and the trailer, present whenever
   * the loop stopped early or ended exactly there, counts `k` fewer than all.
   */
  function AsWritten(items: seq<string>, k: nat): (r: seq<string>)
    ensures |items| < k + 2 ==> r == items
    ensures |items| >= k + 2 ==> r == items[..k + 2] + [Trailer(|items| - k)]
  {
    items[..Min(|items|, k + 2)] + (if |items| >= k + 2 then [Trailer(|items| - k)] else [])
  }

  /** At most `k` items, then a trailer counting the items left out, if any. */
  function Capped(items: seq<string>, k: nat): (r: seq<string>)
    ensures |items| <= k ==> r == items
    ensures |items| > k ==> r == items[..k] + [Trailer(|items| - k)]
  {
    items[..Min(|items|, k)] + (if |items| > k then [Trailer(|items| - k)] else [])
  }

  /**
   * As written, a list of exactly `k + 2` items is listed in full and still
   * gets a trailer announcing two more.
   */
  lemma TrailerOvercounts(items: seq<string>, k: nat)
    requires |items| == k + 2
    ensures AsWritten(items, k) == items + [Trailer(2)]
  {
    assert items[..k + 2] == items;
  }

  /**
   * Capped, the trailer appears exactly when some item is left out, and the
   * listed items plus the trailer's count make up all the items.
   */
  lemma CappedCounts(items: seq<string>, k: nat)
    ensures var r := Capped(items, k);
      && (|items| <= k ==> r == items)
      && (|items| > k ==> |r| == k + 1 && r[..k] == items[..k] && r[k] == Trailer(|items| - k) && k + (|items| - k) == |items|)
  {
    if |items| <= k {
      assert items[..|items|] == items;
    }
  }

  /** The watermark after the bugs: the largest of the start and their IDs. */
  function MaxId(start: int, bugs: seq<Bug>): int
  {
    if bugs == [] then start
    else
      var m := MaxId(start, bugs[..|bugs| - 1]);
      if bugs[|bugs| - 1].id > m then bugs[|bugs| - 1].id else m
  }

  /** The watermark is at least the start and every ID, and it is one of them. */
  lemma {:induction false} MaxIdSpec(start: int, bugs: seq<Bug>)
    ensures MaxId(start, bugs) >= start
    ensures forall j :: 0 <= j < |bugs| ==> MaxId(start, bugs) >= bugs[j].id
    ensures MaxId(start, bugs) == start || exists j :: 0 <= j < |bugs| && MaxId(start, bugs) == bugs[j].id
  {
    if bugs != [] {
      var init := bugs[..|bugs| - 1];
      MaxIdSpec(start, init);
      assert forall j :: 0 <= j < |init| ==> init[j] == bugs[j];
    }
  }

  /** One more bug extends the links and the watermark by that bug. */
  lemma ScanSnoc(start: int, bugs: seq<Bug>, i: nat)
    requires i < |bugs|
    ensures IdLinks(bugs[..i + 1]) == IdLinks(bugs[..i]) + [Link(bugs[i].id)]
    ensures MaxId(start, bugs[..i + 1]) == if bugs[i].id > MaxId(start, bugs[..i]) then bugs[i].id else MaxId(start, bugs[..i])
  {
    assert bugs[..i + 1][..i] == bugs[..i];
  }

  lemma {:induction false} IdLinksPrefix(bugs: seq<Bug>, k: nat)
    requires k <= |bugs|
    ensures IdLinks(bugs)[..k] == IdLinks(bugs[..k])
  {
    var whole, part := IdLinks(bugs), IdLinks(bugs[..k]);
    forall i | 0 <= i < k ensures whole[i] == part[i] {
      assert bugs[..k][i] == bugs[i];
    }
  }

  /** The number of bugs the listing loop visits before it stops. */
  function Visited(n: nat): nat
  {
    Min(n, 52)
  }

  /** The loop over the bugs found: links, the trailer, and the advanced watermark. */
  method ScanNewBugs(bugs: seq<Bug>, lastID: int) returns (ids: seq<string>, lastID': int)
    ensures ids == AsWritten(IdLinks(bugs), 50)
    ensures lastID' == MaxId(lastID, bugs[..Visited(|bugs|)])
  {
    ids, lastID' := [], lastID;
    for i := 0 to |bugs|
      invariant i <= 51
      invariant ids == IdLinks(bugs[..i])
      invariant lastID' == MaxId(lastID, bugs[..i])
    {
      ScanSnoc(lastID, bugs, i);
      var b := bugs[i];
      if b.id > lastID' {
        lastID' := b.id;
      }
      ids := ids + [Link(b.id)];
      if i > 50 {
        ids := ids + [Trailer(|bugs| - 50)];
        IdLinksPrefix(bugs, 52);
        return;
      }
    }
    assert bugs[..|bugs|] == bugs;
  }

  /** The same loop stopping after fifty bugs, its trailer counting those left out. */
  method ScanNewBugsCapped(bugs: seq<Bug>, lastID: int) returns (ids: seq<string>, lastID': int)
    ensures ids == Capped(IdLinks(bugs), 50)
    ensures lastID' == MaxId(lastID, bugs[..Min(|bugs|, 50)])
  {
    ids, lastID' := [], lastID;
    for i := 0 to |bugs|
      invariant i < 50
      invariant ids == IdLinks(bugs[..i])
      invariant lastID' == MaxId(lastID, bugs[..i])
    {
      ScanSnoc(lastID, bugs, i);
      var b := bugs[i];
      if b.id > lastID' {
        lastID' := b.id;
      }
      ids := ids + [Link(b.id)];
      if i + 1 == 50 {
        if |bugs| > 50 {
          ids := ids + [Trailer(|bugs| - 50)];
        }
        IdLinksPrefix(bugs, 50);
        assert |bugs| == 50 ==> bugs[..50] == bugs;
        return;
      }
    }
    assert bugs[..|bugs|] == bugs;
  }

  /** The admin-channel message of a cycle. */
  function AdminMessage(ids: seq<string>): string
  {
    "Found new bugs: " + Join(ids, ", ")
  }

  // ---------------------------------------------------------------------
  // The cycle

  /**
   * The deferred write of the watermark: always attempted; the cycle's own
   * error, if any, wins over the write's.
   */
  method Persist(store: Store, key: string, lastID: int, err: Option<string>) returns (err': Option<string>)
    modifies store
    ensures store.failure == old(store.failure)
    ensures store.failure.None? ==> store.values == old(store.values)[key := Itoa(lastID)]
    ensures store.failure.Some? ==> store.values == old(store.values)
    ensures err' == if err.Some? then err else store.failure
  {
    err' := err;
    var persistErr := store.Set(key, Itoa(lastID));
    if persistErr.Some? {
      if err'.None? {
        err' := persistErr;
      }
    }
  }

  /**
   * One cycle of the new-bug reporter: read the watermark, search, list the
   * bugs found to the admin channel, and persist the advanced watermark.
   */
  method Sync(store: Store, components: seq<string>, search: Query -> Result<seq<Bug>>)
    returns (err: Option<string>, admin: Option<string>)
    modifies store
    ensures var key := StateKey(components);
      var start := ParseState(old(store.Get(key)));
      var found := search(NewBugsQuery(components, start));
      var w := if found.Err? then start else MaxId(start, found.value[..Visited(|found.value|)]);
      && store.failure == old(store.failure)
      && (store.failure.None? ==> store.values == old(store.values)[key := Itoa(w)])
      && (store.failure.Some? ==> store.values == old(store.values))
      && (found.Err? ==> err == Some(found.error) && admin == None)
      && (found.Ok? ==> err == store.failure && admin == Some(AdminMessage(AsWritten(IdLinks(found.value), 50))))
  {
    var stateKey := StateKey(components);
    var lastID := 0;
    var s := store.Get(stateKey);
    if s != "" {
      var parsed := Atoi(s);
      if parsed.None? {
        lastID := 0;
      } else {
        lastID := parsed.value;
      }
    }
    admin := None;
    var newBugs := search(NewBugsQuery(components, lastID));
    if newBugs.Err? {
      err := Persist(store, stateKey, lastID, Some(newBugs.error));
      return;
    }
    var ids;
    ids, lastID := ScanNewBugs(newBugs.value, lastID);
    admin := Some(AdminMessage(ids));
    err := Persist(store, stateKey, lastID, None);
  }

  /** The watermark never goes down, whatever the search returns. */
  lemma WatermarkNeverDecreases(start: int, found: Result<seq<Bug>>)
    ensures var w := if found.Err? then start else MaxId(start, found.value[..Visited(|found.value|)]);
      w >= start && (found.Ok? && found.value == [] ==> w == start)
  {
    if found.Ok? {
      MaxIdSpec(start, found.value[..Visited(|found.value|)]);
    }
  }

  /**
   * A stored watermark of 50 and bugs up to 75 leave 75 to be persisted; no
   * bugs leave 50. An unparsable stored value starts from 0 with the last-day search.
   */
  lemma WatermarkScenarios(components: seq<string>)
    ensures ParseState("50") == 50
    ensures var bugs := [Bug(60, "", [], [], "", "", "", [], "NEW", [], "", [], ""),
                         Bug(75, "", [], [], "", "", "", [], "NEW", [], "", [], "")];
      Itoa(MaxId(50, bugs[..Visited(|bugs|)])) == "75"
    ensures ParseState("not-a-number") == 0
    ensures NewBugsQuery(components, ParseState("not-a-number")).advanced == [AdvancedQuery("creation_ts", "greaterthaneq", "-24h")]
  {
    assert Itoa(50) == "50";
    PersistRoundTrip(50);
    var bugs := [Bug(60, "", [], [], "", "", "", [], "NEW", [], "", [], ""),
                 Bug(75, "", [], [], "", "", "", [], "NEW", [], "", [], "")];
    assert bugs[..Visited(|bugs|)] == bugs;
    assert bugs[..1][..0] == [];
    assert MaxId(50, bugs[..1]) == 60;
    assert MaxId(50, bugs) == 75;
    assert Itoa(75) == "75";
  }

  // ---------------------------------------------------------------------
  // The report

  const ReportHeader := "New bugs of the last week (excluding those already in a different state):"

  /** The new-bugs report of the last day's bugs; `format` renders one bug. */
  method Report(search: Query -> Result<seq<Bug>>, components: seq<string>, format: Bug -> string)
    returns (r: Result<string>)
    ensures r.Err? <==> search(NewBugsQuery(components, 0)).Err?
    ensures r.Ok? ==>
      r.value == Join([ReportHeader, ""] + AsWritten(BugLines(search(NewBugsQuery(components, 0)).value, format), 20), "\n")
  {
    var res := search(NewBugsQuery(components, 0));
    if res.Err? {
      return Err(res.error);
    }
    var newBugs := res.value;
    var shown := [];
    for i := 0 to |newBugs|
      invariant i <= 21
      invariant shown == BugLines(newBugs[..i], format)
    {
      assert newBugs[..i + 1][..i] == newBugs[..i];
      shown := shown + ["> " + format(newBugs[i])];
      if i > 20 {
        shown := shown + [Trailer(|newBugs| - 20)];
        assert BugLines(newBugs, format)[..22] == BugLines(newBugs[..22], format);
        return Ok(Join([ReportHeader, ""] + shown, "\n"));
      }
    }
    assert newBugs[..|newBugs|] == newBugs;
    return Ok(Join([ReportHeader, ""] + shown, "\n"));
  }

  /** The report listing at most twenty bugs, its trailer counting those left out. */
  method ReportCapped(search: Query -> Result<seq<Bug>>, components: seq<string>, format: Bug -> string)
    returns (r: Result<string>)
    ensures r.Err? <==> search(NewBugsQuery(components, 0)).Err?
    ensures r.Ok? ==>
      r.value == Join([ReportHeader, ""] + Capped(BugLines(search(NewBugsQuery(components, 0)).value, format), 20), "\n")
  {
    var res := search(NewBugsQuery(components, 0));
    if res.Err? {
      return Err(res.error);
    }
    var newBugs := res.value;
    var shown := [];
    for i := 0 to |newBugs|
      invariant i < 20
      invariant shown == BugLines(newBugs[..i], format)
    {
      assert newBugs[..i + 1][..i] == newBugs[..i];
      shown := shown + ["> " + format(newBugs[i])];
      if i + 1 == 20 {
        if |newBugs| > 20 {
          shown := shown + [Trailer(|newBugs| - 20)];
        }
        assert BugLines(newBugs, format)[..20] == BugLines(newBugs[..20], format);
        assert |newBugs| == 20 ==> newBugs[..20] == newBugs;
        return Ok(Join([ReportHeader, ""] + shown, "\n"));
      }
    }
    assert newBugs[..|newBugs|] == newBugs;
    return Ok(Join([ReportHeader, ""] + shown, "\n"));
  }
}

/**
 * The escalation reporter: which open bugs count as escalations, how they
 * are attributed to assignees and to the lead of their primary component,
 * which urgent bugs are silenced, each lead's quota derived from the size of
 * the team, and the channel report built from those groupings.
 */
module Escalation {
  import opened Wrappers
  import opened Bugzilla
  import opened Strings
  import opened Strconv
  import opened Seqs
  import BlockersReport

  /** A configured component: its lead and its developers (people or group names). */
  datatype Component = Component(lead: string, developers: seq<string>)

  /** The component configuration, by component name. */
  type Config = map<string, Component>

  // ---------------------------------------------------------------------
  // The query

  /**
   * The search the report runs: open bugs of the given components. It
   * filters on no severity, and it does not ask for the escalation field.
   */
  function EscalationQuery(components: seq<string>): (q: Query)
    ensures q.component == components
    ensures q.status == BlockersReport.ActiveStatuses
    ensures q.advanced == [] && q.targetRelease == []
    ensures "escalation" !in q.includeFields
    ensures forall f :: f in ["assigned_to", "external_bugs", "component", "priority"] ==> f in q.includeFields
  {
    Query(["Red Hat"], ["OpenShift Container Platform"], BlockersReport.ActiveStatuses, components, [], [],
          ["id", "assigned_to", "status", "severity", "priority", "external_bugs", "component", "summary"])
  }

  // ---------------------------------------------------------------------
  // Classifying one bug

  /** The bug links to a customer case (an external bug of tracker type SFDC). */
  predicate CustomerCase(b: Bug)
  {
    exists k :: 0 <= k < |b.externalBugs| && b.externalBugs[k].trackerType == "SFDC"
  }

  /** The scan over the external bugs, stopping at the first customer case. */
  method HasCustomerCases(b: Bug) returns (found: bool)
    ensures found == CustomerCase(b)
  {
    found := false;
    for k := 0 to |b.externalBugs|
      invariant forall j :: 0 <= j < k ==> b.externalBugs[j].trackerType != "SFDC"
    {
      if b.externalBugs[k].trackerType == "SFDC" {
        found := true;
        break;
      }
    }
  }

  /** The escalation condition. */
  predicate Eligible(b: Bug)
  {
    || b.escalation == "Yes"
    || (CustomerCase(b) && b.priority == "urgent")
    || (CustomerCase(b) && b.severity == "urgent" && b.priority == "unspecified")
  }

  /** An urgent bug that is not escalated although its priority was set. */
  predicate Silenced(b: Bug)
  {
    !Eligible(b) && b.severity == "urgent" && b.priority != "unspecified"
  }

  /**
   * The lead of the bug's primary component; the empty string when the bug has
   * no component, or its primary component is not configured (Go's zero value).
   */
  function LeadOf(cfg: Config, b: Bug): (lead: string)
    ensures lead != "" ==> |b.component| > 0 && b.component[0] in cfg && cfg[b.component[0]].lead == lead
  {
    if |b.component| > 0 && b.component[0] in cfg then cfg[b.component[0]].lead else ""
  }

  // ---------------------------------------------------------------------
  // Groupings of the bugs

  /** The two groupings of escalated bugs: by assignee, and by lead. */
  datatype Grouping = ByAssignee | ByLead(cfg: Config)

  /** The key a bug is filed under, if any. */
  function KeyOf(g: Grouping, b: Bug): (k: Option<string>)
    ensures k.Some? ==> Eligible(b)
  {
    match g
    case ByAssignee => if Eligible(b) then Some(b.assignedTo) else None
    case ByLead(cfg) => if Eligible(b) && LeadOf(cfg, b) != "" then Some(LeadOf(cfg, b)) else None
  }

  /** The bugs filed under `k`, in search order. */
  function Members(g: Grouping, bugs: seq<Bug>, k: string): seq<Bug>
  {
    if bugs == [] then []
    else
      var b := bugs[|bugs| - 1];
      Members(g, bugs[..|bugs| - 1], k) + (if KeyOf(g, b) == Some(k) then [b] else [])
  }

  /** The keys some bug is filed under. */
  function Keys(g: Grouping, bugs: seq<Bug>): set<string>
  {
    if bugs == [] then {}
    else
      var b := bugs[|bugs| - 1];
      Keys(g, bugs[..|bugs| - 1]) + (if KeyOf(g, b).Some? then {KeyOf(g, b).value} else {})
  }

  /** The grouping as a Go map from key to its non-empty list of bugs. */
  function Grouped(g: Grouping, bugs: seq<Bug>): map<string, seq<Bug>>
  {
    map k | k in Keys(g, bugs) :: Members(g, bugs, k)
  }

  /** A bug is a member of `k` exactly when it is one of the bugs and is filed under `k`. */
  lemma {:induction false} MembersSpec(g: Grouping, bugs: seq<Bug>, k: string, b: Bug)
    ensures b in Members(g, bugs, k) <==> b in bugs && KeyOf(g, b) == Some(k)
  {
    if bugs != [] {
      var init := bugs[..|bugs| - 1];
      MembersSpec(g, init, k, b);
      assert bugs == init + [bugs[|bugs| - 1]];
    }
  }

  /** A key is present exactly when some bug is filed under it, and then its list is not empty. */
  lemma {:induction false} KeysSpec(g: Grouping, bugs: seq<Bug>, k: string)
    ensures k in Keys(g, bugs) <==> Members(g, bugs, k) != []
  {
    if bugs != [] {
      KeysSpec(g, bugs[..|bugs| - 1], k);
    }
  }

  lemma GroupedSnoc(g: Grouping, bugs: seq<Bug>, i: nat)
    requires i < |bugs|
    ensures Grouped(g, bugs[..i + 1]) ==
      var m := Grouped(g, bugs[..i]);
      if KeyOf(g, bugs[i]).Some? then m[KeyOf(g, bugs[i]).value := Lookup(m, KeyOf(g, bugs[i]).value) + [bugs[i]]] else m
  {
    var done, upto := bugs[..i], bugs[..i + 1];
    assert upto[..i] == done;
    var m, m' := Grouped(g, done), Grouped(g, upto);
    if KeyOf(g, bugs[i]).Some? {
      var k := KeyOf(g, bugs[i]).value;
      KeysSpec(g, done, k);
      var h := m[k := Lookup(m, k) + [bugs[i]]];
      assert m'.Keys == h.Keys;
      forall p | p in h ensures m'[p] == h[p] {
        assert m'[p] == Members(g, upto, p);
        KeysSpec(g, done, p);
      }
    } else {
      assert m'.Keys == m.Keys;
      forall p | p in m ensures m'[p] == m[p] {
        assert m'[p] == Members(g, upto, p);
      }
    }
  }

  /** Every escalated bug is listed under its key, and a list holds only bugs filed under it. */
  lemma GroupedSpec(g: Grouping, bugs: seq<Bug>, k: string, b: Bug)
    ensures KeyOf(g, b) == Some(k) && b in bugs ==> k in Grouped(g, bugs) && b in Grouped(g, bugs)[k]
    ensures k in Grouped(g, bugs) ==> Grouped(g, bugs)[k] != [] && (b in Grouped(g, bugs)[k] ==> b in bugs && KeyOf(g, b) == Some(k))
  {
    MembersSpec(g, bugs, k, b);
    KeysSpec(g, bugs, k);
  }

  /** The silenced bugs, in search order. */
  function SilencedOf(bugs: seq<Bug>): seq<Bug>
  {
    if bugs == [] then []
    else
      var b := bugs[|bugs| - 1];
      SilencedOf(bugs[..|bugs| - 1]) + (if Silenced(b) then [b] else [])
  }

  lemma {:induction false} SilencedSpec(bugs: seq<Bug>, b: Bug)
    ensures b in SilencedOf(bugs) <==> b in bugs && Silenced(b)
  {
    if bugs != [] {
      var init := bugs[..|bugs| - 1];
      SilencedSpec(init, b);
      assert bugs == init + [bugs[|bugs| - 1]];
    }
  }

  /** The primary components of escalated bugs that are missing from the configuration. */
  function MissingOf(cfg: Config, bugs: seq<Bug>): set<string>
  {
    if bugs == [] then {}
    else
      var b := bugs[|bugs| - 1];
      MissingOf(cfg, bugs[..|bugs| - 1]) +
        (if Eligible(b) && |b.component| > 0 && b.component[0] !in cfg then {b.component[0]} else {})
  }

  lemma {:induction false} MissingSpec(cfg: Config, bugs: seq<Bug>, c: string)
    ensures c in MissingOf(cfg, bugs) <==>
      c !in cfg && exists j :: 0 <= j < |bugs| && Eligible(bugs[j]) && |bugs[j].component| > 0 && bugs[j].component[0] == c
  {
    if bugs != [] {
      var n := |bugs| - 1;
      var init := bugs[..n];
      MissingSpec(cfg, init, c);
      if c in MissingOf(cfg, bugs) && c !in MissingOf(cfg, init) {
        assert Eligible(bugs[n]) && |bugs[n].component| > 0 && bugs[n].component[0] == c;
      }
      if c !in cfg && exists j :: 0 <= j < |bugs| && Eligible(bugs[j]) && |bugs[j].component| > 0 && bugs[j].component[0] == c {
        var j :| 0 <= j < |bugs| && Eligible(bugs[j]) && |bugs[j].component| > 0 && bugs[j].component[0] == c;
        if j < n {
          assert init[j] == bugs[j];
        }
      }
    }
  }

  lemma SnocPrefix(bugs: seq<Bug>, i: nat)
    requires i < |bugs|
    ensures bugs[..i + 1][..i] == bugs[..i] && bugs[..i + 1][i] == bugs[i]
  {
  }

  /** Files one bug, as one iteration of the report's aggregation loop. */
  method FileBug(cfg: Config, b: Bug, perAssignee: map<string, seq<Bug>>, silenced: seq<Bug>,
                 leadsBugs: map<string, seq<Bug>>, missing: set<string>)
    returns (perAssignee': map<string, seq<Bug>>, silenced': seq<Bug>,
             leadsBugs': map<string, seq<Bug>>, missing': set<string>)
    ensures perAssignee' == if Eligible(b) then perAssignee[b.assignedTo := Lookup(perAssignee, b.assignedTo) + [b]] else perAssignee
    ensures silenced' == silenced + (if Silenced(b) then [b] else [])
    ensures leadsBugs' ==
      var lead := KeyOf(ByLead(cfg), b);
      if lead.Some? then leadsBugs[lead.value := Lookup(leadsBugs, lead.value) + [b]] else leadsBugs
    ensures missing' == missing + (if Eligible(b) && |b.component| > 0 && b.component[0] !in cfg then {b.component[0]} else {})
  {
    perAssignee', silenced', leadsBugs', missing' := perAssignee, silenced, leadsBugs, missing;
    var escalationFlag := b.escalation == "Yes";
    var customerCases := HasCustomerCases(b);
    if escalationFlag || (customerCases && b.priority == "urgent")
      || (customerCases && b.severity == "urgent" && b.priority == "unspecified")
    {
      perAssignee' := perAssignee'[b.assignedTo := Lookup(perAssignee', b.assignedTo) + [b]];
      if |b.component| > 0 {
        var ok := b.component[0] in cfg;
        var comp := if ok then cfg[b.component[0]] else Component("", []);
        if !ok {
          missing' := missing' + {b.component[0]};
        }
        if |comp.lead| > 0 {
          leadsBugs' := leadsBugs'[comp.lead := Lookup(leadsBugs', comp.lead) + [b]];
        }
      }
    } else if b.severity == "urgent" && b.priority != "unspecified" {
      silenced' := silenced' + [b];
    }
  }

  /** The aggregation loop over the search result. */
  method Aggregate(cfg: Config, bugs: seq<Bug>)
    returns (perAssignee: map<string, seq<Bug>>, silenced: seq<Bug>,
             leadsBugs: map<string, seq<Bug>>, missing: set<string>)
    ensures perAssignee == Grouped(ByAssignee, bugs)
    ensures silenced == SilencedOf(bugs)
    ensures leadsBugs == Grouped(ByLead(cfg), bugs)
    ensures missing == MissingOf(cfg, bugs)
  {
    perAssignee, silenced, leadsBugs, missing := map[], [], map[], {};
    for i := 0 to |bugs|
      invariant perAssignee == Grouped(ByAssignee, bugs[..i])
      invariant silenced == SilencedOf(bugs[..i])
      invariant leadsBugs == Grouped(ByLead(cfg), bugs[..i])
      invariant missing == MissingOf(cfg, bugs[..i])
    {
      SnocPrefix(bugs, i);
      GroupedSnoc(ByAssignee, bugs, i);
      GroupedSnoc(ByLead(cfg), bugs, i);
      perAssignee, silenced, leadsBugs, missing := FileBug(cfg, bugs[i], perAssignee, silenced, leadsBugs, missing);
    }
    assert bugs[..|bugs|] == bugs;
  }

  /** No bug is both escalated under an assignee and silenced. */
  lemma NeverBoth(bugs: seq<Bug>, p: string, b: Bug)
    requires p in Grouped(ByAssignee, bugs) && b in Grouped(ByAssignee, bugs)[p]
    ensures b !in SilencedOf(bugs)
  {
    GroupedSpec(ByAssignee, bugs, p, b);
    SilencedSpec(bugs, b);
  }

  /**
   * A bug is filed under a lead exactly when it is escalated and its primary
   * component is configured with that (non-empty) lead; so a bug whose primary
   * component is missing from the configuration counts for no lead.
   */
  lemma LeadsSpec(cfg: Config, bugs: seq<Bug>, lead: string, b: Bug)
    ensures (lead in Grouped(ByLead(cfg), bugs) && b in Grouped(ByLead(cfg), bugs)[lead]) <==>
      b in bugs && Eligible(b) && lead != "" && |b.component| > 0 && b.component[0] in cfg && cfg[b.component[0]].lead == lead
  {
    GroupedSpec(ByLead(cfg), bugs, lead, b);
  }

  // ---------------------------------------------------------------------
  // Team and quota

  /** Go's `max`. */
  function Max(x: int, y: int): (r: int)
    ensures r >= x && r >= y && (r == x || r == y)
  {
    if x > y then x else y
  }

  /**
   * The number of escalations a team may carry: a fifth of its size, rounded
   * down, and at least one.
   */
  function Quota(teamSize: nat): (q: int)
    ensures q >= 1
    ensures teamSize >= 5 ==> q * 5 <= teamSize < q * 5 + 5
    ensures teamSize < 10 ==> q == 1
  {
    Max(1, teamSize / 5)
  }

  lemma QuotaExamples()
    ensures Quota(0) == 1 && Quota(1) == 1 && Quota(7) == 1 && Quota(10) == 2 && Quota(20) == 4
  {
  }

  /** A lead whose team expands to seven people and who carries two escalations is over the quota. */
  lemma OverQuotaScenario(lead: string)
    ensures Quota(7) == 1
    ensures HasPrefix(LeadHeader(lead, 2, Quota(7)), ":red-siren: " + lead)
  {
  }

  /** A larger team never has a smaller quota. */
  lemma QuotaMonotone(m: nat, n: nat)
    requires m <= n
    ensures Quota(m) <= Quota(n)
  {
  }

  /** The developers of every component the lead leads. */
  function TeamRoots(cfg: Config, lead: string): set<string>
  {
    RootsOver(cfg, lead, cfg.Keys)
  }

  /** The developers of the components in `names` that `lead` leads. */
  function RootsOver(cfg: Config, lead: string, names: set<string>): set<string>
  {
    set c, d | c in names && c in cfg && cfg[c].lead == lead && d in cfg[c].developers :: d
  }

  lemma RootsOverAdd(cfg: Config, lead: string, names: set<string>, c: string)
    requires c in cfg
    ensures RootsOver(cfg, lead, names + {c}) ==
      RootsOver(cfg, lead, names) + (if cfg[c].lead == lead then set d | d in cfg[c].developers else {})
  {
    var l, r := RootsOver(cfg, lead, names + {c}), RootsOver(cfg, lead, names) + (if cfg[c].lead == lead then set d | d in cfg[c].developers else {});
    forall d | d in l ensures d in r {
      var c' :| c' in names + {c} && c' in cfg && cfg[c'].lead == lead && d in cfg[c'].developers;
    }
  }

  /** A developer is a root of the lead's team exactly when a component the lead leads lists them. */
  lemma TeamRootsSpec(cfg: Config, lead: string, d: string)
    ensures d in TeamRoots(cfg, lead) <==> exists c :: c in cfg && cfg[c].lead == lead && d in cfg[c].developers
  {
  }

  /** The loop over the configured components collecting the lead's developers. */
  method RootsOf(cfg: Config, lead: string) returns (roots: set<string>)
    ensures roots == TeamRoots(cfg, lead)
  {
    roots := {};
    var remaining := cfg.Keys;
    while remaining != {}
      invariant remaining <= cfg.Keys
      invariant roots == RootsOver(cfg, lead, cfg.Keys - remaining)
      decreases |remaining|
    {
      var c :| c in remaining;
      RootsOverAdd(cfg, lead, cfg.Keys - remaining, c);
      assert cfg.Keys - (remaining - {c}) == (cfg.Keys - remaining) + {c};
      if cfg[c].lead == lead {
        roots := roots + set d | d in cfg[c].developers;
      }
      remaining := remaining - {c};
    }
    assert cfg.Keys - remaining == cfg.Keys;
  }

  // ---------------------------------------------------------------------
  // The report text

  /** `order` lists each key of `keys` exactly once: the order a Go map was ranged over. */
  ghost predicate Enumerates(order: seq<string>, keys: set<string>)
  {
    && (forall i, j :: 0 <= i < j < |order| ==> order[i] != order[j])
    && (forall p :: p in order <==> p in keys)
  }

  /** `order` lists, each once, the keys of `keys` that are no longer `remaining`. */
  ghost predicate Visited(order: seq<string>, keys: set<string>, remaining: set<string>)
  {
    && remaining <= keys
    && (forall i, j :: 0 <= i < j < |order| ==> order[i] != order[j])
    && (forall p :: p in order <==> p in keys && p !in remaining)
  }

  lemma VisitNext(order: seq<string>, keys: set<string>, remaining: set<string>, x: string)
    requires Visited(order, keys, remaining) && x in remaining
    ensures Visited(order + [x], keys, remaining - {x})
  {
  }

  /** The headline of a lead's block: marked when the team carries more than its quota. */
  function LeadHeader(lead: string, count: int, quota: int): (line: string)
    ensures count > quota ==> HasPrefix(line, ":red-siren: " + lead)
    ensures count <= quota ==> HasPrefix(line, lead)
    ensures Contains(line, Itoa(count))
  {
    var c := Itoa(count);
    if count > quota then
      var line := ":red-siren: " + lead + "'s team with " + c + " bugs, above the quota of " + Itoa(quota);
      assert OccursAt(line, c, |":red-siren: " + lead + "'s team with "|);
      line
    else
      var line := lead + "'s team with " + c + " bug";
      assert OccursAt(line, c, |lead + "'s team with "|);
      line
  }

  /** One bug of a lead's block. */
  function BugLine(b: Bug, bugURL: Bug -> string): string
  {
    "> " + bugURL(b) + " " + b.status + " @ " + b.assignedTo + ": " + b.summary
  }

  /** The bug lines of a block, one per bug in order. */
  function BugLines(bugs: seq<Bug>, bugURL: Bug -> string): (r: seq<string>)
    ensures |r| == |bugs|
    ensures forall i :: 0 <= i < |bugs| ==> r[i] == BugLine(bugs[i], bugURL)
  {
    if bugs == [] then [] else BugLines(bugs[..|bugs| - 1], bugURL) + [BugLine(bugs[|bugs| - 1], bugURL)]
  }

  /** The bug links of a list of bugs, in order. */
  function Links(bugs: seq<Bug>, bugURL: Bug -> string): (r: seq<string>)
    ensures |r| == |bugs|
    ensures forall i :: 0 <= i < |bugs| ==> r[i] == bugURL(bugs[i])
  {
    if bugs == [] then [] else Links(bugs[..|bugs| - 1], bugURL) + [bugURL(bugs[|bugs| - 1])]
  }

  method RenderBugLines(bugs: seq<Bug>, bugURL: Bug -> string) returns (lines: seq<string>)
    ensures lines == BugLines(bugs, bugURL)
  {
    lines := [];
    for i := 0 to |bugs|
      invariant lines == BugLines(bugs[..i], bugURL)
    {
      SnocPrefix(bugs, i);
      lines := lines + [BugLine(bugs[i], bugURL)];
    }
    assert bugs[..|bugs|] == bugs;
  }

  method RenderLinks(bugs: seq<Bug>, bugURL: Bug -> string) returns (links: seq<string>)
    ensures links == Links(bugs, bugURL)
  {
    links := [];
    for i := 0 to |bugs|
      invariant links == Links(bugs[..i], bugURL)
    {
      SnocPrefix(bugs, i);
      links := links + [bugURL(bugs[i])];
    }
    assert bugs[..|bugs|] == bugs;
  }

  /** The quota of the lead's team, `expand` resolving group names to people. */
  function LeadQuota(cfg: Config, expand: set<string> -> seq<string>, lead: string): int
  {
    Quota(|expand(TeamRoots(cfg, lead))|)
  }

  /** A lead's block: the headline, then one line per bug. */
  function LeadBlock(cfg: Config, expand: set<string> -> seq<string>, bugURL: Bug -> string,
                     lead: string, bugs: seq<Bug>): seq<string>
  {
    [LeadHeader(lead, |bugs|, LeadQuota(cfg, expand, lead))] + BugLines(bugs, bugURL)
  }

  /** The lead blocks in the order the leads were visited. */
  function LeadBlocks(cfg: Config, expand: set<string> -> seq<string>, bugURL: Bug -> string,
                      leadsBugs: map<string, seq<Bug>>, order: seq<string>): seq<string>
  {
    if order == [] then []
    else
      var lead := order[|order| - 1];
      LeadBlocks(cfg, expand, bugURL, leadsBugs, order[..|order| - 1]) +
        LeadBlock(cfg, expand, bugURL, lead, Lookup(leadsBugs, lead))
  }

  lemma LeadBlocksSnoc(cfg: Config, expand: set<string> -> seq<string>, bugURL: Bug -> string,
                       leadsBugs: map<string, seq<Bug>>, order: seq<string>, lead: string)
    ensures LeadBlocks(cfg, expand, bugURL, leadsBugs, order + [lead]) ==
            LeadBlocks(cfg, expand, bugURL, leadsBugs, order) + LeadBlock(cfg, expand, bugURL, lead, Lookup(leadsBugs, lead))
  {
    assert (order + [lead])[..|order|] == order;
  }

  /** Every visited lead's headline, with its verdict against the quota, is in the report. */
  lemma {:induction false} LeadHeaderShown(cfg: Config, expand: set<string> -> seq<string>, bugURL: Bug -> string,
                                           leadsBugs: map<string, seq<Bug>>, order: seq<string>, lead: string)
    requires lead in order
    ensures LeadHeader(lead, |Lookup(leadsBugs, lead)|, LeadQuota(cfg, expand, lead))
            in LeadBlocks(cfg, expand, bugURL, leadsBugs, order)
  {
    var init := order[..|order| - 1];
    if lead != order[|order| - 1] {
      assert lead in init;
      LeadHeaderShown(cfg, expand, bugURL, leadsBugs, init, lead);
    }
  }

  /** One iteration over the leads: the team's quota, the verdict, and the bug lines. */
  method LeadLines(cfg: Config, expand: set<string> -> seq<string>, bugURL: Bug -> string,
                   lead: string, bugs: seq<Bug>)
    returns (lines: seq<string>)
    ensures lines == LeadBlock(cfg, expand, bugURL, lead, bugs)
  {
    var roots := RootsOf(cfg, lead);
    var team := expand(roots);
    var maxEscalations := Max(1, |team| / 5);
    if |bugs| > maxEscalations {
      lines := [":red-siren: " + lead + "'s team with " + Itoa(|bugs|) + " bugs, above the quota of " + Itoa(maxEscalations)];
    } else {
      lines := [lead + "'s team with " + Itoa(|bugs|) + " bug"];
    }
    var bugLines := RenderBugLines(bugs, bugURL);
    lines := lines + bugLines;
  }

  /** The loop over the leads, in some order of the map. */
  method LeadSection(cfg: Config, expand: set<string> -> seq<string>, bugURL: Bug -> string,
                     leadsBugs: map<string, seq<Bug>>)
    returns (lines: seq<string>, ghost order: seq<string>)
    ensures Enumerates(order, leadsBugs.Keys)
    ensures lines == LeadBlocks(cfg, expand, bugURL, leadsBugs, order)
  {
    lines, order := [], [];
    var remaining := leadsBugs.Keys;
    while remaining != {}
      invariant Visited(order, leadsBugs.Keys, remaining)
      invariant lines == LeadBlocks(cfg, expand, bugURL, leadsBugs, order)
      decreases |remaining|
    {
      var lead :| lead in remaining;
      var block := LeadLines(cfg, expand, bugURL, lead, leadsBugs[lead]);
      LeadBlocksSnoc(cfg, expand, bugURL, leadsBugs, order, lead);
      lines := lines + block;
      VisitNext(order, leadsBugs.Keys, remaining, lead);
      order := order + [lead];
      remaining := remaining - {lead};
    }
  }

  /** The line of an assignee with several escalations. */
  function MultiLine(assignee: string, bugs: seq<Bug>, bugURL: Bug -> string): string
  {
    "> :red-siren: " + assignee + ": " + Join(Links(bugs, bugURL), " ")
  }

  /** The lines of the assignees in `order` whose list does not hold exactly one bug. */
  function MultiLines(perAssignee: map<string, seq<Bug>>, order: seq<string>, bugURL: Bug -> string): seq<string>
  {
    if order == [] then []
    else
      var p := order[|order| - 1];
      var bugs := Lookup(perAssignee, p);
      MultiLines(perAssignee, order[..|order| - 1], bugURL) + (if |bugs| == 1 then [] else [MultiLine(p, bugs, bugURL)])
  }

  lemma MultiLinesSnoc(perAssignee: map<string, seq<Bug>>, order: seq<string>, p: string, bugURL: Bug -> string)
    ensures MultiLines(perAssignee, order + [p], bugURL) ==
            MultiLines(perAssignee, order, bugURL) +
              (if |Lookup(perAssignee, p)| == 1 then [] else [MultiLine(p, Lookup(perAssignee, p), bugURL)])
  {
    assert (order + [p])[..|order|] == order;
  }

  /** The multi-escalation section: a heading, then the lines, or nothing at all. */
  function MultiBlock(perAssignee: map<string, seq<Bug>>, order: seq<string>, bugURL: Bug -> string): seq<string>
  {
    Section(MultiLines(perAssignee, order, bugURL))
  }

  /** The lines under their heading, or nothing when there are none. */
  function Section(ls: seq<string>): seq<string>
  {
    if ls == [] then [] else ["", "Assignees with more than one escalation:"] + ls
  }

  /**
   * With every list non-empty (as in a grouping), the multi-escalation lines
   * are exactly those of the assignees with two bugs or more.
   */
  lemma {:induction false} MultiLinesSpec(perAssignee: map<string, seq<Bug>>, order: seq<string>, bugURL: Bug -> string, line: string)
    requires forall p :: p in perAssignee ==> perAssignee[p] != []
    requires forall p :: p in order ==> p in perAssignee
    ensures line in MultiLines(perAssignee, order, bugURL) <==>
      exists p :: p in order && |perAssignee[p]| >= 2 && line == MultiLine(p, perAssignee[p], bugURL)
  {
    if order != [] {
      var init := order[..|order| - 1];
      var last := order[|order| - 1];
      MultiLinesSpec(perAssignee, init, bugURL, line);
      if exists p :: p in order && |perAssignee[p]| >= 2 && line == MultiLine(p, perAssignee[p], bugURL) {
        var p :| p in order && |perAssignee[p]| >= 2 && line == MultiLine(p, perAssignee[p], bugURL);
        if p != last {
          assert p in init;
        }
      }
    }
  }

  /**
   * In the report, the multi-escalation lines are exactly those of the
   * assignees with at least two escalated bugs: an assignee's list is never
   * empty, so "not exactly one" means "two or more".
   */
  lemma MultiEscalations(bugs: seq<Bug>, order: seq<string>, bugURL: Bug -> string, line: string)
    requires Enumerates(order, Grouped(ByAssignee, bugs).Keys)
    ensures var m := Grouped(ByAssignee, bugs);
      line in MultiLines(m, order, bugURL) <==>
      exists p :: p in m && |m[p]| >= 2 && line == MultiLine(p, m[p], bugURL)
  {
    var m := Grouped(ByAssignee, bugs);
    forall p | p in m ensures m[p] != [] {
      GroupedSpec(ByAssignee, bugs, p, bugs[0]);
    }
    MultiLinesSpec(m, order, bugURL, line);
  }

  /** The loop over the assignees, with the heading before the first listed one. */
  method MultiSection(perAssignee: map<string, seq<Bug>>, bugURL: Bug -> string)
    returns (lines: seq<string>, ghost order: seq<string>)
    ensures Enumerates(order, perAssignee.Keys)
    ensures lines == MultiBlock(perAssignee, order, bugURL)
  {
    lines, order := [], [];
    var first := true;
    var remaining := perAssignee.Keys;
    while remaining != {}
      invariant Visited(order, perAssignee.Keys, remaining)
      invariant first <==> MultiLines(perAssignee, order, bugURL) == []
      invariant lines == Section(MultiLines(perAssignee, order, bugURL))
      decreases |remaining|
    {
      var assignee :| assignee in remaining;
      MultiLinesSnoc(perAssignee, order, assignee, bugURL);
      lines, first := ListAssignee(assignee, perAssignee[assignee], bugURL, lines, first, MultiLines(perAssignee, order, bugURL));
      VisitNext(order, perAssignee.Keys, remaining, assignee);
      order := order + [assignee];
      remaining := remaining - {assignee};
    }
  }

  /**
   * One iteration over the assignees: an assignee with exactly one bug is
   * skipped, the heading comes before the first one listed.
   */
  method ListAssignee(assignee: string, bugs: seq<Bug>, bugURL: Bug -> string, lines: seq<string>, first: bool,
                      ghost listed: seq<string>)
    returns (lines': seq<string>, first': bool)
    requires first <==> listed == []
    requires lines == Section(listed)
    ensures var now := listed + (if |bugs| == 1 then [] else [MultiLine(assignee, bugs, bugURL)]);
      && (first' <==> now == [])
      && lines' == Section(now)
  {
    lines', first' := lines, first;
    if |bugs| == 1 {
      return;
    }
    if first' {
      lines' := lines' + [""];
      lines' := lines' + ["Assignees with more than one escalation:"];
      first' := false;
    }
    var links := RenderLinks(bugs, bugURL);
    lines' := lines' + ["> :red-siren: " + assignee + ": " + Join(links, " ")];
  }

  /** The silenced section, when some bug is silenced. */
  function SilencedBlock(silenced: seq<Bug>, bugURL: Bug -> string): seq<string>
  {
    if |silenced| > 0 then
      ["", Itoa(|silenced|) + " silenced bugs :see_no_evil: : " + Join(Links(silenced, bugURL), " ")]
    else []
  }

  /** The lines of the report, for given visiting orders of the two maps. */
  function ReportLines(cfg: Config, expand: set<string> -> seq<string>, bugURL: Bug -> string,
                       bugs: seq<Bug>, leadOrder: seq<string>, assigneeOrder: seq<string>): seq<string>
  {
    ["Escalation report:", ""]
      + LeadBlocks(cfg, expand, bugURL, Grouped(ByLead(cfg), bugs), leadOrder)
      + MultiBlock(Grouped(ByAssignee, bugs), assigneeOrder, bugURL)
      + SilencedBlock(SilencedOf(bugs), bugURL)
  }

  /** `text` is the report for some visiting order of the leads and of the assignees. */
  ghost predicate EscalationText(text: string, cfg: Config, expand: set<string> -> seq<string>,
                                 bugURL: Bug -> string, bugs: seq<Bug>)
  {
    exists leadOrder, assigneeOrder ::
      && Enumerates(leadOrder, Grouped(ByLead(cfg), bugs).Keys)
      && Enumerates(assigneeOrder, Grouped(ByAssignee, bugs).Keys)
      && text == Join(ReportLines(cfg, expand, bugURL, bugs, leadOrder, assigneeOrder), "\n")
  }

  /** What one run of the reporter yields: the channel text, and the components to report as missing. */
  datatype ReportOut = ReportOut(text: string, missing: set<string>)

  /** The report text, once some lead or some silenced bug makes it non-empty. */
  method Compose(cfg: Config, expand: set<string> -> seq<string>, bugURL: Bug -> string, found: seq<Bug>,
                 perAssignee: map<string, seq<Bug>>, silenced: seq<Bug>, leadsBugs: map<string, seq<Bug>>)
    returns (text: string)
    requires perAssignee == Grouped(ByAssignee, found)
    requires silenced == SilencedOf(found)
    requires leadsBugs == Grouped(ByLead(cfg), found)
    ensures text != ""
    ensures EscalationText(text, cfg, expand, bugURL, found)
  {
    var lines := ["Escalation report:", ""];
    var leadLines, leadOrder := LeadSection(cfg, expand, bugURL, leadsBugs);
    lines := lines + leadLines;
    var multiLines, assigneeOrder := MultiSection(perAssignee, bugURL);
    lines := lines + multiLines;
    if |silenced| > 0 {
      var links := RenderLinks(silenced, bugURL);
      lines := lines + ["", Itoa(|links|) + " silenced bugs :see_no_evil: : " + Join(links, " ")];
    }
    assert lines == ReportLines(cfg, expand, bugURL, found, leadOrder, assigneeOrder);
    text := Join(lines, "\n");
    assert |text| >= |"Escalation report:"|;
  }

  /**
   * The escalation report. `search` is the tracker, `expand` resolves group
   * names to their members, `bugURL` is the bug's link.
   */
  method Report(search: Query -> Result<seq<Bug>>, cfg: Config, components: seq<string>,
                expand: set<string> -> seq<string>, bugURL: Bug -> string)
    returns (r: Result<ReportOut>)
    ensures r.Err? <==> search(EscalationQuery(components)).Err?
    ensures r.Ok? ==>
      var found := search(EscalationQuery(components)).value;
      && r.value.missing == MissingOf(cfg, found)
      && (r.value.text == "" <==> Grouped(ByLead(cfg), found) == map[] && SilencedOf(found) == [])
      && (r.value.text != "" ==> EscalationText(r.value.text, cfg, expand, bugURL, found))
  {
    var res := search(EscalationQuery(components));
    if res.Err? {
      return Err(res.error);
    }
    var found := res.value;
    var perAssignee, silenced, leadsBugs, missing := Aggregate(cfg, found);
    if |leadsBugs| == 0 && |silenced| == 0 {
      return Ok(ReportOut("", missing));
    }
    var text := Compose(cfg, expand, bugURL, found, perAssignee, silenced, leadsBugs);
    return Ok(ReportOut(text, missing));
  }

  /** No bug is filed under a lead exactly when no escalated bug has a primary component with a configured lead. */
  lemma NoLeadsSpec(cfg: Config, bugs: seq<Bug>)
    ensures Grouped(ByLead(cfg), bugs) == map[] <==>
      forall j :: 0 <= j < |bugs| ==> KeyOf(ByLead(cfg), bugs[j]).None?
  {
    var g := Grouped(ByLead(cfg), bugs);
    if g != map[] {
      var lead :| lead in g;
      GroupedSpec(ByLead(cfg), bugs, lead, bugs[0]);
      GroupedSpec(ByLead(cfg), bugs, lead, g[lead][0]);
    } else {
      forall j | 0 <= j < |bugs| ensures KeyOf(ByLead(cfg), bugs[j]).None? {
        if KeyOf(ByLead(cfg), bugs[j]).Some? {
          GroupedSpec(ByLead(cfg), bugs, KeyOf(ByLead(cfg), bugs[j]).value, bugs[j]);
        }
      }
    }
  }

  /** No bug is silenced exactly when the silenced list is empty. */
  lemma NoSilencedSpec(bugs: seq<Bug>)
    ensures SilencedOf(bugs) == [] <==> forall j :: 0 <= j < |bugs| ==> !Silenced(bugs[j])
  {
    if SilencedOf(bugs) != [] {
      SilencedSpec(bugs, SilencedOf(bugs)[0]);
    } else {
      forall j | 0 <= j < |bugs| ensures !Silenced(bugs[j]) {
        SilencedSpec(bugs, bugs[j]);
      }
    }
  }
}

/**
 * The personal side of the blockers reporter's sync: the bugs indexed by ID,
 * the `perPerson` grouping of a bucket's IDs and lines by assignee, and the
 * personal notifications built from those groups.
 */
module BlockersSync {
  import opened Bugzilla
  import opened Strings
  import opened Strconv
  import opened Seqs
  import opened Wrappers
  import opened Blockers
  import opened BlockersReport

  // ---------------------------------------------------------------------------
  // byID
  // ---------------------------------------------------------------------------

  /** The index `sync` builds: each ID maps to the last bug carrying it. */
  function ByID(bugs: seq<Bug>): map<int, Bug>
  {
    if bugs == [] then map[] else ByID(bugs[..|bugs| - 1])[bugs[|bugs| - 1].id := bugs[|bugs| - 1]]
  }

  /** The index holds exactly the IDs of the bugs. */
  lemma {:induction false} ByIDKeys(bugs: seq<Bug>)
    ensures forall id :: id in ByID(bugs) <==> exists j :: 0 <= j < |bugs| && bugs[j].id == id
  {
    if bugs != [] {
      var init := bugs[..|bugs| - 1];
      ByIDKeys(init);
      assert forall j :: 0 <= j < |init| ==> init[j] == bugs[j];
    }
  }

  /** Each ID of the index maps to the last bug carrying it. */
  lemma {:induction false} ByIDLast(bugs: seq<Bug>)
    ensures forall id :: id in ByID(bugs) ==>
      exists j :: 0 <= j < |bugs| && bugs[j] == ByID(bugs)[id] && bugs[j].id == id
        && forall j' :: j < j' < |bugs| ==> bugs[j'].id != id
  {
    if bugs != [] {
      var init := bugs[..|bugs| - 1];
      ByIDLast(init);
      assert forall j :: 0 <= j < |init| ==> init[j] == bugs[j];
    }
  }

  /** With unique IDs, the index maps the ID of every bug to that bug. */
  lemma ByIDUnique(bugs: seq<Bug>, j: nat)
    requires UniqueIds(bugs) && j < |bugs|
    ensures bugs[j].id in ByID(bugs) && ByID(bugs)[bugs[j].id] == bugs[j]
  {
    ByIDLast(bugs);
    var id := bugs[j].id;
    var j' :| 0 <= j' < |bugs| && bugs[j'] == ByID(bugs)[id] && bugs[j'].id == id
      && forall j'' :: j' < j'' < |bugs| ==> bugs[j''].id != id;
    assert j' == j;
  }

  /** Lines 154-157 of `sync`. */
  method IndexByID(bugs: seq<Bug>) returns (byID: map<int, Bug>)
    ensures byID == ByID(bugs)
  {
    byID := map[];
    var i := 0;
    while i < |bugs|
      invariant i <= |bugs|
      invariant byID == ByID(bugs[..i])
    {
      var b := bugs[i];
      assert bugs[..i + 1][..i] == bugs[..i];
      byID := byID[b.id := b];
      i := i + 1;
    }
    assert bugs[..|bugs|] == bugs;
  }

  // ---------------------------------------------------------------------------
  // perPerson
  // ---------------------------------------------------------------------------

  /** The positions of `ids` that the index knows and that are assigned to `p`, ascending. */
  function Owned(byID: map<int, Bug>, ids: seq<int>, p: string): (m: seq<nat>)
    ensures forall t :: 0 <= t < |m| ==> m[t] < |ids| && ids[m[t]] in byID
  {
    if ids == [] then []
    else
      var i := |ids| - 1;
      Owned(byID, ids[..i], p) + (if ids[i] in byID && byID[ids[i]].assignedTo == p then [i] else [])
  }

  /** Position `i` is `p`'s exactly when its ID is indexed and assigned to `p`; positions ascend. */
  lemma {:induction false} OwnedSpec(byID: map<int, Bug>, ids: seq<int>, p: string)
    ensures AscendingBelow(Owned(byID, ids, p), |ids|)
    ensures forall i :: i in Owned(byID, ids, p) <==> 0 <= i < |ids| && ids[i] in byID && byID[ids[i]].assignedTo == p
  {
    if ids != [] {
      var init := ids[..|ids| - 1];
      OwnedSpec(byID, init, p);
      assert forall i :: 0 <= i < |init| ==> init[i] == ids[i];
    }
  }

  /** The assignees of the indexed IDs. */
  function Owners(byID: map<int, Bug>, ids: seq<int>): set<string>
  {
    set i | 0 <= i < |ids| && ids[i] in byID :: byID[ids[i]].assignedTo
  }

  /** The IDs of `ids` that the index assigns to `p`, in input order. */
  function PersonIds(byID: map<int, Bug>, ids: seq<int>, p: string): seq<int>
  {
    if ids == [] then []
    else
      var i := |ids| - 1;
      PersonIds(byID, ids[..i], p) + (if ids[i] in byID && byID[ids[i]].assignedTo == p then [ids[i]] else [])
  }

  /** Every indexed position has a line: `perPerson` reads `lines[i]` only at those. */
  predicate Covers(byID: map<int, Bug>, ids: seq<int>, lines: seq<string>)
  {
    forall i :: 0 <= i < |ids| && ids[i] in byID ==> i < |lines|
  }

  /** The lines parallel to `PersonIds`. */
  function PersonLines(byID: map<int, Bug>, ids: seq<int>, lines: seq<string>, p: string): seq<string>
    requires Covers(byID, ids, lines)
  {
    if ids == [] then []
    else
      var i := |ids| - 1;
      PersonLines(byID, ids[..i], lines, p) + (if ids[i] in byID && byID[ids[i]].assignedTo == p then [lines[i]] else [])
  }

  /** One more ID extends the ID list of its assignee only. */
  lemma PersonIdsSnoc(byID: map<int, Bug>, ids: seq<int>, i: nat)
    requires i < |ids|
    ensures forall p ::
      PersonIds(byID, ids[..i + 1], p) == PersonIds(byID, ids[..i], p) + (if ids[i] in byID && byID[ids[i]].assignedTo == p then [ids[i]] else [])
  {
    assert ids[..i + 1][..i] == ids[..i];
  }

  /** One more ID extends the line list of its assignee only. */
  lemma PersonLinesSnoc(byID: map<int, Bug>, ids: seq<int>, lines: seq<string>, i: nat)
    requires i < |ids|
    requires Covers(byID, ids, lines)
    ensures forall p ::
      PersonLines(byID, ids[..i + 1], lines, p) == PersonLines(byID, ids[..i], lines, p) + (if ids[i] in byID && byID[ids[i]].assignedTo == p then [lines[i]] else [])
  {
    assert ids[..i + 1][..i] == ids[..i];
  }

  /** The per-person ID lists. */
  function GroupIds(byID: map<int, Bug>, ids: seq<int>): map<string, seq<int>>
  {
    map p | p in Owners(byID, ids) :: PersonIds(byID, ids, p)
  }

  /** The per-person line lists, parallel to `GroupIds`. */
  function GroupLines(byID: map<int, Bug>, ids: seq<int>, lines: seq<string>): map<string, seq<string>>
    requires Covers(byID, ids, lines)
  {
    map p | p in Owners(byID, ids) :: PersonLines(byID, ids, lines, p)
  }

  /** A person's lists hold the IDs and the lines at exactly that person's positions, in input order. */
  lemma {:induction false} PersonPick(byID: map<int, Bug>, ids: seq<int>, lines: seq<string>, p: string)
    requires Covers(byID, ids, lines)
    ensures PersonIds(byID, ids, p) == Pick(ids, Owned(byID, ids, p))
    ensures PersonLines(byID, ids, lines, p) == Pick(lines, Owned(byID, ids, p))
  {
    if ids != [] {
      var n := |ids| - 1;
      var init := ids[..n];
      PersonPick(byID, init, lines, p);
      var m := Owned(byID, init, p);
      assert Pick(ids, m) == Pick(init, m);
      if ids[n] in byID && byID[ids[n]].assignedTo == p {
        PickSnoc(ids, m, n);
        PickSnoc(lines, m, n);
      }
    }
  }

  /** A person owns a position exactly when they are an owner. */
  lemma OwnersOwn(byID: map<int, Bug>, ids: seq<int>, p: string)
    ensures p in Owners(byID, ids) <==> Owned(byID, ids, p) != []
  {
    OwnedSpec(byID, ids, p);
    if p in Owners(byID, ids) {
      var i :| 0 <= i < |ids| && ids[i] in byID && byID[ids[i]].assignedTo == p;
      assert i in Owned(byID, ids, p);
    }
    if Owned(byID, ids, p) != [] {
      var i := Owned(byID, ids, p)[0];
      assert i in Owned(byID, ids, p);
      assert ids[i] in byID && byID[ids[i]].assignedTo == p;
    }
  }

  /** Somebody who owns no indexed ID has an empty ID list. */
  lemma {:induction false} EmptyIdsOutsideOwners(byID: map<int, Bug>, ids: seq<int>, p: string)
    requires p !in Owners(byID, ids)
    ensures PersonIds(byID, ids, p) == []
  {
    if ids != [] {
      var n := |ids| - 1;
      var init := ids[..n];
      assert Owners(byID, init) <= Owners(byID, ids) by {
        forall q | q in Owners(byID, init) ensures q in Owners(byID, ids) {
          var j :| 0 <= j < |init| && init[j] in byID && byID[init[j]].assignedTo == q;
          assert ids[j] == init[j];
        }
      }
      EmptyIdsOutsideOwners(byID, init, p);
      if ids[n] in byID {
        assert byID[ids[n]].assignedTo in Owners(byID, ids);
      }
    }
  }

  /** Somebody who owns no indexed ID has an empty line list. */
  lemma {:induction false} EmptyLinesOutsideOwners(byID: map<int, Bug>, ids: seq<int>, lines: seq<string>, p: string)
    requires Covers(byID, ids, lines)
    requires p !in Owners(byID, ids)
    ensures PersonLines(byID, ids, lines, p) == []
  {
    if ids != [] {
      var n := |ids| - 1;
      var init := ids[..n];
      assert Owners(byID, init) <= Owners(byID, ids) by {
        forall q | q in Owners(byID, init) ensures q in Owners(byID, ids) {
          var j :| 0 <= j < |init| && init[j] in byID && byID[init[j]].assignedTo == q;
          assert ids[j] == init[j];
        }
      }
      EmptyLinesOutsideOwners(byID, init, lines, p);
      if ids[n] in byID {
        assert byID[ids[n]].assignedTo in Owners(byID, ids);
      }
    }
  }

  /** One more known ID adds its assignee to the owners; an unknown one adds nobody. */
  lemma OwnersSnoc(byID: map<int, Bug>, ids: seq<int>, i: nat)
    requires i < |ids|
    ensures ids[i] !in byID ==> Owners(byID, ids[..i + 1]) == Owners(byID, ids[..i])
    ensures ids[i] in byID ==> Owners(byID, ids[..i + 1]) == Owners(byID, ids[..i]) + {byID[ids[i]].assignedTo}
  {
    var done, upto := ids[..i], ids[..i + 1];
    assert upto[..i] == done && upto[i] == ids[i];
    if ids[i] in byID {
      assert Owners(byID, upto) == Owners(byID, done) + {byID[ids[i]].assignedTo};
    } else {
      assert Owners(byID, upto) == Owners(byID, done);
    }
  }

  /** One more known ID extends its assignee's ID group; an unknown one changes nothing. */
  lemma GroupIdsSnoc(byID: map<int, Bug>, ids: seq<int>, i: nat)
    requires i < |ids|
    ensures GroupIds(byID, ids[..i + 1]) ==
      var g := GroupIds(byID, ids[..i]);
      if ids[i] in byID then g[byID[ids[i]].assignedTo := Lookup(g, byID[ids[i]].assignedTo) + [ids[i]]] else g
  {
    var done, upto := ids[..i], ids[..i + 1];
    OwnersSnoc(byID, ids, i);
    PersonIdsSnoc(byID, ids, i);
    var g, g' := GroupIds(byID, done), GroupIds(byID, upto);
    if ids[i] in byID {
      var a := byID[ids[i]].assignedTo;
      if a !in Owners(byID, done) {
        EmptyIdsOutsideOwners(byID, done, a);
      }
      var h := g[a := Lookup(g, a) + [ids[i]]];
      assert g'.Keys == h.Keys;
      forall p | p in h ensures g'[p] == h[p] {
        assert g'[p] == PersonIds(byID, upto, p);
        assert Lookup(g, p) == PersonIds(byID, done, p);
      }
    } else {
      assert g'.Keys == g.Keys;
      forall p | p in g ensures g'[p] == g[p] {
        assert g'[p] == PersonIds(byID, upto, p);
      }
    }
  }

  /** One more known ID extends its assignee's line group; an unknown one changes nothing. */
  lemma GroupLinesSnoc(byID: map<int, Bug>, ids: seq<int>, lines: seq<string>, i: nat)
    requires i < |ids|
    requires Covers(byID, ids, lines)
    ensures GroupLines(byID, ids[..i + 1], lines) ==
      var g := GroupLines(byID, ids[..i], lines);
      if ids[i] in byID then g[byID[ids[i]].assignedTo := Lookup(g, byID[ids[i]].assignedTo) + [lines[i]]] else g
  {
    var done, upto := ids[..i], ids[..i + 1];
    OwnersSnoc(byID, ids, i);
    PersonLinesSnoc(byID, ids, lines, i);
    var g, g' := GroupLines(byID, done, lines), GroupLines(byID, upto, lines);
    if ids[i] in byID {
      var a := byID[ids[i]].assignedTo;
      if a !in Owners(byID, done) {
        EmptyLinesOutsideOwners(byID, done, lines, a);
      }
      var h := g[a := Lookup(g, a) + [lines[i]]];
      assert g'.Keys == h.Keys;
      forall p | p in h ensures g'[p] == h[p] {
        assert g'[p] == PersonLines(byID, upto, lines, p);
        assert Lookup(g, p) == PersonLines(byID, done, lines, p);
      }
    } else {
      assert g'.Keys == g.Keys;
      forall p | p in g ensures g'[p] == g[p] {
        assert g'[p] == PersonLines(byID, upto, lines, p);
      }
    }
  }

  /**
   * `perPerson`: groups a bucket's IDs and its parallel lines by the assignee
   * the index gives for each ID, skipping IDs the index does not know.
   */
  method PerPerson(byID: map<int, Bug>, ids: seq<int>, lines: seq<string>)
    returns (perPersonIDs: map<string, seq<int>>, perPersonLines: map<string, seq<string>>)
    requires Covers(byID, ids, lines)
    ensures perPersonIDs == GroupIds(byID, ids)
    ensures perPersonLines == GroupLines(byID, ids, lines)
  {
    perPersonLines, perPersonIDs := map[], map[];
    var i := 0;
    while i < |ids|
      invariant i <= |ids|
      invariant perPersonIDs == GroupIds(byID, ids[..i])
      invariant perPersonLines == GroupLines(byID, ids[..i], lines)
    {
      GroupIdsSnoc(byID, ids, i);
      GroupLinesSnoc(byID, ids, lines, i);
      var id := ids[i];
      if id !in byID {
        i := i + 1;
        continue;
      }
      var b := byID[id];
      perPersonLines := perPersonLines[b.assignedTo := Lookup(perPersonLines, b.assignedTo) + [lines[i]]];
      perPersonIDs := perPersonIDs[b.assignedTo := Lookup(perPersonIDs, b.assignedTo) + [id]];
      i := i + 1;
    }
    assert ids[..|ids|] == ids;
  }

  /**
   * Every indexed position of the input lands in the list of exactly one
   * person, its assignee; positions the index does not know land nowhere.
   */
  lemma GroupsPartition(byID: map<int, Bug>, ids: seq<int>, i: nat)
    requires i < |ids|
    ensures ids[i] in byID ==> i in Owned(byID, ids, byID[ids[i]].assignedTo)
    ensures forall p :: i in Owned(byID, ids, p) ==> ids[i] in byID && p == byID[ids[i]].assignedTo
  {
    if ids[i] in byID {
      OwnedSpec(byID, ids, byID[ids[i]].assignedTo);
    }
    forall p | i in Owned(byID, ids, p)
      ensures ids[i] in byID && p == byID[ids[i]].assignedTo
    {
      OwnedSpec(byID, ids, p);
    }
  }

  /** With an empty index every group is empty: nobody gets a list. */
  lemma EmptyIndexGroupsNothing(ids: seq<int>, lines: seq<string>)
    ensures GroupIds(map[], ids) == map[]
    ensures GroupLines(map[], ids, lines) == map[]
  {
    assert Owners(map[], ids) == {};
  }

  // ---------------------------------------------------------------------------
  // notifyPersons
  // ---------------------------------------------------------------------------

  const UrgentWhat := "urgent bugs"
  const UrgentOutro := "\n\nWe are expected to actively work on these before anything else!"
  const BlockerWhat := "blocker+ bugs"
  const BlockerOutro := "\n\nPlease keep eyes on these, they will risk the upcoming release if not finished in time!"
  const TriageWhat := "untriaged bugs"
  const TriageOutro := "\n\nPlease make sure all these have the _Severity_, _Priority_ and _Target Release_ set, and move to ASSIGNED, so I can stop bothering you :-)\n\n"

  /** The first line of a personal message: how many bugs of which kind, and a suffix. */
  function Intro(what: string, n: int, suffix: string): string
  {
    "You have *" + Itoa(n) + " " + what + "*" + suffix + ":\n\n"
  }

  /** A personal message: the intro counting the lines, the lines one per row, the outro. */
  function Message(what: string, suffix: string, lines: seq<string>, outro: string): string
  {
    Intro(what, |lines|, suffix) + Join(lines, "\n") + outro
  }

  /**
   * `notifyPersons`: the message each person is sent, keyed by person. Persons
   * with an empty list are skipped. The sends themselves are left out.
   */
  function Notifications(what: string, suffix: string, perPerson: map<string, seq<string>>, outro: string): (r: map<string, string>)
    ensures forall p :: p in r <==> p in perPerson && perPerson[p] != []
  {
    map p | p in perPerson && perPerson[p] != [] :: Message(what, suffix, perPerson[p], outro)
  }

  /** A message counts its lines in the intro, shows each line and ends with the outro. */
  lemma MessageShowsLines(what: string, suffix: string, lines: seq<string>, outro: string)
    ensures HasPrefix(Message(what, suffix, lines, outro), "You have *" + Itoa(|lines|) + " " + what + "*")
    ensures forall t :: 0 <= t < |lines| ==> Contains(Message(what, suffix, lines, outro), lines[t])
    ensures outro <= Message(what, suffix, lines, outro)[|Message(what, suffix, lines, outro)| - |outro|..]
  {
    var intro := Intro(what, |lines|, suffix);
    var body := Join(lines, "\n");
    var m := Message(what, suffix, lines, outro);
    assert m == intro + body + outro;
    var head := "You have *" + Itoa(|lines|) + " " + what + "*";
    assert intro == head + (suffix + ":\n\n");
    assert m[..|head|] == head;
    forall t | 0 <= t < |lines| ensures Contains(m, lines[t]) {
      JoinContains(lines, "\n", t);
      var i :| OccursAt(body, lines[t], i);
      OccursWithin(intro, body, outro, lines[t], i);
      assert OccursAt(m, lines[t], |intro| + i);
    }
    assert m[|m| - |outro|..] == outro;
  }

  // ---------------------------------------------------------------------------
  // sendAdminDebugStats
  // ---------------------------------------------------------------------------

  /** One line of the admin digest: a link to a person's bugs of one kind, and their number. */
  function AdminLine(person: string, ids: seq<int>, what: string, listURL: string -> string): string
  {
    "> " + BugListLink(person, ids, listURL) + ": " + Itoa(|ids|) + " " + what
  }

  /**
   * `sendAdminDebugStats`: the lines of the admin digest, one per person and
   * kind with a non-empty list. Go joins them in map iteration order, so the
   * model keeps them as a set.
   */
  function AdminLines(blockers: map<string, seq<int>>, toTriage: map<string, seq<int>>, urgent: map<string, seq<int>>,
                      listURL: string -> string): (r: set<string>)
    ensures forall p :: p in blockers && blockers[p] != [] ==> AdminLine(p, blockers[p], "blocker+ bugs", listURL) in r
    ensures forall p :: p in toTriage && toTriage[p] != [] ==> AdminLine(p, toTriage[p], "bugs that need triage", listURL) in r
    ensures forall p :: p in urgent && urgent[p] != [] ==> AdminLine(p, urgent[p], "urgent bugs", listURL) in r
    ensures
      ((forall p :: p in blockers ==> blockers[p] == []) && (forall p :: p in toTriage ==> toTriage[p] == [])
       && (forall p :: p in urgent ==> urgent[p] == []))
      ==> r == {}
  {
    (set p | p in blockers && blockers[p] != [] :: AdminLine(p, blockers[p], "blocker+ bugs", listURL))
    + (set p | p in toTriage && toTriage[p] != [] :: AdminLine(p, toTriage[p], "bugs that need triage", listURL))
    + (set p | p in urgent && urgent[p] != [] :: AdminLine(p, urgent[p], "urgent bugs", listURL))
  }

  // ---------------------------------------------------------------------------
  // sync
  // ---------------------------------------------------------------------------

  /** Everything one run of `sync` sends: the personal messages of each kind, the channel message and the admin digest. */
  datatype Deliveries = Deliveries(
    triage: map<string, string>,
    blockers: map<string, string>,
    urgent: map<string, string>,
    channel: string,
    admin: set<string>
  )

  /** The suffix of the blocker intro. Go formats it without a leading space. */
  function BlockerSuffix(current: string): string
  {
    "for the " + current + " release"
  }

  /** The personal messages of one kind: the lines grouped by assignee through the index, then rendered. */
  function MailOf(byID: map<int, Bug>, ids: seq<int>, lines: seq<string>, what: string, suffix: string, outro: string): map<string, string>
    requires Covers(byID, ids, lines)
  {
    Notifications(what, suffix, GroupLines(byID, ids, lines), outro)
  }

  /** One `perPerson` call and the `notifyPersons` call on its line groups. */
  method GroupAndNotify(byID: map<int, Bug>, ids: seq<int>, lines: seq<string>, what: string, suffix: string, outro: string)
    returns (perPersonIDs: map<string, seq<int>>, mail: map<string, string>)
    requires Covers(byID, ids, lines)
    ensures perPersonIDs == GroupIds(byID, ids)
    ensures mail == MailOf(byID, ids, lines, what, suffix, outro)
  {
    var perPersonLines;
    perPersonIDs, perPersonLines := PerPerson(byID, ids, lines);
    mail := Notifications(what, suffix, perPersonLines, outro);
  }

  /** The body of `sync` after the report: index, group, notify, post, digest. */
  method Deliver(channel: string, s: Summary, bugs: seq<Bug>, blockerIDs: seq<int>, blockerLines: seq<string>,
                 current: string, listURL: string -> string)
    returns (d: Deliveries)
    requires Covers(ByID(bugs), s.toTriageIDs, s.toTriage)
    requires Covers(ByID(bugs), blockerIDs, blockerLines)
    requires Covers(ByID(bugs), s.urgentIDs, s.urgent)
    ensures d.triage == MailOf(ByID(bugs), s.toTriageIDs, s.toTriage, TriageWhat, "", TriageOutro)
    ensures d.blockers == MailOf(ByID(bugs), blockerIDs, blockerLines, BlockerWhat, BlockerSuffix(current), BlockerOutro)
    ensures d.urgent == MailOf(ByID(bugs), s.urgentIDs, s.urgent, UrgentWhat, "", UrgentOutro)
    ensures d.channel == channel
    ensures d.admin == AdminLines(GroupIds(ByID(bugs), blockerIDs), GroupIds(ByID(bugs), s.toTriageIDs),
                                  GroupIds(ByID(bugs), s.urgentIDs), listURL)
  {
    var byID := IndexByID(bugs);
    var perPersonToTriageIDs, toTriageMail := GroupAndNotify(byID, s.toTriageIDs, s.toTriage, TriageWhat, "", TriageOutro);
    var perPersonBlockerPlusIDs, blockerMail :=
      GroupAndNotify(byID, blockerIDs, blockerLines, BlockerWhat, BlockerSuffix(current), BlockerOutro);
    var perPersonUrgentIDs, urgentMail := GroupAndNotify(byID, s.urgentIDs, s.urgent, UrgentWhat, "", UrgentOutro);
    d := Deliveries(toTriageMail, blockerMail, urgentMail, channel,
                    AdminLines(perPersonBlockerPlusIDs, perPersonToTriageIDs, perPersonUrgentIDs, listURL));
  }

  /** Parallel lists cover every position, whatever the index. */
  lemma SummaryCovers(s: Summary, current: string, bugs: seq<Bug>, format: Bug -> string, byID: map<int, Bug>)
    requires Summarizes(s, current, bugs, format)
    ensures Covers(byID, s.toTriageIDs, s.toTriage)
    ensures Covers(byID, s.blockerPlusIDs, s.blockerPlus)
    ensures Covers(byID, s.urgentIDs, s.urgent)
  {
    BucketsParallel(bugs, ToTriage, current, format);
    BucketsParallel(bugs, BlockerPlus, current, format);
    BucketsParallel(bugs, Urgent, current, format);
  }

  /** With an empty index nobody gets a message and the digest is empty, whatever the lists. */
  lemma EmptyIndexMailsNothing(ids: seq<int>, lines: seq<string>, what: string, suffix: string, outro: string,
                               blockers: seq<int>, toTriage: seq<int>, urgent: seq<int>, listURL: string -> string)
    ensures ByID([]) == map[] && Covers(map[], ids, lines)
    ensures MailOf(map[], ids, lines, what, suffix, outro) == map[]
    ensures AdminLines(GroupIds(map[], blockers), GroupIds(map[], toTriage), GroupIds(map[], urgent), listURL) == {}
  {
    EmptyIndexGroupsNothing(ids, lines);
    EmptyIndexGroupsNothing(blockers, []);
    EmptyIndexGroupsNothing(toTriage, []);
    EmptyIndexGroupsNothing(urgent, []);
  }

  /**
   * `sync` as written: the report hands back no bugs, so the index stays
   * empty, and the blocker messages are grouped from the to-triage lists. No
   * personal message and no digest line is ever produced; only the channel
   * message goes out.
   */
  method Sync(search: Query -> Result<seq<Bug>>, current: string, targetReleases: seq<string>,
              components: seq<string>, format: Bug -> string, queryURL: Query -> string,
              listURL: string -> string)
    returns (r: Result<Deliveries>, ghost s: Summary)
    ensures r.Err? <==> search(AllReleasesQuery(components, targetReleases)).Err?
    ensures r.Ok? ==>
      var found := search(AllReleasesQuery(components, targetReleases)).value;
      && Summarizes(s, current, found, format)
      && ChannelReport(r.value.channel, current, |found|, s, queryURL(AllReleasesQuery(components, targetReleases)),
                       queryURL(CurrentReleaseQuery(components, current)), listURL)
    ensures r.Ok? ==>
      && Covers(ByID([]), s.toTriageIDs, s.toTriage)
      && r.value.blockers == MailOf(ByID([]), s.toTriageIDs, s.toTriage, BlockerWhat, BlockerSuffix(current), BlockerOutro)
    ensures r.Ok? ==> r.value.triage == map[] && r.value.blockers == map[] && r.value.urgent == map[] && r.value.admin == {}
  {
    var report := Report(search, current, targetReleases, components, format, queryURL, listURL);
    if report.Err? {
      s :| true;
      return Err(report.error), s;
    }
    var summary := report.value.summary;
    s := summary;
    EmptyIndexMailsNothing(s.toTriageIDs, s.toTriage, TriageWhat, "", TriageOutro, s.toTriageIDs, s.toTriageIDs, s.urgentIDs, listURL);
    EmptyIndexMailsNothing(s.toTriageIDs, s.toTriage, BlockerWhat, BlockerSuffix(current), BlockerOutro, [], [], [], listURL);
    EmptyIndexMailsNothing(s.urgentIDs, s.urgent, UrgentWhat, "", UrgentOutro, [], [], [], listURL);
    var d := Deliver(report.value.channel, summary, report.value.bugs, summary.toTriageIDs, summary.toTriage, current, listURL);
    r := Ok(d);
  }

  /**
   * `sync` as intended: the report hands back the searched bugs, which the
   * index covers, and the blocker messages are grouped from the blocker+ lists.
   */
  method SyncIntended(search: Query -> Result<seq<Bug>>, current: string, targetReleases: seq<string>,
                      components: seq<string>, format: Bug -> string, queryURL: Query -> string,
                      listURL: string -> string)
    returns (r: Result<Deliveries>, ghost s: Summary)
    ensures r.Err? <==> search(AllReleasesQuery(components, targetReleases)).Err?
    ensures r.Ok? ==>
      var found := search(AllReleasesQuery(components, targetReleases)).value;
      && Summarizes(s, current, found, format)
      && ChannelReport(r.value.channel, current, |found|, s, queryURL(AllReleasesQuery(components, targetReleases)),
                       queryURL(CurrentReleaseQuery(components, current)), listURL)
    ensures r.Ok? ==>
      var found := search(AllReleasesQuery(components, targetReleases)).value;
      var byID := ByID(found);
      && Covers(byID, BucketIds(found, ToTriage, current), BucketLines(found, ToTriage, current, format))
      && Covers(byID, BucketIds(found, BlockerPlus, current), BucketLines(found, BlockerPlus, current, format))
      && Covers(byID, BucketIds(found, Urgent, current), BucketLines(found, Urgent, current, format))
      && r.value.triage == MailOf(byID, BucketIds(found, ToTriage, current), BucketLines(found, ToTriage, current, format),
                                  TriageWhat, "", TriageOutro)
      && r.value.blockers == MailOf(byID, BucketIds(found, BlockerPlus, current), BucketLines(found, BlockerPlus, current, format),
                                    BlockerWhat, BlockerSuffix(current), BlockerOutro)
      && r.value.urgent == MailOf(byID, BucketIds(found, Urgent, current), BucketLines(found, Urgent, current, format),
                                  UrgentWhat, "", UrgentOutro)
      && r.value.admin == AdminLines(GroupIds(byID, BucketIds(found, BlockerPlus, current)),
                                     GroupIds(byID, BucketIds(found, ToTriage, current)),
                                     GroupIds(byID, BucketIds(found, Urgent, current)), listURL)
  {
    var report := ReportIntended(search, current, targetReleases, components, format, queryURL, listURL);
    if report.Err? {
      s :| true;
      return Err(report.error), s;
    }
    var summary := report.value.summary;
    s := summary;
    SummaryCovers(s, current, report.value.bugs, format, ByID(report.value.bugs));
    var d := Deliver(report.value.channel, summary, report.value.bugs, summary.blockerPlusIDs, summary.blockerPlus, current, listURL);
    r := Ok(d);
  }

  // ---------------------------------------------------------------------------
  // Who is messaged
  // ---------------------------------------------------------------------------

  /** Exactly the owners of indexed positions get a non-empty line group. */
  lemma OwnersGrouped(byID: map<int, Bug>, ids: seq<int>, lines: seq<string>)
    requires Covers(byID, ids, lines)
    ensures forall p :: (p in GroupLines(byID, ids, lines) && GroupLines(byID, ids, lines)[p] != []) <==> p in Owners(byID, ids)
  {
    forall p | p in Owners(byID, ids) ensures GroupLines(byID, ids, lines)[p] != [] {
      PersonPick(byID, ids, lines, p);
      OwnersOwn(byID, ids, p);
    }
  }

  /** With unique IDs, the owners of a bucket's IDs in the index of all bugs are the assignees of the bucket's bugs. */
  lemma BucketOwners(bugs: seq<Bug>, k: Bucket, current: string)
    requires UniqueIds(bugs)
    ensures forall p :: p in Owners(ByID(bugs), BucketIds(bugs, k, current)) <==>
      exists j :: 0 <= j < |bugs| && InBucket(bugs[j], k, current) && bugs[j].assignedTo == p
  {
    var ids, byID := BucketIds(bugs, k, current), ByID(bugs);
    var format := (b: Bug) => "";
    BucketsParallel(bugs, k, current, format);
    forall p | p in Owners(byID, ids)
      ensures exists j :: 0 <= j < |bugs| && InBucket(bugs[j], k, current) && bugs[j].assignedTo == p
    {
      var i :| 0 <= i < |ids| && ids[i] in byID && byID[ids[i]].assignedTo == p;
      var j :| 0 <= j < |bugs| && InBucket(bugs[j], k, current) && ids[i] == bugs[j].id;
      ByIDUnique(bugs, j);
    }
    forall p | exists j :: 0 <= j < |bugs| && InBucket(bugs[j], k, current) && bugs[j].assignedTo == p
      ensures p in Owners(byID, ids)
    {
      var j :| 0 <= j < |bugs| && InBucket(bugs[j], k, current) && bugs[j].assignedTo == p;
      MemberListed(bugs, k, current, format, j);
      ByIDUnique(bugs, j);
      var i :| 0 <= i < |ids| && ids[i] == bugs[j].id;
    }
  }

  /**
   * Grouping a bucket over the index of all bugs messages exactly the assignees
   * of the bucket's bugs, when the IDs are unique.
   */
  lemma BucketNotified(bugs: seq<Bug>, k: Bucket, current: string, format: Bug -> string,
                       what: string, suffix: string, outro: string)
    requires UniqueIds(bugs)
    ensures Covers(ByID(bugs), BucketIds(bugs, k, current), BucketLines(bugs, k, current, format))
    ensures forall p ::
      p in MailOf(ByID(bugs), BucketIds(bugs, k, current), BucketLines(bugs, k, current, format), what, suffix, outro)
      <==> exists j :: 0 <= j < |bugs| && InBucket(bugs[j], k, current) && bugs[j].assignedTo == p
  {
    BucketsParallel(bugs, k, current, format);
    OwnersGrouped(ByID(bugs), BucketIds(bugs, k, current), BucketLines(bugs, k, current, format));
    BucketOwners(bugs, k, current);
  }

  /** A blocker+ bug of the current release that is already triaged: assigned, with severity and priority set. */
  const TriagedBlocker :=
    Bug(1, "dev@example.com", ["kube-apiserver"], [], "", "high", "high", ["4.6"], "ASSIGNED", [Flag("blocker", "+")], "", [], "example")

  /**
   * Grouping the blocker messages from the to-triage lists, as `sync` does,
   * misses the assignee of a triaged blocker+ bug even with a full index;
   * grouping from the blocker+ lists reaches them.
   */
  lemma BlockerMailFromTriageLists(format: Bug -> string)
    ensures InBucket(TriagedBlocker, BlockerPlus, "4.6") && !InBucket(TriagedBlocker, ToTriage, "4.6")
    ensures Covers(ByID([TriagedBlocker]), BucketIds([TriagedBlocker], ToTriage, "4.6"), BucketLines([TriagedBlocker], ToTriage, "4.6", format))
    ensures Covers(ByID([TriagedBlocker]), BucketIds([TriagedBlocker], BlockerPlus, "4.6"), BucketLines([TriagedBlocker], BlockerPlus, "4.6", format))
    ensures "dev@example.com" !in MailOf(ByID([TriagedBlocker]), BucketIds([TriagedBlocker], ToTriage, "4.6"),
                                         BucketLines([TriagedBlocker], ToTriage, "4.6", format), BlockerWhat, BlockerSuffix("4.6"), BlockerOutro)
    ensures "dev@example.com" in MailOf(ByID([TriagedBlocker]), BucketIds([TriagedBlocker], BlockerPlus, "4.6"),
                                        BucketLines([TriagedBlocker], BlockerPlus, "4.6", format), BlockerWhat, BlockerSuffix("4.6"), BlockerOutro)
  {
    var bugs := [TriagedBlocker];
    assert HasFlag(TriagedBlocker.flags, "blocker", "+") by {
      assert TriagedBlocker.flags[0] == Flag("blocker", "+");
    }
    assert ResolvedRelease(TriagedBlocker) == "4.6";
    BucketNotified(bugs, ToTriage, "4.6", format, BlockerWhat, BlockerSuffix("4.6"), BlockerOutro);
    BucketNotified(bugs, BlockerPlus, "4.6", format, BlockerWhat, BlockerSuffix("4.6"), BlockerOutro);
    assert InBucket(bugs[0], BlockerPlus, "4.6") && bugs[0].assignedTo == "dev@example.com";
  }
}

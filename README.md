# Bug reporters of the bugzilla operator, in Dafny

This project models the three reporters of the bugzilla operator that hold
its rule logic, and proves properties of them.

- **The blockers reporter** searches the active bugs of a set of components
  and classifies each one into overlapping buckets:
  - urgent;
  - blocker+ and blocker? for the current release;
  - to triage;
  - missing the `UpcomingSprint` keyword;
  - the serious keywords.

  It also counts severity and priority histograms, stale bugs and
  current-release bugs. It renders the channel statistics, groups the buckets
  per assignee and builds the personal notifications and admin lines.
  Modules: `Blockers` (the classifier, `summarizeBugs`), `BlockersReport`
  (query, breakdowns, bug-list links, channel statistics, `Report`) and
  `BlockersSync` (`byID`, `perPerson`, notifications, `sync`).
- **The escalation reporter** decides which bugs are escalations and files
  them under their assignee. When the primary component has a configured
  lead, it also files them under that lead. It collects the silenced urgent
  bugs and the primary components missing from the configuration. For each
  lead it computes the quota from the size of the team and whether the lead
  is over it. Then it renders the report. Module: `Escalation`.
- **The new-bug reporter** keeps a watermark (the last bug ID seen) for each
  component set in a persistent store. It searches past that watermark, lists
  the bugs found to the admin channel and persists the advanced watermark. Its
  `Report` lists the bugs of the last day. Module: `NewBugs`.

Supporting modules:

- `Wrappers` holds `Option` and `Result`.
- `Bugzilla` holds the bug and query records.
- `Strings` models `strings.Join`, `strings.Split` and `strings.Contains`.
- `Strconv` models `strconv.Itoa` and `strconv.Atoi`.
- `Counts` holds the `map[string]int` histograms.
- `Seqs` holds selection by positions and Go's "missing key reads as empty"
  lookup.

The tracker search, the bug formatters (`FormatBugMessage`, `GetBugURL`),
URL encoding, and group expansion are opaque to the model. They are
function-typed parameters: `search`, `format`, `bugURL`, `queryURL`,
`listURL` and `expand`. A method's contract holds for every such function.
Go map iteration order is unspecified. So every output produced by ranging
over a map is stated for some enumeration of the map's keys: a ghost `order`
or `keys` sequence that lists each key exactly once. Outputs whose order is
not otherwise pinned are stated as sets.

Where the code and its design notes disagree, the model follows the code:

- The new-bug listing stops after index 51, so it holds 52 links, and the
  trailer appears whenever there are at least 52 bugs, not only more than 52.
  `Report` lists 22 bugs, with its trailer from 22 bugs on.
- The watermark advances only over the bugs the listing visits, the first 52.
  It does not advance over the whole result.
- The new-bugs `Report` header says "of the last week". Its search,
  `lastID == 0`, asks for the last 24 hours.
- The escalation search does not filter on severity and does not request the
  `escalation` field. The model takes any bugs and reads `escalation` as an
  ordinary field.
- The blocker notification suffix `for the <release> release` is inserted
  right after `*`, with no space before it. The model keeps the text as
  written.

## Model

| member | source | states |
|---|---|---|
| Blockers.HasFlag | pkg/operator/reporters/blockers-new/blockers_reporter.go:136-143 | true exactly when some flag has the given name and status |
| Blockers.SummarizeBugs | pkg/operator/reporters/blockers-new/blockers_reporter.go:74-134 | the summary of the bugs: every bucket list, parallel ID list, serious-keyword map and counter, as defined over the bugs in order |
| Blockers.SummarizeBug | pkg/operator/reporters/blockers-new/blockers_reporter.go:81-130 | one loop iteration extends every list and counter by exactly what the bug contributes |
| Blockers.FileKeywords | pkg/operator/reporters/blockers-new/blockers_reporter.go:81-86 | a serious keyword key gains the bug's ID exactly when the bug carries that keyword; other keys are unchanged |
| Blockers.FileCounters | pkg/operator/reporters/blockers-new/blockers_reporter.go:88-93 | the stale counter, the current-release counter and the severity and priority histograms each advance by exactly what the bug contributes |
| Blockers.FileUrgent | pkg/operator/reporters/blockers-new/blockers_reporter.go:95-103 | the urgent and need-UpcomingSprint lists gain the bug exactly when it is in those buckets |
| Blockers.FileBlockers | pkg/operator/reporters/blockers-new/blockers_reporter.go:105-120 | the blocker+ and blocker? lists, and the serious map under "blocker+"/"blocker?", gain the bug exactly when it is in those buckets |
| Blockers.FileToTriage | pkg/operator/reporters/blockers-new/blockers_reporter.go:122-126 | the to-triage lists gain the bug exactly when it is in the to-triage bucket |
| Blockers.MembersSpec | pkg/operator/reporters/blockers-new/blockers_reporter.go:80-131 | a bucket's members are the positions of the bugs in it, strictly ascending |
| Blockers.BucketPick | pkg/operator/reporters/blockers-new/blockers_reporter.go:96-125 | each bucket's ID list and line list are the IDs and lines of its member bugs, in input order |
| Blockers.BucketsParallel | pkg/operator/reporters/blockers-new/blockers_reporter.go:96-125 | each bucket's ID list and line list have equal length, and entry t of both comes from the same bug in the bucket |
| Blockers.UrgentBucket | pkg/operator/reporters/blockers-new/blockers_reporter.go:95-98 | a bug is listed as urgent exactly when its priority or its severity is "urgent", in input order |
| Blockers.NeedUpcomingSprintBucket | pkg/operator/reporters/blockers-new/blockers_reporter.go:100-103 | a bug needs an upcoming sprint exactly when it lacks the UpcomingSprint keyword |
| Blockers.BlockerBuckets | pkg/operator/reporters/blockers-new/blockers_reporter.go:105-120 | a bug is blocker+ (blocker?) exactly when it has that flag and its release is the current one or unset |
| Blockers.BlockerSeriousEntries | pkg/operator/reporters/blockers-new/blockers_reporter.go:110-120 | the serious map's "blocker+"/"blocker?" entries equal the blocker ID lists and exist exactly when those lists are non-empty |
| Blockers.SeriousEntries | pkg/operator/reporters/blockers-new/blockers_reporter.go:81-120 | the serious map holds only serious keywords and the two blocker keys, never an empty list, and a keyword lists exactly the bugs carrying it |
| Blockers.MemberListed | pkg/operator/reporters/blockers-new/blockers_reporter.go:96-125 | every bug in a bucket has its ID and its line listed there |
| Blockers.UnsetReleaseIsTriagedAndCounted | pkg/operator/reporters/blockers-new/blockers_reporter.go:105-130 | a bug with no target release is read as "---", is to be triaged and counts for the current release |
| Blockers.HistogramTotals | pkg/operator/reporters/blockers-new/blockers_reporter.go:88-130 | the severity and priority histograms count each value's occurrences and total the number of bugs; the stale and current-release counters are within 0 and the number of bugs |
| BlockersReport.BugsQuery | pkg/operator/reporters/blockers-new/blockers_reporter.go:202-236 | the query asks for the given components and releases, the active statuses, excludes low severity and low priority, and requests every field the classifier reads |
| BlockersReport.Breakdown | pkg/operator/reporters/blockers-new/blockers_reporter.go:301-312 | the breakdown loop yields the breakdown lines over the fixed severity order |
| BlockersReport.BreakdownShown | pkg/operator/reporters/blockers-new/blockers_reporter.go:302-306 | the breakdown shows, in the given order, exactly the names with a positive count, each with its count |
| BlockersReport.BreakdownsOfBugs | pkg/operator/reporters/blockers-new/blockers_reporter.go:301-312 | the severity (priority) breakdown shows exactly the sorted names that some bug has as severity (priority) |
| BlockersReport.IdListRoundTrip | pkg/operator/reporters/blockers-new/blockers_reporter.go:264-268 | the comma-joined ID list splits back into one part per ID, each parsing back to that ID |
| BlockersReport.MakeBugzillaLink | pkg/operator/reporters/blockers-new/blockers_reporter.go:261-271 | the link built by the loop is the bug-list link of the comma-joined IDs with the given text |
| BlockersReport.FixedLines | pkg/operator/reporters/blockers-new/blockers_reporter.go:317-323 | the statistics start with exactly five fixed lines |
| BlockersReport.SeriousLines | pkg/operator/reporters/blockers-new/blockers_reporter.go:325-330 | one line per serious key with a non-empty list, each key once, each line naming its key and linking its IDs |
| BlockersReport.StatsForChannel | pkg/operator/reporters/blockers-new/blockers_reporter.go:293-333 | the channel statistics are the five fixed lines followed by the serious-key lines, for some order of the keys |
| BlockersReport.StatsCounts | pkg/operator/reporters/blockers-new/blockers_reporter.go:318-330 | the first lines carry the number of active bugs and of current-release bugs; the keyed lines are for serious keywords or blocker states only, and a blocker line appears exactly when that list is non-empty |
| BlockersReport.Report | pkg/operator/reporters/blockers-new/blockers_reporter.go:238-259 | fails exactly when the search fails; otherwise returns the summary of the found bugs and the channel report built from it, and an empty bug list |
| BlockersReport.ReportIntended | pkg/operator/reporters/blockers-new/blockers_reporter.go:238-259 | as `Report`, but returns the bugs that were found |
| BlockersSync.ByIDKeys | pkg/operator/reporters/blockers-new/blockers_reporter.go:154-157 | the index holds exactly the IDs of the bugs |
| BlockersSync.ByIDLast | pkg/operator/reporters/blockers-new/blockers_reporter.go:154-157 | an ID maps to the last bug carrying it |
| BlockersSync.ByIDUnique | pkg/operator/reporters/blockers-new/blockers_reporter.go:154-157 | with distinct IDs, each bug is found under its own ID |
| BlockersSync.IndexByID | pkg/operator/reporters/blockers-new/blockers_reporter.go:154-157 | the loop builds the index of the bugs by ID |
| BlockersSync.OwnedSpec | pkg/operator/reporters/blockers-new/blockers_reporter.go:162-169 | a person owns exactly the ascending positions whose ID is indexed to a bug assigned to them |
| BlockersSync.PerPerson | pkg/operator/reporters/blockers-new/blockers_reporter.go:159-171 | the per-person IDs and lines are the bucket's entries grouped by the assignee of the indexed bug, in order, with unknown IDs skipped |
| BlockersSync.PersonPick | pkg/operator/reporters/blockers-new/blockers_reporter.go:162-169 | a person's IDs and lines are the entries at the positions they own, so the two stay parallel |
| BlockersSync.GroupsPartition | pkg/operator/reporters/blockers-new/blockers_reporter.go:162-169 | every indexed entry is owned by exactly one person, its bug's assignee |
| BlockersSync.OwnersGrouped | pkg/operator/reporters/blockers-new/blockers_reporter.go:159-171 | a person has a non-empty group exactly when they own some entry |
| BlockersSync.Notifications | pkg/operator/reporters/blockers-new/blockers_reporter.go:177-187 | a person is messaged exactly when their list of lines is non-empty |
| BlockersSync.MessageShowsLines | pkg/operator/reporters/blockers-new/blockers_reporter.go:28-35 | a message starts with the count of its lines, contains every line and ends with the outro |
| BlockersSync.AdminLines | pkg/operator/reporters/blockers-new/blockers_reporter.go:273-291 | every person with a non-empty blocker+, triage or urgent list gets an admin line; with all lists empty there is none |
| BlockersSync.GroupAndNotify | pkg/operator/reporters/blockers-new/blockers_reporter.go:173-191 | one bucket's per-person grouping and the messages built from it |
| BlockersSync.Deliver | pkg/operator/reporters/blockers-new/blockers_reporter.go:173-198 | the triage, blocker+ and urgent messages, the channel report and the admin lines, as built from the given lists |
| BlockersSync.EmptyIndexMailsNothing | pkg/operator/reporters/blockers-new/blockers_reporter.go:154-157 | with an empty bug list, which is what `Report` returns at line 258, the index is empty, so no personal message and no admin line is produced |
| BlockersSync.Sync | pkg/operator/reporters/blockers-new/blockers_reporter.go:145-200 | as written: the channel report of the summary, the blocker+ messages built from the to-triage lists, and, because `Report` returns no bugs, no personal message and no admin line at all |
| BlockersSync.SyncIntended | pkg/operator/reporters/blockers-new/blockers_reporter.go:145-200 | fails exactly when the search fails; otherwise the triage, blocker+ and urgent messages are grouped from their own buckets over the found bugs, with the matching admin lines |
| BlockersSync.BucketOwners | pkg/operator/reporters/blockers-new/blockers_reporter.go:159-171 | with distinct IDs, the owners of a bucket are exactly the assignees of its bugs |
| BlockersSync.BucketNotified | pkg/operator/reporters/blockers-new/blockers_reporter.go:159-191 | with distinct IDs, a person gets a bucket's message exactly when some bug of the bucket is assigned to them |
| BlockersSync.BlockerMailFromTriageLists | pkg/operator/reporters/blockers-new/blockers_reporter.go:174 | a triaged blocker+ bug's assignee gets no blocker+ message from the to-triage lists, but does from the blocker+ lists |
| Escalation.EscalationQuery | pkg/operator/reporters/escalation/escalation_reporter.go:165-182 | the search asks for the components' active bugs, has no severity filter, and does not request the escalation field |
| Escalation.HasCustomerCases | pkg/operator/reporters/escalation/escalation_reporter.go:70-76 | the scan finds a customer case exactly when some external bug is of type SFDC |
| Escalation.LeadOf | pkg/operator/reporters/escalation/escalation_reporter.go:81-88 | a non-empty lead is the configured lead of the bug's primary component |
| Escalation.FileBug | pkg/operator/reporters/escalation/escalation_reporter.go:69-93 | one bug goes to its assignee when eligible, to its lead when eligible with a led primary component, to the missing set when eligible with an unconfigured primary component, and to the silenced list when silenced |
| Escalation.Aggregate | pkg/operator/reporters/escalation/escalation_reporter.go:64-94 | the loop yields the assignee grouping, the silenced list, the lead grouping and the missing components of the bugs |
| Escalation.GroupedSpec | pkg/operator/reporters/escalation/escalation_reporter.go:78-90 | every eligible bug is listed under its assignee (and its lead, if any); a listed key's list is non-empty and holds only bugs filed under it |
| Escalation.MembersSpec | pkg/operator/reporters/escalation/escalation_reporter.go:79-88 | a bug is in a key's list exactly when it is one of the bugs and is filed under that key |
| Escalation.KeysSpec | pkg/operator/reporters/escalation/escalation_reporter.go:79-88 | a key is present exactly when its list is non-empty |
| Escalation.SilencedSpec | pkg/operator/reporters/escalation/escalation_reporter.go:91-93 | a bug is silenced exactly when it is not eligible, its severity is urgent and its priority is not unspecified |
| Escalation.NeverBoth | pkg/operator/reporters/escalation/escalation_reporter.go:78-93 | no bug listed under an assignee is also silenced |
| Escalation.LeadsSpec | pkg/operator/reporters/escalation/escalation_reporter.go:81-90 | a bug is under a lead exactly when it is eligible and its primary component is configured with that non-empty lead, so a missing component counts for no lead |
| Escalation.MissingSpec | pkg/operator/reporters/escalation/escalation_reporter.go:81-85 | a component is reported missing exactly when it is unconfigured and the primary component of some eligible bug |
| Escalation.Max | pkg/operator/reporters/escalation/escalation_reporter.go:158-163 | the result is one of the arguments and at least both |
| Escalation.Quota | pkg/operator/reporters/escalation/escalation_reporter.go:114 | the quota is at least one, is a fifth of the team rounded down for teams of five or more, and is one for teams under ten |
| Escalation.QuotaExamples | pkg/operator/reporters/escalation/escalation_reporter.go:114 | teams of 0, 1 and 7 get quota 1, 10 gets 2, 20 gets 4 |
| Escalation.QuotaMonotone | pkg/operator/reporters/escalation/escalation_reporter.go:114 | a larger team never has a smaller quota |
| Escalation.OverQuotaScenario | pkg/operator/reporters/escalation/escalation_reporter.go:114-117 | a team of seven with two escalations is marked over its quota of one |
| Escalation.TeamRootsSpec | pkg/operator/reporters/escalation/escalation_reporter.go:107-112 | a developer is a root of the lead's team exactly when some component the lead leads lists them |
| Escalation.RootsOf | pkg/operator/reporters/escalation/escalation_reporter.go:107-112 | the loop over the configured components collects the lead's team roots |
| Escalation.LeadHeader | pkg/operator/reporters/escalation/escalation_reporter.go:116-120 | an over-quota lead's line starts with the siren and the lead, otherwise with the lead; both carry the bug count |
| Escalation.LeadLines | pkg/operator/reporters/escalation/escalation_reporter.go:107-124 | one lead's block is the verdict line against the team's quota, then one line per bug |
| Escalation.LeadSection | pkg/operator/reporters/escalation/escalation_reporter.go:106-125 | the lead blocks for some order visiting each lead once |
| Escalation.LeadHeaderShown | pkg/operator/reporters/escalation/escalation_reporter.go:106-120 | every visited lead's verdict line is in the report |
| Escalation.MultiLinesSpec | pkg/operator/reporters/escalation/escalation_reporter.go:128-145 | with non-empty lists, the multi-escalation lines are exactly those of the visited assignees with two bugs or more |
| Escalation.MultiEscalations | pkg/operator/reporters/escalation/escalation_reporter.go:128-145 | in the report, an assignee is listed as having several escalations exactly when at least two eligible bugs are assigned to them |
| Escalation.ListAssignee | pkg/operator/reporters/escalation/escalation_reporter.go:129-144 | an assignee with one bug is skipped; otherwise the heading is added once before the first listed assignee |
| Escalation.MultiSection | pkg/operator/reporters/escalation/escalation_reporter.go:127-145 | the multi-escalation section for some order visiting each assignee once |
| Escalation.Compose | pkg/operator/reporters/escalation/escalation_reporter.go:104-155 | the non-empty report text for some visiting order of the leads and of the assignees |
| Escalation.Report | pkg/operator/reporters/escalation/escalation_reporter.go:57-156 | fails exactly when the search fails; reports the missing components; the text is empty exactly when no bug is under a lead and none is silenced, and otherwise is the report |
| Escalation.NoLeadsSpec | pkg/operator/reporters/escalation/escalation_reporter.go:100 | the lead map is empty exactly when no bug is filed under a lead |
| Escalation.NoSilencedSpec | pkg/operator/reporters/escalation/escalation_reporter.go:100 | the silenced list is empty exactly when no bug is silenced |
| NewBugs.Store.Set | pkg/operator/reporters/new/new_controller.go:52 | a write stores the value under the key, or fails with the store's error and changes nothing |
| NewBugs.StateKey | pkg/operator/reporters/new/new_controller.go:40 | the key is the reporter's prefix followed by the joined components |
| NewBugs.StateKeysDistinct | pkg/operator/reporters/new/new_controller.go:40 | different single components have different watermark keys |
| NewBugs.ParseState | pkg/operator/reporters/new/new_controller.go:41-50 | nothing stored, or text that does not parse, gives watermark 0; otherwise the parsed number |
| NewBugs.PersistRoundTrip | pkg/operator/reporters/new/new_controller.go:45-52 | the persisted watermark is read back by the next cycle unchanged |
| NewBugs.NewBugsQuery | pkg/operator/reporters/new/new_controller.go:102-129 | watermark 0 searches the last 24 hours, any other searches IDs above the watermark; NEW bugs of the components |
| NewBugs.TrailerOvercounts | pkg/operator/reporters/new/new_controller.go:72-75 | as written, a listing of exactly k + 2 bugs shows them all and still announces two more (k = 50 here, k = 20 in `Report` at lines 93-96) |
| NewBugs.CappedCounts | pkg/operator/reporters/new/new_controller.go:72-75 | capped, the trailer appears exactly when bugs are left out and counts exactly those |
| NewBugs.MaxIdSpec | pkg/operator/reporters/new/new_controller.go:67-70 | the advanced watermark is at least the start and every visited ID, and is one of them |
| NewBugs.ScanNewBugs | pkg/operator/reporters/new/new_controller.go:65-76 | the links of the first 52 bugs, the trailer from 52 bugs on, and the watermark advanced over the visited bugs |
| NewBugs.ScanNewBugsCapped | pkg/operator/reporters/new/new_controller.go:65-76 | the links of the first 50 bugs and a trailer exactly when more were found, with the watermark over the listed bugs |
| NewBugs.Persist | pkg/operator/reporters/new/new_controller.go:51-57 | the watermark write is always attempted, and the cycle's error wins over the write's |
| NewBugs.Sync | pkg/operator/reporters/new/new_controller.go:36-82 | the watermark read, the search from it, the admin message of the found bugs, and the persisted watermark (the start one when the search fails) with the right error |
| NewBugs.WatermarkNeverDecreases | pkg/operator/reporters/new/new_controller.go:59-76 | the persisted watermark is never below the one read, and is unchanged when nothing is found |
| NewBugs.WatermarkScenarios | pkg/operator/reporters/new/new_controller.go:41-76 | stored "50" with bugs up to 75 persists "75"; unparsable state starts from 0 with the last-day search |
| NewBugs.Report | pkg/operator/reporters/new/new_controller.go:84-100 | fails exactly when the search fails; otherwise the header, the first 22 bug lines and the trailer from 22 bugs on |
| NewBugs.ReportCapped | pkg/operator/reporters/new/new_controller.go:84-100 | the header, at most 20 bug lines, and a trailer exactly when bugs are left out |
| Strconv.Itoa | pkg/operator/reporters/new/new_controller.go:52 | the decimal text of an integer: digits, with a leading minus exactly for negatives |
| Strconv.AtoiItoa | pkg/operator/reporters/new/new_controller.go:45-52 | parsing the text of a 64-bit integer gives it back |
| Counts.TallyTotal | pkg/operator/reporters/blockers-new/blockers_reporter.go:92-93 | a histogram built by counting keys totals the number of keys |

## Left out

- Sending messages to Slack (`MessageEmail`, `MessageChannel`, `MessageAdminChannel`), the event recorder, logging and controller wiring are left out. They are I/O. The model returns what would be sent.
- The tracker search is the parameter `search`. Search failures are its `Err` results.
- `FormatBugMessage`, `GetBugURL`, `config.ExpandGroups` and the URL encoding of `makeBugzillaLink` and the query URLs are opaque. They are the parameters `format`, `bugURL`, `expand`, `listURL` and `queryURL`. `makeBugzillaLink` is modelled only up to the comma-joined ID list it encodes.
- Escalation.Quota: computes `|team| / 5`, not the float expression `int(float64(len(team))*0.2)`. The two agree except where the float product rounds below an integer.
- Escalation.LeadSection: the team is `expand` applied to the set of roots, not to `roots.List()`. The sorted listing is part of the opaque group expansion.
- Escalation.Report: the missing components are returned as a set. The admin message listing them sorted and comma-joined is not modelled, because it is only sent.
- Outputs that come from ranging over Go maps are stated for some order of the keys. This covers lead blocks, multi-escalation lines and serious-keyword lines. Admin debug lines and personal messages are stated as a set and as maps.
- NewBugs.Sync: a failing read of the persistent store returns before anything else happens. That path is not modelled. A key never written reads as "".
- Concurrency between reporter cycles is left out. It is the scheduler's concern.

## Findings

| source | as written | input that shows it | evidently intended | confidence | as-written member | corrected member |
|---|---|---|---|---|---|---|
| pkg/operator/reporters/blockers-new/blockers_reporter.go:258 | `Report` returns a nil bug list, so `sync` indexes no bugs and sends no personal message or admin line | any search result with a to-triage, blocker+ or urgent bug | `Report` returns the bugs it found | high, not executed | BlockersSync.Sync | BlockersSync.SyncIntended |
| pkg/operator/reporters/blockers-new/blockers_reporter.go:174 | the blocker+ per-person groups are built from the to-triage lists | one triaged blocker+ bug for the current release | the blocker+ groups are built from the blocker+ lists | high, not executed | BlockersSync.BlockerMailFromTriageLists | BlockersSync.SyncIntended |
| pkg/operator/reporters/new/new_controller.go:72-75 | the loop lists 52 links, and from 52 bugs on adds a trailer saying `len - 50` more | exactly 52 new bugs: all 52 are linked, and the trailer announces 2 more | the trailer counts exactly the bugs not listed: at most 50 links, and the trailer only when more were found | medium, not executed | NewBugs.TrailerOvercounts | NewBugs.ScanNewBugsCapped |
| pkg/operator/reporters/new/new_controller.go:93-96 | the report lists 22 bugs, and from 22 bugs on adds a trailer saying `len - 20` more | exactly 22 new bugs: all 22 are listed, and the trailer announces 2 more | at most 20 bug lines, and the trailer only when more were found | medium, not executed | NewBugs.Report | NewBugs.ReportCapped |

/**
 * The records the reporters read from and send to the bug tracker client:
 * bugs as the search returns them, and the query descriptor a search takes.
 * Only the fields the reporters use are kept.
 */
module Bugzilla {

  /** A flag on a bug, such as `blocker` with status `+` or `?`. */
  datatype Flag = Flag(name: string, status: string)

  /** A link to a case in another tracker; `trackerType` is e.g. "SFDC". */
  datatype ExternalBug = ExternalBug(trackerType: string)

  datatype Bug = Bug(
    id: int,
    assignedTo: string,
    component: seq<string>,       // the first element is the primary component
    keywords: seq<string>,
    whiteboard: string,
    severity: string,
    priority: string,
    targetRelease: seq<string>,   // empty means "not set"
    status: string,
    flags: seq<Flag>,
    escalation: string,
    externalBugs: seq<ExternalBug>,
    summary: string
  )

  /** One `field op value` predicate of an advanced search. */
  datatype AdvancedQuery = AdvancedQuery(field: string, op: string, value: string)

  /** A search request. Only the fields named in `includeFields` come back populated. */
  datatype Query = Query(
    classification: seq<string>,
    product: seq<string>,
    status: seq<string>,
    component: seq<string>,
    targetRelease: seq<string>,
    advanced: seq<AdvancedQuery>,
    includeFields: seq<string>
  )

  /** All IDs of `bugs` are pairwise distinct, as in one search result. */
  ghost predicate UniqueIds(bugs: seq<Bug>)
  {
    forall i, j :: 0 <= i < j < |bugs| ==> bugs[i].id != bugs[j].id
  }
}

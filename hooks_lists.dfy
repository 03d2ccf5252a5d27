/** The subgraph list and detail hooks: the pagination each list page requests, and when a
    detail query runs. The subgraph call is made by the Subgraph variables methods; its response
    is an input. */
module UseCleanups {
  import opened Common
  import opened Entities
  import Subgraph

  /** The pagination `useCleanups` passes for the page at `pageParam`. */
  function PageRequest(pageParam: nat, pageSize: nat): (p: PaginationParams)
    ensures p.first == pageSize && p.skip == pageParam
    ensures p.orderBy == Some("createdAt") && p.orderDirection == Some("desc")
  {
    PaginationParams(pageSize, pageParam, Some("createdAt"), Some("desc"))
  }

  /** The variables of one page of `useCleanups`: the hook's ordering replaces the defaults, the
      filters are used as given. */
  method PageVariables(filters: CleanupFilters, pageParam: nat, pageSize: nat)
    returns (v: Subgraph.QueryVariables)
    ensures v.first == pageSize && v.skip == pageParam
    ensures v.orderBy == "createdAt" && v.orderDirection == "desc"
    ensures v.where.Some? <==>
              filters.status.Some? || Truthy(filters.organizer) || filters.published.Some?
  {
    v := Subgraph.CleanupsVariables(filters, Some(PageRequest(pageParam, pageSize)));
  }

  /** `enabled && !!id`. */
  predicate DetailEnabled(id: Option<string>, enabled: bool) {
    enabled && Truthy(id)
  }

  /** `useCleanup`'s query function: null without an id. */
  function CleanupQuery(id: Option<string>, fetch: string -> Option<Cleanup>): (r: Option<Cleanup>)
    ensures !Truthy(id) ==> r.None?
    ensures Truthy(id) ==> r == fetch(id.value)
  {
    if Truthy(id) then fetch(id.value) else None
  }

  /** `useCleanupUpdates`' query function: no updates without an id. */
  function CleanupUpdatesQuery(cleanupId: Option<string>, fetch: string -> seq<CleanupUpdate>)
    : (r: seq<CleanupUpdate>)
    ensures !Truthy(cleanupId) ==> r == []
    ensures Truthy(cleanupId) ==> r == fetch(cleanupId.value)
  {
    if Truthy(cleanupId) then fetch(cleanupId.value) else []
  }

  /** A disabled or id-less detail query never calls the subgraph; when it runs it has an id, so
      its result is the fetched one. */
  lemma EnabledQueriesHaveId(id: Option<string>, enabled: bool, fetch: string -> Option<Cleanup>,
                             fetchUpdates: string -> seq<CleanupUpdate>)
    requires DetailEnabled(id, enabled)
    ensures CleanupQuery(id, fetch) == fetch(id.value)
    ensures CleanupUpdatesQuery(id, fetchUpdates) == fetchUpdates(id.value)
  {
  }
}

module UseStreakSubmissions {
  import opened Common
  import opened Entities
  import Subgraph

  /** The pagination `useStreakSubmissions` passes for the page at `pageParam`. */
  function PageRequest(pageParam: nat, pageSize: nat): (p: PaginationParams)
    ensures p.first == pageSize && p.skip == pageParam
    ensures p.orderBy == Some("submittedAt") && p.orderDirection == Some("desc")
  {
    PaginationParams(pageSize, pageParam, Some("submittedAt"), Some("desc"))
  }

  method PageVariables(filters: StreakSubmissionFilters, pageParam: nat, pageSize: nat)
    returns (v: Subgraph.QueryVariables)
    ensures v.first == pageSize && v.skip == pageParam
    ensures v.orderBy == "submittedAt" && v.orderDirection == "desc"
    ensures v.where.Some? <==> filters.status.Some? || Truthy(filters.user)
    ensures v.where.Some? ==>
              v.where.value.Keys <= {"status", "user"} &&
              ("user" in v.where.value <==> Truthy(filters.user))
  {
    v := Subgraph.StreakSubmissionsVariables(filters, Some(PageRequest(pageParam, pageSize)));
  }

  predicate DetailEnabled(id: Option<string>, enabled: bool) {
    enabled && Truthy(id)
  }

  /** `useStreakSubmission`'s query function: null without an id. */
  function SubmissionQuery(id: Option<string>, fetch: string -> Option<StreakSubmission>)
    : (r: Option<StreakSubmission>)
    ensures !Truthy(id) ==> r.None?
    ensures Truthy(id) ==> r == fetch(id.value)
  {
    if Truthy(id) then fetch(id.value) else None
  }

  lemma EnabledQueryHasId(id: Option<string>, enabled: bool, fetch: string -> Option<StreakSubmission>)
    requires DetailEnabled(id, enabled)
    ensures SubmissionQuery(id, fetch) == fetch(id.value)
  {
  }
}

module UseUsers {
  import opened Common
  import opened Entities
  import Subgraph

  /** The pagination `useUsers` passes for the page at `pageParam`. */
  function PageRequest(pageParam: nat, pageSize: nat): (p: PaginationParams)
    ensures p.first == pageSize && p.skip == pageParam
    ensures p.orderBy == Some("registeredAt") && p.orderDirection == Some("desc")
  {
    PaginationParams(pageSize, pageParam, Some("registeredAt"), Some("desc"))
  }

  method PageVariables(filters: UserFilters, pageParam: nat, pageSize: nat)
    returns (v: Subgraph.QueryVariables)
    ensures v.first == pageSize && v.skip == pageParam
    ensures v.orderBy == "registeredAt" && v.orderDirection == "desc"
    ensures v.where.Some? <==>
              filters.isOrganizer.Some? || filters.emailVerified.Some? ||
              filters.kycStatus.Some? || Truthy(filters.referrer)
  {
    v := Subgraph.UsersVariables(filters, Some(PageRequest(pageParam, pageSize)));
  }

  predicate DetailEnabled(id: Option<string>, enabled: bool) {
    enabled && Truthy(id)
  }

  /** `useUser`'s query function: null without an id. */
  function UserQuery(id: Option<string>, fetch: string -> Option<User>): (r: Option<User>)
    ensures !Truthy(id) ==> r.None?
    ensures Truthy(id) ==> r == fetch(id.value)
  {
    if Truthy(id) then fetch(id.value) else None
  }

  lemma EnabledQueryHasId(id: Option<string>, enabled: bool, fetch: string -> Option<User>)
    requires DetailEnabled(id, enabled)
    ensures UserQuery(id, fetch) == fetch(id.value)
  {
  }
}

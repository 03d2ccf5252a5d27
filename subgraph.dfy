/** The subgraph service: address normalisation, the null-preserving stringification of
    scalars, the transforms from raw subgraph records to admin records, and the GraphQL
    variables (pagination defaults and the `where` filter) each query sends. The request
    itself is not modelled; its response is an input of the result functions. */
module Subgraph {
  import opened Common
  import opened Text
  import opened Foreign
  import opened Entities

  // ---------------------------------------------------------------------------------------------
  // Helpers

  /** `normalizeAddress`: lower-cased, with "0x" put in front when it is not already there. */
  function NormalizeAddress(address: string): (r: string)
    ensures "0x" <= r
    ensures forall i :: 0 <= i < |r| ==> !IsUpperAscii(r[i])
    ensures "0x" <= Lower(address) ==> r == Lower(address)
    ensures !("0x" <= Lower(address)) ==> r == "0x" + Lower(address)
  {
    var normalized := Lower(address);
    if "0x" <= normalized then normalized else "0x" + normalized
  }

  /** Normalising an address a second time changes nothing. */
  lemma NormalizeAddressIdempotent(address: string)
    ensures NormalizeAddress(NormalizeAddress(address)) == NormalizeAddress(address)
  {
    var r := NormalizeAddress(address);
    assert Lower(r) == r by {
      assert forall i :: 0 <= i < |r| ==> LowerChar(r[i]) == r[i];
    }
  }

  /** Two addresses that differ only in letter case normalise alike. */
  lemma NormalizeAddressIgnoresCase(a: string, b: string)
    requires Lower(a) == Lower(b)
    ensures NormalizeAddress(a) == NormalizeAddress(b)
  {
  }

  /** `toString`: null and undefined stay null, any other value becomes its String form. */
  function ScalarToString(value: Option<Scalar>): (r: Option<string>)
    ensures value.None? <==> r.None?
    ensures value.Some? && value.value.Str? ==> r == Some(value.value.s)
    ensures value.Some? && value.value.Num? ==> r == Some(IntToString(value.value.n))
  {
    match value
    case None => None
    case Some(Str(s)) => Some(s)
    case Some(Num(n)) => Some(IntToString(n))
  }

  /** `toString(value) ?? ""`: only a missing value becomes ""; an empty string stays as it is. */
  function ScalarToStringOrEmpty(value: Option<Scalar>): (r: string)
    ensures value.None? ==> r == ""
    ensures value.Some? ==> Some(r) == ScalarToString(value)
  {
    ScalarToString(value).GetOr("")
  }

  /** `mimetypes[index] || "image/jpeg"`: a missing or empty entry falls back to JPEG. */
  function MimeTypeAt(mimetypes: seq<string>, index: nat): (r: string)
    ensures r != ""
    ensures index < |mimetypes| && mimetypes[index] != "" ==> r == mimetypes[index]
  {
    if index < |mimetypes| && mimetypes[index] != "" then mimetypes[index] else "image/jpeg"
  }

  const IpfsGateway := "https://ipfs.io/ipfs/"

  // ---------------------------------------------------------------------------------------------
  // Transforms

  function TransformUser(user: SdkUser): (r: User)
    ensures r.id == user.id && r.isOrganizer == user.isOrganizer
    ensures r.emailVerified == user.emailVerified && r.kycStatus == user.kycStatus
    ensures r.referrer == user.referrer && r.metadata == user.metadata
    ensures r.registeredAt == ScalarToStringOrEmpty(user.registeredAt)
    ensures r.emailVerifiedAt == ScalarToString(user.emailVerifiedAt)
    ensures r.lastProfileUpdateAt == ScalarToString(user.lastProfileUpdateAt)
  {
    User(user.id, user.isOrganizer, user.emailVerified, user.kycStatus, user.referrer,
         user.metadata, ScalarToStringOrEmpty(user.registeredAt),
         ScalarToString(user.emailVerifiedAt), ScalarToString(user.lastProfileUpdateAt))
  }

  function TransformCleanupParticipant(p: SdkParticipant, cleanup: CleanupRef): (r: CleanupParticipant)
    ensures r.cleanup == cleanup
    ensures r.id == p.id && r.participant == p.participant && r.status == p.status
    ensures r.rewardEarned == p.rewardEarned
    ensures r.appliedAt == ScalarToStringOrEmpty(p.appliedAt)
    ensures r.acceptedAt == ScalarToString(p.acceptedAt)
    ensures r.rejectedAt == ScalarToString(p.rejectedAt)
    ensures r.rewardEarnedAt == ScalarToString(p.rewardEarnedAt)
  {
    CleanupParticipant(p.id, p.participant, p.status, p.rewardEarned, cleanup,
                       ScalarToStringOrEmpty(p.appliedAt), ScalarToString(p.acceptedAt),
                       ScalarToString(p.rejectedAt), ScalarToString(p.rewardEarnedAt))
  }

  /** Entry `index` of a cleanup's proof-of-work media. */
  function ProofOfWorkEntry(c: SdkCleanup, pow: ProofOfWork, index: nat): ProofOfWorkMedia
    requires index < |pow.ipfsHashes|
  {
    ProofOfWorkMedia(c.id + "-pow-" + NatToString(index),
                     IpfsGateway + pow.ipfsHashes[index],
                     MimeTypeAt(pow.mimetypes, index),
                     ScalarToStringOrEmpty(c.proofOfWorkSubmittedAt),
                     ScalarToStringOrEmpty(pow.submittedAt))
  }

  /** `transformCleanup`. The participants are first built against the placeholder `{}` and
      then rebuilt against the transformed cleanup, so every participant finally points back
      at its own cleanup. */
  function TransformCleanup(c: SdkCleanup): (r: Cleanup)
    ensures r.id == c.id && r.organizer == c.organizer && r.status == c.status
    ensures r.published == c.published && r.rewardsDistributed == c.rewardsDistributed
    ensures r.proofOfWorkSubmitted == c.proofOfWorkSubmitted
    ensures r.date == ScalarToStringOrEmpty(c.date) && r.createdAt == ScalarToStringOrEmpty(c.createdAt)
    ensures r.startTime == ScalarToString(c.startTime) && r.endTime == ScalarToString(c.endTime)
    ensures r.maxParticipants == ScalarToString(c.maxParticipants)
    ensures r.updatedAt == ScalarToString(c.updatedAt)
    ensures r.publishedAt == ScalarToString(c.publishedAt)
    ensures r.unpublishedAt == ScalarToString(c.unpublishedAt)
    ensures r.proofOfWorkSubmittedAt == ScalarToString(c.proofOfWorkSubmittedAt)
    ensures r.rewardsDistributedAt == ScalarToString(c.rewardsDistributedAt)
    // participants: `cleanup.participants || []`, each linked to this cleanup
    ensures |r.participants| == |c.participants.GetOr([])|
    ensures forall i :: 0 <= i < |r.participants| ==>
              r.participants[i] == TransformCleanupParticipant(c.participants.GetOr([])[i], Owner(c.id))
    ensures forall p :: p in r.participants ==> p.cleanup == Owner(c.id)
    ensures r.medias == []
    // proof of work
    ensures c.proofOfWork.None? ==> r.proofOfWorkMediaCount.None? && r.proofOfWorkMedia == []
    ensures c.proofOfWork.Some? ==>
              r.proofOfWorkMediaCount == Some(NatToString(|c.proofOfWork.value.ipfsHashes|)) &&
              |r.proofOfWorkMedia| == |c.proofOfWork.value.ipfsHashes| &&
              forall i :: 0 <= i < |r.proofOfWorkMedia| ==>
                r.proofOfWorkMedia[i] == ProofOfWorkEntry(c, c.proofOfWork.value, i)
  {
    var sdkParticipants := c.participants.GetOr([]);
    var powMedia :=
      if c.proofOfWork.Some? then
        seq(|c.proofOfWork.value.ipfsHashes|,
            i requires 0 <= i < |c.proofOfWork.value.ipfsHashes| => ProofOfWorkEntry(c, c.proofOfWork.value, i))
      else [];
    var count := if c.proofOfWork.Some? then Some(NatToString(|c.proofOfWork.value.ipfsHashes|)) else None;
    var transformed := Cleanup(
      c.id, c.organizer, c.status, c.published, c.rewardsDistributed, c.proofOfWorkSubmitted,
      ScalarToStringOrEmpty(c.date), ScalarToString(c.startTime), ScalarToString(c.endTime),
      ScalarToString(c.maxParticipants), ScalarToStringOrEmpty(c.createdAt),
      ScalarToString(c.updatedAt), ScalarToString(c.publishedAt), ScalarToString(c.unpublishedAt),
      ScalarToString(c.proofOfWorkSubmittedAt), ScalarToString(c.rewardsDistributedAt),
      count,
      MapSeq(sdkParticipants, (p: SdkParticipant) => TransformCleanupParticipant(p, Placeholder)),
      [],
      powMedia);
    // The circular reference is fixed by rebuilding the participants against the result.
    transformed.(participants :=
      MapSeq(sdkParticipants, (p: SdkParticipant) => TransformCleanupParticipant(p, Owner(transformed.id))))
  }

  /** Entry `index` of a streak submission's media list. */
  function StreakMediaEntry(s: SdkStreakSubmission, index: nat): StreakSubmissionMedia
    requires index < |s.ipfsHashes|
  {
    StreakSubmissionMedia(s.id + "-media-" + NatToString(index), s.ipfsHashes[index],
                          MimeTypeAt(s.mimetypes, index), NatToString(index))
  }

  function TransformStreakSubmission(s: SdkStreakSubmission): (r: StreakSubmission)
    ensures r.id == s.id && r.submissionId == s.submissionId && r.user == s.user
    ensures r.status == s.status && r.metadata == s.metadata
    ensures r.amount == s.amount && r.rewardAmount == s.rewardAmount
    ensures r.submittedAt == ScalarToStringOrEmpty(s.submittedAt)
    ensures r.reviewedAt == ScalarToString(s.reviewedAt)
    ensures r.blockNumber == ScalarToStringOrEmpty(s.blockNumber)
    ensures |r.media| == |s.ipfsHashes|
    ensures forall i :: 0 <= i < |r.media| ==>
              r.media[i].ipfsHash == s.ipfsHashes[i] &&
              r.media[i].mimeType == MimeTypeAt(s.mimetypes, i) &&
              r.media[i].id == s.id + "-media-" + NatToString(i) &&
              r.media[i].index == NatToString(i)
  {
    StreakSubmission(s.id, s.submissionId, s.user, s.status, s.metadata, s.amount,
                     s.rewardAmount, ScalarToStringOrEmpty(s.submittedAt),
                     ScalarToString(s.reviewedAt), ScalarToStringOrEmpty(s.blockNumber),
                     seq(|s.ipfsHashes|, i requires 0 <= i < |s.ipfsHashes| => StreakMediaEntry(s, i)))
  }

  /** Ids built as `${id}<infix>${i}` are distinct for distinct positions. */
  lemma IndexedIdsDistinct(prefix: string, i: nat, j: nat)
    requires i != j
    ensures prefix + NatToString(i) != prefix + NatToString(j)
  {
    if prefix + NatToString(i) == prefix + NatToString(j) {
      assert NatToString(i) == (prefix + NatToString(i))[|prefix|..];
      assert NatToString(j) == (prefix + NatToString(j))[|prefix|..];
      NatToStringInjective(i, j);
    }
  }

  /** The media entries of a transformed submission have pairwise distinct ids, and each
      entry's `index` reads back as its position. */
  lemma StreakMediaWellIndexed(s: SdkStreakSubmission)
    ensures var m := TransformStreakSubmission(s).media;
            forall i, j :: 0 <= i < j < |m| ==> m[i].id != m[j].id
    ensures var m := TransformStreakSubmission(s).media;
            forall i :: 0 <= i < |m| ==> DigitsValue(m[i].index) == i
  {
    var m := TransformStreakSubmission(s).media;
    forall i, j | 0 <= i < j < |m| ensures m[i].id != m[j].id {
      IndexedIdsDistinct(s.id + "-media-", i, j);
    }
    forall i | 0 <= i < |m| ensures DigitsValue(m[i].index) == i {
      NatToStringRoundTrip(i);
    }
  }

  function TransformCleanupUpdate(u: SdkCleanupUpdate): (r: CleanupUpdate)
    ensures r.id == u.id && r.metadata == u.metadata
    ensures r.addedAt == ScalarToStringOrEmpty(u.addedAt)
    ensures r.blockNumber == ScalarToStringOrEmpty(u.blockNumber)
  {
    CleanupUpdate(u.id, u.metadata, ScalarToStringOrEmpty(u.addedAt), ScalarToStringOrEmpty(u.blockNumber))
  }

  // ---------------------------------------------------------------------------------------------
  // Query variables

  /** A value of the GraphQL `where` filter. */
  datatype FilterValue = NumberValue(n: JsNumber) | BoolValue(b: bool) | StringValue(s: string)

  datatype QueryVariables = QueryVariables(
    first: int,
    skip: int,
    orderBy: string,
    orderDirection: string,
    where: Option<map<string, FilterValue>>)

  /** The pagination that list queries use when the caller passes none. */
  const DefaultListPagination := PaginationParams(20, 0, None, None)
  const DefaultUpdatesPagination := PaginationParams(100, 0, None, None)

  /** `first`, `skip` and the ordering with its fallbacks, shared by every list query. */
  function PagedVariables(pagination: PaginationParams, defaultOrderBy: string): (v: QueryVariables)
    ensures v.first == pagination.first && v.skip == pagination.skip
    ensures v.orderBy == OrElse(pagination.orderBy, defaultOrderBy)
    ensures v.orderDirection == OrElse(pagination.orderDirection, "desc")
    ensures v.where.None?
  {
    QueryVariables(pagination.first, pagination.skip, OrElse(pagination.orderBy, defaultOrderBy),
                   OrElse(pagination.orderDirection, "desc"), None)
  }

  /** The variables of `getStreakSubmissions`. */
  method StreakSubmissionsVariables(filters: StreakSubmissionFilters, pagination: Option<PaginationParams>)
    returns (variables: QueryVariables)
    ensures var pg := pagination.GetOr(DefaultListPagination);
            variables.first == pg.first && variables.skip == pg.skip &&
            variables.orderBy == OrElse(pg.orderBy, "submittedAt") &&
            variables.orderDirection == OrElse(pg.orderDirection, "desc")
    ensures variables.where.Some? <==> filters.status.Some? || Truthy(filters.user)
    ensures variables.where.Some? ==>
              var w := variables.where.value;
              w.Keys <= {"status", "user"} &&
              ("status" in w <==> filters.status.Some?) &&
              (filters.status.Some? ==> w["status"] == NumberValue(filters.status.value)) &&
              ("user" in w <==> Truthy(filters.user)) &&
              (Truthy(filters.user) ==> w["user"] == StringValue(NormalizeAddress(filters.user.value)))
  {
    var pg := pagination.GetOr(DefaultListPagination);
    variables := PagedVariables(pg, "submittedAt");
    var where: map<string, FilterValue> := map[];
    if filters.status.Some? {
      where := where["status" := NumberValue(filters.status.value)];
    }
    if Truthy(filters.user) {
      where := where["user" := StringValue(NormalizeAddress(filters.user.value))];
    }
    if |where| > 0 {
      variables := variables.(where := Some(where));
    }
  }

  /** The variables of `getCleanups`. */
  method CleanupsVariables(filters: CleanupFilters, pagination: Option<PaginationParams>)
    returns (variables: QueryVariables)
    ensures var pg := pagination.GetOr(DefaultListPagination);
            variables.first == pg.first && variables.skip == pg.skip &&
            variables.orderBy == OrElse(pg.orderBy, "createdAt") &&
            variables.orderDirection == OrElse(pg.orderDirection, "desc")
    ensures variables.where.Some? <==>
              filters.status.Some? || Truthy(filters.organizer) || filters.published.Some?
    ensures variables.where.Some? ==>
              var w := variables.where.value;
              w.Keys <= {"status", "organizer", "published"} &&
              ("status" in w <==> filters.status.Some?) &&
              (filters.status.Some? ==> w["status"] == NumberValue(filters.status.value)) &&
              ("organizer" in w <==> Truthy(filters.organizer)) &&
              (Truthy(filters.organizer) ==>
                 w["organizer"] == StringValue(NormalizeAddress(filters.organizer.value))) &&
              ("published" in w <==> filters.published.Some?) &&
              (filters.published.Some? ==> w["published"] == BoolValue(filters.published.value))
  {
    var pg := pagination.GetOr(DefaultListPagination);
    variables := PagedVariables(pg, "createdAt");
    var where: map<string, FilterValue> := map[];
    if filters.status.Some? {
      where := where["status" := NumberValue(filters.status.value)];
    }
    if Truthy(filters.organizer) {
      where := where["organizer" := StringValue(NormalizeAddress(filters.organizer.value))];
    }
    if filters.published.Some? {
      where := where["published" := BoolValue(filters.published.value)];
    }
    if |where| > 0 {
      variables := variables.(where := Some(where));
    }
  }

  /** The variables of `getCleanupUpdates`: the filter by cleanup is always present. */
  method CleanupUpdatesVariables(cleanupId: string, pagination: Option<PaginationParams>)
    returns (variables: QueryVariables)
    ensures var pg := pagination.GetOr(DefaultUpdatesPagination);
            variables.first == pg.first && variables.skip == pg.skip &&
            variables.orderBy == OrElse(pg.orderBy, "addedAt") &&
            variables.orderDirection == OrElse(pg.orderDirection, "desc")
    ensures variables.where == Some(map["cleanup" := StringValue(cleanupId)])
  {
    var pg := pagination.GetOr(DefaultUpdatesPagination);
    variables := PagedVariables(pg, "addedAt");
    var where := map["cleanup" := StringValue(cleanupId)];
    variables := variables.(where := Some(where));
  }

  /** The variables of `getUsers`. */
  method UsersVariables(filters: UserFilters, pagination: Option<PaginationParams>)
    returns (variables: QueryVariables)
    ensures var pg := pagination.GetOr(DefaultListPagination);
            variables.first == pg.first && variables.skip == pg.skip &&
            variables.orderBy == OrElse(pg.orderBy, "registeredAt") &&
            variables.orderDirection == OrElse(pg.orderDirection, "desc")
    ensures variables.where.Some? <==>
              filters.isOrganizer.Some? || filters.emailVerified.Some? ||
              filters.kycStatus.Some? || Truthy(filters.referrer)
    ensures variables.where.Some? ==>
              var w := variables.where.value;
              w.Keys <= {"isOrganizer", "emailVerified", "kycStatus", "referrer"} &&
              ("isOrganizer" in w <==> filters.isOrganizer.Some?) &&
              (filters.isOrganizer.Some? ==> w["isOrganizer"] == BoolValue(filters.isOrganizer.value)) &&
              ("emailVerified" in w <==> filters.emailVerified.Some?) &&
              (filters.emailVerified.Some? ==>
                 w["emailVerified"] == BoolValue(filters.emailVerified.value)) &&
              ("kycStatus" in w <==> filters.kycStatus.Some?) &&
              (filters.kycStatus.Some? ==> w["kycStatus"] == NumberValue(filters.kycStatus.value)) &&
              ("referrer" in w <==> Truthy(filters.referrer)) &&
              (Truthy(filters.referrer) ==>
                 w["referrer"] == StringValue(NormalizeAddress(filters.referrer.value)))
  {
    var pg := pagination.GetOr(DefaultListPagination);
    variables := PagedVariables(pg, "registeredAt");
    var where: map<string, FilterValue> := map[];
    if filters.isOrganizer.Some? {
      where := where["isOrganizer" := BoolValue(filters.isOrganizer.value)];
    }
    if filters.emailVerified.Some? {
      where := where["emailVerified" := BoolValue(filters.emailVerified.value)];
    }
    if filters.kycStatus.Some? {
      where := where["kycStatus" := NumberValue(filters.kycStatus.value)];
    }
    if Truthy(filters.referrer) {
      where := where["referrer" := StringValue(NormalizeAddress(filters.referrer.value))];
    }
    if |where| > 0 {
      variables := variables.(where := Some(where));
    }
  }

  /** The id `getUser` asks for: the normalised address, so a user looked up by any spelling of
      the address is asked for in the form the list filters use. */
  function UserQueryId(id: string): (r: string)
    ensures "0x" <= r
    ensures forall i :: 0 <= i < |r| ==> !IsUpperAscii(r[i])
    ensures NormalizeAddress(r) == r
  {
    NormalizeAddressIdempotent(id);
    NormalizeAddress(id)
  }

  // ---------------------------------------------------------------------------------------------
  // Results (the response is an input)

  function StreakSubmissionsResult(response: seq<SdkStreakSubmission>): (r: seq<StreakSubmission>)
    ensures |r| == |response|
    ensures forall i :: 0 <= i < |r| ==> r[i] == TransformStreakSubmission(response[i])
  {
    MapSeq(response, TransformStreakSubmission)
  }

  /** `getStreakSubmission`, `getUser` and friends: a null response stays null. */
  function StreakSubmissionResult(response: Option<SdkStreakSubmission>): (r: Option<StreakSubmission>)
    ensures r.None? <==> response.None?
    ensures r.Some? ==> r.value == TransformStreakSubmission(response.value)
  {
    if response.Some? then Some(TransformStreakSubmission(response.value)) else None
  }

  function CleanupsResult(response: seq<SdkCleanup>): (r: seq<Cleanup>)
    ensures |r| == |response|
    ensures forall i :: 0 <= i < |r| ==> r[i] == TransformCleanup(response[i])
  {
    MapSeq(response, TransformCleanup)
  }

  function CleanupResult(response: Option<SdkCleanup>): (r: Option<Cleanup>)
    ensures r.None? <==> response.None?
    ensures r.Some? ==> r.value == TransformCleanup(response.value)
  {
    if response.Some? then Some(TransformCleanup(response.value)) else None
  }

  function UsersResult(response: seq<SdkUser>): (r: seq<User>)
    ensures |r| == |response|
    ensures forall i :: 0 <= i < |r| ==> r[i] == TransformUser(response[i])
  {
    MapSeq(response, TransformUser)
  }

  function UserResult(response: Option<SdkUser>): (r: Option<User>)
    ensures r.None? <==> response.None?
    ensures r.Some? ==> r.value == TransformUser(response.value)
  {
    if response.Some? then Some(TransformUser(response.value)) else None
  }

  function CleanupUpdatesResult(response: seq<SdkCleanupUpdate>): (r: seq<CleanupUpdate>)
    ensures |r| == |response|
    ensures forall i :: 0 <= i < |r| ==> r[i] == TransformCleanupUpdate(response[i])
  {
    MapSeq(response, TransformCleanupUpdate)
  }
}

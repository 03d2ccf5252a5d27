/** The records the dashboard reads from the subgraph. The `Sdk…` types are the raw shapes
    the GraphQL queries return; the others are the admin shapes produced by the transforms
    of the subgraph service, in which timestamps and counters are strings. Only the fields
    that some modelled rule reads or writes are kept. */
module Entities {
  import opened Common
  import opened Foreign

  /** A GraphQL BigInt or Int scalar: it arrives as a number or as a string. */
  datatype Scalar = Num(n: int) | Str(s: string)

  // ---------------------------------------------------------------------------------------------
  // Raw subgraph records

  datatype SdkUser = SdkUser(
    id: string,
    isOrganizer: bool,
    emailVerified: bool,
    kycStatus: int,
    referrer: Option<string>,
    metadata: Option<string>,
    registeredAt: Option<Scalar>,
    emailVerifiedAt: Option<Scalar>,
    lastProfileUpdateAt: Option<Scalar>)

  datatype SdkParticipant = SdkParticipant(
    id: string,
    participant: string,
    status: string,
    rewardEarned: Option<string>,
    appliedAt: Option<Scalar>,
    acceptedAt: Option<Scalar>,
    rejectedAt: Option<Scalar>,
    rewardEarnedAt: Option<Scalar>)

  datatype ProofOfWork = ProofOfWork(
    ipfsHashes: seq<string>,
    mimetypes: seq<string>,
    submittedAt: Option<Scalar>)

  datatype SdkCleanup = SdkCleanup(
    id: string,
    organizer: string,
    status: int,
    published: bool,
    rewardsDistributed: bool,
    proofOfWorkSubmitted: bool,
    date: Option<Scalar>,
    startTime: Option<Scalar>,
    endTime: Option<Scalar>,
    maxParticipants: Option<Scalar>,
    createdAt: Option<Scalar>,
    updatedAt: Option<Scalar>,
    publishedAt: Option<Scalar>,
    unpublishedAt: Option<Scalar>,
    proofOfWorkSubmittedAt: Option<Scalar>,
    rewardsDistributedAt: Option<Scalar>,
    participants: Option<seq<SdkParticipant>>,
    proofOfWork: Option<ProofOfWork>)

  datatype SdkCleanupUpdate = SdkCleanupUpdate(
    id: string,
    metadata: string,
    addedAt: Option<Scalar>,
    blockNumber: Option<Scalar>)

  datatype SdkStreakSubmission = SdkStreakSubmission(
    id: string,
    submissionId: string,
    user: string,
    status: int,
    metadata: Option<string>,
    amount: Option<string>,
    rewardAmount: Option<string>,
    submittedAt: Option<Scalar>,
    reviewedAt: Option<Scalar>,
    blockNumber: Option<Scalar>,
    ipfsHashes: seq<string>,
    mimetypes: seq<string>)

  // ---------------------------------------------------------------------------------------------
  // Admin records

  datatype User = User(
    id: string,
    isOrganizer: bool,
    emailVerified: bool,
    kycStatus: int,
    referrer: Option<string>,
    metadata: Option<string>,
    registeredAt: string,
    emailVerifiedAt: Option<string>,
    lastProfileUpdateAt: Option<string>)

  /** What a participant's `cleanup` field points at. The placeholder is the empty object
      `{}` used while the cleanup is being built; `Owner` is the transformed cleanup itself
      (a circular reference, recorded here by the cleanup's id). */
  datatype CleanupRef = Placeholder | Owner(cleanupId: string)

  datatype CleanupParticipant = CleanupParticipant(
    id: string,
    participant: string,
    status: string,
    rewardEarned: Option<string>,
    cleanup: CleanupRef,
    appliedAt: string,
    acceptedAt: Option<string>,
    rejectedAt: Option<string>,
    rewardEarnedAt: Option<string>)

  datatype ProofOfWorkMedia = ProofOfWorkMedia(
    id: string,
    url: string,
    mimeType: string,
    uploadedAt: string,
    submittedAt: string)

  /** A cleanup photo; its back link to the cleanup is not modelled. */
  datatype CleanupMedia = CleanupMedia(id: string, url: string, mimeType: string, createdAt: string)

  datatype Cleanup = Cleanup(
    id: string,
    organizer: string,
    status: int,
    published: bool,
    rewardsDistributed: bool,
    proofOfWorkSubmitted: bool,
    date: string,
    startTime: Option<string>,
    endTime: Option<string>,
    maxParticipants: Option<string>,
    createdAt: string,
    updatedAt: Option<string>,
    publishedAt: Option<string>,
    unpublishedAt: Option<string>,
    proofOfWorkSubmittedAt: Option<string>,
    rewardsDistributedAt: Option<string>,
    proofOfWorkMediaCount: Option<string>,
    participants: seq<CleanupParticipant>,
    medias: seq<CleanupMedia>,
    proofOfWorkMedia: seq<ProofOfWorkMedia>)

  datatype CleanupUpdate = CleanupUpdate(
    id: string,
    metadata: string,
    addedAt: string,
    blockNumber: string)

  datatype StreakSubmissionMedia = StreakSubmissionMedia(
    id: string,
    ipfsHash: string,
    mimeType: string,
    index: string)

  datatype StreakSubmission = StreakSubmission(
    id: string,
    submissionId: string,
    user: string,
    status: int,
    metadata: Option<string>,
    amount: Option<string>,
    rewardAmount: Option<string>,
    submittedAt: string,
    reviewedAt: Option<string>,
    blockNumber: string,
    media: seq<StreakSubmissionMedia>)

  // ---------------------------------------------------------------------------------------------
  // Query filters and pagination (absent optional properties are None)

  datatype StreakSubmissionFilters = StreakSubmissionFilters(
    status: Option<JsNumber>,
    user: Option<string>,
    startDate: Option<string>,
    endDate: Option<string>)

  datatype CleanupFilters = CleanupFilters(
    status: Option<JsNumber>,
    organizer: Option<string>,
    published: Option<bool>,
    startDate: Option<string>,
    endDate: Option<string>)

  datatype UserFilters = UserFilters(
    isOrganizer: Option<bool>,
    emailVerified: Option<bool>,
    kycStatus: Option<JsNumber>,
    referrer: Option<string>)

  datatype PaginationParams = PaginationParams(
    first: int,
    skip: int,
    orderBy: Option<string>,
    orderDirection: Option<string>)
}

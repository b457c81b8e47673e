/** The errors of the publishing services and their texts. The state machines carry the errors
    as values; the texts matter only where they are stored. */
module PublishingErrors {

  const MAX_CODE := 100
  const MAX_MESSAGE := 1000
  const MAX_EXTERNAL_ID := 255
  const MAX_EXTERNAL_URL := 2048
  const MAX_PROVIDER := 100
  const MAX_TITLE := 255

  /** The application errors of the services. FromProvider is one that the provider raised,
      ProviderCrashed stands for any other exception of its call. */
  datatype Refusal =
    | NotFound
    | NotPending
    | NotClaimed
    | WorkerNotQueued
    | WorkerNotClaimed
    | AssetMissing
    | AssetInvalid
    | UnsupportedProvider
    | FromProvider(code: string, message: string)
    | ProviderCrashed
    | InvalidResponse
    | Vanished
    | NotQueueable
    | QueueFailed
    | ScheduleWithoutZone
    | ScheduleInPast

  /** An application error, or any other exception. */
  datatype Problem = App(refusal: Refusal) | Other

  /** What error_code and error_message can hold, and what the coordinator reports. The last
      four have the codes PUBLISHING_WORKER_ERROR, AUTO_PUBLISHING_ERROR, FINAL_VIDEO_NOT_FOUND
      and INVALID_AUTO_PUBLISH_CONFIG. */
  datatype Cause = Because(refusal: Refusal) | WorkerError | AutomaticError | NoFinalVideo | InvalidConfig

  function RefusalCode(r: Refusal): string {
    match r
    case NotFound => "PUBLICATION_NOT_FOUND"
    case NotPending => "INVALID_PUBLICATION_STATE"
    case NotClaimed => "INVALID_PUBLICATION_STATE"
    case WorkerNotQueued => "INVALID_PUBLICATION_STATE"
    case WorkerNotClaimed => "INVALID_PUBLICATION_STATE"
    case AssetMissing => "ASSET_NOT_FOUND"
    case AssetInvalid => "ASSET_NOT_PUBLISHABLE"
    case UnsupportedProvider => "UNSUPPORTED_PUBLISHING_PROVIDER"
    case FromProvider(code, _) => code
    case ProviderCrashed => "PUBLISHING_PROVIDER_ERROR"
    case InvalidResponse => "INVALID_PROVIDER_RESPONSE"
    case Vanished => "PUBLICATION_NOT_FOUND"
    case NotQueueable => "INVALID_PUBLICATION_STATE"
    case QueueFailed => "PUBLISHING_QUEUE_ERROR"
    case ScheduleWithoutZone => "INVALID_SCHEDULE_TIMEZONE"
    case ScheduleInPast => "SCHEDULE_IN_PAST"
  }

  function RefusalMessage(r: Refusal): string {
    match r
    case NotFound => "Publication not found."
    case NotPending => "Only pending publications can be published."
    case NotClaimed => "The publication could not be claimed for publishing."
    case WorkerNotQueued => "Only queued publications can be executed by the worker."
    case WorkerNotClaimed => "The publication could not be claimed for execution."
    case AssetMissing => "The requested asset was not found."
    case AssetInvalid => "The asset is not a publishable video."
    case UnsupportedProvider => "The publishing provider is not supported."
    case FromProvider(_, message) => message
    case ProviderCrashed => "The publishing provider could not publish the asset."
    case InvalidResponse => "The publishing provider returned an invalid response."
    case Vanished => "Publication not found."
    case NotQueueable => "Only pending publications can be queued."
    case QueueFailed => "The publication could not be queued."
    case ScheduleWithoutZone => "scheduled_at must include a timezone offset."
    case ScheduleInPast => "scheduled_at must be in the future."
  }

  /** PublicationUpdate rejects longer texts. Only the provider's own can be longer. */
  predicate FailureFits(r: Refusal) {
    r.FromProvider? ==> |r.code| <= MAX_CODE && |r.message| <= MAX_MESSAGE
  }

  predicate SuccessFits(id: string, url: string) {
    |id| <= MAX_EXTERNAL_ID && |url| <= MAX_EXTERNAL_URL
  }

  lemma CodesFit(r: Refusal)
    ensures !r.FromProvider? ==> |RefusalCode(r)| <= MAX_CODE
  {
  }

  lemma MessagesFit(r: Refusal)
    ensures !r.FromProvider? ==> |RefusalMessage(r)| <= MAX_MESSAGE
  {
  }

  /** FailureFits is the length check of the update. */
  lemma FailureFitsIsLength(r: Refusal)
    ensures FailureFits(r) <==> |RefusalCode(r)| <= MAX_CODE && |RefusalMessage(r)| <= MAX_MESSAGE
  {
    CodesFit(r);
    MessagesFit(r);
  }
}

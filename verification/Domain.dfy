/** The entities of internal/domain: webhooks, lifecycle states and status-code classification.
    Times and durations are integers in nanoseconds unless a name says otherwise. */
module Domain {
  datatype Option<+T> = None | Some(value: T)

  type WebhookId = string

  /** The fields of a webhook that describe the HTTP call; no retry changes them. */
  datatype Request = Request(
    configId: string,
    endpoint: string,
    endpointHash: string,
    payload: string,
    headers: map<string, string>,
    idempotencyKey: string,
    signingSecret: string,
    scriptHash: string,
    deliveryQueryParams: map<string, string>,
    deliveryHeaders: map<string, string>,
    retryOnStatus: seq<int>
  )

  datatype Webhook = Webhook(
    id: WebhookId,
    request: Request,
    attempt: int,
    maxAttempts: int,
    createdAt: int,
    scheduledAt: int
  )

  /** `a` and `b` are the same webhook up to the retry bookkeeping. */
  predicate SameWebhook(a: Webhook, b: Webhook) {
    a.id == b.id && a.request == b.request && a.maxAttempts == b.maxAttempts && a.createdAt == b.createdAt
  }

  datatype WebhookState = StatePending | StateDelivering | StateDelivered | StateFailed | StateExhausted

  datatype CircuitState = Closed | Open | HalfOpen

  predicate IsSuccess(statusCode: int) {
    200 <= statusCode < 300
  }

  predicate IsRetryable(statusCode: int) {
    statusCode >= 500 || statusCode == 408 || statusCode == 429
  }

  /** `Strategy.ShouldRetry`: the attempt budget first, then network errors, then the status code. */
  predicate ShouldRetry(webhook: Webhook, statusCode: int, networkError: bool) {
    webhook.attempt < webhook.maxAttempts
    && (networkError || statusCode in webhook.request.retryOnStatus || IsRetryable(statusCode))
  }

  /** The record published to the compacted state topic for a retryable failure. */
  datatype Snapshot = Snapshot(
    webhookId: WebhookId,
    configId: string,
    endpoint: string,
    endpointHash: string,
    payload: string,
    headers: map<string, string>,
    idempotencyKey: string,
    signingSecret: string,
    scriptHash: string,
    deliveryQueryParams: map<string, string>,
    deliveryHeaders: map<string, string>,
    retryOnStatus: seq<int>,
    state: WebhookState,
    attempt: int,
    maxAttempts: int,
    createdAt: int,
    nextRetryAt: Option<int>
  )

  /** A keyed record of the state topic. */
  datatype StateRecord =
    | Tombstone(key: WebhookId)
    | Snap(key: WebhookId, snapshot: Snapshot)

  /** A retry reference: one attempt of one webhook. */
  datatype Ref = Ref(id: WebhookId, attempt: int)

  function RefOf(w: Webhook): Ref {
    Ref(w.id, w.attempt)
  }

  const SECOND := 1_000_000_000

  /** `Time.Unix`: whole seconds, rounded down. */
  function Unix(t: int): int {
    t / SECOND
  }
}

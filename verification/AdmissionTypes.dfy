/** Values shared by the Redis script, the durable ledger and the purchase protocol.
    Identifiers (UUIDs, tokens, keys) are only ever compared, so each is an integer here. */
module AdmissionTypes {
  datatype Option<+T> = None | Some(value: T)

  type UserId = int
  type AdmissionId = int
  type JoinId = int
  type Token = int
  type Epoch = int
  type ResourceId = int
  type CheckoutKey = int

  datatype Operation = ReservationOp | DirectCheckoutOp

  /** The canonical array of a purchase request, element by element. */
  datatype Fingerprint = Fingerprint(
    user: UserId, event: int, epoch: Epoch, operation: Operation, tier: int, quantity: int,
    key: Option<CheckoutKey>)

  /** Refusal codes of the script; each has one HTTP status. */
  datatype Code =
    | Recovering | Reset | Unavailable
    | RateLimited | QueueFull
    | RequestMismatch | ActiveExists | NotReady | InProgress | AlreadyConsumed
    | NotFound
    | AdmissionExpired | AdmissionCancelled
    | Business(number: int)

  datatype OutcomeKind = Bought(operation: Operation) | Rejected
  datatype Outcome = Outcome(kind: OutcomeKind, resource: Option<ResourceId>, code: Option<Code>)

  /** Where the control record of an event stands. */
  datatype Mode = Initializing | Ready | Frozen

  datatype EntryState = Waiting | Admitted | Consumed | Cancelled | Expired
  datatype Phase = Idle | Processing | Reconciling

  datatype Entry = Entry(
    id: AdmissionId,
    user: UserId,
    epoch: Epoch,
    sequence: int,
    state: EntryState,
    phase: Phase,
    joinedAt: int,
    admittedAt: Option<int>,
    expiresAt: Option<int>,
    reason: Option<Code>,
    outcome: Option<Outcome>,
    fingerprint: Option<Fingerprint>,
    claimToken: Option<Token>,
    deadline: Option<int>)

  /** The limits of one admission profile. */
  datatype Profile = Profile(
    rate: int, capacity: int, ttlMs: int, claimMs: int, batch: int, cleanup: nat, reclaim: nat,
    leaseMs: int, maxWaiting: int, maxEntries: int, epochMs: int)
  {
    ghost predicate Valid() {
      && 0 <= rate && 0 <= capacity
      && 0 < ttlMs && 0 < claimMs && 0 < leaseMs
      && 0 <= maxWaiting && 0 <= maxEntries <= MAX_SEQUENCE
    }
  }

  const MAX_SEQUENCE := 9007199254740990
}

/** The worker's permit bookkeeping and its decisions that the primary's books depend on. */
module WorkerRules {
  import opened Handshake
  import opened RequestIds

  // ----- permits

  /** Which request ids wait for a grant, and how many ids have been issued. */
  datatype Permits = Permits(pending: set<int>, issued: nat)

  datatype PermitEvent =
    | Ask(channel: Channel)   // a permit request after the handshake
    | Forget(id: int)         // its timer fires, its ACQUIRE is reported as not sent, or its grant arrives

  /** The id that the next permit request will carry. */
  function UpcomingId(l: Permits): int {
    NthId(MIN_SMI, l.issued + 1)
  }

  function PermitStep(l: Permits, e: PermitEvent): Permits {
    match e
    case Ask(channel) => Permits(if channel.Closed? then l.pending else l.pending + {UpcomingId(l)}, l.issued + 1)
    case Forget(id) => l.(pending := l.pending - {id})
  }

  /** What a hot message makes the worker do. */
  datatype Reaction = Ignore | RunCaller | ReleaseOrphan

  /** A grant runs the caller that still waits for it; in semaphore mode one that nobody waits for any
      more is given back. */
  function OnGrant(mode: Mode, waiting: bool): Reaction {
    if waiting then RunCaller else if mode == Semaphore then ReleaseOrphan else Ignore
  }

  // ----- releases

  /** What the outcome of a release attempt leads to. */
  datatype ReleaseStep = InTransit | RetryAfter50ms(attempt: nat) | ReportFailure

  /** A release attempt either leaves, or is reported at once when the channel is closed or throws. */
  function OnReleaseSend(channel: Channel): ReleaseStep {
    if channel.Accepts? then InTransit else ReportFailure
  }

  /** A release attempt reported as not sent is repeated, attempts being numbered from 0 to 4. */
  function OnReleaseError(attempt: nat): ReleaseStep {
    if attempt > 3 then ReportFailure else RetryAfter50ms(attempt + 1)
  }

  /** How one attempt ends: refused on the spot, accepted but reported as not sent, or received. */
  datatype Ending = Refused | Errored | Received

  function ChannelFor(ending: Ending, refusal: Channel): Channel {
    if ending == Refused then refusal else Accepts
  }

  /** How a whole release ends, and after how many attempts. */
  datatype Fate = Fate(received: bool, attempts: nat)

  /** Follows a release from attempt `k` on, by the two rules above. */
  function Follow(endings: nat -> Ending, refusal: Channel, k: nat): Fate
    requires k <= 4 && !refusal.Accepts?
    decreases 4 - k
  {
    match OnReleaseSend(ChannelFor(endings(k), refusal))
    case InTransit =>
      if endings(k) == Received then Fate(true, k + 1)
      else (match OnReleaseError(k)
            case RetryAfter50ms(next) => Follow(endings, refusal, next)
            case _ => Fate(false, k + 1))
    case _ => Fate(false, k + 1)
  }

  /** Attempt `k` is the first that does not end in an error callback. */
  ghost predicate Decisive(endings: nat -> Ending, k: nat) {
    endings(k) != Errored && forall j: nat :: j < k ==> endings(j) == Errored
  }

  lemma {:induction false} FollowDecides(endings: nat -> Ending, refusal: Channel, k: nat)
    requires k <= 4 && !refusal.Accepts? && forall j: nat :: j < k ==> endings(j) == Errored
    ensures var fate := Follow(endings, refusal, k);
      && k < fate.attempts <= 5
      && (fate.attempts < 5 ==> Decisive(endings, fate.attempts - 1))
      && (fate.received <==> endings(fate.attempts - 1) == Received)
      && (forall j: nat :: j < fate.attempts - 1 ==> endings(j) == Errored)
    decreases 4 - k
  {
    if endings(k) == Errored && k < 4 {
      FollowDecides(endings, refusal, k + 1);
    }
  }

  /** A release is given up as lost exactly when one of its first five attempts is refused after error
      callbacks only, or all five end in error callbacks; otherwise the primary receives it, at the first
      attempt that does not err. It is never attempted a sixth time. */
  lemma ReleaseFate(endings: nat -> Ending, refusal: Channel)
    requires !refusal.Accepts?
    ensures var fate := Follow(endings, refusal, 0);
      && 1 <= fate.attempts <= 5
      && (fate.received <==> exists k: nat :: k < 5 && Decisive(endings, k) && endings(k) == Received)
      && (!fate.received <==>
            (exists k: nat :: k < 5 && Decisive(endings, k) && endings(k) == Refused)
            || forall k: nat :: k < 5 ==> endings(k) == Errored)
  {
    var fate := Follow(endings, refusal, 0);
    FollowDecides(endings, refusal, 0);
    var last := fate.attempts - 1;
    if endings(last) != Errored {
      assert Decisive(endings, last);
      forall k: nat | k < 5 && Decisive(endings, k) ensures k == last {
      }
    } else {
      forall k: nat | k < 5 ensures !Decisive(endings, k) {
      }
    }
  }
}

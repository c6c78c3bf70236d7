/** The worker's boot handshake as a state machine over the promises it hands out. */
module Handshake {
  import opened Common

  datatype Mode = Semaphore | Duration

  datatype Reason = NoChannel | SendThrew | SendFailed | AckTimeout | ModeMismatch

  datatype Verdict = Pending | Resolved | Rejected(reason: Reason)

  datatype State = State(
    mode: Mode,
    promises: seq<Verdict>,    // every acknowledgement promise ever created, in order
    current: nat,              // the one `#primaryAcknowledgementPromise` refers to
    trackers: Option<nat>,     // the one `#primaryAcknowledgementTrackers` settles
    completed: bool,           // `#didCompletePrimaryHandshake`
    acknowledged: bool,        // `#didAcknowledgePrimaryMatch`
    number: int,               // `#apiUniqueNumber`, 0 until assigned
    timers: set<nat>,          // promises whose 2000 ms timer is armed
    callbacks: set<nat>,       // promises whose send callback is outstanding
    reply: Option<(Mode, int)>,// history: the first well-formed reply
    acquires: seq<int>         // history: the number carried by each ACQUIRE sent
  )

  /** What `process.send` does with the handshake request. */
  datatype Channel = Closed | Throws | Accepts

  datatype Event =
    | Acknowledge(channel: Channel)        // the constructor's or ready()'s call of `#acknowledgePrimary`
    | CallbackOk(promise: nat)
    | CallbackError(promise: nat)
    | TimerFires(promise: nat)
    | Reply(mode: Mode, number: int)       // solicited or proactive
    | Acquire(awaited: nat, channel: Channel)  // a permit request, after awaiting that promise if it had to

  function Settle(promises: seq<Verdict>, p: nat, v: Verdict): seq<Verdict> {
    if p < |promises| && promises[p] == Pending then promises[p := v] else promises
  }

  function Started(s: State, channel: Channel): State {
    var p := |s.promises|;
    match channel
    case Closed => s.(promises := s.promises + [Rejected(NoChannel)], current := p)
    case Throws => s.(promises := s.promises + [Rejected(SendThrew)], current := p,
                      trackers := Some(p), timers := s.timers + {p})
    case Accepts => s.(promises := s.promises + [Pending], current := p,
                       trackers := Some(p), timers := s.timers + {p}, callbacks := s.callbacks + {p})
  }

  /** The constructor: everything at its default, and the first handshake under way. */
  function Init(mode: Mode, channel: Channel): State {
    Started(State(mode, [], 0, None, false, false, 0, {}, {}, None, []), channel)
  }

  predicate Enabled(s: State, e: Event) {
    match e
    case Acknowledge(_) => true
    case CallbackOk(p) => p in s.callbacks
    case CallbackError(p) => p in s.callbacks
    case TimerFires(p) => p in s.timers
    case Reply(_, _) => true
    case Acquire(p, _) => s.acknowledged || (p < |s.promises| && s.promises[p] == Resolved)
  }

  function Receive(s: State, mode: Mode, number: int): State {
    if s.completed then s
    else
      var verdict := if mode == s.mode then Resolved else Rejected(ModeMismatch);
      var s1 := s.(completed := true, reply := Some((mode, number)),
                   number := if mode == s.mode then number else s.number);
      match s.trackers
      case None => s1.(promises := s.promises + [verdict], current := |s.promises|)
      case Some(p) => s1.(promises := Settle(s.promises, p, verdict), timers := s.timers - {p})
  }

  function Step(s: State, e: Event): State {
    match e
    case Acknowledge(channel) => if s.completed || s.trackers.Some? then s else Started(s, channel)
    case CallbackOk(p) => s.(callbacks := s.callbacks - {p})
    case CallbackError(p) =>
      s.(callbacks := s.callbacks - {p}, trackers := None, timers := s.timers - {p},
         promises := Settle(s.promises, p, Rejected(SendFailed)))
    case TimerFires(p) =>
      s.(timers := s.timers - {p}, trackers := None, promises := Settle(s.promises, p, Rejected(AckTimeout)))
    case Reply(mode, number) => Receive(s, mode, number)
    case Acquire(_, channel) =>
      s.(acknowledged := true, acquires := if channel.Accepts? then s.acquires + [s.number] else s.acquires)
  }

  ghost predicate Reaches(s: State, events: seq<Event>, t: State)
    decreases |events|
  {
    if events == [] then s == t
    else Enabled(s, events[0]) && Reaches(Step(s, events[0]), events[1..], t)
  }

  predicate Matched(s: State) {
    s.reply.Some? && s.reply.value.0 == s.mode
  }

  /** How promise `p` stands; one that was never created has not settled. */
  function VerdictOf(s: State, p: nat): Verdict {
    if p < |s.promises| then s.promises[p] else Pending
  }

  /** Verdicts: only a matching reply resolves a promise, one that has not settled has its timer armed, and
      one that is tracked though settled is one whose request threw. */
  ghost predicate PromisesOk(s: State)
    requires s.current < |s.promises|
  {
    && (forall p :: 0 <= p < |s.promises| && s.promises[p] == Resolved ==> Matched(s))
    && (forall p :: 0 <= p < |s.promises| && s.promises[p] == Pending ==> p in s.timers)
    && (s.trackers.Some? && !s.completed && s.promises[s.current] != Pending ==>
          s.promises[s.current] == Rejected(SendThrew))
    && (s.completed ==> s.promises[s.current] != Pending)
  }

  ghost predicate AcquiresOk(s: State) {
    && (s.acknowledged ==> Matched(s))
    && (s.acquires != [] ==> s.acknowledged)
    && (forall i :: 0 <= i < |s.acquires| ==> s.acquires[i] == s.number)
  }

  ghost predicate Inv(s: State) {
    && s.current < |s.promises|
    && (s.completed <==> s.reply.Some?)
    && s.number == (if Matched(s) then s.reply.value.1 else 0)
    && (s.trackers.Some? ==> s.trackers.value == s.current)
    && PromisesOk(s) && AcquiresOk(s)
  }

  /** The handshake's outcome, as later callers of `ready()` and `run()` see it. */
  ghost predicate SameVerdict(s: State, t: State) {
    && t.completed && t.reply == s.reply && t.number == s.number
    && t.current == s.current && VerdictOf(t, t.current) == VerdictOf(s, s.current)
  }

  lemma PromisesKept(s: State, e: Event)
    requires Inv(s) && Enabled(s, e)
    ensures Step(s, e).current < |Step(s, e).promises| && PromisesOk(Step(s, e))
  {
    hide AcquiresOk;
    match e
    case Acknowledge(_) =>
    case CallbackOk(_) =>
    case CallbackError(_) =>
    case TimerFires(_) =>
    case Reply(_, _) =>
    case Acquire(_, _) =>
  }

  lemma StepKeeps(s: State, e: Event)
    requires Inv(s) && Enabled(s, e)
    ensures Inv(Step(s, e))
    ensures s.completed ==> SameVerdict(s, Step(s, e))
  {
    PromisesKept(s, e);
    match e
    case Acknowledge(_) =>
    case CallbackOk(_) =>
    case CallbackError(_) =>
    case TimerFires(_) =>
    case Reply(_, _) =>
    case Acquire(_, _) =>
  }

  /** A permit request that gets past the handshake knows the primary's number. */
  lemma AcquireKnowsNumber(s: State, awaited: nat, channel: Channel)
    requires Inv(s) && Enabled(s, Acquire(awaited, channel))
    ensures var t := Step(s, Acquire(awaited, channel));
      && Inv(t) && Matched(t) && t.reply == s.reply && s.number == s.reply.value.1
      && t == s.(acknowledged := true, acquires := if channel.Accepts? then s.acquires + [s.number] else s.acquires)
  {
    StepKeeps(s, Acquire(awaited, channel));
  }

  lemma {:induction false} RunKeeps(s: State, events: seq<Event>, t: State)
    requires Inv(s) && Reaches(s, events, t)
    ensures Inv(t)
    ensures s.completed ==> SameVerdict(s, t)
    decreases |events|
  {
    if events != [] {
      StepKeeps(s, events[0]);
      RunKeeps(Step(s, events[0]), events[1..], t);
    }
  }

  ghost predicate Reachable(s: State) {
    exists mode, channel, events :: Reaches(Init(mode, channel), events, s)
  }

  lemma ReachableInv(s: State)
    requires Reachable(s)
    ensures Inv(s)
  {
    var mode, channel, events :| Reaches(Init(mode, channel), events, s);
    RunKeeps(Init(mode, channel), events, s);
  }

  /** Once completed, the verdict is settled and never changes, whatever arrives or fires later. */
  lemma VerdictIsStable(s: State, events: seq<Event>, t: State)
    requires Reachable(s) && s.completed && Reaches(s, events, t)
    ensures VerdictOf(s, s.current) != Pending && SameVerdict(s, t)
  {
    ReachableInv(s);
    RunKeeps(s, events, t);
  }

  /** Every ACQUIRE is sent after the modes matched, and carries the number of the primary's reply; the
      placeholder 0 is never sent as long as the primary does not assign it. */
  lemma AcquiresAreMatched(s: State, i: nat)
    requires Reachable(s) && i < |s.acquires|
    ensures s.reply.Some? && s.reply.value.0 == s.mode && s.acquires[i] == s.reply.value.1
  {
    ReachableInv(s);
  }

  /** What the first reply makes of the current promise: it ends up resolved exactly when the modes match
      and the promise is not one whose request threw and which is still tracked. */
  lemma ReplyVerdict(s: State, mode: Mode, number: int)
    requires Reachable(s) && !s.completed
    ensures var t := Step(s, Reply(mode, number));
      VerdictOf(t, t.current) == Resolved <==>
        mode == s.mode && !(s.trackers.Some? && VerdictOf(s, s.current) == Rejected(SendThrew))
  {
    ReachableInv(s);
  }

  /** Whoever still awaits a promise, the current one or an earlier one, is answered by the reply exactly
      when the trackers refer to that promise; and otherwise its timer is still armed to answer it. */
  lemma WaiterServedExactly(s: State, mode: Mode, number: int, p: nat)
    requires Reachable(s) && !s.completed && p < |s.promises| && s.promises[p] == Pending
    ensures var t := Step(s, Reply(mode, number));
      && (VerdictOf(t, p) != Pending <==> s.trackers == Some(p))
      && (VerdictOf(t, p) == Pending ==> Enabled(t, TimerFires(p)))
  {
    ReachableInv(s);
  }

  /** Nobody waits for ever: in every reachable state each promise that has not settled has a timer that
      can still fire, and firing rejects it. */
  lemma EveryWaiterHasATimer(s: State, p: nat)
    requires Reachable(s) && p < |s.promises| && s.promises[p] == Pending
    ensures Enabled(s, TimerFires(p)) && VerdictOf(Step(s, TimerFires(p)), p) == Rejected(AckTimeout)
  {
    ReachableInv(s);
  }

  // ----- what succeeds

  /** The first attempt is still under way: nothing has been received, and its promise is tracked. */
  ghost predicate Booting(s: State) {
    && !s.completed && !s.acknowledged && s.number == 0
    && s.promises == [Pending] && s.current == 0 && s.trackers == Some(0)
  }

  /** Events that neither answer the handshake nor fail it. */
  predicate Harmless(e: Event) {
    !e.Reply? && !e.TimerFires? && !e.CallbackError?
  }

  lemma {:induction false} BootGoesOn(s: State, events: seq<Event>, t: State)
    requires Booting(s) && Reaches(s, events, t) && forall e :: e in events ==> Harmless(e)
    ensures Booting(t) && t.mode == s.mode
    decreases |events|
  {
    if events != [] {
      assert events[0] in events;
      assert Booting(Step(s, events[0]));
      BootGoesOn(Step(s, events[0]), events[1..], t);
    }
  }

  /** An ordinary boot: as long as the first request has neither timed out nor been reported as not sent, a
      first reply in the worker's mode resolves the constructor's promise and installs the number, and one in
      the other mode rejects it for that reason and installs nothing. */
  lemma BootSucceeds(mode: Mode, events: seq<Event>, s: State, theirs: Mode, number: int)
    requires Reaches(Init(mode, Accepts), events, s) && forall e :: e in events ==> Harmless(e)
    ensures var t := Step(s, Reply(theirs, number));
      && t.completed && t.current == 0 && t.timers == s.timers - {0}
      && VerdictOf(t, 0) == (if theirs == mode then Resolved else Rejected(ModeMismatch))
      && t.number == (if theirs == mode then number else 0)
  {
    BootGoesOn(Init(mode, Accepts), events, s);
  }

  /** A failed attempt leaves the way free for another: its promise is rejected for the reason it failed and
      nothing is tracked any more. */
  lemma FailureAllowsRetry(s: State, p: nat)
    requires Reachable(s) && p < |s.promises| && s.promises[p] == Pending
    ensures var t := Step(s, TimerFires(p)); t.trackers == None && t.promises[p] == Rejected(AckTimeout)
    ensures p in s.callbacks ==>
      var t := Step(s, CallbackError(p)); t.trackers == None && t.promises[p] == Rejected(SendFailed)
  {
  }

  /** An attempt is started only if none is tracked and no reply has come; it makes a promise of its own the
      current one, and a reply in the worker's mode then resolves that promise and installs the number. */
  lemma RetryCanSucceed(s: State, number: int)
    requires Reachable(s)
    ensures s.completed || s.trackers.Some? ==> Step(s, Acknowledge(Accepts)) == s
    ensures !s.completed && s.trackers.None? ==>
      var t := Step(s, Acknowledge(Accepts));
      var u := Step(t, Reply(s.mode, number));
      && t.current == |s.promises| && t.promises == s.promises + [Pending] && t.current in t.timers
      && u.current == t.current && VerdictOf(u, u.current) == Resolved && u.number == number
  {
  }

  /** An attempt without a channel, or whose request throws, is rejected at once for that reason; only the
      latter stays tracked, until its timer fires. */
  lemma AttemptCanFailAtOnce(s: State)
    requires Reachable(s) && !s.completed && s.trackers.None?
    ensures var t := Step(s, Acknowledge(Closed));
      t.current == |s.promises| && VerdictOf(t, t.current) == Rejected(NoChannel) && t.trackers == None
    ensures var t := Step(s, Acknowledge(Throws));
      && t.current == |s.promises| && VerdictOf(t, t.current) == Rejected(SendThrew)
      && t.trackers == Some(t.current) && t.current in t.timers
      && Step(t, TimerFires(t.current)).trackers == None
  {
  }

  /** The trackers can be lost under a waiting caller: the send error of an earlier attempt arrives after
      a retry has begun, and the retry's caller is rejected although the handshake has succeeded. */
  lemma LateErrorOrphansRetry(mode: Mode, number: int) returns (s: State)
    ensures Reachable(s)
    ensures s.completed && Matched(s) && VerdictOf(s, s.current) == Resolved
    ensures VerdictOf(s, 1) == Rejected(AckTimeout)
  {
    var s0 := Init(mode, Accepts);
    var e1, e2, e3, e4, e5 :=
      TimerFires(0), Acknowledge(Accepts), CallbackError(0), Reply(mode, number), TimerFires(1);
    var s1 := Step(s0, e1);
    var s2 := Step(s1, e2);
    var s3 := Step(s2, e3);
    var s4 := Step(s3, e4);
    s := Step(s4, e5);
    assert Reaches(s, [], s);
    assert [e5][1..] == [] && Reaches(s4, [e5], s);
    assert [e4, e5][1..] == [e5] && Reaches(s3, [e4, e5], s);
    assert [e3, e4, e5][1..] == [e4, e5] && Reaches(s2, [e3, e4, e5], s);
    assert [e2, e3, e4, e5][1..] == [e3, e4, e5] && Reaches(s1, [e2, e3, e4, e5], s);
    assert [e1, e2, e3, e4, e5][1..] == [e2, e3, e4, e5] && Reaches(s0, [e1, e2, e3, e4, e5], s);
  }

  /** When the very first request throws but is still tracked, a matching reply completes the handshake
      and yet the promise stays rejected: from then on no caller of `ready()` gets through. */
  lemma ThrownRequestStaysRejected(mode: Mode, number: int, events: seq<Event>, t: State)
    requires Reaches(Step(Init(mode, Throws), Reply(mode, number)), events, t)
    ensures t.completed && Matched(t) && VerdictOf(t, t.current) == Rejected(SendThrew)
  {
    var s := Step(Init(mode, Throws), Reply(mode, number));
    StepKeeps(Init(mode, Throws), Reply(mode, number));
    RunKeeps(s, events, t);
    assert s.mode == mode;
    ModeIsFixed(s, events, t);
  }

  lemma {:induction false} ModeIsFixed(s: State, events: seq<Event>, t: State)
    requires Reaches(s, events, t)
    ensures t.mode == s.mode
    decreases |events|
  {
    if events != [] {
      ModeIsFixed(Step(s, events[0]), events[1..], t);
    }
  }
}

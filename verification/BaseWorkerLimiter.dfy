/** The worker-side limiter: boot handshake, request ids, pending permits and permit releases. */
module BaseWorkerLimiters {
  import opened Common
  import opened Environment
  import opened RequestIds
  import opened WorkerRules
  import H = Handshake

  /** A hot-path message without its constant signature. */
  datatype Message = Message(destination: int, opcode: Opcode, payload: int)

  class BaseWorkerLimiter {
    const mode: H.Mode
    var apiUniqueNumber: int
    var pendingRequests: set<int>
    var requestId: int
    var didCompletePrimaryHandshake: bool
    var didAcknowledgePrimaryMatch: bool
    var primaryAcknowledgementPromise: nat
    var primaryAcknowledgementTrackers: Option<nat>
    var promises: seq<H.Verdict>   // the promise objects handed out, named by their place here
    ghost var timers: set<nat>
    ghost var callbacks: set<nat>
    ghost var reply: Option<(H.Mode, int)>
    ghost var acquires: seq<int>
    ghost var issued: nat

    /** The state of the handshake model this object represents. */
    ghost function Abs(): H.State
      reads this
    {
      H.State(mode, promises, primaryAcknowledgementPromise, primaryAcknowledgementTrackers,
              didCompletePrimaryHandshake, didAcknowledgePrimaryMatch, apiUniqueNumber,
              timers, callbacks, reply, acquires)
    }

    /** What the protocol between primary and workers sees of this object. */
    ghost function Books(): Permits
      reads this
    {
      Permits(pendingRequests, issued)
    }

    ghost predicate Valid()
      reads this
    {
      && H.Inv(Abs())
      && requestId == NthId(MIN_SMI, issued)
      && (forall id :: id in pendingRequests ==> IsSmi(id))
    }

    constructor (mode: H.Mode, channel: H.Channel)
      ensures Valid() && Abs() == H.Init(mode, channel) && Books() == Permits({}, 0)
    {
      this.mode := mode;
      apiUniqueNumber, pendingRequests, requestId := 0, {}, MIN_SMI;
      didCompletePrimaryHandshake, didAcknowledgePrimaryMatch := false, false;
      primaryAcknowledgementPromise, primaryAcknowledgementTrackers := 0, None;
      promises, timers, callbacks, reply, acquires, issued := [], {}, {}, None, [], 0;
      new;
      var promise := AcknowledgePrimary(channel);
    }

    /** Returns the promise to await: the current one, or a new one when no attempt is under way. */
    method AcknowledgePrimary(channel: H.Channel) returns (promise: nat)
      modifies this
      ensures Abs() == H.Step(old(Abs()), H.Acknowledge(channel)) && promise == primaryAcknowledgementPromise
      ensures Books() == old(Books()) && requestId == old(requestId)
    {
      if didCompletePrimaryHandshake || primaryAcknowledgementTrackers.Some? {
        return primaryAcknowledgementPromise;
      }
      var attempt := |promises|;
      primaryAcknowledgementPromise := attempt;
      promises := promises + [if channel.Accepts? then H.Pending
                              else if channel.Throws? then H.Rejected(H.SendThrew) else H.Rejected(H.NoChannel)];
      if !channel.Closed? {
        timers := timers + {attempt};
        primaryAcknowledgementTrackers := Some(attempt);
        if channel.Accepts? {
          callbacks := callbacks + {attempt};
        }
      }
      return attempt;
    }

    /** Settling a promise that is already settled does nothing. */
    method SettlePromise(p: nat, verdict: H.Verdict)
      modifies this`promises
      ensures promises == H.Settle(old(promises), p, verdict)
    {
      if p < |promises| && promises[p] == H.Pending {
        promises := promises[p := verdict];
      }
    }

    /** `process.send` calls back for the handshake request of promise `p`. */
    method AcknowledgeCallback(p: nat, err: bool)
      requires Valid() && p in callbacks
      modifies this
      ensures Valid() && Abs() == H.Step(old(Abs()), if err then H.CallbackError(p) else H.CallbackOk(p))
      ensures Books() == old(Books()) && requestId == old(requestId)
    {
      H.StepKeeps(Abs(), if err then H.CallbackError(p) else H.CallbackOk(p));
      callbacks := callbacks - {p};
      if err {
        primaryAcknowledgementTrackers := None;
        timers := timers - {p};
        SettlePromise(p, H.Rejected(H.SendFailed));
      }
    }

    /** The 2000 ms timer of promise `p` fires. */
    method AcknowledgeTimeout(p: nat)
      requires Valid() && p in timers
      modifies this
      ensures Valid() && Abs() == H.Step(old(Abs()), H.TimerFires(p))
      ensures Books() == old(Books()) && requestId == old(requestId)
    {
      H.StepKeeps(Abs(), H.TimerFires(p));
      timers := timers - {p};
      primaryAcknowledgementTrackers := None;
      SettlePromise(p, H.Rejected(H.AckTimeout));
    }

    /** Settles the tracked promise, or makes a settled one the current promise when none is tracked. */
    method SettleHandshake(verdict: H.Verdict)
      modifies this`promises, this`primaryAcknowledgementPromise, this`timers
      ensures match primaryAcknowledgementTrackers
              case None =>
                && promises == old(promises) + [verdict] && timers == old(timers)
                && primaryAcknowledgementPromise == |old(promises)|
              case Some(p) =>
                && promises == H.Settle(old(promises), p, verdict) && timers == old(timers) - {p}
                && primaryAcknowledgementPromise == old(primaryAcknowledgementPromise)
    {
      if primaryAcknowledgementTrackers.None? {
        primaryAcknowledgementPromise := |promises|;
        promises := promises + [verdict];
      } else {
        timers := timers - {primaryAcknowledgementTrackers.value};
        SettlePromise(primaryAcknowledgementTrackers.value, verdict);
      }
    }

    /** A boot configuration arrives; `registered` is the number it adds to the hot-path routing map. */
    method HandleColdMessage(primaryMode: H.Mode, number: int) returns (registered: Option<int>)
      requires Valid()
      modifies this
      ensures Valid() && Abs() == H.Step(old(Abs()), H.Reply(primaryMode, number))
      ensures registered == if !old(didCompletePrimaryHandshake) && primaryMode == mode then Some(number) else None
      ensures Books() == old(Books()) && requestId == old(requestId)
    {
      hide H.Inv, H.Settle;
      H.StepKeeps(Abs(), H.Reply(primaryMode, number));
      registered := None;
      if didCompletePrimaryHandshake {
        return;
      }
      didCompletePrimaryHandshake := true;
      reply := Some((primaryMode, number));
      if primaryMode == mode {
        registered := Some(number);
        apiUniqueNumber := number;
      }
      SettleHandshake(if primaryMode == mode then H.Resolved else H.Rejected(H.ModeMismatch));
    }

    /** A permit request, continued after the promise it awaited (if it had to) resolved. It uses up the
        next request id and, if the channel takes it, sends that id to the number the primary assigned. */
    method AcquirePermit(awaited: nat, channel: H.Channel) returns (sent: Option<Message>)
      requires Valid() && H.Enabled(Abs(), H.Acquire(awaited, channel))
      modifies this
      ensures Valid() && Abs() == H.Step(old(Abs()), H.Acquire(awaited, channel))
      ensures H.Matched(Abs()) && Books() == PermitStep(old(Books()), Ask(channel))
      ensures sent == if channel.Accepts? then Some(Message(Abs().reply.value.1, ACQUIRE, UpcomingId(old(Books()))))
                      else None
    {
      hide NthId, H.Inv, H.Step, H.Enabled, H.Matched;
      H.AcquireKnowsNumber(Abs(), awaited, channel);
      IdsFitTheQueue(MIN_SMI, issued + 1);
      NthIdNext(MIN_SMI, issued);
      didAcknowledgePrimaryMatch := true;
      if requestId == MAX_SMI {
        requestId := MIN_SMI;
      } else {
        requestId := requestId + 1;
      }
      issued := issued + 1;
      if channel.Closed? {
        return None;
      }
      pendingRequests := pendingRequests + {requestId};
      if channel.Throws? {
        return None;
      }
      acquires := acquires + [apiUniqueNumber];
      return Some(Message(apiUniqueNumber, ACQUIRE, requestId));
    }

    /** The permit timer of a request fires, or its ACQUIRE is reported as not sent. */
    method AbandonPermit(id: int) returns (rejected: bool)
      requires Valid()
      modifies this`pendingRequests
      ensures Valid() && Abs() == old(Abs())
      ensures rejected <==> id in old(pendingRequests)
      ensures pendingRequests == old(pendingRequests) - {id}
      ensures Books() == PermitStep(old(Books()), Forget(id))
    {
      rejected := id in pendingRequests;
      pendingRequests := pendingRequests - {id};
    }

    /** A grant runs the request that waits for it, in either mode, and only that one; in semaphore mode a
        grant that nobody waits for is given back by a release. */
    method HandleHotMessage(message: Message, channel: H.Channel) returns (reaction: Reaction, sent: Option<Message>)
      requires Valid()
      modifies this`pendingRequests
      ensures Valid() && Abs() == old(Abs())
      ensures var awaited := message.payload in old(pendingRequests);
        && (reaction == RunCaller <==> message.opcode == GRANT && awaited)
        && (reaction == ReleaseOrphan <==> message.opcode == GRANT && !awaited && mode == H.Semaphore)
        && (message.opcode == GRANT ==> reaction == OnGrant(mode, awaited))
      ensures sent == if reaction == ReleaseOrphan && channel.Accepts?
                      then Some(Message(apiUniqueNumber, RELEASE, message.payload)) else None
      ensures message.opcode != GRANT ==> Books() == old(Books())
      ensures message.opcode == GRANT ==>
        && pendingRequests == old(pendingRequests) - {message.payload}
        && Books() == PermitStep(old(Books()), Forget(message.payload))
    {
      reaction, sent := Ignore, None;
      if message.opcode == GRANT {
        if message.payload !in pendingRequests {
          if mode == H.Semaphore {
            var step;
            reaction := ReleaseOrphan;
            sent, step := ReleasePermit(message.payload, channel);
          }
          return;
        }
        pendingRequests := pendingRequests - {message.payload};
        reaction := RunCaller;
      }
    }

    /** Gives a permit back: the first attempt, from `run`'s finally block or for an orphaned grant. */
    method ReleasePermit(id: int, channel: H.Channel) returns (sent: Option<Message>, step: ReleaseStep)
      ensures sent == if channel.Accepts? then Some(Message(apiUniqueNumber, RELEASE, id)) else None
      ensures step == if channel.Accepts? then InTransit else ReportFailure
    {
      sent, step := SendPermitTermination(id, channel);
    }

    /** One attempt to send a release: the first, or the next one when the 50 ms timer of a retry fires. */
    method SendPermitTermination(id: int, channel: H.Channel) returns (sent: Option<Message>, step: ReleaseStep)
      ensures sent == if channel.Accepts? then Some(Message(apiUniqueNumber, RELEASE, id)) else None
      ensures step == if channel.Accepts? then InTransit else ReportFailure
      ensures step == OnReleaseSend(channel)
    {
      if channel.Closed? || channel.Throws? {
        return None, ReportFailure;
      }
      return Some(Message(apiUniqueNumber, RELEASE, id)), InTransit;
    }

    /** `process.send` reports that release attempt `retryCount`, counted from 0, failed. */
    method ReleaseCallbackError(retryCount: nat) returns (step: ReleaseStep)
      ensures step == if retryCount < 4 then RetryAfter50ms(retryCount + 1) else ReportFailure
      ensures step == OnReleaseError(retryCount)
    {
      if retryCount > 3 {
        step := ReportFailure;
      } else {
        step := RetryAfter50ms(retryCount + 1);
      }
    }
  }
}

/** The worker-side semaphore limiter: a permit is held exactly while the caller runs. */
module WorkerSemaphoreLimiters {
  import opened Common
  import opened Environment
  import opened WorkerRules
  import opened BaseWorkerLimiters
  import H = Handshake

  /** How a caller settles. */
  datatype Outcome<T> = Returned(value: T) | Threw

  class WorkerSemaphoreLimiter {
    const base: BaseWorkerLimiter

    constructor (channel: H.Channel)
      ensures base.Valid() && fresh(base) && base.mode == H.Semaphore && base.Abs() == H.Init(H.Semaphore, channel)
    {
      base := new BaseWorkerLimiter(H.Semaphore, channel);
    }

    /** The end of `run`, once its caller has settled: the permit is released whatever the outcome, and the
        outcome is passed on. */
    method FinishRun<T>(requestId: int, outcome: Outcome<T>, channel: H.Channel)
      returns (result: Outcome<T>, sent: Option<Message>, step: ReleaseStep)
      ensures result == outcome
      ensures sent == if channel.Accepts? then Some(Message(base.apiUniqueNumber, RELEASE, requestId)) else None
      ensures step == if channel.Accepts? then InTransit else ReportFailure
    {
      sent, step := base.ReleasePermit(requestId, channel);
      result := outcome;
    }
  }
}

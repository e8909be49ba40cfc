/** The values that travel between balancers and servers. Time is a count of nanoseconds. */
module Domain {

  type Time = nat

  datatype Option<+T> = None | Some(value: T)

  /** A request. Only the balancer that owns it, its dispatch times and its identifiers are ever rewritten:
      `start` and `duration` are fixed when the arrival source creates it. */
  datatype Task = Task(
    start: Time, duration: nat, finish: Time, taskId: nat, lbId: nat, originServer: nat,
    servedByExpress: bool, evictedAt: Option<Time>, shedAt: Option<Time>,
    dispatchedAt: Option<Time>, serviceStartedAt: Option<Time>)

  function NewTask(start: Time, duration: nat): Task
  {
    Task(start, duration, 0, 0, 0, 0, false, None, None, None, None)
  }

  /** Sent by a client balancer to a server: "I hold work for you". */
  datatype PullIntent = PullIntent(senderId: nat, requestId: nat, deadline: Time)

  /** Sent by a server with a free slot back to a balancer. */
  datatype PullRequest = PullRequest(serverIdx: nat, requestId: Option<nat>)

  /** Messages in transit, with the model they are addressed to. */
  datatype TaskMsg = TaskMsg(server: nat, task: Task)
  datatype IntentMsg = IntentMsg(server: nat, intent: PullIntent)
  datatype PullMsg = PullMsg(lb: nat, pull: PullRequest)
  datatype ReleaseMsg = ReleaseMsg(lb: nat, server: nat)
  datatype ShedMsg = ShedMsg(lb: nat, task: Task)

  /** What the pull audit records. */
  datatype PullEvent =
    | TaskEnqueued(lb: nat, taskId: nat, queueLenBefore: nat)
    | IntentSent(lb: nat, server: nat, requestId: nat)
    | IntentQueued(server: nat, sender: nat, requestId: nat, queueLenBefore: nat)
    | IntentDrained(server: nat, sender: nat, requestId: nat, queueLenBefore: nat,
                    pendingBefore: nat, inFlightBefore: nat, maxConcurrency: nat)
    | PullFulfilled(lb: nat, server: nat, intentId: Option<nat>, pulledId: nat,
                    queueLenBefore: nat, headId: Option<nat>)

  /** Subtraction of unsigned counters that stops at zero. */
  function SaturatingSub(a: nat, b: nat): nat
  {
    if a >= b then a - b else 0
  }

  function Max(a: nat, b: nat): nat
  {
    if a >= b then a else b
  }

  function Min(a: nat, b: nat): nat
  {
    if a <= b then a else b
  }
}

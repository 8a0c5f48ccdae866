/**
 What the synchronous and the asynchronous client share: the calls, the commands they send
 and the values they return, and the abstract life of one lock object: at rest, queued on a
 connection, or holding a token on a connection.
 */
module Lifecycle {
  import opened Session

  datatype Api = ApiAcquire | ApiEnqueue | ApiWait | ApiRelease | ApiClose

  datatype Op = OpAcquire | OpEnqueue

  datatype Cmd = CmdAcquire | CmdEnqueue | CmdWait

  /** What a call returns: a bool, "acquired", "queued", nothing, or an exception. */
  datatype Ret = NoRet | RetTrue | RetFalse | RetAcquired | RetQueued | RetUnit | RetRaised | RetCancelled

  function CmdOf(op: Op): Cmd { if op.OpAcquire? then CmdAcquire else CmdEnqueue }

  function CmdFrame(cmd: Cmd): Frame {
    match cmd case CmdAcquire => Acquire case CmdEnqueue => Enqueue case CmdWait => Wait
  }

  function GrantRet(cmd: Cmd): Ret { if cmd.CmdEnqueue? then RetAcquired else RetTrue }

  datatype Life = AtRest | InLine(c: nat) | Owner(c: nat, token: Token)

  /** What may happen in one step; every change names the event that causes it. */
  datatype Cause = NoCause | Granting | Queueing | Ending

  /** The cause that a change of the abstract state needs. */
  function CauseOf(a: Life, b: Life): Cause {
    if a == b then NoCause else if b.Owner? then Granting else if b.InLine? then Queueing else Ending
  }

  /**
   The abstract machine. A grant takes an idle or queued object to its owner, on the same
   connection if it was queued; an enqueue may queue an idle one; everything else ends at rest.
   */
  predicate LifeStep(a: Life, b: Life, cause: Cause) {
    match cause
    case NoCause => a == b
    case Granting => b.Owner? && (a.AtRest? || (a.InLine? && a.c == b.c))
    case Queueing => a.AtRest? && b.InLine?
    case Ending => !a.AtRest? && b.AtRest?
  }
}

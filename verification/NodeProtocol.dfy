/** The concurrency control of one node: who may run its scheduling loop, and how
    many of its invocations are in flight. Each function below is one critical
    section of the node's status lock; the class performs them in place. */
module NodeProtocol {

  datatype Status = Prepared | Opened | Active | Closed

  datatype SchedulingState = Idle | Scheduling | SchedulingPending

  datatype Protocol = Protocol(
    status: Status,
    scheduling: SchedulingState,
    inFlight: int,
    maxInFlight: nat)
  {
    function Allowance(): int {
      maxInFlight - inFlight
    }
  }

  /** `enters` tells the caller to run the scheduling loop. */
  datatype Outcome = Outcome(protocol: Protocol, enters: bool)

  function OnCheckIfBecameReady(p: Protocol): Outcome {
    if p.status != Opened then Outcome(p, false)
    else if p.scheduling == Idle && p.inFlight < p.maxInFlight then Outcome(p.(scheduling := Scheduling), true)
    else if p.scheduling == Scheduling then Outcome(p.(scheduling := SchedulingPending), false)
    else Outcome(p, false)
  }

  /** Entering the loop: a closed node leaves at once. */
  function OnLoopEntry(p: Protocol): Outcome {
    if p.status == Closed then Outcome(p.(scheduling := Idle), false)
    else Outcome(p, true)
  }

  /** The end of one pass through the loop: `enters` means another pass. */
  function OnLoopEnd(p: Protocol): Outcome {
    if p.scheduling == SchedulingPending && p.inFlight < p.maxInFlight
    then Outcome(p.(scheduling := Scheduling), true)
    else Outcome(p.(scheduling := Idle), false)
  }

  function OnTryToBegin(p: Protocol): Outcome {
    if p.inFlight < p.maxInFlight then Outcome(p.(inFlight := p.inFlight + 1), true)
    else Outcome(p, false)
  }

  function OnEndScheduling(p: Protocol): Outcome {
    if p.status != Opened && p.status != Active then Outcome(p, false)
    else
      var q := p.(inFlight := p.inFlight - 1);
      if q.scheduling == Scheduling then Outcome(q.(scheduling := SchedulingPending), false)
      else if q.scheduling == SchedulingPending then Outcome(q, false)
      else Outcome(q.(scheduling := Scheduling), true)
  }

  // ------------------------------------------------ what each section is for

  predicate HasRoom(p: Protocol) {
    p.inFlight < p.maxInFlight
  }

  /** Another look is owed: a thread is on its way, or will go round again. */
  predicate LookOwed(p: Protocol, enters: bool) {
    enters || p.scheduling == SchedulingPending
  }

  /** Finding out that a node may be ready: an open node owes a look afterwards, unless
      nobody is in the loop and there is no room; one that is not open owes nothing
      new. Nobody enters a loop that is taken, or without room. */
  lemma {:induction false} CheckOwesLook(p: Protocol)
    ensures var o := OnCheckIfBecameReady(p);
            && (p.status == Opened && (p.scheduling != Idle || HasRoom(p)) ==> LookOwed(o.protocol, o.enters))
            && (o.enters <==> p.status == Opened && p.scheduling == Idle && HasRoom(p))
            && (o.enters ==> o.protocol.scheduling == Scheduling)
            && (p.status != Opened || (p.scheduling == Idle && !HasRoom(p)) ==> o == Outcome(p, false))
            && o.protocol.inFlight == p.inFlight && o.protocol.status == p.status
  {
  }

  /** A thread stays in the loop exactly if the node is not closed, and otherwise leaves
      it free. */
  lemma {:induction false} EntryStaysIff(p: Protocol)
    ensures OnLoopEntry(p).enters <==> p.status != Closed
    ensures OnLoopEntry(p).protocol == if p.status == Closed then p.(scheduling := Idle) else p
  {
  }

  /** A thread goes round again exactly if it was told to and there is room, and then
      may schedule something; otherwise it leaves the loop free. */
  lemma {:induction false} PassesAgainIff(p: Protocol)
    ensures var o := OnLoopEnd(p);
            && (o.enters <==> p.scheduling == SchedulingPending && HasRoom(p))
            && o.protocol == p.(scheduling := if o.enters then Scheduling else Idle)
            && (o.enters ==> o.protocol.Allowance() > 0)
  {
  }

  /** The end of an invocation of a node that has not closed makes room and owes a look;
      it enters the loop exactly if nobody is in it. */
  lemma {:induction false} EndOwesLook(p: Protocol)
    requires p.status == Opened || p.status == Active
    ensures var o := OnEndScheduling(p);
            && o.protocol.inFlight == p.inFlight - 1 && o.protocol.status == p.status
            && LookOwed(o.protocol, o.enters)
            && (o.enters <==> p.scheduling == Idle)
            && (o.enters ==> o.protocol.scheduling == Scheduling)
  {
  }

  /** The end of any other changes nothing. */
  lemma {:induction false} EndOfClosedIsIdle(p: Protocol)
    requires p.status != Opened && p.status != Active
    ensures OnEndScheduling(p) == Outcome(p, false)
  {
  }

  /** An invocation begins exactly if there is room, and takes it. */
  lemma {:induction false} BeginsIff(p: Protocol)
    ensures OnTryToBegin(p).enters <==> HasRoom(p)
    ensures OnTryToBegin(p).protocol == p.(inFlight := p.inFlight + if HasRoom(p) then 1 else 0)
  {
  }

  class CalculatorNode {
    var status: Status
    var schedulingState: SchedulingState
    var currentInFlight: int
    const maxInFlight: nat

    function State(): Protocol
      reads this
    {
      Protocol(status, schedulingState, currentInFlight, maxInFlight)
    }

    constructor (maxInFlight: nat)
      ensures State() == Protocol(Prepared, Idle, 0, maxInFlight)
    {
      status := Prepared;
      schedulingState := Idle;
      currentInFlight := 0;
      this.maxInFlight := maxInFlight;
    }

    method CheckIfBecameReady() returns (enters: bool)
      modifies this`schedulingState
      ensures Outcome(State(), enters) == OnCheckIfBecameReady(old(State()))
    {
      if status != Opened {
        return false;
      }
      if schedulingState == Idle && currentInFlight < maxInFlight {
        schedulingState := Scheduling;
        return true;
      } else {
        if schedulingState == Scheduling {
          schedulingState := SchedulingPending;
        }
        return false;
      }
    }

    method BeginLoop() returns (maxAllowance: int, enters: bool)
      modifies this`schedulingState
      ensures Outcome(State(), enters) == OnLoopEntry(old(State()))
      ensures enters ==> maxAllowance == State().Allowance()
    {
      maxAllowance := 0;
      if status == Closed {
        schedulingState := Idle;
        return maxAllowance, false;
      }
      maxAllowance := maxInFlight - currentInFlight;
      enters := true;
    }

    method EndLoop() returns (maxAllowance: int, enters: bool)
      modifies this`schedulingState
      ensures Outcome(State(), enters) == OnLoopEnd(old(State()))
      ensures enters ==> maxAllowance == State().Allowance() > 0
    {
      maxAllowance := 0;
      if schedulingState == SchedulingPending && currentInFlight < maxInFlight {
        maxAllowance := maxInFlight - currentInFlight;
        schedulingState := Scheduling;
        enters := true;
      } else {
        schedulingState := Idle;
        enters := false;
      }
    }

    /** The count must be positive, or the check after the decrement aborts. */
    method EndScheduling() returns (enters: bool)
      requires status == Opened || status == Active ==> currentInFlight > 0
      modifies this`schedulingState, this`currentInFlight
      ensures Outcome(State(), enters) == OnEndScheduling(old(State()))
    {
      if status != Opened && status != Active {
        return false;
      }
      currentInFlight := currentInFlight - 1;
      if schedulingState == Scheduling {
        schedulingState := SchedulingPending;
        return false;
      } else if schedulingState == SchedulingPending {
        return false;
      }
      schedulingState := Scheduling;
      enters := true;
    }

    method TryToBeginScheduling() returns (begun: bool)
      modifies this`currentInFlight
      ensures Outcome(State(), begun) == OnTryToBegin(old(State()))
    {
      if currentInFlight < maxInFlight {
        currentInFlight := currentInFlight + 1;
        return true;
      }
      return false;
    }
  }
}

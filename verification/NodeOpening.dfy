/** When a node's Open may run: after the headers of all its input streams that
    are not back edges, and all its input side packets. Both kinds arrive from
    different threads and are counted down without a lock. */
module NodeOpening {

  // ------------------------------------------------------------ the counts

  /** A thread that sets a header first checks the count and then lowers it. */
  datatype Header = Unset | Checked | Counted

  /** `expected` marks what has to arrive; nothing else is counted. */
  function Missing<T(==)>(items: seq<T>, arrived: T, expected: seq<bool>, n: nat): nat
    requires n <= |items| && n <= |expected|
  {
    if n == 0 then 0
    else Missing(items, arrived, expected, n - 1) + if expected[n - 1] && items[n - 1] != arrived then 1 else 0
  }

  lemma {:induction false} MissingAt<T>(items: seq<T>, arrived: T, expected: seq<bool>, n: nat, i: nat, x: T)
    requires n <= |items| && n <= |expected| && i < |items| && i < |expected|
    ensures Missing(items[i := x], arrived, expected, n) ==
            Missing(items, arrived, expected, n)
            + if i < n && expected[i]
              then (if x != arrived then 1 else 0) - (if items[i] != arrived then 1 else 0) else 0
  {
    if n == 0 {
    } else {
      MissingAt(items, arrived, expected, n - 1, i, x);
    }
  }

  /** Nothing is missing exactly when everything expected has arrived. */
  lemma {:induction false} NoneMissing<T>(items: seq<T>, arrived: T, expected: seq<bool>, n: nat)
    requires n <= |items| && n <= |expected|
    ensures Missing(items, arrived, expected, n) == 0 <==> forall i :: 0 <= i < n && expected[i] ==> items[i] == arrived
  {
    if n == 0 {
    } else {
      NoneMissing(items, arrived, expected, n - 1);
    }
  }

  // ----------------------------------------------------------- the machine

  /** `forward` marks the streams that are not back edges. The callbacks are those
      whose thread has brought a count to zero and not yet made the call, and
      `opening` those that found the node ready and have not yet scheduled it. */
  datatype Opening = Opening(
    forward: seq<bool>,
    headers: seq<Header>,
    required: seq<bool>,
    sides: seq<bool>,
    unsetHeaders: int,
    missingSides: int,
    headerCallbacks: nat,
    sideCallbacks: nat,
    headersReady: bool,
    sidesReady: bool,
    headersCalled: bool,
    sidesCalled: bool,
    asked: bool,
    opening: nat,
    scheduled: nat,
    isOpen: bool,
    aborted: bool)

  datatype Step =
    | Ask
    | CheckHeader(i: nat)
    | CountHeader(i: nat)
    | SetSide(i: nat, valid: bool)
    | HeadersReady
    | SidesReady
    | Schedule
    | RunOpen

  /** Asking all nodes comes first. A stream's header is set once, by its producer;
      that a side packet is set twice, or is of the wrong type, is an error of the
      producer and changes nothing. */
  predicate Enabled(v: Opening, step: Step) {
    match step
    case Ask => !v.asked
    case CheckHeader(i) => v.asked && i < |v.headers| && i < |v.forward| && v.headers[i].Unset?
    case CountHeader(i) => i < |v.headers| && v.headers[i].Checked?
    case SetSide(i, _) => v.asked && i < |v.sides| && i < |v.required| && v.required[i]
    case HeadersReady => v.headerCallbacks > 0
    case SidesReady => v.sideCallbacks > 0
    case Schedule => v.opening > 0
    case RunOpen => v.scheduled > 0 && !v.isOpen
  }

  function Take(v: Opening, step: Step): Opening
    requires Enabled(v, step)
  {
    match step
    case Ask => v.(asked := true, scheduled := v.scheduled + if v.headersReady && v.sidesReady then 1 else 0)
    case CheckHeader(i) =>
      if v.forward[i] then v.(headers := v.headers[i := Checked], aborted := v.aborted || v.unsetHeaders <= 0)
      else v.(headers := v.headers[i := Counted])
    case CountHeader(i) =>
      v.(headers := v.headers[i := Counted], unsetHeaders := v.unsetHeaders - 1,
         headerCallbacks := v.headerCallbacks + if v.unsetHeaders == 1 then 1 else 0)
    case SetSide(i, valid) =>
      if v.missingSides <= 0 || v.sides[i] || !valid then v
      else
        v.(sides := v.sides[i := true], missingSides := v.missingSides - 1,
           sideCallbacks := v.sideCallbacks + if v.missingSides == 1 then 1 else 0)
    case HeadersReady =>
      v.(headerCallbacks := v.headerCallbacks - 1, headersCalled := true, headersReady := true,
         opening := v.opening + if v.sidesReady then 1 else 0,
         aborted := v.aborted || v.isOpen || v.headersCalled)
    case SidesReady =>
      v.(sideCallbacks := v.sideCallbacks - 1, sidesCalled := true, sidesReady := true,
         opening := v.opening + if v.headersReady then 1 else 0,
         aborted := v.aborted || v.isOpen || v.sidesCalled)
    case Schedule => v.(opening := v.opening - 1, scheduled := v.scheduled + 1)
    case RunOpen => v.(isOpen := true)
  }

  ghost predicate Init(v: Opening) {
    && |v.headers| == |v.forward| && |v.sides| == |v.required|
    && (forall i :: 0 <= i < |v.headers| ==> v.headers[i].Unset?)
    && v.unsetHeaders == Missing(v.headers, Counted, v.forward, |v.headers|)
    && v.missingSides == Missing(v.sides, true, v.required, |v.sides|)
    && v.headersReady == (v.unsetHeaders == 0) && v.sidesReady == (v.missingSides == 0)
    && v.headerCallbacks == 0 && v.sideCallbacks == 0 && v.opening == 0 && v.scheduled == 0
    && !v.headersCalled && !v.sidesCalled && !v.asked && !v.isOpen && !v.aborted
  }

  /** Both counts count; each reaches zero once, with one callback or none if it
      was zero from the start; and the node is on its way to be isOpen once both
      are ready. */
  ghost predicate Inv(v: Opening) {
    && |v.headers| == |v.forward| && |v.sides| == |v.required|
    && v.unsetHeaders == Missing(v.headers, Counted, v.forward, |v.headers|)
    && v.missingSides == Missing(v.sides, true, v.required, |v.sides|)
    && (forall i :: 0 <= i < |v.headers| && v.headers[i].Checked? ==> v.forward[i])
    && CountInv(v.unsetHeaders, v.headerCallbacks, v.headersReady, v.headersCalled)
    && CountInv(v.missingSides, v.sideCallbacks, v.sidesReady, v.sidesCalled)
    && v.opening + v.scheduled == (if v.asked && v.headersReady && v.sidesReady then 1 else 0)
    && (!v.asked ==>
          && v.headerCallbacks == 0 && v.sideCallbacks == 0 && !v.headersCalled && !v.sidesCalled
          && (forall i :: 0 <= i < |v.headers| ==> v.headers[i].Unset?))
    && (v.isOpen ==> v.scheduled == 1)
    && !v.aborted
  }

  predicate CountInv(count: int, callbacks: nat, ready: bool, called: bool) {
    && callbacks <= 1
    && (count > 0 ==> callbacks == 0 && !ready)
    && (count == 0 ==> ready || callbacks == 1)
    && (callbacks == 1 ==> !ready)
    && (called ==> ready)
  }

  lemma {:induction false} HeaderKeeps(v: Opening, step: Step)
    requires Inv(v) && Enabled(v, step) && (step.CheckHeader? || step.CountHeader?)
    ensures Inv(Take(v, step))
  {
    var w, i := Take(v, step), step.i;
    MissingAt(v.headers, Counted, v.forward, |v.headers|, i, w.headers[i]);
    if v.unsetHeaders == 0 {
      NoneMissing(v.headers, Counted, v.forward, |v.headers|);
    }
  }

  lemma {:induction false} SideKeeps(v: Opening, i: nat, valid: bool)
    requires Inv(v) && Enabled(v, SetSide(i, valid))
    ensures Inv(Take(v, SetSide(i, valid)))
  {
    MissingAt(v.sides, true, v.required, |v.sides|, i, true);
  }

  lemma {:induction false} CallbackKeeps(v: Opening, step: Step)
    requires Inv(v) && Enabled(v, step) && (step.HeadersReady? || step.SidesReady?)
    ensures Inv(Take(v, step))
  {
  }

  lemma {:induction false} StepKeeps(v: Opening, step: Step)
    requires Inv(v) && Enabled(v, step)
    ensures Inv(Take(v, step))
  {
    match step
    case CheckHeader(_) => HeaderKeeps(v, step);
    case CountHeader(_) => HeaderKeeps(v, step);
    case SetSide(i, valid) => SideKeeps(v, i, valid);
    case HeadersReady => CallbackKeeps(v, step);
    case SidesReady => CallbackKeeps(v, step);
    case _ =>
  }

  /** A side packet asked for is there afterwards exactly if it was, or it comes now and
      is of the right type. */
  lemma {:induction false} SideArrivesIff(v: Opening, step: Step, i: nat)
    requires Inv(v) && Enabled(v, step) && i < |v.sides|
    ensures i < |Take(v, step).sides|
    ensures Take(v, step).sides[i] <==> v.sides[i] || step == SetSide(i, true)
  {
    NoneMissing(v.sides, true, v.required, |v.sides|);
  }

  function Progress(h: Header): nat {
    match h
    case Unset => 0
    case Checked => 1
    case Counted => 2
  }

  /** A header that does not count yet can always be brought further, so it counts after
      two steps of its producer at most. */
  lemma {:induction false} HeaderGoesOn(v: Opening, i: nat) returns (step: Step)
    requires Inv(v) && v.asked && i < |v.headers| && v.headers[i] != Counted
    ensures (step == CheckHeader(i) || step == CountHeader(i)) && Enabled(v, step)
    ensures i < |Take(v, step).headers| && Progress(Take(v, step).headers[i]) > Progress(v.headers[i])
  {
    step := if v.headers[i].Unset? then CheckHeader(i) else CountHeader(i);
  }

  ghost predicate IsRun(run: seq<Opening>, steps: seq<Step>) {
    && |run| == |steps| + 1 && Init(run[0])
    && (forall i :: 0 <= i < |steps| ==> Enabled(run[i], steps[i]) && run[i + 1] == Take(run[i], steps[i]))
  }

  lemma {:induction false} RunsHold(run: seq<Opening>, steps: seq<Step>, i: nat)
    requires IsRun(run, steps) && i < |run|
    ensures Inv(run[i])
  {
    if i == 0 {
    } else {
      RunsHold(run, steps, i - 1);
      StepKeeps(run[i - 1], steps[i - 1]);
    }
  }

  ghost predicate AllIn(v: Opening) {
    && |v.headers| == |v.forward| && |v.sides| == |v.required|
    && (forall i :: 0 <= i < |v.headers| && v.forward[i] ==> v.headers[i] == Counted)
    && (forall i :: 0 <= i < |v.sides| && v.required[i] ==> v.sides[i])
  }

  predicate NoneUnderWay(v: Opening) {
    v.headerCallbacks == 0 && v.sideCallbacks == 0 && v.opening == 0
  }

  /** Exactly once: a node is never scheduled to open twice, nor before everything
      is in; and once everything is in and all callbacks have been made, it has been
      scheduled. No check fails. */
  lemma {:induction false} OpensExactlyOnce(run: seq<Opening>, steps: seq<Step>, i: nat)
    requires IsRun(run, steps) && i < |run|
    ensures run[i].scheduled <= 1 && !run[i].aborted
    ensures run[i].scheduled == 1 ==> AllIn(run[i])
    ensures AllIn(run[i]) && run[i].asked && NoneUnderWay(run[i]) ==> run[i].scheduled == 1
  {
    RunsHold(run, steps, i);
    var v := run[i];
    NoneMissing(v.headers, Counted, v.forward, |v.headers|);
    NoneMissing(v.sides, true, v.required, |v.sides|);
  }

  // ---------------------------------------------------------- the class

  class InputSidePacketHandler {
    var present: seq<bool>
    var missingInputSidePacketCount: int

    /** The count is right for the packets required. */
    ghost predicate Valid(required: seq<bool>)
      reads this
    {
      |present| == |required| && missingInputSidePacketCount == Missing(present, true, required, |present|)
    }

    constructor (present: seq<bool>, required: seq<bool>)
      requires |present| == |required|
      ensures Valid(required) && this.present == present
    {
      this.present := present;
      missingInputSidePacketCount := 0;
      new;
      var i := 0;
      while i < |present|
        invariant 0 <= i <= |present| && this.present == present
        invariant missingInputSidePacketCount == Missing(present, true, required, i)
      {
        if required[i] && !present[i] {
          missingInputSidePacketCount := missingInputSidePacketCount + 1;
        }
        i := i + 1;
      }
    }

    /** `ready` is the callback made when the last packet arrives. */
    method SetInternal(i: nat, typeMatches: bool, ghost required: seq<bool>) returns (ok: bool, ready: bool)
      requires Valid(required) && i < |present| && required[i]
      modifies this
      ensures Valid(required)
      ensures ok == (old(missingInputSidePacketCount) > 0 && !old(present)[i] && typeMatches)
      ensures present == if ok then old(present)[i := true] else old(present)
      ensures ready <==> ok && forall k :: 0 <= k < |present| && required[k] ==> present[k]
    {
      if missingInputSidePacketCount <= 0 {
        return false, false;
      }
      if present[i] {
        return false, false;
      }
      if !typeMatches {
        return false, false;
      }
      MissingAt(present, true, required, |present|, i, true);
      present := present[i := true];
      var before := missingInputSidePacketCount;
      missingInputSidePacketCount := before - 1;
      NoneMissing(present, true, required, |present|);
      ok, ready := true, before == 1;
    }
  }
}

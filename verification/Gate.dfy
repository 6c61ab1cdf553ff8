/** The resizable admission gate of internal/concurrency/gate.go.

    The gate's `notify` channel is replaced at every Release and the old one is closed, so a
    channel is identified by the number of releases before it was made: the channel of generation
    `c` is closed exactly when the gate's current generation is above `c`. */
module Gate {

  datatype GateState = GateState(max: nat, inflight: nat, generation: nat) {

    /** A gate is never built with room for no task at all. */
    predicate Valid() {
      1 <= max && inflight <= max
    }

    function Limit(pressured: bool): nat {
      if pressured then 1 else max
    }

    predicate Admits(pressured: bool) {
      inflight < Limit(pressured)
    }

    function Admit(): GateState {
      this.(inflight := inflight + 1)
    }

    function Freed(): GateState {
      this.(inflight := if inflight > 0 then inflight - 1 else 0, generation := generation + 1)
    }

    predicate Closed(channel: nat) {
      channel < generation
    }
  }

  function NewGate(max: int): (g: GateState)
    ensures g.Valid() && g.inflight == 0 && (1 <= max ==> g.max == max)
  {
    GateState(if max < 1 then 1 else max, 0, 0)
  }

  /** The gate object. Acquire is a loop of admission attempts, each made under the gate's lock;
      TryAcquire is one attempt, and `channel` is the notify channel a refused caller waits on. */
  class AdmissionGate {
    const max: nat
    var inflight: nat
    var generation: nat

    ghost function View(): GateState
      reads this
    {
      GateState(max, inflight, generation)
    }

    constructor (limit: int)
      ensures View() == NewGate(limit)
    {
      max := if limit < 1 then 1 else limit;
      inflight := 0;
      generation := 0;
    }

    method TryAcquire(pressured: bool) returns (admitted: bool, channel: nat)
      requires View().Valid()
      modifies this
      ensures View().Valid()
      ensures admitted == old(View().Admits(pressured))
      ensures View() == if admitted then old(View()).Admit() else old(View())
      // A refused caller parks on the open channel, and somebody holds a slot to close it.
      ensures !admitted ==> !View().Closed(channel) && channel == generation && inflight >= 1
    {
      var limit := max;
      if pressured {
        limit := 1;
      }
      if inflight < limit {
        inflight := inflight + 1;
        return true, generation;
      }
      return false, generation;
    }

    method Release()
      requires View().Valid()
      modifies this
      ensures View().Valid() && View() == old(View()).Freed()
      // Every channel handed out so far is now closed: all waiters re-evaluate the limit.
      ensures forall channel: nat :: channel <= old(generation) ==> View().Closed(channel)
    {
      if inflight > 0 {
        inflight := inflight - 1;
      }
      generation := generation + 1;
    }
  }
}

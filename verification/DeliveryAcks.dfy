/** Delivery acknowledgements: one running number per loop (src/client.rs). */
module DeliveryAcks {
  import opened Options
  import opened JsonValues
  import opened StreamTerminal

  datatype Ack<K> = Ack(loopId: K, number: nat)

  /** The loop an inbound frame must be acknowledged for, if any. */
  function AckLoop(frame: Json): Option<string> {
    if InboundNeedsDeliveryAck(frame) && ExtractLoopIdFromInbound(frame) != ""
    then Some(ExtractLoopIdFromInbound(frame)) else None
  }

  class Sequences {
    var numbers: map<string, nat>

    constructor ()
      ensures numbers == map[]
    {
      numbers := map[];
    }

    /** The acknowledgement sent for one inbound frame. */
    method NoteInbound(frame: Json) returns (ack: Option<Ack<string>>)
      modifies this
      ensures ack == AckFor(old(numbers), AckLoop(frame))
      ensures numbers == Bump(old(numbers), AckLoop(frame))
    {
      ack := None;
      if InboundNeedsDeliveryAck(frame) {
        var loopId := ExtractLoopIdFromInbound(frame);
        if loopId != "" {
          var n := (if loopId in numbers then numbers[loopId] else 0) + 1;
          numbers := numbers[loopId := n];
          ack := Some(Ack(loopId, n));
        }
      }
    }
  }

  function Bump<K(==)>(numbers: map<K, nat>, target: Option<K>): map<K, nat> {
    if target.None? then numbers
    else numbers[target.value := (if target.value in numbers then numbers[target.value] else 0) + 1]
  }

  function AckFor<K(==)>(numbers: map<K, nat>, target: Option<K>): Option<Ack<K>> {
    if target.None? then None
    else Some(Ack(target.value, (if target.value in numbers then numbers[target.value] else 0) + 1))
  }

  /** Numbers and acknowledgements after frames with these ack targets. */
  function NumbersAfter<K(==)>(targets: seq<Option<K>>): map<K, nat> {
    if targets == [] then map[] else Bump(NumbersAfter(targets[..|targets| - 1]), targets[|targets| - 1])
  }

  function AcksOf<K(==)>(targets: seq<Option<K>>): seq<Ack<K>> {
    if targets == [] then []
    else
      var ack := AckFor(NumbersAfter(targets[..|targets| - 1]), targets[|targets| - 1]);
      AcksOf(targets[..|targets| - 1]) + if ack.Some? then [ack.value] else []
  }

  /** The numbers acknowledged for one loop, in order. */
  function NumbersFor<K(==)>(acks: seq<Ack<K>>, loopId: K): seq<nat> {
    if acks == [] then []
    else
      var last := acks[|acks| - 1];
      NumbersFor(acks[..|acks| - 1], loopId) + if last.loopId == loopId then [last.number] else []
  }

  function CountFor<K(==)>(targets: seq<Option<K>>, loopId: K): nat {
    if targets == [] then 0
    else CountFor(targets[..|targets| - 1], loopId) + if targets[|targets| - 1] == Some(loopId) then 1 else 0
  }

  /** Whatever other loops do in between, the acks of a loop are numbered 1, 2, ... n, where n is the
      number of its frames that needed one. */
  lemma {:induction false} AcksCountFromOne<K>(targets: seq<Option<K>>, loopId: K)
    ensures var n := CountFor(targets, loopId);
            && NumbersFor(AcksOf(targets), loopId) == seq(n, i => i + 1)
            && (if loopId in NumbersAfter(targets) then NumbersAfter(targets)[loopId] == n else n == 0)
  {
    if targets != [] {
      var init, last := targets[..|targets| - 1], targets[|targets| - 1];
      AcksCountFromOne(init, loopId);
      var acks := AcksOf(init);
      var ack := AckFor(NumbersAfter(init), last);
      if ack.Some? {
        assert (acks + [ack.value])[..|acks|] == acks;
      } else {
        assert acks + [] == acks;
      }
    }
  }
}

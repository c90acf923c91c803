/** The value every component carries: a message and the stamps it gathered on the way. */
module Envelopes {

  datatype Option<+T> = None | Some(value: T)

  /** A stamp class: classes may share a name, a class is told apart by module and name. */
  datatype StampClass = StampClass(module_: string, name: string, sendable: bool)

  datatype Stamp =
    | DispatchAfterCurrentBus
    | Received(transportName: string)
    | AckReceipt(receipt: int)
    | Handled(handlerName: string, result: int)
    | Sent(senderClass: string, senderAlias: string)
    | ErrorDetails(exceptionClass: string, exceptionMessage: string)
    | Delay(delayMs: int)
    | TransportMessageId(messageId: int)
    | Declared(stampClass: StampClass, content: int)

  predicate IsDispatchAfter(s: Stamp) { s.DispatchAfterCurrentBus? }

  predicate IsReceived(s: Stamp) { s.Received? }

  predicate IsReceipt(s: Stamp) { s.AckReceipt? }

  predicate IsDelay(s: Stamp) { s.Delay? }

  /** An envelope and the position of the receiver it was collected from. */
  datatype From<+E> = From(position: nat, envelope: E)

  /** The two ways to settle a message. */
  datatype Kind = Ack | Reject

  const LIBRARY := "xtr_messenger"

  function ClassOf(s: Stamp): StampClass {
    match s
    case DispatchAfterCurrentBus => StampClass(LIBRARY, "DispatchAfterCurrentBusStamp", false)
    case Received(_) => StampClass(LIBRARY, "ReceivedStamp", false)
    case AckReceipt(_) => StampClass(LIBRARY, "AckReceiptStamp", false)
    case Handled(_, _) => StampClass(LIBRARY, "HandledStamp", false)
    case Sent(_, _) => StampClass(LIBRARY, "SentStamp", false)
    case ErrorDetails(_, _) => StampClass(LIBRARY, "ErrorDetailsStamp", true)
    case Delay(_) => StampClass(LIBRARY, "DelayStamp", true)
    case TransportMessageId(_) => StampClass(LIBRARY, "TransportMessageIdStamp", true)
    case Declared(c, _) => c
  }

  /** The stamps of `s` that satisfy `keep`, in order. */
  function Kept(keep: Stamp -> bool, s: seq<Stamp>): seq<Stamp> {
    if s == [] then [] else (if keep(s[0]) then [s[0]] else []) + Kept(keep, s[1..])
  }

  datatype Envelope<+M> = Envelope(message: M, stamps: seq<Stamp>) {
    function WithStamps(added: seq<Stamp>): Envelope<M> {
      Envelope(message, stamps + added)
    }

    function WithoutStamps(drop: Stamp -> bool): Envelope<M> {
      Envelope(message, Kept(x => !drop(x), stamps))
    }

    function All(of: Stamp -> bool): seq<Stamp> {
      Kept(of, stamps)
    }

    function Last(of: Stamp -> bool): Option<Stamp> {
      var matches := All(of);
      if matches == [] then None else Some(matches[|matches| - 1])
    }
  }

  lemma Associates<T>(a: seq<T>, b: seq<T>, c: seq<T>)
    ensures (a + b) + c == a + (b + c)
  {
  }

  lemma {:induction false} KeptDistributes(keep: Stamp -> bool, a: seq<Stamp>, b: seq<Stamp>)
    ensures Kept(keep, a + b) == Kept(keep, a) + Kept(keep, b)
  {
    if a == [] {
      assert a + b == b;
    } else {
      var rest := a[1..];
      assert (a + b)[1..] == rest + b && (a + b)[0] == a[0];
      KeptDistributes(keep, rest, b);
      Associates(if keep(a[0]) then [a[0]] else [], Kept(keep, rest), Kept(keep, b));
    }
  }

  /** When a stamp type is added more than once, the one added last wins. */
  lemma LastAddedWins<M>(e: Envelope<M>, of: Stamp -> bool, added: seq<Stamp>)
    ensures e.WithStamps(added).Last(of) ==
            var later := Envelope(e.message, added).Last(of); if later.Some? then later else e.Last(of)
  {
    KeptDistributes(of, e.stamps, added);
  }

  lemma {:induction false} KeptSatisfies(keep: Stamp -> bool, s: seq<Stamp>)
    ensures forall x :: x in Kept(keep, s) ==> x in s && keep(x)
  {
    if s != [] {
      KeptSatisfies(keep, s[1..]);
    }
  }

  lemma LastSatisfies<M>(e: Envelope<M>, of: Stamp -> bool)
    ensures e.Last(of).Some? ==> of(e.Last(of).value)
  {
    KeptSatisfies(of, e.stamps);
    if e.Last(of).Some? {
      assert e.Last(of).value in e.All(of);
    }
  }

  /** The number of the receipt that counts, the one added last. */
  function Receipt<M>(e: Envelope<M>): Option<int> {
    LastSatisfies(e, IsReceipt);
    if e.Last(IsReceipt).Some? then Some(e.Last(IsReceipt).value.receipt) else None
  }

  /** `e` with the receipt of `collected` as the one that counts, when `collected` had one. */
  function Restored<M>(e: Envelope<M>, collected: Envelope<M>): Envelope<M> {
    if Receipt(collected).Some? then e.WithStamps([AckReceipt(Receipt(collected).value)]) else e
  }

  lemma ReceiptAdded<M>(e: Envelope<M>, added: seq<Stamp>, receipt: int)
    ensures Receipt(e.WithStamps(added + [AckReceipt(receipt)])) == Some(receipt)
  {
    LastAddedWins(e, IsReceipt, added + [AckReceipt(receipt)]);
    KeptDistributes(IsReceipt, added, [AckReceipt(receipt)]);
    assert Kept(IsReceipt, [AckReceipt(receipt)]) == [AckReceipt(receipt)] + Kept(IsReceipt, []);
  }

  lemma {:induction false} NoneKept(keep: Stamp -> bool, s: seq<Stamp>)
    requires forall x :: x in s ==> !keep(x)
    ensures Kept(keep, s) == []
  {
    if s != [] {
      NoneKept(keep, s[1..]);
    }
  }

  /** Stamps that are no receipts leave the one that counts as it was. */
  lemma NoReceiptAdded<M>(e: Envelope<M>, added: seq<Stamp>)
    requires forall s :: s in added ==> !s.AckReceipt?
    ensures Receipt(e.WithStamps(added)) == Receipt(e)
  {
    NoneKept(IsReceipt, added);
    LastAddedWins(e, IsReceipt, added);
  }

  lemma {:induction false} KeptOfKept(of: Stamp -> bool, keep: Stamp -> bool, s: seq<Stamp>)
    requires forall x :: x in s && of(x) ==> keep(x)
    ensures Kept(of, Kept(keep, s)) == Kept(of, s)
  {
    if s != [] {
      var head := if keep(s[0]) then [s[0]] else [];
      KeptOfKept(of, keep, s[1..]);
      KeptDistributes(of, head, Kept(keep, s[1..]));
      assert head != [] ==> head[1..] == [];
    }
  }

  /** Dropping stamps drops exactly those: every other one stays, each type's in its order. */
  lemma WithoutKeepsTheOthers<M>(e: Envelope<M>, drop: Stamp -> bool, of: Stamp -> bool)
    requires forall x :: x in e.stamps && of(x) ==> !drop(x)
    ensures e.WithoutStamps(drop).message == e.message
    ensures e.WithoutStamps(drop).All(of) == e.All(of)
    ensures e.WithoutStamps(drop).All(drop) == []
  {
    KeptOfKept(of, x => !drop(x), e.stamps);
    KeptSatisfies(x => !drop(x), e.stamps);
    NoneKept(drop, e.WithoutStamps(drop).stamps);
  }
}

/** The chained receiver as it runs: its tables, its ticket counter, and the variables of its generator. */
module ChainedReceivers {
  import opened Envelopes
  import opened ReceiveProtocol

  type Env = Envelope<nat>

  class ChainedReceiver {
    const receivers: nat
    const names: Option<seq<string>>
    var outstanding: map<nat, From<Env>>
    var tickets: nat
    var leftovers: seq<From<Env>>
    // What the generator that `get` returns keeps between its suspensions.
    var phase: Phase
    var order: seq<nat>
    var fetch: map<nat, Fetch<Env>>

    ghost var out: seq<From<Env>>
    ghost var settled: seq<Settlement<Env>>
    ghost var arrived: seq<From<Env>>
    ghost var since: map<nat, nat>
    ghost var dry: set<nat>

    ghost function Book(): Ledger<Env>
      reads this
    {
      Ledger(tickets, outstanding, out, settled)
    }

    ghost function Model(): State<Env>
      reads this
    {
      State(receivers, phase, order, fetch, leftovers, Book(), arrived, since, dry)
    }

    ghost predicate Valid()
      reads this
    {
      Inv(Model()) && (names.Some? ==> |names.value| == receivers)
    }

    constructor (receivers: nat, names: Option<seq<string>>)
      requires names.Some? ==> |names.value| == receivers
      ensures Model() == Initially(receivers) && Valid()
      ensures this.receivers == receivers && this.names == names
    {
      this.receivers := receivers;
      this.names := names;
      outstanding, tickets, leftovers := map[], 1, [];
      phase, order, fetch := Idle, [], map[];
      out, settled, arrived, since, dry := [], [], [], map[], {};
    }

    /** `names`, when given, has to name every receiver exactly once: refused otherwise. */
    static method Build(receivers: nat, names: Option<seq<string>>) returns (built: Option<ChainedReceiver>)
      ensures built.None? <==> names.Some? && |names.value| != receivers
      ensures built.Some? ==> fresh(built.value) && built.value.Valid() && built.value.Model() == Initially(receivers)
                              && built.value.names == names
    {
      if names.Some? && |names.value| != receivers {
        return None;
      }
      var r := new ChainedReceiver(receivers, names);
      built := Some(r);
    }

    /** `e` is `f`'s envelope with every stamp it carried, then its transport's name if there are names, then its ticket. */
    predicate HandedOn(e: Env, f: From<Env>, ticket: nat)
      requires names.Some? ==> f.position < |names.value|
    {
      && e.message == f.envelope.message && Receipt(e) == Some(ticket)
      && e.stamps == f.envelope.stamps
                     + (if names.Some? then [Received(names.value[f.position]), AckReceipt(ticket)] else [AckReceipt(ticket)])
    }

    /** Record where the envelope came from, and return it stamped with its ticket. */
    method Ticketed(f: From<Env>) returns (stamped: Env)
      requires names.Some? ==> f.position < |names.value|
      modifies this`outstanding, this`tickets, this`out
      ensures Book() == Hand(old(Book()), f)
      ensures HandedOn(stamped, f, old(tickets))
    {
      var ticket := tickets;
      tickets := tickets + 1;
      outstanding := outstanding[ticket := f];
      out := out + [f];
      var named := if names.None? then [] else [Received(names.value[f.position])];
      ReceiptAdded(f.envelope, named, ticket);
      stamped := f.envelope.WithStamps(named + [AckReceipt(ticket)]);
    }

    method Take(e: Env) returns (origin: Option<From<Env>>)
      modifies this`outstanding
      ensures origin == if Receipt(e).Some? && Receipt(e).value in old(outstanding)
                        then Some(old(outstanding)[Receipt(e).value]) else None
      ensures outstanding == if origin.Some? then old(outstanding) - {Receipt(e).value} else old(outstanding)
    {
      var ticket := Receipt(e);
      if ticket.None? || ticket.value !in outstanding {
        return None;
      }
      origin := Some(outstanding[ticket.value]);
      outstanding := outstanding - {ticket.value};
    }

    /** `ack` and `reject`: what is forwarded, and to which receiver, if anything is. */
    method Settle(e: Env, kind: Kind) returns (forwarded: Option<From<Env>>)
      requires Valid()
      modifies this`outstanding, this`settled
      ensures Valid()
      ensures Receipt(e).Some? && Receipt(e).value >= 0 ==> Book() == Settled(old(Book()), Receipt(e).value, kind)
      ensures Receipt(e).None? || Receipt(e).value !in old(outstanding) ==> forwarded == None && Book() == old(Book())
      ensures Receipt(e).Some? && Receipt(e).value in old(outstanding) ==>
                var f := old(outstanding)[Receipt(e).value];
                forwarded == Some(From(f.position, Restored(e, f.envelope)))
    {
      ghost var before := Model();
      var origin := Take(e);
      if origin.None? {
        return None;
      }
      settled := settled + [Settlement(Receipt(e).value, origin.value, kind)];
      assert Model() == Apply(before, Move.Settle(Receipt(e).value, kind));
      ApplyKeeps(before, Move.Settle(Receipt(e).value, kind));
      forwarded := Some(From(origin.value.position, Restored(e, origin.value.envelope)));
    }

    /** A fetch ends: the receiver at `p` delivered, ran dry, failed, or was cancelled. */
    method FetchEnds(p: nat, outcome: Fetch<Env>)
      requires Valid()
      modifies this`fetch, this`arrived, this`since, this`dry
      ensures Valid() && Model() == Apply(old(Model()), Move.FetchEnds(p, outcome))
    {
      ApplyKeeps(Model(), Move.FetchEnds(p, outcome));
      if p in fetch && fetch[p].Pending? && !outcome.Pending? && (outcome.Cancelled? ==> phase.Abandoning?) {
        fetch := fetch[p := outcome];
        if outcome.Ready? {
          arrived := arrived + [From(p, outcome.envelope)];
          since := since[p := |out|];
        } else if outcome.Exhausted? {
          dry := dry + {p};
        }
      }
    }

    /** `get`: the generator starts by handing out what was left over. */
    method Get()
      requires Valid()
      modifies this`phase
      ensures Valid() && Model() == Apply(old(Model()), Move.Get)
    {
      ApplyKeeps(Model(), Move.Get);
      if phase.Idle? {
        phase := Serving;
      }
    }

    /** The consumer closes the generator, or is cancelled while it waits. */
    method Close()
      requires Valid()
      modifies this`phase
      ensures Valid() && Model() == Apply(old(Model()), Move.Close)
    {
      ApplyKeeps(Model(), Move.Close);
      if phase.Serving? {
        phase := Idle;
      } else if phase.Waiting? || phase.Round? {
        phase := Abandoning;
      }
    }

    /** One step of the generator, and what it yields if it yields. */
    method Advance() returns (yielded: Option<Env>)
      requires Valid()
      modifies this
      ensures Valid() && Model() == Apply(old(Model()), Move.Advance)
      ensures yielded.Some? <==> Handing(old(Model())) != []
      ensures yielded.Some? ==>
                var f := Handing(old(Model()))[0];
                (names.Some? ==> f.position < |names.value|) && HandedOn(yielded.value, f, old(tickets))
    {
      ApplyKeeps(Model(), Move.Advance);
      yielded := None;
      match phase
      case Idle =>
      case Serving => yielded := ServeOrOpen();
      case Waiting => WakeUp();
      case Round(todo) =>
        if todo == [] {
          phase := Waiting;
        } else if todo[0] in fetch {
          yielded := ProcessDone();
        }
      case Abandoning =>
        if forall p | p in fetch :: !fetch[p].Pending? {
          AbandonAll();
        }
    }

    method AbandonAll()
      modifies this
      ensures Model() == Abandon(old(Model()))
    {
      KeepDelivered();
      order, fetch, phase := [], map[], Idle;
    }

    /** `while self._leftovers`, then one stream and one first fetch per receiver. */
    method ServeOrOpen() returns (yielded: Option<Env>)
      requires Valid() && phase.Serving?
      modifies this
      ensures Model() == Advanced(old(Model()))
      ensures yielded.Some? <==> old(leftovers) != []
      ensures yielded.Some? ==>
                var f := old(leftovers)[0];
                (names.Some? ==> f.position < |names.value|) && HandedOn(yielded.value, f, old(tickets))
    {
      yielded := None;
      if leftovers != [] {
        var f := leftovers[0];
        leftovers := leftovers[1..];
        yielded := SomeTicketed(f);
      } else {
        order := Upto(receivers);
        fetch := map p | p in Upto(receivers) :: Pending;
        dry := {};
        phase := Waiting;
      }
    }

    /** The wait returns what completed by then; with no receiver left the collection is over. */
    method WakeUp()
      requires phase.Waiting?
      modifies this`phase
      ensures Model() == Advanced(old(Model()))
    {
      if order == [] {
        phase := Idle;
      } else {
        var done := SortedDone();
        if done != [] {
          phase := Round(done);
        }
      }
    }

    method SomeTicketed(f: From<Env>) returns (yielded: Option<Env>)
      requires names.Some? ==> f.position < |names.value|
      modifies this`outstanding, this`tickets, this`out
      ensures Book() == Hand(old(Book()), f)
      ensures yielded.Some? && HandedOn(yielded.value, f, old(tickets))
    {
      var stamped := Ticketed(f);
      yielded := Some(stamped);
    }

    /** The completed fetches, those given first served first. */
    method SortedDone() returns (done: seq<nat>)
      ensures done == Completed(Model(), receivers)
    {
      done := [];
      for p := 0 to receivers
        invariant done == Completed(Model(), p)
      {
        if p in fetch && !fetch[p].Pending? {
          done := done + [p];
        }
      }
    }

    /** One completed fetch of a round: wait for the next message of its receiver before handing it out. */
    method ProcessDone() returns (yielded: Option<Env>)
      requires phase.Round? && phase.todo != [] && phase.todo[0] in fetch
      requires names.Some? ==> phase.todo[0] < |names.value|
      modifies this
      ensures Model() == Process(old(Model()))
      ensures var outcome := old(fetch)[old(phase).todo[0]];
              && (yielded.Some? <==> outcome.Ready?)
              && (yielded.Some? ==> HandedOn(yielded.value, From(old(phase).todo[0], outcome.envelope), old(tickets)))
    {
      var p, rest := phase.todo[0], phase.todo[1..];
      var outcome := fetch[p];
      order, fetch := Without(order, p), fetch - {p};
      yielded := None;
      if outcome.Ready? {
        order, fetch := order + [p], fetch[p := Pending];
        yielded := SomeTicketed(From(p, outcome.envelope));
        phase := Round(rest);
      } else if outcome.Exhausted? {
        phase := Round(rest);
      } else {
        phase := Abandoning;
      }
    }

    /** `_abandon`: keep what a fetch delivered as it was stopped. */
    method KeepDelivered()
      modifies this`leftovers
      ensures leftovers == old(leftovers) + Delivered(fetch, order)
    {
      for i := 0 to |order|
        invariant leftovers + Delivered(fetch, order[i..]) == old(leftovers) + Delivered(fetch, order)
      {
        assert order[i..][0] == order[i] && order[i..][1..] == order[i + 1..];
        if order[i] in fetch && fetch[order[i]].Ready? {
          var f := From(order[i], fetch[order[i]].envelope);
          Associates(leftovers, [f], Delivered(fetch, order[i + 1..]));
          leftovers := leftovers + [f];
        } else {
          assert [] + Delivered(fetch, order[i + 1..]) == Delivered(fetch, order[i + 1..]);
        }
      }
      assert leftovers + [] == leftovers;
    }
  }
}

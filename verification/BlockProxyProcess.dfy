/** The block proxy as a component: its cache of request pairs, the two copy
    callbacks and the event handler. */
module BlockProxyProcess {
  import opened Basics
  import opened Block
  import opened BlockClient
  import opened BlockProxy
  import opened BlockProxyTheorems

  class Proxy {
    const p: Params
    const client: Client
    var slots: seq<Slot>
    ghost var hist: seq<seq<Note>>

    constructor (p: Params)
      ensures Valid() && Now() == Start() && this.p == p && fresh(client) && fresh(client.cache)
      ensures Inv(p, Now())
    {
      this.p := p;
      client := new Client(p.client);
      slots := seq(Slots, _ => InitialSlot());
      hist := seq(Slots, _ => []);
      new;
      assert client.cache[..] == seq(CacheSize, _ => Free);
      StartHolds(p);
    }

    ghost predicate Valid()
      reads this, client
    {
      client.cache.Length == CacheSize && |slots| == Slots == |hist| && client.tag == p.client
    }

    ghost function Now(): State
      reads this, client, client.cache
    {
      State(slots, client.flight, client.queue, client.cache[..], hist)
    }

    /** The Write callback: fill the packet's buffer from the front, byte by byte. */
    method Write(i: nat, d: array<Byte>)
      requires Valid() && i < Slots
      requires |slots[i].front| == p.blockSize * slots[i].s.length
      requires slots[i].c.content == d[..]
      modifies d, this`slots
      ensures Valid() && slots == old(slots)[i := slots[i]]
      ensures Fill(p, old(slots[i])) == slots[i].(c := slots[i].c.(content := d[..]))
    {
      var x := slots[i];
      if x.s.status == Pending && ServerKind(x.s.code) == Block.Write
         && x.s.session == p.server && d.Length == p.blockSize * x.s.length {
        for j := 0 to d.Length
          invariant d[..j] == x.front[..j] && slots == old(slots)
        {
          d[j] := x.front[j];
          assert x.front[..j + 1] == x.front[..j] + [x.front[j]];
        }
        assert d[..] == x.front;
      } else {
        slots := slots[i := x.(a := true)];
      }
    }

    /** The Read callback: the packet's bytes go to the front, one by one. */
    method Read(i: nat, d: seq<Byte>)
      requires Valid() && i < Slots && d == slots[i].c.content
      requires |slots[i].front| == p.blockSize * slots[i].s.length
      modifies this`slots
      ensures slots == old(slots)[i := Deliver(p, old(slots[i]))]
    {
      var x := slots[i];
      if x.s.status == Pending && ServerKind(x.s.code) == Block.Read
         && x.s.session == p.server && |d| == p.blockSize * x.s.length {
        for j := 0 to |d|
          invariant |slots| == Slots && |slots[i].front| == |d|
          invariant slots[i].front[..j] == d[..j]
          invariant slots == old(slots)[i := x.(front := slots[i].front)]
        {
          slots := slots[i := x.(front := slots[i].front[j := d[j]])];
          assert d[..j + 1] == d[..j] + [d[j]];
        }
        assert slots[i].front == d;
      } else {
        slots := slots[i := x.(a := true)];
      }
    }

    /** The server library's `Process`. */
    method Process(i: nat, incoming: Option<Incoming>)
      requires Valid() && i < Slots && slots[i].s.status == Raw
      modifies this`slots, this`hist
      ensures Valid()
      ensures incoming.None? ==> slots == old(slots) && hist == old(hist)
      ensures incoming.Some? ==>
        && slots == old(slots)[i := old(slots[i]).(s := ServerRequest(incoming.value.code, incoming.value.start, incoming.value.length, Pending, p.server),
                                                    front := incoming.value.data)]
        && hist == old(hist)[i := old(hist[i]) + [Accepted(incoming.value.code, incoming.value.start, incoming.value.length, incoming.value.data)]]
    {
      if incoming.Some? {
        var r := incoming.value;
        slots := slots[i := slots[i].(s := ServerRequest(r.code, r.start, r.length, Pending, p.server), front := r.data)];
        hist := hist[i := hist[i] + [Accepted(r.code, r.start, r.length, r.data)]];
      }
    }

    /** The server library's `Acknowledge`: without room in the queue the request
        stays as it is. */
    method Acknowledge(i: nat, res: Status, env: Env)
      requires Valid() && i < Slots
      modifies this`slots, this`hist
      ensures Valid() && Now() == Acked(old(Now()), i, res, env)
    {
      var success := res == Ok;
      if env.ackOk {
        slots := slots[i := slots[i].(s := slots[i].s.(status := Raw))];
        hist := hist[i := hist[i] + [Acknowledged(success, slots[i].front)]];
      }
    }

    /** The client library's `Enqueue`. */
    method Enqueue(i: nat)
      requires Valid() && i < Slots
      modifies this`slots, this`hist, client`flight
      ensures Valid() && Now() == Submitted(old(Now()), i)
    {
      var c := slots[i].c;
      var c' := client.Enqueue(c);
      slots := slots[i := slots[i].(c := c')];
      hist := hist[i := hist[i] + [Enqueued(c.packet.opcode, c.packet.start, c.packet.count, c.content)]];
    }

    /** A front request that is free: release what is behind it, take a new one. */
    method Take(i: nat, env: Env)
      requires Valid() && i < Slots
      modifies this`slots, this`hist
      ensures Valid() && Now() == Processed(p, Released(p, old(Now()), i), i, env)
    {
      if slots[i].s.status == Raw {
        if (slots[i].c.status == Ok || slots[i].c.status == Error) && slots[i].c.session == client.tag {
          slots := slots[i := slots[i].(c := slots[i].c.(status := Raw), a := false)];
        }
        if slots[i].c.status == Raw {
          Process(i, env.incoming);
        }
      }
    }

    /** A front request that is pending: ask for the result. */
    method Poll(i: nat)
      requires Valid() && i < Slots
      modifies this`slots, client`queue, client.cache
      ensures Valid() && Now() == Polled(p, old(Now()), i)
    {
      if slots[i].c.status == Pending && slots[i].c.session == client.tag {
        var c := client.UpdateRequest(slots[i].c);
        slots := slots[i := slots[i].(c := c)];
      }
    }

    /** Hand the result on. */
    method Reply(i: nat, env: Env)
      requires Valid() && i < Slots && Inv(p, Now()) && slots[i].s.status == Pending
      modifies this`slots, this`hist
      ensures Valid() && Now() == Replied(p, old(Now()), i, env)
    {
      assert SlotFits(p, Now(), i);
      if (slots[i].c.status == Ok || slots[i].c.status == Error) && slots[i].c.session == client.tag {
        if slots[i].c.status == Ok && ClientKind(slots[i].c.packet.opcode) == Block.Read {
          Read(i, slots[i].c.content);
        }
        if slots[i].s.session == p.server {
          Acknowledge(i, slots[i].c.status, env);
        }
      }
    }

    /** Make the request of the backend. */
    method Issue(i: nat, env: Env)
      requires Valid() && i < Slots && Inv(p, Now())
      requires slots[i].s.status == Pending || slots[i].c.status != Raw
      modifies this`slots, this`hist, client`flight
      ensures Valid() && Now() == Issued(p, old(Now()), i, env)
    {
      assert SlotFits(p, Now(), i);
      if slots[i].c.status == Raw {
        var x := slots[i];
        var c, e := client.AllocateRequest(x.c, ServerKind(x.s.code), x.s.start, x.s.length, i, Memory(p, x.s.length, env));
        slots := slots[i := x.(c := c)];
        match e
        case Success =>
          if ClientKind(c.packet.opcode) == Block.Write {
            var d := new Byte[|c.content|](j requires 0 <= j < |c.content| => c.content[j]);
            assert d[..] == c.content;
            Write(i, d);
            slots := slots[i := slots[i].(c := slots[i].c.(content := d[..]))];
          }
          Enqueue(i);
        case Retry =>
        case OutOfMemory => slots := slots[i := slots[i].(a := true)];
        case Unsupported => slots := slots[i := slots[i].(a := true)];
      }
    }

    /** A failed front request is acknowledged as it is. */
    method Refuse(i: nat, env: Env)
      requires Valid() && i < Slots
      modifies this`slots, this`hist
      ensures Valid() && Now() == Refused(p, old(Now()), i, env)
    {
      if slots[i].s.status == Error && slots[i].s.session == p.server {
        Acknowledge(i, Error, env);
      }
    }

    /** An allocated request that was not enqueued yet. */
    method Flush(i: nat)
      requires Valid() && i < Slots
      modifies this`slots, this`hist, client`flight
      ensures Valid() && Now() == Flushed(p, old(Now()), i)
    {
      if slots[i].c.status == Allocated && slots[i].c.session == client.tag {
        Enqueue(i);
      }
    }

    /** One round of the loop. */
    method VisitSlot(i: nat, env: Env)
      requires Valid() && i < Slots && Inv(p, Now()) && Enabled(p, Now(), Visited(i, env))
      modifies this`slots, this`hist, client`flight, client`queue, client.cache
      ensures Valid() && Now() == Visit(p, old(Now()), i, env) && Inv(p, Now())
    {
      ghost var st := Now();
      VisitKeeps(p, st, i, env);
      ReleasedKeeps(p, st, i);
      ProcessedKeeps(p, Released(p, st, i), i, env);
      Take(i, env);
      ghost var t := Now();
      NothingRefused(p, t, i, env);
      Refuse(i, env);
      if slots[i].s.status == Pending {
        PolledKeeps(p, t, i);
        Poll(i);
        ghost var u := Now();
        RepliedKeeps(p, u, i, env);
        Reply(i, env);
        ghost var v := Now();
        IssuedKeeps(p, v, i, env);
        Issue(i, env);
        Flush(i);
      }
    }

    /** `Event`: every slot once. */
    method Event(envs: seq<Env>)
      requires Valid() && Inv(p, Now()) && |envs| == Slots
      requires forall i :: 0 <= i < Slots ==> Enabled(p, Now(), Visited(i, envs[i]))
      modifies this`slots, this`hist, client`flight, client`queue, client.cache
      ensures Valid() && Now() == VisitAll(p, old(Now()), envs, Slots) && Inv(p, Now())
    {
      for i := 0 to Slots
        invariant Valid() && Inv(p, Now()) && Now() == VisitAll(p, old(Now()), envs, i)
      {
        VisitSlot(i, envs[i]);
      }
    }
  }

  /** The state after the first `n` slots were visited in turn. */
  ghost function VisitAll(p: Params, st: State, envs: seq<Env>, n: nat): (r: State)
    requires st.Sized() && n <= |envs| == Slots
    ensures r.Sized()
  {
    if n == 0 then st else Visit(p, VisitAll(p, st, envs, n - 1), n - 1, envs[n - 1])
  }
}

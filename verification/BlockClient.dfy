/** The block client's cache of completed requests. Acknowledgements arrive in a
    queue in any order; every update moves some of them into the cache and takes
    the one with the request's tag out of it. */
module BlockClient {
  import opened Basics
  import opened Block

  datatype Ack = Ack(tag: nat, success: bool)

  /** An entry of the cache. */
  datatype Handle = Handle(valid: bool, tag: nat, success: bool)

  const Free := Handle(false, 0, false)

  /** The number of cache entries. */
  const CacheSize: nat := 128

  /** The acknowledgements in a cache. */
  function Held(cache: seq<Handle>): (m: multiset<Ack>)
    ensures |m| <= |cache|
  {
    if cache == [] then multiset{}
    else if cache[0].valid then multiset{Ack(cache[0].tag, cache[0].success)} + Held(cache[1..])
    else Held(cache[1..])
  }

  /** All acknowledgements that are not yet matched with a request. */
  function Unmatched(cache: seq<Handle>, queue: seq<Ack>): multiset<Ack> {
    Held(cache) + multiset(queue)
  }

  /** `Update_Response_Queue`: a free entry takes the next acknowledgement. */
  function Refill(h: Handle, queue: seq<Ack>): (Handle, seq<Ack>) {
    if h.valid || queue == [] then (h, queue) else (Handle(true, queue[0].tag, queue[0].success), queue[1..])
  }

  datatype Updated = Updated(cache: seq<Handle>, queue: seq<Ack>, status: Status)

  /** One pass over the cache for a request with this tag and status. */
  function Update(cache: seq<Handle>, queue: seq<Ack>, tag: nat, status: Status): (u: Updated)
    ensures |u.cache| == |cache|
  {
    if cache == [] then Updated([], queue, status) else
      var (h, q) := Refill(cache[0], queue);
      var hit := h.valid && h.tag == tag;
      var u := Update(cache[1..], q, tag, if hit then StatusOf(h.success) else status);
      Updated([if hit then Free else h] + u.cache, u.queue, u.status)
  }

  /** One entry, then the others. */
  lemma UpdateStep(cache: seq<Handle>, queue: seq<Ack>, tag: nat, status: Status)
    requires cache != []
    ensures var (h, q) := Refill(cache[0], queue);
            var hit := h.valid && h.tag == tag;
            var u := Update(cache[1..], q, tag, if hit then StatusOf(h.success) else status);
            Update(cache, queue, tag, status) == Updated([if hit then Free else h] + u.cache, u.queue, u.status)
  {
  }

  /** The same in place, from entry `i` on. */
  function InPlace(cache: seq<Handle>, i: nat, queue: seq<Ack>, tag: nat, status: Status): Updated
    requires i <= |cache|
    decreases |cache| - i
  {
    if i == |cache| then Updated(cache, queue, status) else
      var (h, q) := Refill(cache[i], queue);
      var hit := h.valid && h.tag == tag;
      InPlace(cache[i := if hit then Free else h], i + 1, q, tag, if hit then StatusOf(h.success) else status)
  }

  lemma {:induction false} InPlaceIs(cache: seq<Handle>, i: nat, queue: seq<Ack>, tag: nat, status: Status)
    requires i <= |cache|
    ensures InPlace(cache, i, queue, tag, status) == Behind(cache[..i], Update(cache[i..], queue, tag, status))
    decreases |cache| - i
  {
    if i < |cache| {
      var (h, q) := Refill(cache[i], queue);
      var hit := h.valid && h.tag == tag;
      var x, st := if hit then Free else h, if hit then StatusOf(h.success) else status;
      var next := cache[i := x];
      assert InPlace(cache, i, queue, tag, status) == InPlace(next, i + 1, q, tag, st);
      InPlaceIs(next, i + 1, q, tag, st);
      UpdateStep(cache[i..], queue, tag, status);
      assert next[i + 1..] == cache[i..][1..] && next[..i + 1] == cache[..i] + [x];
      BehindStep(cache[..i], x, Update(cache[i..][1..], q, tag, st));
    } else {
      assert cache[..i] + [] == cache;
    }
  }

  /** The update of the entries after `done`. */
  function Behind(done: seq<Handle>, u: Updated): Updated { Updated(done + u.cache, u.queue, u.status) }

  lemma BehindStep(done: seq<Handle>, x: Handle, u: Updated)
    ensures Behind(done + [x], u) == Behind(done, Updated([x] + u.cache, u.queue, u.status))
  {
    assert done + [x] + u.cache == done + ([x] + u.cache);
  }

  /** The number of acknowledgements that one pass takes from the queue. */
  function Drained(cache: seq<Handle>, queue: seq<Ack>): (n: nat)
    ensures n <= |queue|
  {
    var free := |cache| - |Held(cache)|;
    if free <= |queue| then free else |queue|
  }

  /** The acknowledgements that one pass looks at. */
  function Seen(cache: seq<Handle>, queue: seq<Ack>): multiset<Ack> {
    Held(cache) + multiset(queue[..Drained(cache, queue)])
  }

  function One(h: Handle): multiset<Ack> {
    if h.valid then multiset{Ack(h.tag, h.success)} else multiset{}
  }

  /** The first entry is looked at, then the others. */
  lemma SeenStep(cache: seq<Handle>, queue: seq<Ack>)
    requires cache != []
    ensures var (h, q) := Refill(cache[0], queue);
            && Seen(cache, queue) == One(h) + Seen(cache[1..], q)
            && queue[Drained(cache, queue)..] == q[Drained(cache[1..], q)..]
  {
    var (h, q) := Refill(cache[0], queue);
    if !cache[0].valid && queue != [] {
      assert One(h) == multiset{queue[0]} && Held(cache) == Held(cache[1..]);
      assert Drained(cache, queue) == 1 + Drained(cache[1..], q);
      assert queue[..Drained(cache, queue)] == [queue[0]] + q[..Drained(cache[1..], q)];
    } else {
      assert Held(cache) == One(h) + Held(cache[1..]);
      assert Drained(cache, queue) == Drained(cache[1..], q);
    }
  }

  /** Without any assumption: a pass empties as much of the queue as the cache
      had room for, and keeps every acknowledgement, except that those with the
      tag are gone from the cache and from the drained part of the queue. */
  lemma {:induction false} UpdateConserves(cache: seq<Handle>, queue: seq<Ack>, tag: nat, status: Status, a: Ack)
    ensures var u := Update(cache, queue, tag, status);
            && u.queue == queue[Drained(cache, queue)..]
            && Held(u.cache)[a] == if a.tag == tag then 0 else Seen(cache, queue)[a]
  {
    if cache != [] {
      var (h, q) := Refill(cache[0], queue);
      var hit := h.valid && h.tag == tag;
      var st := if hit then StatusOf(h.success) else status;
      SeenStep(cache, queue);
      UpdateStep(cache, queue, tag, status);
      UpdateConserves(cache[1..], q, tag, st, a);
      HeldStep(if hit then Free else h, Update(cache[1..], q, tag, st).cache);
    }
  }

  lemma HeldStep(h: Handle, cache: seq<Handle>)
    ensures Held([h] + cache) == One(h) + Held(cache)
  {
    assert ([h] + cache)[1..] == cache;
  }

  /** The status changes exactly if such an acknowledgement was there, and then
      it tells how one of them ended. */
  lemma {:induction false} UpdateResolves(cache: seq<Handle>, queue: seq<Ack>, tag: nat, status: Status)
    ensures var u, seen := Update(cache, queue, tag, status), Seen(cache, queue);
            && (Ack(tag, true) !in seen && Ack(tag, false) !in seen ==> u.status == status)
            && (Ack(tag, true) in seen || Ack(tag, false) in seen ==> exists s :: Ack(tag, s) in seen && u.status == StatusOf(s))
  {
    if cache != [] {
      var (h, q) := Refill(cache[0], queue);
      var st := if h.valid && h.tag == tag then StatusOf(h.success) else status;
      var rest := Seen(cache[1..], q);
      SeenStep(cache, queue);
      UpdateStep(cache, queue, tag, status);
      UpdateResolves(cache[1..], q, tag, st);
      if h.valid && h.tag == tag {
        assert Ack(tag, h.success) in Seen(cache, queue);
      } else {
        assert forall s :: Ack(tag, s) in Seen(cache, queue) <==> Ack(tag, s) in rest;
      }
    }
  }

  /** Every tag is outstanding at most once. */
  ghost predicate DistinctTags(m: multiset<Ack>) {
    forall t: nat :: m[Ack(t, true)] + m[Ack(t, false)] <= 1
  }

  /** With distinct tags, and no more acknowledgements than the cache can hold,
      the request is resolved exactly if its acknowledgement is available, with
      that acknowledgement's result, and all others stay. */
  lemma UpdateFinds(cache: seq<Handle>, queue: seq<Ack>, tag: nat, status: Status)
    requires DistinctTags(Unmatched(cache, queue))
    requires |Unmatched(cache, queue)| <= |cache|
    ensures var u, m := Update(cache, queue, tag, status), Unmatched(cache, queue);
            && u.queue == []
            && (forall s :: Ack(tag, s) in m ==> u.status == StatusOf(s) && Unmatched(u.cache, u.queue) == m - multiset{Ack(tag, s)})
            && (Ack(tag, true) !in m && Ack(tag, false) !in m ==> u.status == status && Unmatched(u.cache, u.queue) == m)
  {
    var u, m := Update(cache, queue, tag, status), Unmatched(cache, queue);
    assert Drained(cache, queue) == |queue| && queue[..|queue|] == queue;
    assert m == Seen(cache, queue);
    UpdateResolves(cache, queue, tag, status);
    UpdateConserves(cache, queue, tag, status, Ack(tag, true));
    var n := Unmatched(u.cache, u.queue);
    forall a: Ack
      ensures n[a] == if a.tag == tag then 0 else m[a]
    {
      UpdateConserves(cache, queue, tag, status, a);
    }
    assert m[Ack(tag, true)] + m[Ack(tag, false)] <= 1;
    forall s | Ack(tag, s) in m
      ensures u.status == StatusOf(s) && n == m - multiset{Ack(tag, s)}
    {
      TakeOut(m, n, tag, s);
    }
    if Ack(tag, true) !in m && Ack(tag, false) !in m {
      forall a: Ack ensures n[a] == m[a] { BothResults(a, tag); }
    }
  }

  lemma BothResults(a: Ack, tag: nat)
    ensures a.tag == tag ==> a == Ack(tag, true) || a == Ack(tag, false)
  {
  }

  /** Taking the only acknowledgement with a tag out. */
  lemma TakeOut(m: multiset<Ack>, n: multiset<Ack>, tag: nat, s: bool)
    requires Ack(tag, s) in m && m[Ack(tag, true)] + m[Ack(tag, false)] <= 1
    requires forall a: Ack :: n[a] == if a.tag == tag then 0 else m[a]
    ensures n == m - multiset{Ack(tag, s)}
  {
    forall a: Ack ensures n[a] == (m - multiset{Ack(tag, s)})[a] {
      BothResults(a, tag);
    }
  }

  /** More acknowledgements than cache entries: the one that is needed may stay
      behind the others in the queue. */
  lemma {:induction false} FullCacheBlocks(cache: seq<Handle>, queue: seq<Ack>, tag: nat, status: Status)
    requires forall i :: 0 <= i < |cache| ==> cache[i].valid && cache[i].tag != tag
    ensures Update(cache, queue, tag, status) == Updated(cache, queue, status)
  {
    if cache != [] {
      FullCacheBlocks(cache[1..], queue, tag, status);
      assert [cache[0]] + cache[1..] == cache;
    }
  }

  /* ---- The requests ---- */

  /** The operation handed to the backend. `count` is 0 if it was not allocated. */
  datatype Packet = Packet(opcode: int, start: nat, count: nat, tag: nat)

  /** A client's request with the content of its packet. */
  datatype Request = Request(packet: Packet, content: seq<Byte>, status: Status, session: Option<nat>)

  const Fresh := Request(Packet(0, 0, 0, 0), [], Raw, Option.None)

  /** The client's connection: the packets that the backend works on, the queue
      of acknowledgements, and the cache. */
  class Client {
    const tag: Option<nat>
    var flight: seq<Packet>
    var queue: seq<Ack>
    const cache: array<Handle>

    constructor (tag: Option<nat>)
      ensures this.tag == tag && flight == [] && queue == [] && fresh(cache)
      ensures cache[..] == seq(CacheSize, _ => Free) && Held(cache[..]) == multiset{}
    {
      this.tag, flight, queue := tag, [], [];
      cache := new Handle[CacheSize](_ => Free);
      new;
      NothingHeld(cache[..]);
    }

    /** `Update_Response_Queue` for entry `i`. */
    method UpdateResponseQueue(i: nat)
      requires i < cache.Length
      modifies cache, this`queue
      ensures cache[..] == old(cache[..])[i := Refill(old(cache[i]), old(queue)).0]
      ensures queue == Refill(old(cache[i]), old(queue)).1
    {
      if !cache[i].valid {
        if queue != [] {
          cache[i] := Handle(true, queue[0].tag, queue[0].success);
          queue := queue[1..];
        }
      }
    }

    /** `Update_Request`. */
    method UpdateRequest(r: Request) returns (r': Request)
      modifies cache, this`queue
      ensures var u := Update(old(cache[..]), old(queue), r.packet.tag, r.status);
              cache[..] == u.cache && queue == u.queue && r' == r.(status := u.status)
    {
      r' := r;
      var i := 0;
      ghost var whole := Update(cache[..], queue, r.packet.tag, r.status);
      InPlaceIs(cache[..], 0, queue, r.packet.tag, r.status);
      assert cache[..][0..] == cache[..];
      while i < cache.Length
        invariant i <= cache.Length && r' == r.(status := r'.status)
        invariant InPlace(cache[..], i, queue, r.packet.tag, r'.status) == whole
      {
        ghost var was := cache[..];
        UpdateResponseQueue(i);
        if cache[i].valid && cache[i].tag == r.packet.tag {
          r' := r'.(status := StatusOf(cache[i].success));
          cache[i] := Free;
        }
        assert cache[..] == was[i := cache[i]];
        i := i + 1;
      }
    }

    /** `Allocate_Request`; `content` is the packet's memory if there is any. */
    method AllocateRequest(r: Request, kind: RequestKind, start: nat, length: nat, id: nat, content: Option<seq<Byte>>) returns (r': Request, e: Result)
      ensures (r', e) == Allocate(tag, r, kind, start, length, id, content)
    {
      r' := r.(packet := r.packet.(count := 0), session := tag);
      var res := 0;
      if Opcode(kind) == 0 || Opcode(kind) == 1 {
        if content.Some? {
          r' := r'.(packet := Packet(Opcode(kind), start, length, id), content := content.value);
        } else {
          res := 1;
        }
      }
      if r'.packet.count > 0 && res == 0 {
        r' := r'.(status := Allocated);
        e := Success;
      } else if res == 1 {
        e := OutOfMemory;
      } else {
        e := Unsupported;
      }
    }

    /** `Enqueue`. */
    method Enqueue(r: Request) returns (r': Request)
      modifies this`flight
      ensures flight == old(flight) + [r.packet] && r' == r.(status := Pending)
    {
      flight := flight + [r.packet];
      r' := r.(status := Pending);
    }
  }

  lemma NothingHeld(cache: seq<Handle>)
    requires forall i :: 0 <= i < |cache| ==> !cache[i].valid
    ensures Held(cache) == multiset{}
  {
  }

  /** The outcome of `Allocate_Request`: only reads and writes of at least one
      block, for which there is memory, are allocated. */
  function Allocate(tag: Option<nat>, r: Request, kind: RequestKind, start: nat, length: nat, id: nat, content: Option<seq<Byte>>): (p: (Request, Result))
    ensures p.1 == Success <==> (kind == Read || kind == Write) && length > 0 && content.Some?
    ensures p.1 == Success ==> p.0 == Request(Packet(if kind == Read then 0 else 1, start, length, id), content.value, Allocated, tag)
    ensures p.1 != Success ==> p.0.status == r.status && p.0.packet.count == 0 && p.1 in {OutOfMemory, Unsupported}
  {
    var failed := r.(packet := r.packet.(count := 0), session := tag);
    if kind == Read || kind == Write then
      if content.None? then (failed, OutOfMemory)
      else
        var got := failed.(packet := Packet(Opcode(kind), start, length, id), content := content.value);
        if length > 0 then (got.(status := Allocated), Success) else (got, Unsupported)
    else (failed, Unsupported)
  }
}

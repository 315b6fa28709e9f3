/** What every run of the block proxy keeps: one token per outstanding request,
    and a history in which every request is executed exactly once. */
module BlockProxyTheorems {
  import opened Basics
  import opened Block
  import opened BlockClient
  import opened BlockProxy

  /* ---- Histories ---- */

  /** A history goes round Accepted, Enqueued, Completed, Acknowledged: the
      backend gets the accepted request, a read (1 at the front, 0 at the
      backend) or a write (2 and 1), and the front gets the backend's result; a
      read's data come from the backend, a write's go there. */
  ghost predicate Follows(h: seq<Note>, n: Note) {
    var l := |h|;
    if l % 4 == 0 then n.Accepted?
    else if l % 4 == 1 then
      && n.Enqueued? && h[l - 1].Accepted?
      && (n.start, n.length) == (h[l - 1].start, h[l - 1].length) && n.length > 0
      && ((h[l - 1].code == 1 && n.opcode == 0) || (h[l - 1].code == 2 && n.opcode == 1 && n.data == h[l - 1].data))
    else if l % 4 == 2 then
      && n.Completed? && h[l - 1].Enqueued?
      && (h[l - 1].opcode == 1 ==> n.data == h[l - 1].data)
    else
      && n.Acknowledged? && h[l - 1].Completed? && h[l - 3].Accepted?
      && n.success == h[l - 1].success
      && n.data == if n.success && h[l - 3].code == 1 then h[l - 1].data else h[l - 3].data
  }

  ghost predicate Lawful(h: seq<Note>) {
    forall k :: 0 <= k < |h| ==> Follows(h[..k], h[k])
  }

  lemma LawfulGrows(h: seq<Note>, n: Note)
    requires Lawful(h) && Follows(h, n)
    ensures Lawful(h + [n])
  {
    forall k | 0 <= k <= |h| ensures Follows((h + [n])[..k], (h + [n])[k]) {
      assert (h + [n])[..k] == h[..k];
      if k == |h| { assert h[..k] == h; }
    }
  }

  /** One note takes the history to the next place of its round. */
  lemma GrowsTo(h: seq<Note>, n: Note, ph: nat)
    requires |h| % 4 == ph
    ensures |h + [n]| % 4 == (if ph == 3 then 0 else ph + 1) && (h + [n])[|h|] == n
    ensures forall k :: 0 <= k < |h| ==> (h + [n])[k] == h[k]
  {
  }

  /* ---- The invariant ---- */

  function InFlight(flight: seq<Packet>, tag: nat): nat {
    if flight == [] then 0 else (if flight[0].tag == tag then 1 else 0) + InFlight(flight[1..], tag)
  }

  ghost function Acks(st: State): multiset<Ack> { Unmatched(st.cache, st.queue) }

  /** How many tokens with a tag there are in the backend, the queue and the cache. */
  ghost function Tokens(st: State, tag: nat): nat {
    InFlight(st.flight, tag) + Acks(st)[Ack(tag, true)] + Acks(st)[Ack(tag, false)]
  }

  /** The packet is made from the front request. */
  ghost predicate SameRequest(p: Params, x: Slot, i: nat) {
    && (x.s.code == 1 || x.s.code == 2) && x.s.length > 0
    && x.c.packet == Packet(if x.s.code == 1 then 0 else 1, x.s.start, x.s.length, i)
    && |x.c.content| == p.blockSize * x.s.length
  }

  /** Where a slot is in its round, from its two requests alone. */
  function Phase(x: Slot, flying: bool): nat {
    if x.s.status == Raw then 0
    else if x.c.status == Raw then 1
    else if flying then 2 else 3
  }

  ghost predicate HistoryFits(x: Slot, h: seq<Note>, ph: nat)
    requires ph == |h| % 4
  {
    match ph
    case 0 => true
    case 1 => h[|h| - 1] == Accepted(x.s.code, x.s.start, x.s.length, x.front)
    case 2 =>
      && h[|h| - 2] == Accepted(x.s.code, x.s.start, x.s.length, x.front)
      && h[|h| - 1] == Enqueued(x.c.packet.opcode, x.s.start, x.s.length, x.c.content)
    case _ =>
      && h[|h| - 3].Accepted? && h[|h| - 3].code == x.s.code
      && (x.front == h[|h| - 3].data || (x.c.status == Ok && x.s.code == 1 && x.front == x.c.content))
      && h[|h| - 1].Completed? && h[|h| - 1].data == x.c.content
      && (Done(x.c.status) ==> h[|h| - 1].success == (x.c.status == Ok))
  }

  /** `flying` packets, and acknowledgements of success and of failure, carry
      the slot's tag. */
  ghost predicate SlotOk(p: Params, x: Slot, h: seq<Note>, i: nat, flying: nat, yes: nat, no: nat) {
    && Lawful(h)
    && (x.s.status == Raw || x.s.status == Pending)
    && x.c.status != Allocated
    && (x.s.status == Raw ==> x.c.status != Pending)
    && flying + yes + no == (if x.c.status == Pending then 1 else 0)
    && |h| % 4 == Phase(x, flying > 0)
    && (x.s.status == Pending ==> x.s.session == p.server && |x.front| == p.blockSize * x.s.length)
    && (x.c.status != Raw ==> x.c.session == p.client)
    && (x.s.status == Pending && x.c.status != Raw ==> SameRequest(p, x, i))
    && HistoryFits(x, h, |h| % 4)
    && (yes > 0 ==> h[|h| - 1].success)
    && (no > 0 ==> !h[|h| - 1].success)
  }

  ghost predicate SlotFits(p: Params, st: State, i: nat)
    requires st.Sized() && i < Slots
  {
    SlotOk(p, st.slots[i], st.hist[i], i, InFlight(st.flight, i), Acks(st)[Ack(i, true)], Acks(st)[Ack(i, false)])
  }

  ghost predicate Inv(p: Params, st: State) {
    && st.Sized()
    && (forall k :: 0 <= k < |st.flight| ==> st.flight[k].tag < Slots && st.flight[k] == st.slots[st.flight[k].tag].c.packet)
    && (forall a :: a in Acks(st) ==> a.tag < Slots)
    && (forall i :: 0 <= i < Slots ==> SlotFits(p, st, i))
  }

  /* ---- Counting ---- */

  lemma {:induction false} NoneInFlight(flight: seq<Packet>, tag: nat, k: nat)
    requires k < |flight| && flight[k].tag == tag
    ensures InFlight(flight, tag) > 0
  {
    if k > 0 { NoneInFlight(flight[1..], tag, k - 1); }
  }

  lemma {:induction false} InFlightAppend(flight: seq<Packet>, q: Packet, tag: nat)
    ensures InFlight(flight + [q], tag) == InFlight(flight, tag) + if q.tag == tag then 1 else 0
  {
    if flight != [] {
      assert (flight + [q])[1..] == flight[1..] + [q];
      InFlightAppend(flight[1..], q, tag);
    } else {
      assert (flight + [q])[1..] == [];
    }
  }

  lemma {:induction false} InFlightRemove(flight: seq<Packet>, k: nat, tag: nat)
    requires k < |flight|
    ensures InFlight(flight, tag) == InFlight(flight[..k] + flight[k + 1..], tag) + if flight[k].tag == tag then 1 else 0
  {
    if k > 0 {
      InFlightRemove(flight[1..], k - 1, tag);
      assert (flight[..k] + flight[k + 1..])[1..] == flight[1..][..k - 1] + flight[1..][k..];
    } else {
      assert flight[..k] + flight[k + 1..] == flight[1..];
    }
  }

  /** At most one acknowledgement for each of n tags: at most n in all. */
  lemma {:induction false} AtMostOneEach(m: multiset<Ack>, n: nat)
    requires forall a :: a in m ==> a.tag < n
    requires forall t: nat :: t < n ==> m[Ack(t, true)] + m[Ack(t, false)] <= 1
    ensures |m| <= n
    decreases n
  {
    if n == 0 {
      assert m == multiset{};
    } else {
      var t := n - 1;
      var a := Ack(t, m[Ack(t, true)] > 0);
      var r := m - multiset{a};
      forall b | b in r ensures b.tag < t { BothResults(b, t); }
      AtMostOneEach(r, t);
      assert |m| <= |r| + 1;
    }
  }

  /** The same, with the packets that the backend works on. */
  lemma {:induction false} AtMostOneToken(m: multiset<Ack>, flight: seq<Packet>, n: nat)
    requires forall a :: a in m ==> a.tag < n
    requires forall k :: 0 <= k < |flight| ==> flight[k].tag < n
    requires forall t: nat :: t < n ==> InFlight(flight, t) + m[Ack(t, true)] + m[Ack(t, false)] <= 1
    ensures |m| + |flight| <= n
    decreases |flight|
  {
    if flight == [] {
      forall t: nat | t < n ensures m[Ack(t, true)] + m[Ack(t, false)] <= 1 { assert InFlight(flight, t) == 0; }
      AtMostOneEach(m, n);
    } else {
      var r := m + multiset{Ack(flight[0].tag, true)};
      forall t: nat | t < n ensures InFlight(flight[1..], t) + r[Ack(t, true)] + r[Ack(t, false)] <= 1 {
        assert InFlight(flight, t) == (if flight[0].tag == t then 1 else 0) + InFlight(flight[1..], t);
      }
      AtMostOneToken(r, flight[1..], n);
    }
  }

  /** At most 64 completions are outstanding: the cache always has room, and no
      two have the same tag. */
  lemma FewOutstanding(p: Params, st: State)
    requires Inv(p, st)
    ensures |Acks(st)| + |st.flight| <= Slots < CacheSize
    ensures DistinctTags(Acks(st))
  {
    forall t: nat | t < Slots ensures InFlight(st.flight, t) + Acks(st)[Ack(t, true)] + Acks(st)[Ack(t, false)] <= 1 {
      assert SlotFits(p, st, t);
    }
    AtMostOneToken(Acks(st), st.flight, Slots);
    forall t: nat ensures Acks(st)[Ack(t, true)] + Acks(st)[Ack(t, false)] <= 1 {
      if t >= Slots { assert Ack(t, true) !in Acks(st) && Ack(t, false) !in Acks(st); }
    }
  }

  /* ---- Every part of a visit keeps the invariant ---- */

  /** Only slot `i` and its history change. */
  lemma LocalStep(p: Params, st: State, t: State, i: nat)
    requires Inv(p, st) && t.Sized() && i < Slots
    requires t == st.(slots := st.slots[i := t.slots[i]], hist := st.hist[i := t.hist[i]])
    requires t.slots[i].c.packet == st.slots[i].c.packet || InFlight(st.flight, i) == 0
    requires SlotFits(p, t, i)
    ensures Inv(p, t)
  {
    forall j | 0 <= j < Slots && j != i ensures SlotFits(p, t, j) { assert SlotFits(p, st, j); }
    forall k | 0 <= k < |st.flight| ensures st.flight[k] == t.slots[st.flight[k].tag].c.packet {
      if st.flight[k].tag == i { NoneInFlight(st.flight, i, k); }
    }
  }

  lemma ReleasedKeeps(p: Params, st: State, i: nat)
    requires Inv(p, st) && i < Slots
    ensures Inv(p, Released(p, st, i))
    ensures var x := Released(p, st, i).slots[i]; x.s == st.slots[i].s && (x.s.status == Raw ==> x.c.status == Raw)
  {
    assert SlotFits(p, st, i);
    LocalStep(p, st, Released(p, st, i), i);
  }

  lemma ProcessedKeeps(p: Params, st: State, i: nat, env: Env)
    requires Inv(p, st) && i < Slots && Enabled(p, st, Visited(i, env))
    ensures Inv(p, Processed(p, st, i, env))
  {
    assert SlotFits(p, st, i);
    var t := Processed(p, st, i, env);
    if t != st {
      LawfulGrows(st.hist[i], t.hist[i][|st.hist[i]|]);
      LocalStep(p, st, t, i);
    }
  }

  /** The library never makes a server request fail by itself. */
  lemma NothingRefused(p: Params, st: State, i: nat, env: Env)
    requires Inv(p, st) && i < Slots
    ensures Refused(p, st, i, env) == st
  {
    assert SlotFits(p, st, i);
  }

  lemma PolledSlot(p: Params, x: Slot, h: seq<Note>, i: nat, flying: nat, yes: nat, no: nat, status: Status)
    requires SlotOk(p, x, h, i, flying, yes, no) && x.s.status == Pending && x.c.status == Pending
    requires status == if yes > 0 then Ok else if no > 0 then Error else Pending
    ensures SlotOk(p, x.(c := x.c.(status := status)), h, i, flying, 0, 0)
  {
  }

  lemma PolledAcks(p: Params, st: State, i: nat)
    requires Inv(p, st) && i < Slots
    ensures var u, m := Update(st.cache, st.queue, i, Pending), Acks(st);
            var n := Unmatched(u.cache, u.queue);
            && u.status == (if m[Ack(i, true)] > 0 then Ok else if m[Ack(i, false)] > 0 then Error else Pending)
            && (forall a: Ack :: n[a] == if a.tag == i then 0 else m[a])
  {
    var u, m := Update(st.cache, st.queue, i, Pending), Acks(st);
    var n := Unmatched(u.cache, u.queue);
    FewOutstanding(p, st);
    UpdateFinds(st.cache, st.queue, i, Pending);
    OneTaken(m, n, i, u.status);
  }

  lemma OneTaken(m: multiset<Ack>, n: multiset<Ack>, i: nat, status: Status)
    requires m[Ack(i, true)] + m[Ack(i, false)] <= 1
    requires forall s :: Ack(i, s) in m ==> status == StatusOf(s) && n == m - multiset{Ack(i, s)}
    requires Ack(i, true) !in m && Ack(i, false) !in m ==> status == Pending && n == m
    ensures status == (if m[Ack(i, true)] > 0 then Ok else if m[Ack(i, false)] > 0 then Error else Pending)
    ensures forall a: Ack :: n[a] == if a.tag == i then 0 else m[a]
  {
    forall a: Ack ensures n[a] == if a.tag == i then 0 else m[a] { BothResults(a, i); }
  }

  lemma PolledKeeps(p: Params, st: State, i: nat)
    requires Inv(p, st) && i < Slots && st.slots[i].s.status == Pending
    ensures Inv(p, Polled(p, st, i)) && Polled(p, st, i).slots[i].s.status == Pending
  {
    assert SlotFits(p, st, i);
    var x, m := st.slots[i], Acks(st);
    if x.c.status == Pending {
      var t := Polled(p, st, i);
      PolledAcks(p, st, i);
      PolledSlot(p, x, st.hist[i], i, InFlight(st.flight, i), m[Ack(i, true)], m[Ack(i, false)], t.slots[i].c.status);
      forall a | a in Acks(t) ensures a.tag < Slots { assert Acks(t)[a] > 0; assert a in m; }
      forall j | 0 <= j < Slots ensures SlotFits(p, t, j) { assert SlotFits(p, st, j); }
    }
  }

  /** In a run the guard of the Read callback holds whenever it is called. */
  lemma DeliverCopies(p: Params, st: State, i: nat)
    requires Inv(p, st) && i < Slots && st.slots[i].s.status == Pending
    requires st.slots[i].c.status == Ok && ClientKind(st.slots[i].c.packet.opcode) == Read
    ensures Deliver(p, st.slots[i]) == st.slots[i].(front := st.slots[i].c.content)
  {
    assert SlotFits(p, st, i);
  }

  lemma DeliveredSlot(p: Params, x: Slot, h: seq<Note>, i: nat)
    requires SlotOk(p, x, h, i, 0, 0, 0) && x.s.status == Pending && Done(x.c.status)
    ensures x.c.status == Ok && x.s.code == 1 ==> SlotOk(p, x.(front := x.c.content), h, i, 0, 0, 0)
  {
  }

  lemma RepliedSlot(p: Params, x: Slot, h: seq<Note>, i: nat)
    requires SlotOk(p, x, h, i, 0, 0, 0) && x.s.status == Pending && Done(x.c.status)
    requires x.c.status == Ok && x.s.code == 1 ==> x.front == x.c.content
    ensures SlotOk(p, x.(s := x.s.(status := Raw)), h + [Acknowledged(x.c.status == Ok, x.front)], i, 0, 0, 0)
  {
    var n := Acknowledged(x.c.status == Ok, x.front);
    GrowsTo(h, n, 3);
    assert Follows(h, n);
    LawfulGrows(h, n);
  }

  lemma RepliedKeeps(p: Params, st: State, i: nat, env: Env)
    requires Inv(p, st) && i < Slots && st.slots[i].s.status == Pending
    ensures Inv(p, Replied(p, st, i, env))
    ensures Replied(p, st, i, env).slots[i].s.status != Pending ==> Replied(p, st, i, env).slots[i].c.status != Raw
  {
    assert SlotFits(p, st, i);
    var x := st.slots[i];
    if Done(x.c.status) {
      DeliveredSlot(p, x, st.hist[i], i);
      RepliedSlot(p, if x.c.status == Ok && x.s.code == 1 then x.(front := x.c.content) else x, st.hist[i], i);
      if x.c.status == Ok && ClientKind(x.c.packet.opcode) == Read { DeliverCopies(p, st, i); }
      LocalStep(p, st, Replied(p, st, i, env), i);
    }
  }

  /** In a run the guard of the Write callback holds whenever it is called. */
  lemma FillCopies(p: Params, st: State, i: nat, env: Env)
    requires Inv(p, st) && i < Slots && st.slots[i].s.status == Pending && st.slots[i].c.status == Raw
    ensures var x := st.slots[i];
            var (c, e) := Allocate(p.client, x.c, ServerKind(x.s.code), x.s.start, x.s.length, i, Memory(p, x.s.length, env));
            e == Success && ClientKind(c.packet.opcode) == Write ==> Fill(p, x.(c := c)) == x.(c := c.(content := x.front))
  {
    assert SlotFits(p, st, i);
  }

  lemma IssuedSlot(p: Params, x: Slot, h: seq<Note>, i: nat, c: Request)
    requires SlotOk(p, x, h, i, 0, 0, 0) && x.s.status == Pending && x.c.status == Raw
    requires (x.s.code == 1 || x.s.code == 2) && x.s.length > 0
    requires c.packet == Packet(if x.s.code == 1 then 0 else 1, x.s.start, x.s.length, i)
    requires |c.content| == p.blockSize * x.s.length && (x.s.code == 2 ==> c.content == x.front)
    requires c.session == p.client
    ensures SlotOk(p, x.(c := c.(status := Pending)), h + [Enqueued(c.packet.opcode, c.packet.start, c.packet.count, c.content)], i, 1, 0, 0)
  {
    LawfulGrows(h, Enqueued(c.packet.opcode, c.packet.start, c.packet.count, c.content));
  }

  /** One more packet, slot `i`'s. */
  lemma EnqueueStep(p: Params, st: State, t: State, i: nat)
    requires Inv(p, st) && t.Sized() && i < Slots && InFlight(st.flight, i) == 0
    requires t == st.(slots := st.slots[i := t.slots[i]], hist := st.hist[i := t.hist[i]], flight := st.flight + [t.slots[i].c.packet])
    requires t.slots[i].c.packet.tag == i
    requires SlotOk(p, t.slots[i], t.hist[i], i, 1, Acks(st)[Ack(i, true)], Acks(st)[Ack(i, false)])
    ensures Inv(p, t)
  {
    forall j | 0 <= j < Slots ensures SlotFits(p, t, j) {
      assert SlotFits(p, st, j);
      InFlightAppend(st.flight, t.slots[i].c.packet, j);
    }
    forall k | 0 <= k < |t.flight| ensures t.flight[k].tag < Slots && t.flight[k] == t.slots[t.flight[k].tag].c.packet {
      if k < |st.flight| && st.flight[k].tag == i { NoneInFlight(st.flight, i, k); }
    }
  }

  lemma IssuedKeeps(p: Params, st: State, i: nat, env: Env)
    requires Inv(p, st) && i < Slots
    requires st.slots[i].s.status == Pending || st.slots[i].c.status != Raw
    ensures Inv(p, Issued(p, st, i, env))
    ensures Flushed(p, Issued(p, st, i, env), i) == Issued(p, st, i, env)
  {
    assert SlotFits(p, st, i);
    var x := st.slots[i];
    if x.c.status == Raw {
      var t, h := Issued(p, st, i, env), st.hist[i];
      var (c, e) := Allocate(p.client, x.c, ServerKind(x.s.code), x.s.start, x.s.length, i, Memory(p, x.s.length, env));
      FillCopies(p, st, i, env);
      if e == Success {
        IssuedSlot(p, x, h, i, if ClientKind(c.packet.opcode) == Write then c.(content := x.front) else c);
        EnqueueStep(p, st, t, i);
      } else {
        LocalStep(p, st, t, i);
      }
    }
  }

  lemma VisitKeeps(p: Params, st: State, i: nat, env: Env)
    requires Inv(p, st) && i < Slots && Enabled(p, st, Visited(i, env))
    ensures Inv(p, Visit(p, st, i, env))
  {
    var r := Released(p, st, i);
    ReleasedKeeps(p, st, i);
    ProcessedKeeps(p, r, i, env);
    var t := Processed(p, r, i, env);
    NothingRefused(p, t, i, env);
    if t.slots[i].s.status == Pending {
      PolledKeeps(p, t, i);
      RepliedKeeps(p, Polled(p, t, i), i, env);
      IssuedKeeps(p, Replied(p, Polled(p, t, i), i, env), i, env);
    }
  }

  lemma FinishedSlot(p: Params, x: Slot, h: seq<Note>, i: nat, success: bool, data: seq<Byte>)
    requires SlotOk(p, x, h, i, 1, 0, 0) && |data| == |x.c.content|
    ensures var c := if x.c.packet.opcode == 0 then data else x.c.content;
            SlotOk(p, x.(c := x.c.(content := c)), h + [Completed(success, c)], i, 0, if success then 1 else 0, if success then 0 else 1)
  {
    var c := if x.c.packet.opcode == 0 then data else x.c.content;
    var g, y := h + [Completed(success, c)], x.(c := x.c.(content := c));
    GrowsTo(h, Completed(success, c), 2);
    assert Follows(h, Completed(success, c));
    LawfulGrows(h, Completed(success, c));
    assert |g| % 4 == 3 == Phase(y, false);
    assert g[|g| - 1] == Completed(success, c) && g[|g| - 3] == h[|h| - 2];
    assert SameRequest(p, y, i) && HistoryFits(y, g, 3);
  }

  lemma OneMore(m: multiset<Ack>, n: multiset<Ack>, i: nat, success: bool, j: nat)
    requires n == m + multiset{Ack(i, success)}
    ensures n[Ack(j, true)] == m[Ack(j, true)] + if j == i && success then 1 else 0
    ensures n[Ack(j, false)] == m[Ack(j, false)] + if j == i && !success then 1 else 0
  {
  }

  lemma FinishedKeeps(p: Params, st: State, k: nat, success: bool, data: seq<Byte>)
    requires Inv(p, st) && Enabled(p, st, BackendDone(k, success, data))
    ensures Inv(p, Finished(st, k, success, data))
  {
    var t, i := Finished(st, k, success, data), st.flight[k].tag;
    assert SlotFits(p, st, i);
    NoneInFlight(st.flight, i, k);
    assert st.flight[k] == st.slots[i].c.packet;
    FinishedSlot(p, st.slots[i], st.hist[i], i, success, data);
    assert Acks(t) == Acks(st) + multiset{Ack(i, success)};
    forall j | 0 <= j < Slots ensures SlotFits(p, t, j) {
      assert SlotFits(p, st, j);
      InFlightRemove(st.flight, k, j);
      OneMore(Acks(st), Acks(t), i, success, j);
    }
    FinishedFlight(p, st, k, success, data);
  }

  lemma FinishedFlight(p: Params, st: State, k: nat, success: bool, data: seq<Byte>)
    requires Inv(p, st) && Enabled(p, st, BackendDone(k, success, data))
    ensures var t := Finished(st, k, success, data);
            forall n :: 0 <= n < |t.flight| ==> t.flight[n].tag < Slots && t.flight[n] == t.slots[t.flight[n].tag].c.packet
  {
    var t := Finished(st, k, success, data);
    forall n | 0 <= n < |t.flight| ensures t.flight[n].tag < Slots && t.flight[n] == t.slots[t.flight[n].tag].c.packet {
      assert t.flight[n] == if n < k then st.flight[n] else st.flight[n + 1];
    }
  }

  lemma StartHolds(p: Params)
    ensures Inv(p, Start())
  {
    NothingHeld(Start().cache);
    forall i | 0 <= i < Slots ensures SlotFits(p, Start(), i) { }
  }

  lemma StepKeeps(p: Params, st: State, e: Step)
    requires Inv(p, st) && Enabled(p, st, e)
    ensures Inv(p, Next(p, st, e))
  {
    match e
    case Visited(i, env) => VisitKeeps(p, st, i, env);
    case BackendDone(n, success, data) => FinishedKeeps(p, st, n, success, data);
  }

  lemma {:induction false} StepsKeep(p: Params, states: seq<State>, steps: seq<Step>, k: nat)
    requires Steps(p, states, steps) && Inv(p, states[0]) && k < |states|
    ensures Inv(p, states[k])
  {
    if k > 0 {
      StepsKeep(p, states, steps, k - 1);
      assert Goes(p, states[k - 1], steps[k - 1], states[k - 1 + 1]);
      StepKeeps(p, states[k - 1], steps[k - 1]);
    }
  }

  lemma RunKeeps(p: Params, states: seq<State>, steps: seq<Step>, k: nat)
    requires Run(p, states, steps) && k < |states|
    ensures Inv(p, states[k])
  {
    StartHolds(p);
    StepsKeep(p, states, steps, k);
  }

  /* ---- The properties of all runs ---- */

  /** In every state of every run slot `i`'s client request is pending exactly
      if one token with its tag is in the backend, the queue and the cache
      together, and there is never a second; so at most 64 completions are
      outstanding, and polling empties the whole queue. */
  lemma OneTokenPerRequest(p: Params, states: seq<State>, steps: seq<Step>, k: nat, i: nat)
    requires Run(p, states, steps) && k < |states| && i < Slots
    ensures var st := states[k];
            && st.Sized()
            && Tokens(st, i) == (if st.slots[i].c.status == Pending then 1 else 0)
            && |Acks(st)| + |st.flight| <= Slots
            && Update(st.cache, st.queue, i, Pending).queue == []
  {
    RunKeeps(p, states, steps, k);
    assert SlotFits(p, states[k], i);
    FewOutstanding(p, states[k]);
    UpdateFinds(states[k].cache, states[k].queue, i, Pending);
  }

  /** The two halves of a slot always agree: a free front request never has an
      allocated or pending one behind it, nothing stays allocated, and each
      belongs to its session. */
  lemma HalvesAgree(p: Params, states: seq<State>, steps: seq<Step>, k: nat, i: nat)
    requires Run(p, states, steps) && k < |states| && i < Slots
    ensures var st := states[k];
            st.Sized() && var x := st.slots[i];
            && (x.s.status == Raw ==> x.c.status in {Raw, Ok, Error})
            && x.s.status in {Raw, Pending} && x.c.status != Allocated
            && (x.s.status == Pending ==> x.s.session == p.server)
            && (x.s.status == Pending && x.c.status != Raw ==> SameRequest(p, x, i))
  {
    RunKeeps(p, states, steps, k);
    assert SlotFits(p, states[k], i);
  }

  /** In every run every packet that the backend works on is the pending request
      of the slot that its tag names: operation 0 exactly for a front read (code
      1), operation 1 exactly for a front write (code 2), for the same blocks. */
  lemma BackendGetsWhatWasAsked(p: Params, states: seq<State>, steps: seq<Step>, k: nat, n: nat)
    requires Run(p, states, steps) && k < |states| && n < |states[k].flight|
    ensures var q := states[k].flight[n];
            && states[k].Sized() && q.tag < Slots
            && var r := states[k].slots[q.tag].s;
            && r.status == Pending && q.start == r.start && q.count == r.length > 0
            && (q.opcode == 0 <==> r.code == 1) && (q.opcode == 1 <==> r.code == 2) && (r.code == 1 || r.code == 2)
  {
    RunKeeps(p, states, steps, k);
    var q := states[k].flight[n];
    NoneInFlight(states[k].flight, q.tag, n);
    assert SlotFits(p, states[k], q.tag);
  }

  lemma HistoryLawful(p: Params, states: seq<State>, steps: seq<Step>, k: nat, i: nat)
    requires Run(p, states, steps) && k < |states| && i < Slots
    ensures states[k].Sized() && Lawful(states[k].hist[i])
  {
    RunKeeps(p, states, steps, k);
    assert SlotFits(p, states[k], i);
  }

  /** Whatever the front is told comes from exactly one execution: between the
      acceptance of a request and its acknowledgement the backend got it once,
      with its kind, start and length, and the acknowledgement has the backend's
      result. What is written is the front's data, what a successful read
      returns is the backend's. */
  lemma AcknowledgedOnce(p: Params, states: seq<State>, steps: seq<Step>, k: nat, i: nat, n: nat)
    requires Run(p, states, steps) && k < |states| && i < Slots
    requires states[k].Sized() && n < |states[k].hist[i]| && states[k].hist[i][n].Acknowledged?
    ensures var h := states[k].hist[i];
            n >= 3 && h[n - 3].Accepted? && h[n - 2].Enqueued? && h[n - 1].Completed?
            && (h[n - 2].start, h[n - 2].length) == (h[n - 3].start, h[n - 3].length)
            && ((h[n - 3].code == 1 && h[n - 2].opcode == 0) || (h[n - 3].code == 2 && h[n - 2].opcode == 1))
            && h[n].success == h[n - 1].success
            && (h[n - 3].code == 2 ==> h[n - 2].data == h[n - 1].data == h[n].data == h[n - 3].data)
            && (h[n - 3].code == 1 ==> h[n].data == if h[n].success then h[n - 1].data else h[n - 3].data)
  {
    HistoryLawful(p, states, steps, k, i);
    var h := states[k].hist[i];
    assert Follows(h[..n], h[n]);
    assert Follows(h[..n - 1], h[n - 1]);
    assert Follows(h[..n - 2], h[n - 2]);
  }

  /** The other way round: no request is executed that was not accepted, none
      twice, and a new one is accepted only after the last was acknowledged. */
  lemma ExecutedOnce(p: Params, states: seq<State>, steps: seq<Step>, k: nat, i: nat, n: nat)
    requires Run(p, states, steps) && k < |states| && i < Slots
    requires states[k].Sized() && n < |states[k].hist[i]|
    ensures InOrder(states[k].hist[i], n)
  {
    HistoryLawful(p, states, steps, k, i);
    LawfulInOrder(states[k].hist[i], n);
  }

  ghost predicate InOrder(h: seq<Note>, n: nat)
    requires n < |h|
  {
    && (h[n].Accepted? ==> n == 0 || h[n - 1].Acknowledged?)
    && (h[n].Enqueued? ==> n > 0 && h[n - 1].Accepted?)
    && (h[n].Completed? ==> n > 0 && h[n - 1].Enqueued?)
    && (h[n].Acknowledged? ==> n > 0 && h[n - 1].Completed?)
  }

  /** The place in the round tells what a note is. */
  lemma LawfulKind(h: seq<Note>, n: nat)
    requires Lawful(h) && n < |h|
    ensures match h[n] case Accepted(_, _, _, _) => n % 4 == 0 case Enqueued(_, _, _, _) => n % 4 == 1 case Completed(_, _) => n % 4 == 2 case Acknowledged(_, _) => n % 4 == 3
  {
    assert Follows(h[..n], h[n]);
  }

  lemma LawfulInOrder(h: seq<Note>, n: nat)
    requires Lawful(h) && n < |h|
    ensures InOrder(h, n)
  {
    LawfulKind(h, n);
    if n > 0 { LawfulKind(h, n - 1); }
  }

  lemma RepliedFlag(p: Params, st: State, i: nat, env: Env)
    requires Inv(p, st) && i < Slots && st.slots[i].s.status == Pending
    ensures Replied(p, st, i, env).slots[i].a == st.slots[i].a
  {
    var x := st.slots[i];
    if x.c.status == Ok && ClientKind(x.c.packet.opcode) == Read { DeliverCopies(p, st, i); }
  }

  lemma IssuedFlag(p: Params, st: State, i: nat, env: Env)
    requires Inv(p, st) && i < Slots
    requires st.slots[i].s.status == Pending || st.slots[i].c.status != Raw
    ensures var x, y := st.slots[i], Issued(p, st, i, env).slots[i];
            y.a != x.a ==>
              && y.a && y.s == x.s && y.s.status == Pending && y.c.status == Raw
              && (!env.room || y.s.length == 0 || !(y.s.code == 1 || y.s.code == 2))
  {
    if st.slots[i].c.status == Raw { FillCopies(p, st, i, env); }
  }

  /** A visit raises a slot's flag only where no packet could be had: the copy
      callbacks never do. */
  lemma FlagMeansNoPacket(p: Params, st: State, i: nat, env: Env)
    requires Inv(p, st) && i < Slots && Enabled(p, st, Visited(i, env))
    ensures var x, y := st.slots[i], Visit(p, st, i, env).slots[i];
            y.a && !x.a ==>
              && y.s.status == Pending && y.c.status == Raw
              && (!env.room || y.s.length == 0 || !(y.s.code == 1 || y.s.code == 2))
  {
    var r := Released(p, st, i);
    ReleasedKeeps(p, st, i);
    ProcessedKeeps(p, r, i, env);
    var t := Processed(p, r, i, env);
    NothingRefused(p, t, i, env);
    assert t.slots[i].a ==> st.slots[i].a;
    if t.slots[i].s.status == Pending {
      PolledKeeps(p, t, i);
      var u := Polled(p, t, i);
      RepliedKeeps(p, u, i, env);
      RepliedFlag(p, u, i, env);
      IssuedKeeps(p, Replied(p, u, i, env), i, env);
      IssuedFlag(p, Replied(p, u, i, env), i, env);
    }
  }
}

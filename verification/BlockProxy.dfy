/** The block proxy: each of its 64 slots pairs a request of its own client (the
    front) with a request that it makes of the backend. The functions say what a
    visit of a slot does to the tables and to the slot's history. */
module BlockProxy {
  import opened Basics
  import opened Block
  import opened BlockClient

  const Slots: nat := 64

  /** What stays the same during one server session. */
  datatype Params = Params(blockSize: nat, client: Option<nat>, server: Option<nat>)

  /** A front request; `front` in the slot is the memory it shares with its client. */
  datatype ServerRequest = ServerRequest(code: nat, start: nat, length: nat, status: Status, session: Option<nat>)

  datatype Slot = Slot(c: Request, s: ServerRequest, front: seq<Byte>, a: bool)

  /** What happened to the requests of one slot, in order: with the code that the
      front gave, and the one that the backend got. */
  datatype Note =
    | Accepted(code: nat, start: nat, length: nat, data: seq<Byte>)
    | Enqueued(opcode: int, start: nat, length: nat, data: seq<Byte>)
    | Completed(success: bool, data: seq<Byte>)
    | Acknowledged(success: bool, data: seq<Byte>)

  datatype State = State(slots: seq<Slot>, flight: seq<Packet>, queue: seq<Ack>, cache: seq<Handle>, hist: seq<seq<Note>>)
  {
    ghost predicate Sized() { |slots| == |hist| == Slots && |cache| == CacheSize }

    ghost function With(i: nat, slot: Slot): (st: State)
      requires Sized() && i < Slots
      ensures st.Sized()
    {
      this.(slots := slots[i := slot])
    }

    ghost function Noted(i: nat, n: Note): (st: State)
      requires Sized() && i < Slots
      ensures st.Sized()
    {
      this.(hist := hist[i := hist[i] + [n]])
    }
  }

  /** A request that waits at the front. */
  datatype Incoming = Incoming(code: nat, start: nat, length: nat, data: seq<Byte>)

  /** What a visit meets: a waiting request, memory for a packet and what that
      memory holds, room for an acknowledgement. */
  datatype Env = Env(incoming: Option<Incoming>, room: bool, stale: nat -> Byte, ackOk: bool)

  function Memory(p: Params, length: nat, env: Env): (m: Option<seq<Byte>>)
    ensures m.Some? ==> |m.value| == p.blockSize * length
  {
    var stale := seq<Byte>(p.blockSize * length, env.stale);
    if env.room then Some(stale) else Option.None
  }

  function InitialSlot(): Slot {
    Slot(Fresh, ServerRequest(0, 0, 0, Raw, Option.None), [], false)
  }

  ghost function Start(): (st: State)
    ensures st.Sized()
  {
    State(seq(Slots, _ => InitialSlot()), [], [], seq(CacheSize, _ => Free), seq(Slots, _ => []))
  }

  predicate Done(s: Status) { s == Ok || s == Error }

  /** The guard of both copy callbacks. */
  predicate MayCopy(p: Params, slot: Slot, kind: RequestKind, length: nat) {
    && slot.s.status == Pending && ServerKind(slot.s.code) == kind
    && slot.s.session == p.server && length == p.blockSize * slot.s.length
  }

  /** The Write callback: the packet gets the front's data. */
  function Fill(p: Params, slot: Slot): Slot {
    if MayCopy(p, slot, Write, |slot.c.content|) then slot.(c := slot.c.(content := slot.front)) else slot.(a := true)
  }

  /** The Read callback: the front gets the packet's data. */
  function Deliver(p: Params, slot: Slot): Slot {
    if MayCopy(p, slot, Read, |slot.c.content|) then slot.(front := slot.c.content) else slot.(a := true)
  }

  /* ---- The parts of a visit ---- */

  ghost function Released(p: Params, st: State, i: nat): (r: State)
    requires st.Sized() && i < Slots
    ensures r.Sized()
  {
    var x := st.slots[i];
    if x.s.status == Raw && Done(x.c.status) && x.c.session == p.client
    then st.With(i, x.(c := x.c.(status := Raw), a := false)) else st
  }

  ghost function Processed(p: Params, st: State, i: nat, env: Env): (r: State)
    requires st.Sized() && i < Slots
    ensures r.Sized()
  {
    var x := st.slots[i];
    if x.s.status == Raw && x.c.status == Raw && env.incoming.Some? then
      var r := env.incoming.value;
      st.With(i, x.(s := ServerRequest(r.code, r.start, r.length, Pending, p.server), front := r.data))
        .Noted(i, Accepted(r.code, r.start, r.length, r.data))
    else st
  }

  ghost function Acked(st: State, i: nat, res: Status, env: Env): (r: State)
    requires st.Sized() && i < Slots
    ensures r.Sized()
  {
    var x := st.slots[i];
    if env.ackOk then st.With(i, x.(s := x.s.(status := Raw))).Noted(i, Acknowledged(res == Ok, x.front)) else st
  }

  ghost function Refused(p: Params, st: State, i: nat, env: Env): (r: State)
    requires st.Sized() && i < Slots
    ensures r.Sized()
  {
    var x := st.slots[i];
    if x.s.status == Error && x.s.session == p.server then Acked(st, i, Error, env) else st
  }

  ghost function Polled(p: Params, st: State, i: nat): (r: State)
    requires st.Sized() && i < Slots
    ensures r.Sized()
  {
    var x := st.slots[i];
    if x.c.status == Pending && x.c.session == p.client then
      var u := Update(st.cache, st.queue, x.c.packet.tag, x.c.status);
      st.(cache := u.cache, queue := u.queue).With(i, x.(c := x.c.(status := u.status)))
    else st
  }

  ghost function Replied(p: Params, st: State, i: nat, env: Env): (r: State)
    requires st.Sized() && i < Slots
    ensures r.Sized()
  {
    var x := st.slots[i];
    if Done(x.c.status) && x.c.session == p.client then
      var y := if x.c.status == Ok && ClientKind(x.c.packet.opcode) == Read then Deliver(p, x) else x;
      var t := st.With(i, y);
      if y.s.session == p.server then Acked(t, i, y.c.status, env) else t
    else st
  }

  ghost function Submitted(st: State, i: nat): (r: State)
    requires st.Sized() && i < Slots
    ensures r.Sized()
  {
    var x := st.slots[i];
    st.With(i, x.(c := x.c.(status := Pending))).(flight := st.flight + [x.c.packet])
      .Noted(i, Enqueued(x.c.packet.opcode, x.c.packet.start, x.c.packet.count, x.c.content))
  }

  ghost function Issued(p: Params, st: State, i: nat, env: Env): (r: State)
    requires st.Sized() && i < Slots
    ensures r.Sized()
  {
    var x := st.slots[i];
    if x.c.status == Raw then
      var (c, e) := Allocate(p.client, x.c, ServerKind(x.s.code), x.s.start, x.s.length, i, Memory(p, x.s.length, env));
      var y := x.(c := c);
      if e == Success then
        Submitted(st.With(i, if ClientKind(c.packet.opcode) == Write then Fill(p, y) else y), i)
      else if e == Retry then st.With(i, y)
      else st.With(i, y.(a := true))
    else st
  }

  ghost function Flushed(p: Params, st: State, i: nat): (r: State)
    requires st.Sized() && i < Slots
    ensures r.Sized()
  {
    var x := st.slots[i];
    if x.c.status == Allocated && x.c.session == p.client then Submitted(st, i) else st
  }

  /** One round of the loop in `Event`. */
  ghost function Visit(p: Params, st: State, i: nat, env: Env): (r: State)
    requires st.Sized() && i < Slots
    ensures r.Sized()
  {
    var t := Refused(p, Processed(p, Released(p, st, i), i, env), i, env);
    if t.slots[i].s.status == Pending then Flushed(p, Issued(p, Replied(p, Polled(p, t, i), i, env), i, env), i) else t
  }

  /** The backend finishes packet `k`; its operation 0 is to read, which leaves
      data in the packet. */
  ghost function Finished(st: State, k: nat, success: bool, data: seq<Byte>): (r: State)
    requires st.Sized() && k < |st.flight| && st.flight[k].tag < Slots
    ensures r.Sized()
  {
    var i := st.flight[k].tag;
    var x := st.slots[i];
    var content := if st.flight[k].opcode == 0 then data else x.c.content;
    st.(flight := st.flight[..k] + st.flight[k + 1..], queue := st.queue + [Ack(i, success)])
      .With(i, x.(c := x.c.(content := content)))
      .Noted(i, Completed(success, content))
  }

  datatype Step = Visited(i: nat, env: Env) | BackendDone(k: nat, success: bool, data: seq<Byte>)

  ghost predicate Enabled(p: Params, st: State, e: Step)
    requires st.Sized()
  {
    match e
    case Visited(i, env) => i < Slots && (env.incoming.Some? ==> |env.incoming.value.data| == p.blockSize * env.incoming.value.length)
    case BackendDone(k, _, data) => k < |st.flight| && st.flight[k].tag < Slots && |data| == |st.slots[st.flight[k].tag].c.content|
  }

  ghost function Next(p: Params, st: State, e: Step): (r: State)
    requires st.Sized() && Enabled(p, st, e)
    ensures r.Sized()
  {
    match e
    case Visited(i, env) => Visit(p, st, i, env)
    case BackendDone(k, success, data) => Finished(st, k, success, data)
  }

  /** Visits in any order, the backend finishing packets in any order. */
  ghost predicate Steps(p: Params, states: seq<State>, steps: seq<Step>) {
    && |states| == |steps| + 1
    && forall k :: 0 <= k < |steps| ==> Goes(p, states[k], steps[k], states[k + 1])
  }

  ghost predicate Goes(p: Params, st: State, e: Step, t: State) {
    st.Sized() && Enabled(p, st, e) && t == Next(p, st, e)
  }

  ghost predicate Run(p: Params, states: seq<State>, steps: seq<Step>) {
    Steps(p, states, steps) && states[0] == Start()
  }
}

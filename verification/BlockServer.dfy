/** The RAM-disk block server: a cache of requests, each executed on a flat
    buffer of bytes and acknowledged when there is room for it. The functions
    say what a visit of a slot does; `log` lists the executions in order and
    `hist` what happened to the requests of each slot. */
module BlockServer {
  import opened Basics
  import opened Block

  const BlockSize: nat := 512
  const BlockCount: nat := 1024
  const DiskSize: nat := 524288
  const Slots: nat := 64

  /** The position of a block's first byte. */
  function Offset(b: nat): nat { b * 512 }

  type Disk = d: seq<Byte> | |d| == DiskSize witness seq(DiskSize, _ => 0)

  /** A request, with the memory that it shares with the client, if any. */
  datatype Op = Op(code: nat, start: nat, length: nat, content: Option<seq<Byte>>)

  datatype Slot = Slot(op: Op, status: Status, session: Option<nat>, handled: bool, success: bool)

  const Empty := Slot(Op(0, 0, 0, Option.None), Raw, Option.None, false, false)

  /** What was executed, and what the request's memory then held; it stands in
      the history of `slot` at `nth`. */
  datatype Entry = Entry(slot: nat, nth: nat, op: Op, success: bool, content: Option<seq<Byte>>)

  /** `Executed` refers to the entry of the log. */
  datatype Note = Accepted(op: Op) | Executed(at: nat) | Acknowledged(success: bool, content: Option<seq<Byte>>)

  datatype State = State(disk: Disk, slots: seq<Slot>, log: seq<Entry>, hist: seq<seq<Note>>)
  {
    ghost predicate Sized() { |slots| == |hist| == Slots }
  }

  /** A visit meets a waiting request, or none, and room for an acknowledgement,
      or none. */
  datatype Env = Env(incoming: Option<Op>, ackOk: bool)

  /* ---- The callbacks ---- */

  /** The guard of both callbacks, on byte positions. */
  predicate InDisk(op: Op, size: nat) {
    && Offset(op.start) < DiskSize
    && 0 <= Offset(op.start + op.length) - 1 < DiskSize
    && size == Offset(op.length)
  }

  /** What a callback does to the disk and to the request's memory. */
  function Called(disk: Disk, op: Op, write: bool): (r: (Disk, Option<seq<Byte>>, bool)) {
    if op.content.Some? && InDisk(op, |op.content.value|) then
      var a, b := Offset(op.start), Offset(op.start + op.length);
      if write then (disk[..a] + op.content.value + disk[b..], op.content, true)
      else (disk, Some(disk[a..b]), true)
    else (disk, op.content, false)
  }

  /** The execution of a request. */
  function Execute(disk: Disk, op: Op): (r: (Disk, Option<seq<Byte>>, bool)) {
    if op.start <= DiskSize / 512 && op.length > 0 && op.length <= DiskSize / 512 then
      match ServerKind(op.code)
      case Read => Called(disk, op, false)
      case Write => Called(disk, op, true)
      case _ => (disk, op.content, false)
    else (disk, op.content, false)
  }

  /* ---- The parts of a visit ---- */

  ghost function Processed(tag: Option<nat>, st: State, i: nat, env: Env): (r: State)
    requires st.Sized() && i < Slots
    ensures r.Sized()
  {
    var x := st.slots[i];
    if x.status == Raw then
      var y := x.(success := false, handled := false);
      if env.incoming.Some? then
        st.(slots := st.slots[i := y.(op := env.incoming.value, status := Pending, session := tag)],
            hist := st.hist[i := st.hist[i] + [Accepted(env.incoming.value)]])
      else st.(slots := st.slots[i := y])
    else st
  }

  ghost function Handled(tag: Option<nat>, st: State, i: nat): (r: State)
    requires st.Sized() && i < Slots
    ensures r.Sized()
  {
    var x := st.slots[i];
    if x.status == Pending && x.session == tag && !x.handled then
      var (disk, content, success) := Execute(st.disk, x.op);
      State(disk,
            st.slots[i := x.(op := x.op.(content := content), handled := true, success := success)],
            st.log + [Entry(i, |st.hist[i]|, x.op, success, content)],
            st.hist[i := st.hist[i] + [Executed(|st.log|)]])
    else st
  }

  ghost function Answered(tag: Option<nat>, st: State, i: nat, env: Env): (r: State)
    requires st.Sized() && i < Slots
    ensures r.Sized()
  {
    var x := st.slots[i];
    if x.status == Pending && x.session == tag && x.handled && env.ackOk then
      st.(slots := st.slots[i := x.(status := Raw)],
          hist := st.hist[i := st.hist[i] + [Acknowledged(x.success, x.op.content)]])
    else st
  }

  /** One round of the loop over the slots. */
  ghost function Visit(tag: Option<nat>, st: State, i: nat, env: Env): (r: State)
    requires st.Sized() && i < Slots
    ensures r.Sized()
  {
    Answered(tag, Handled(tag, Processed(tag, st, i, env), i), i, env)
  }

  ghost function Start(): (st: State)
    ensures st.Sized()
  {
    State(seq(DiskSize, _ => 0), seq(Slots, _ => Empty), [], seq(Slots, _ => []))
  }

  /** A run: visits of any slots in any order. */
  ghost predicate Run(tag: Option<nat>, states: seq<State>, visits: seq<(nat, Env)>) {
    && |states| == |visits| + 1 && states[0] == Start()
    && forall k :: 0 <= k < |visits| ==> states[k].Sized() && visits[k].0 < Slots && states[k + 1] == Visit(tag, states[k], visits[k].0, visits[k].1)
  }

  /* ---- The reference: a map of blocks, one request after the other ---- */

  /** A block of a new disk. */
  function Blank(): (r: seq<Byte>)
    ensures |r| == BlockSize
  {
    seq(BlockSize, _ => 0)
  }

  /** The requests that succeed: reads (1) and writes (2) of existing blocks with
      a buffer of the right size. */
  predicate Good(op: Op) {
    && (op.code == 1 || op.code == 2)
    && op.length > 0 && op.start + op.length <= BlockCount
    && op.content.Some? && |op.content.value| == Offset(op.length)
  }

  predicate Writes(op: Op, b: nat) {
    Good(op) && op.code == 2 && op.start <= b < op.start + op.length
  }

  /** The part of a write's data for block `b`. */
  function Part(op: Op, b: nat): (r: seq<Byte>)
    requires Writes(op, b)
    ensures |r| == BlockSize
  {
    op.content.value[Offset(b - op.start)..Offset(b - op.start + 1)]
  }

  /** What a request makes of a block. */
  function Effect(op: Op, b: nat, data: seq<Byte>): (r: seq<Byte>)
    ensures |data| == BlockSize ==> |r| == BlockSize
  {
    if Writes(op, b) then Part(op, b) else data
  }

  /** Block `b` after the first `n` executions, one after the other. */
  function Replay(log: seq<Entry>, n: nat, b: nat): (r: seq<Byte>)
    requires n <= |log|
    ensures |r| == BlockSize
  {
    if n == 0 then Blank() else Effect(log[n - 1].op, b, Replay(log, n - 1, b))
  }

  /** What a good read returns then: its blocks one after the other. */
  function Blocks(log: seq<Entry>, n: nat, start: nat, length: nat): (r: seq<Byte>)
    requires n <= |log|
    ensures |r| == Offset(length)
  {
    if length == 0 then [] else Blocks(log, n, start, length - 1) + Replay(log, n, start + length - 1)
  }

  /** What a request leaves in its memory after the first `n` executions. */
  function Reply(log: seq<Entry>, n: nat, op: Op): Option<seq<Byte>>
    requires n <= |log|
  {
    if Good(op) && op.code == 1 then Some(Blocks(log, n, op.start, op.length)) else op.content
  }

  /** A block of the flat disk. */
  function BlockAt(disk: Disk, b: nat): (r: seq<Byte>)
    requires b < BlockCount
    ensures |r| == BlockSize
  {
    disk[Offset(b)..Offset(b + 1)]
  }

  /** The disk holds what the first `n` executions left. */
  ghost predicate Holds(disk: Disk, log: seq<Entry>, n: nat)
    requires n <= |log|
  {
    forall b: nat :: b < BlockCount ==> BlockAt(disk, b) == Replay(log, n, b)
  }

  /** The last of the first `n` executions that wrote block `b`, plus one; or 0. */
  function LastWriter(log: seq<Entry>, n: nat, b: nat): (r: nat)
    requires n <= |log|
    ensures r <= n
    ensures r > 0 ==> Writes(log[r - 1].op, b)
    ensures forall m :: r <= m < n ==> !Writes(log[m].op, b)
  {
    if n == 0 then 0 else if Writes(log[n - 1].op, b) then n else LastWriter(log, n - 1, b)
  }

  /** What that execution wrote to the block, or zeros. */
  function LastWritten(log: seq<Entry>, n: nat, b: nat): seq<Byte>
    requires n <= |log|
  {
    var w := LastWriter(log, n, b);
    if w == 0 then Blank() else Part(log[w - 1].op, b)
  }
}

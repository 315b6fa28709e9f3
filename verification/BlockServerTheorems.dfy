/** The RAM-disk server refines a sequential map of blocks, in every run. */
module BlockServerTheorems {
  import opened Basics
  import opened Block
  import opened BlockServer

  /* ---- Executions refine the reference ---- */

  /** The nested guards of the code accept exactly the good requests. */
  lemma ExecuteAccepts(disk: Disk, op: Op)
    ensures Execute(disk, op).2 <==> Good(op)
    ensures !Good(op) ==> Execute(disk, op).0 == disk && Execute(disk, op).1 == op.content
  {
  }

  /** A part of `disk` with the bytes from `lo` on replaced by `data`. */
  lemma SliceOfWritten(disk: seq<Byte>, data: seq<Byte>, lo: nat, x: nat, y: nat)
    requires lo + |data| <= |disk| && x <= y <= |disk|
    requires y <= lo || lo + |data| <= x || (lo <= x && y <= lo + |data|)
    ensures var d := disk[..lo] + data + disk[lo + |data|..];
            d[x..y] == if y <= lo || lo + |data| <= x then disk[x..y] else data[x - lo..y - lo]
  {
    var d := disk[..lo] + data + disk[lo + |data|..];
    assert forall i :: x <= i < y ==> d[i] == if lo <= i < lo + |data| then data[i - lo] else disk[i];
  }

  lemma ExecuteWrites(disk: Disk, op: Op)
    requires Good(op) && op.code == 2
    ensures var lo := Offset(op.start);
            && lo + |op.content.value| <= |disk|
            && Execute(disk, op).0 == disk[..lo] + op.content.value + disk[lo + |op.content.value|..]
  {
    ExecuteAccepts(disk, op);
  }

  /** An execution on the flat buffer does to each block what the reference says. */
  lemma ExecuteRefines(disk: Disk, op: Op, b: nat)
    requires b < BlockCount
    ensures BlockAt(Execute(disk, op).0, b) == Effect(op, b, BlockAt(disk, b))
  {
    if Good(op) && op.code == 2 {
      var lo, x, y := Offset(op.start), Offset(b), Offset(b + 1);
      ExecuteWrites(disk, op);
      SliceOfWritten(disk, op.content.value, lo, x, y);
      if op.start <= b < op.start + op.length {
        assert Part(op, b) == op.content.value[x - lo..y - lo];
      }
    } else if op.code == 2 {
      ExecuteAccepts(disk, op);
    }
  }

  lemma SliceJoin(s: seq<Byte>, a: nat, b: nat, c: nat)
    requires a <= b <= c <= |s|
    ensures s[a..c] == s[a..b] + s[b..c]
  {
  }

  lemma {:induction false} BlocksOfDisk(disk: Disk, log: seq<Entry>, n: nat, start: nat, length: nat)
    requires n <= |log| && Holds(disk, log, n) && start + length <= BlockCount
    ensures Blocks(log, n, start, length) == disk[Offset(start)..Offset(start + length)]
  {
    if length > 0 {
      BlocksOfDisk(disk, log, n, start, length - 1);
      var a, b, c := Offset(start), Offset(start + length - 1), Offset(start + length);
      SliceJoin(disk, a, b, c);
      assert BlockAt(disk, start + length - 1) == disk[b..c];
    }
  }

  /** And it leaves in the request's memory what the reference says. */
  lemma ExecuteReplies(disk: Disk, log: seq<Entry>, n: nat, op: Op)
    requires n <= |log| && Holds(disk, log, n)
    ensures Execute(disk, op).1 == Reply(log, n, op)
  {
    ExecuteAccepts(disk, op);
    if Good(op) && op.code == 1 { BlocksOfDisk(disk, log, n, op.start, op.length); }
  }

  /* ---- What every run keeps ---- */

  /** A history goes round Accepted, Executed, Acknowledged; the log has the
      accepted request, and the client is told what the log says. */
  ghost predicate Follows(log: seq<Entry>, i: nat, h: seq<Note>, n: Note) {
    var l := |h|;
    if l % 3 == 0 then n.Accepted?
    else if l % 3 == 1 then
      && n.Executed? && h[l - 1].Accepted? && n.at < |log|
      && log[n.at].slot == i && log[n.at].nth == l && log[n.at].op == h[l - 1].op
    else
      && n.Acknowledged? && h[l - 1].Executed? && h[l - 1].at < |log|
      && n == Acknowledged(log[h[l - 1].at].success, log[h[l - 1].at].content)
  }

  ghost predicate Lawful(log: seq<Entry>, i: nat, h: seq<Note>) {
    forall k :: 0 <= k < |h| ==> Follows(log, i, h[..k], h[k])
  }

  lemma LawfulGrows(log: seq<Entry>, i: nat, h: seq<Note>, n: Note)
    requires Lawful(log, i, h) && Follows(log, i, h, n)
    ensures Lawful(log, i, h + [n])
  {
    forall k | 0 <= k <= |h| ensures Follows(log, i, (h + [n])[..k], (h + [n])[k]) {
      assert (h + [n])[..k] == h[..k];
      if k == |h| { assert h[..k] == h; }
    }
  }

  lemma LawfulKept(log: seq<Entry>, e: Entry, i: nat, h: seq<Note>)
    requires Lawful(log, i, h)
    ensures Lawful(log + [e], i, h)
  {
    forall k | 0 <= k < |h| ensures Follows(log + [e], i, h[..k], h[k]) {
      assert Follows(log, i, h[..k], h[k]);
    }
  }

  ghost predicate SlotOk(tag: Option<nat>, log: seq<Entry>, i: nat, x: Slot, h: seq<Note>) {
    && Lawful(log, i, h)
    && (x.status == Raw || (x.status == Pending && x.session == tag))
    && |h| % 3 == (if x.status == Raw then 0 else if !x.handled then 1 else 2)
    && (x.status == Pending && !x.handled ==> h[|h| - 1] == Accepted(x.op) && !x.success)
    && (x.status == Pending && x.handled ==>
          && h[|h| - 1].Executed? && h[|h| - 1].at < |log|
          && log[h[|h| - 1].at].success == x.success && log[h[|h| - 1].at].content == x.op.content)
  }

  /** Entry `n` of the log is what the reference answers at that point, and
      stands in exactly one history. */
  ghost predicate EntryOk(st: State, n: nat)
    requires st.Sized() && n < |st.log|
  {
    var e := st.log[n];
    && e.success == Good(e.op) && e.content == Reply(st.log, n, e.op)
    && e.slot < Slots && e.nth < |st.hist[e.slot]| && st.hist[e.slot][e.nth] == Executed(n)
  }

  ghost predicate Inv(tag: Option<nat>, st: State) {
    && st.Sized()
    && Holds(st.disk, st.log, |st.log|)
    && (forall n :: 0 <= n < |st.log| ==> EntryOk(st, n))
    && (forall i :: 0 <= i < Slots ==> SlotFits(tag, st, i))
  }

  ghost predicate SlotFits(tag: Option<nat>, st: State, i: nat)
    requires st.Sized() && i < Slots
  {
    SlotOk(tag, st.log, i, st.slots[i], st.hist[i])
  }

  lemma {:induction false} ReplayPrefix(log: seq<Entry>, e: Entry, n: nat, b: nat)
    requires n <= |log|
    ensures Replay(log + [e], n, b) == Replay(log, n, b)
  {
    if n > 0 { ReplayPrefix(log, e, n - 1, b); }
  }

  lemma {:induction false} BlocksPrefix(log: seq<Entry>, e: Entry, n: nat, start: nat, length: nat)
    requires n <= |log|
    ensures Blocks(log + [e], n, start, length) == Blocks(log, n, start, length)
  {
    if length > 0 {
      BlocksPrefix(log, e, n, start, length - 1);
      ReplayPrefix(log, e, n, start + length - 1);
    }
  }

  lemma ReplyPrefix(log: seq<Entry>, e: Entry, n: nat, op: Op)
    requires n <= |log|
    ensures Reply(log + [e], n, op) == Reply(log, n, op)
  {
    BlocksPrefix(log, e, n, op.start, op.length);
  }

  /** Only slot `i` and its history change. */
  lemma LocalStep(tag: Option<nat>, st: State, t: State, i: nat)
    requires Inv(tag, st) && t.Sized() && i < Slots
    requires t == st.(slots := st.slots[i := t.slots[i]], hist := st.hist[i := t.hist[i]])
    requires st.hist[i] <= t.hist[i] && SlotOk(tag, st.log, i, t.slots[i], t.hist[i])
    ensures Inv(tag, t)
  {
    forall n | 0 <= n < |t.log| ensures EntryOk(t, n) { assert EntryOk(st, n); }
    forall j | 0 <= j < Slots ensures SlotFits(tag, t, j) { assert SlotFits(tag, st, j); }
  }

  /** The slot's own part of an acceptance. */
  lemma ProcessedSlot(tag: Option<nat>, log: seq<Entry>, i: nat, x: Slot, h: seq<Note>, op: Op)
    requires SlotOk(tag, log, i, x, h) && x.status == Raw
    ensures SlotOk(tag, log, i, x.(success := false, handled := false), h)
    ensures SlotOk(tag, log, i, Slot(op, Pending, tag, false, false), h + [Accepted(op)])
  {
    LawfulGrows(log, i, h, Accepted(op));
  }

  lemma ProcessedKeeps(tag: Option<nat>, st: State, i: nat, env: Env)
    requires Inv(tag, st) && i < Slots
    ensures Inv(tag, Processed(tag, st, i, env))
  {
    assert SlotFits(tag, st, i);
    var x := st.slots[i];
    if x.status == Raw {
      ProcessedSlot(tag, st.log, i, x, st.hist[i], if env.incoming.Some? then env.incoming.value else x.op);
      LocalStep(tag, st, Processed(tag, st, i, env), i);
    }
  }

  /** The slot's own part of an acknowledgement. */
  lemma AnsweredSlot(tag: Option<nat>, log: seq<Entry>, i: nat, x: Slot, h: seq<Note>)
    requires SlotOk(tag, log, i, x, h) && x.status == Pending && x.handled
    ensures SlotOk(tag, log, i, x.(status := Raw), h + [Acknowledged(x.success, x.op.content)])
  {
    LawfulGrows(log, i, h, Acknowledged(x.success, x.op.content));
  }

  lemma AnsweredKeeps(tag: Option<nat>, st: State, i: nat, env: Env)
    requires Inv(tag, st) && i < Slots
    ensures Inv(tag, Answered(tag, st, i, env))
  {
    assert SlotFits(tag, st, i);
    var x, t := st.slots[i], Answered(tag, st, i, env);
    if t != st {
      AnsweredSlot(tag, st.log, i, x, st.hist[i]);
      LocalStep(tag, st, t, i);
    }
  }

  /** The slot's own part of an execution. */
  lemma HandledSlot(tag: Option<nat>, log: seq<Entry>, i: nat, x: Slot, h: seq<Note>, e: Entry)
    requires SlotOk(tag, log, i, x, h) && x.status == Pending && !x.handled
    requires (e.slot, e.nth, e.op) == (i, |h|, x.op)
    ensures SlotOk(tag, log + [e], i, x.(op := x.op.(content := e.content), handled := true, success := e.success), h + [Executed(|log|)])
  {
    LawfulKept(log, e, i, h);
    LawfulGrows(log + [e], i, h, Executed(|log|));
  }

  lemma HandledEntries(tag: Option<nat>, st: State, i: nat, n: nat)
    requires Inv(tag, st) && i < Slots && Handled(tag, st, i) != st && n < |Handled(tag, st, i).log|
    ensures EntryOk(Handled(tag, st, i), n)
  {
    var t := Handled(tag, st, i);
    var e := t.log[|st.log|];
    assert t.log == st.log + [e];
    ReplyPrefix(st.log, e, n, t.log[n].op);
    if n < |st.log| {
      assert EntryOk(st, n);
    } else {
      ExecuteAccepts(st.disk, e.op);
      ExecuteReplies(st.disk, st.log, n, e.op);
    }
  }

  lemma HandledSlots(tag: Option<nat>, st: State, i: nat, j: nat)
    requires Inv(tag, st) && i < Slots && j < Slots && Handled(tag, st, i) != st
    ensures SlotFits(tag, Handled(tag, st, i), j)
  {
    var t := Handled(tag, st, i);
    var e := t.log[|st.log|];
    assert t.log == st.log + [e];
    assert SlotFits(tag, st, j);
    if j == i { HandledSlot(tag, st.log, i, st.slots[i], st.hist[i], e); } else { LawfulKept(st.log, e, j, st.hist[j]); }
  }

  lemma DiskStep(disk: Disk, log: seq<Entry>, e: Entry)
    requires Holds(disk, log, |log|)
    ensures Holds(Execute(disk, e.op).0, log + [e], |log| + 1)
  {
    forall b: nat | b < BlockCount ensures BlockAt(Execute(disk, e.op).0, b) == Replay(log + [e], |log| + 1, b) {
      ReplayPrefix(log, e, |log|, b);
      ExecuteRefines(disk, e.op, b);
    }
  }

  lemma HandledDisk(tag: Option<nat>, st: State, i: nat)
    requires Inv(tag, st) && i < Slots && Handled(tag, st, i) != st
    ensures var t := Handled(tag, st, i); Holds(t.disk, t.log, |t.log|)
  {
    var t := Handled(tag, st, i);
    DiskStep(st.disk, st.log, t.log[|st.log|]);
  }

  lemma HandledKeeps(tag: Option<nat>, st: State, i: nat)
    requires Inv(tag, st) && i < Slots
    ensures Inv(tag, Handled(tag, st, i))
  {
    var t := Handled(tag, st, i);
    if t != st {
      HandledDisk(tag, st, i);
      forall n | 0 <= n < |t.log| ensures EntryOk(t, n) { HandledEntries(tag, st, i, n); }
      forall j | 0 <= j < Slots ensures SlotFits(tag, t, j) { HandledSlots(tag, st, i, j); }
    }
  }

  lemma VisitKeeps(tag: Option<nat>, st: State, i: nat, env: Env)
    requires Inv(tag, st) && i < Slots
    ensures Inv(tag, Visit(tag, st, i, env))
  {
    ProcessedKeeps(tag, st, i, env);
    HandledKeeps(tag, Processed(tag, st, i, env), i);
    AnsweredKeeps(tag, Handled(tag, Processed(tag, st, i, env), i), i, env);
  }

  lemma StartHolds(tag: Option<nat>)
    ensures Inv(tag, Start())
  {
    forall b: nat | b < BlockCount ensures BlockAt(Start().disk, b) == Blank() { }
  }

  lemma {:induction false} RunKeeps(tag: Option<nat>, states: seq<State>, visits: seq<(nat, Env)>, k: nat)
    requires Run(tag, states, visits) && k < |states|
    ensures Inv(tag, states[k])
  {
    if k == 0 {
      StartHolds(tag);
    } else {
      RunKeeps(tag, states, visits, k - 1);
      var (i, env) := visits[k - 1];
      assert states[k - 1 + 1] == Visit(tag, states[k - 1], i, env);
      VisitKeeps(tag, states[k - 1], i, env);
    }
  }

  /* ---- The properties of all runs ---- */

  /** Every acknowledged request was accepted and then executed exactly once, and
      the client is told the result of that execution and gets its data, however
      often the acknowledgement failed before. */
  lemma AcknowledgedOnce(tag: Option<nat>, states: seq<State>, visits: seq<(nat, Env)>, k: nat, i: nat, n: nat)
    requires Run(tag, states, visits) && k < |states| && i < Slots
    requires states[k].Sized() && n < |states[k].hist[i]| && states[k].hist[i][n].Acknowledged?
    ensures var h, log := states[k].hist[i], states[k].log;
            && n >= 2 && h[n - 2].Accepted? && h[n - 1].Executed? && h[n - 1].at < |log|
            && var e := log[h[n - 1].at];
            && (e.slot, e.nth) == (i, n - 1) && e.op == h[n - 2].op
            && h[n].success == Good(e.op) && h[n].content == Reply(log, h[n - 1].at, e.op)
  {
    RunKeeps(tag, states, visits, k);
    var h := states[k].hist[i];
    assert SlotFits(tag, states[k], i);
    assert Follows(states[k].log, i, h[..n], h[n]);
    assert Follows(states[k].log, i, h[..n - 1], h[n - 1]);
    assert EntryOk(states[k], h[n - 1].at);
  }

  /** The other way round: every execution stands after the acceptance of its
      request, in one place of one history, and is right for the blocks that the
      executions before it left; the disk is what all of them left. */
  lemma ExecutionsAreSequential(tag: Option<nat>, states: seq<State>, visits: seq<(nat, Env)>, k: nat, n: nat)
    requires Run(tag, states, visits) && k < |states| && n < |states[k].log|
    ensures var st, e := states[k], states[k].log[n];
            && st.Sized() && e.slot < Slots && 0 < e.nth < |st.hist[e.slot]|
            && st.hist[e.slot][e.nth - 1] == Accepted(e.op) && st.hist[e.slot][e.nth] == Executed(n)
            && (forall i, j :: 0 <= i < Slots && 0 <= j < |st.hist[i]| && st.hist[i][j] == Executed(n) ==> i == e.slot && j == e.nth)
            && e.success == Good(e.op) && e.content == Reply(st.log, n, e.op)
            && Holds(st.disk, st.log, |st.log|)
  {
    RunKeeps(tag, states, visits, k);
    var st, e := states[k], states[k].log[n];
    assert EntryOk(st, n);
    NotePlaced(tag, st, e.slot, e.nth);
    forall i, j | 0 <= i < Slots && 0 <= j < |st.hist[i]| && st.hist[i][j] == Executed(n) ensures i == e.slot && j == e.nth {
      NotePlaced(tag, st, i, j);
    }
  }

  lemma NotePlaced(tag: Option<nat>, st: State, i: nat, j: nat)
    requires Inv(tag, st) && i < Slots && j < |st.hist[i]| && st.hist[i][j].Executed?
    ensures var n := st.hist[i][j].at;
            && n < |st.log| && (st.log[n].slot, st.log[n].nth) == (i, j)
            && j > 0 && st.hist[i][j - 1] == Accepted(st.log[n].op)
  {
    assert SlotFits(tag, st, i);
    assert Follows(st.log, i, st.hist[i][..j], st.hist[i][j]);
  }

  /** A block holds what was last written to it, or zeros. */
  lemma {:induction false} BlockIsLastWrite(log: seq<Entry>, n: nat, b: nat)
    requires n <= |log|
    ensures Replay(log, n, b) == LastWritten(log, n, b)
  {
    if n > 0 {
      BlockIsLastWrite(log, n - 1, b);
      LastWrittenStep(log, n, b);
    }
  }

  lemma LastWrittenStep(log: seq<Entry>, n: nat, b: nat)
    requires 0 < n <= |log|
    ensures LastWritten(log, n, b) == Effect(log[n - 1].op, b, LastWritten(log, n - 1, b))
  {
    if Writes(log[n - 1].op, b) {
      assert LastWriter(log, n, b) == n;
    } else {
      assert LastWriter(log, n, b) == LastWriter(log, n - 1, b);
    }
  }

  lemma {:induction false} BlocksAt(log: seq<Entry>, n: nat, start: nat, length: nat, j: nat)
    requires n <= |log| && j < length
    ensures Blocks(log, n, start, length)[Offset(j)..Offset(j + 1)] == Replay(log, n, start + j)
  {
    if j < length - 1 {
      var r := Blocks(log, n, start, length - 1);
      BlocksAt(log, n, start, length - 1, j);
      assert (r + Replay(log, n, start + length - 1))[Offset(j)..Offset(j + 1)] == r[Offset(j)..Offset(j + 1)];
    }
  }

  lemma ReplyShowsWrites(log: seq<Entry>, n: nat, op: Op, j: nat)
    requires n <= |log| && Good(op) && op.code == 1 && j < op.length
    ensures var r := Reply(log, n, op);
            && r.Some? && |r.value| == Offset(op.length)
            && r.value[Offset(j)..Offset(j + 1)] == LastWritten(log, n, op.start + j)
  {
    BlocksAt(log, n, op.start, op.length, j);
    BlockIsLastWrite(log, n, op.start + j);
  }

  lemma EntryRight(tag: Option<nat>, states: seq<State>, visits: seq<(nat, Env)>, k: nat, n: nat)
    requires Run(tag, states, visits) && k < |states| && n < |states[k].log|
    ensures var e := states[k].log[n]; e.success == Good(e.op) && e.content == Reply(states[k].log, n, e.op)
  {
    RunKeeps(tag, states, visits, k);
    assert EntryOk(states[k], n);
  }

  /** In every run a successful read returns, block by block, what the latest
      write to that block before it wrote, and zeros where there was none. */
  lemma ReadsSeeLatestWrites(tag: Option<nat>, states: seq<State>, visits: seq<(nat, Env)>, k: nat, n: nat, j: nat)
    requires Run(tag, states, visits) && k < |states| && n < |states[k].log|
    requires var e := states[k].log[n]; e.success && e.op.code == 1 && j < e.op.length
    ensures var log, e := states[k].log, states[k].log[n];
            var b := e.op.start + j;
            && b < BlockCount && e.content.Some? && |e.content.value| == Offset(e.op.length)
            && e.content.value[Offset(j)..Offset(j + 1)]
               == LastWritten(log, n, b)
  {
    EntryRight(tag, states, visits, k, n);
    ReplyShowsWrites(states[k].log, n, states[k].log[n].op, j);
  }

  lemma SliceByte(s: seq<Byte>, a: nat, b: nat, r: nat)
    requires a <= b <= |s| && r < b - a
    ensures s[a..b][r] == s[a + r]
  {
  }

  /** The same byte by byte: byte `r` of the `j`-th block that a successful read
      (1) returns is the byte that the latest successful write (2) of that block
      put there, or 0. */
  lemma ReadBytesSeeLatestWrites(tag: Option<nat>, states: seq<State>, visits: seq<(nat, Env)>, k: nat, n: nat, j: nat, r: nat)
    requires Run(tag, states, visits) && k < |states| && n < |states[k].log| && r < 512
    requires var e := states[k].log[n]; e.success && e.op.code == 1 && j < e.op.length
    ensures var log, e := states[k].log, states[k].log[n];
            var b := e.op.start + j;
            var w := LastWriter(log, n, b);
            && b < 1024 && e.content.Some? && |e.content.value| == 512 * e.op.length
            && if w == 0 then e.content.value[512 * j + r] == 0
               else
                 var o := log[w - 1].op;
                 && o.code == 2 && o.start <= b < o.start + o.length && o.content.Some? && |o.content.value| == 512 * o.length
                 && e.content.value[512 * j + r] == o.content.value[512 * (b - o.start) + r]
  {
    var log, e := states[k].log, states[k].log[n];
    ReadsSeeLatestWrites(tag, states, visits, k, n, j);
    SliceByte(e.content.value, Offset(j), Offset(j + 1), r);
    var b := e.op.start + j;
    var w := LastWriter(log, n, b);
    if w > 0 {
      var o := log[w - 1].op;
      SliceByte(o.content.value, Offset(b - o.start), Offset(b - o.start + 1), r);
    }
  }

  /** A visit of a free slot takes and executes the request that waits. */
  lemma VisitExecutes(tag: Option<nat>, st: State, i: nat, env: Env)
    requires Inv(tag, st) && i < Slots && st.slots[i].status == Raw && env.incoming.Some?
    ensures var t, op := Visit(tag, st, i, env), env.incoming.value;
            && |t.log| == |st.log| + 1 && t.log[..|st.log|] == st.log
            && t.log[|st.log|].op == op && t.log[|st.log|].success == Good(op)
            && t.log[|st.log|].content == Reply(st.log, |st.log|, op)
            && st.hist[i] + [Accepted(op), Executed(|st.log|)] <= t.hist[i]
  {
    ProcessedKeeps(tag, st, i, env);
    var t, op := Processed(tag, st, i, env), env.incoming.value;
    ExecuteAccepts(st.disk, op);
    ExecuteReplies(st.disk, st.log, |st.log|, op);
    var u := Handled(tag, t, i);
    assert u.log == st.log + [Entry(i, |t.hist[i]|, op, Execute(st.disk, op).2, Execute(st.disk, op).1)];
    assert u.hist[i] == st.hist[i] + [Accepted(op), Executed(|st.log|)];
  }
}

/** The RAM-disk server as a component. */
module BlockServerProcess {
  import opened Basics
  import opened Block
  import opened BlockServer
  import opened BlockServerTheorems

  class DiskServer {
    const tag: Option<nat>
    const disk: array<Byte>
    var slots: seq<Slot>
    ghost var log: seq<Entry>
    ghost var hist: seq<seq<Note>>

    constructor (tag: Option<nat>)
      ensures Valid() && Now() == Start() && this.tag == tag && fresh(disk) && Inv(tag, Now())
    {
      this.tag := tag;
      disk := new Byte[DiskSize](_ => 0);
      slots := seq(Slots, _ => Empty);
      log := [];
      hist := seq(Slots, _ => []);
      new;
      assert disk[..] == Start().disk;
      StartHolds(tag);
    }

    ghost predicate Valid()
      reads this
    {
      disk.Length == DiskSize && |slots| == Slots == |hist|
    }

    ghost function Now(): State
      requires Valid()
      reads this, disk
    {
      State(disk[..], slots, log, hist)
    }

    /** The Read callback: the blocks go to the request's memory. */
    method Read(i: nat)
      requires Valid() && i < Slots && slots[i].op.content.Some?
      modifies this`slots
      ensures Valid() && slots == old(slots)[i := slots[i]]
      ensures var x, r := old(slots[i]), Called(disk[..], old(slots[i].op), false);
              r.0 == disk[..] && slots[i] == x.(op := x.op.(content := r.1), success := r.2)
    {
      var x := slots[i];
      if Offset(x.op.start) < DiskSize
         && 0 <= Offset(x.op.start + x.op.length) - 1 < DiskSize
         && |x.op.content.value| == Offset(x.op.length) {
        var data := disk[Offset(x.op.start)..Offset(x.op.start + x.op.length)];
        slots := slots[i := x.(op := x.op.(content := Some(data)), success := true)];
      } else {
        slots := slots[i := x.(success := false)];
      }
    }

    /** The Write callback: the request's memory goes to the blocks. */
    method Write(i: nat)
      requires Valid() && i < Slots && slots[i].op.content.Some?
      modifies this`slots, disk
      ensures Valid() && slots == old(slots)[i := slots[i]]
      ensures var x, r := old(slots[i]), Called(old(disk[..]), old(slots[i].op), true);
              r.0 == disk[..] && slots[i] == x.(op := x.op.(content := r.1), success := r.2)
    {
      var x := slots[i];
      if Offset(x.op.start) < DiskSize
         && 0 <= Offset(x.op.start + x.op.length) - 1 < DiskSize
         && |x.op.content.value| == Offset(x.op.length) {
        var a, b := Offset(x.op.start), Offset(x.op.start + x.op.length);
        forall j | 0 <= j < |x.op.content.value| {
          disk[a + j] := x.op.content.value[j];
        }
        assert disk[..] == old(disk[..])[..a] + x.op.content.value + old(disk[..])[b..];
        slots := slots[i := x.(success := true)];
      } else {
        slots := slots[i := x.(success := false)];
      }
    }

    /** The server library's `Process`, after the slot's flags were cleared. */
    method Process(i: nat, env: Env) returns (finished: bool)
      requires Valid() && i < Slots && slots[i].status == Raw
      modifies this`slots, this`hist
      ensures Valid() && Now() == Processed(tag, old(Now()), i, env)
      ensures finished == env.incoming.None?
    {
      slots := slots[i := slots[i].(success := false, handled := false)];
      if env.incoming.Some? {
        slots := slots[i := slots[i].(op := env.incoming.value, status := Pending, session := tag)];
        hist := hist[i := hist[i] + [Accepted(env.incoming.value)]];
      }
      finished := slots[i].status == Raw;
    }

    /** Execute a request that is new. */
    method Handle(i: nat)
      requires Valid() && i < Slots && Inv(tag, Now())
      modifies this`slots, this`log, this`hist, disk
      ensures Valid() && Now() == Handled(tag, old(Now()), i)
    {
      assert SlotFits(tag, Now(), i);
      if slots[i].status == Pending && slots[i].session == tag && !slots[i].handled {
        ghost var x := slots[i];
        slots := slots[i := slots[i].(handled := true)];
        if slots[i].op.start <= DiskSize / 512 && slots[i].op.length > 0 && slots[i].op.length <= DiskSize / 512 {
          // The library calls back with the request's memory, if it has any.
          match ServerKind(slots[i].op.code)
          case Read => if slots[i].op.content.Some? { Read(i); }
          case Write => if slots[i].op.content.Some? { Write(i); }
          case None =>
          case Sync =>
          case Trim =>
          case Undefined =>
        } else {
          slots := slots[i := slots[i].(success := false)];
        }
        log := log + [Entry(i, |hist[i]|, x.op, slots[i].success, slots[i].op.content)];
        hist := hist[i := hist[i] + [Executed(|log| - 1)]];
      }
    }

    /** Acknowledge what was handled; this fails without room in the queue. */
    method Acknowledge(i: nat, env: Env)
      requires Valid() && i < Slots
      modifies this`slots, this`hist
      ensures Valid() && Now() == Answered(tag, old(Now()), i, env)
    {
      if slots[i].status == Pending && slots[i].session == tag && slots[i].handled {
        if env.ackOk {
          slots := slots[i := slots[i].(status := Raw)];
          hist := hist[i := hist[i] + [Acknowledged(slots[i].success, slots[i].op.content)]];
        }
      }
    }

    /** One round of the inner loop. */
    method VisitSlot(i: nat, env: Env, finished: bool) returns (finished': bool)
      requires Valid() && i < Slots && Inv(tag, Now())
      modifies this`slots, this`log, this`hist, disk
      ensures Valid() && Now() == Visit(tag, old(Now()), i, env) && Inv(tag, Now())
      ensures finished' == if old(slots[i].status) == Raw then env.incoming.None? else finished
    {
      VisitKeeps(tag, Now(), i, env);
      ProcessedKeeps(tag, Now(), i, env);
      finished' := finished;
      if slots[i].status == Raw {
        finished' := Process(i, env);
      }
      Handle(i);
      Acknowledge(i, env);
    }

    /** `Event`: pass over all slots until a pass finds nothing more to do.
        `passes` is what the passes meet; the handler is still at work when they
        are used up without that. It ends with the first quiet pass. */
    method Event(passes: seq<seq<Env>>) returns (done: nat, finished: bool)
      requires Valid() && Inv(tag, Now())
      requires Wide(passes)
      modifies this`slots, this`log, this`hist, disk
      ensures Valid() && Inv(tag, Now())
      ensures done <= |passes| && Now() == AfterPasses(tag, old(Now()), passes, done)
      ensures FirstQuiet(tag, old(Now()), passes, done, finished) && (finished || done == |passes|)
      ensures finished <==> exists k :: 0 <= k < |passes| && QuietAt(tag, old(Now()), passes, k)
    {
      ghost var st := Now();
      finished, done := false, 0;
      while done < |passes| && !finished
        invariant Valid() && Inv(tag, Now()) && done <= |passes|
        invariant Now() == AfterPasses(tag, st, passes, done)
        invariant FirstQuiet(tag, st, passes, done, finished)
      {
        finished := Pass(passes[done]);
        done := done + 1;
      }
      if finished {
        assert QuietAt(tag, st, passes, done - 1);
      }
    }

    /** One pass over all slots: `finished` says whether it was quiet. */
    method Pass(envs: seq<Env>) returns (finished: bool)
      requires Valid() && Inv(tag, Now()) && |envs| == Slots
      modifies this`slots, this`log, this`hist, disk
      ensures Valid() && Inv(tag, Now())
      ensures Now() == AfterVisits(tag, old(Now()), envs, Slots)
      ensures finished == Quiet(old(Now()), envs)
    {
      finished := false;
      for i := 0 to Slots
        invariant Valid() && Inv(tag, Now()) && Now() == AfterVisits(tag, old(Now()), envs, i)
        invariant finished == QuietUpTo(old(Now()), envs, i)
      {
        VisitsLeaveOthers(tag, old(Now()), envs, i, i);
        finished := VisitSlot(i, envs[i], finished);
      }
      QuietIsLast(old(Now()), envs, Slots);
    }
  }

  /* ---- Passes ---- */

  ghost predicate Wide(passes: seq<seq<Env>>) {
    forall k :: 0 <= k < |passes| ==> |passes[k]| == Slots
  }

  ghost function AfterVisits(tag: Option<nat>, st: State, envs: seq<Env>, n: nat): (r: State)
    requires st.Sized() && n <= |envs| == Slots
    ensures r.Sized()
  {
    if n == 0 then st else Visit(tag, AfterVisits(tag, st, envs, n - 1), n - 1, envs[n - 1])
  }

  ghost function AfterPasses(tag: Option<nat>, st: State, passes: seq<seq<Env>>, n: nat): (r: State)
    requires st.Sized() && n <= |passes| && Wide(passes)
    ensures r.Sized()
  {
    if n == 0 then st else AfterVisits(tag, AfterPasses(tag, st, passes, n - 1), passes[n - 1], Slots)
  }

  /** The last slot that is free when the pass begins meets no request; if no
      slot is free, the pass is not quiet. */
  ghost predicate Quiet(st: State, envs: seq<Env>)
    requires st.Sized() && |envs| == Slots
  {
    exists i :: 0 <= i < Slots && LastFree(st, i) && envs[i].incoming.None?
  }

  ghost predicate LastFree(st: State, i: nat)
    requires st.Sized() && i < Slots
  {
    st.slots[i].status == Raw && forall j :: i < j < Slots ==> st.slots[j].status != Raw
  }

  ghost predicate QuietAt(tag: Option<nat>, st: State, passes: seq<seq<Env>>, k: nat)
    requires st.Sized() && k < |passes| && Wide(passes)
  {
    Quiet(AfterPasses(tag, st, passes, k), passes[k])
  }

  /** None of the first `done` passes was quiet, but for the last if `finished`. */
  ghost predicate FirstQuiet(tag: Option<nat>, st: State, passes: seq<seq<Env>>, done: nat, finished: bool)
    requires st.Sized() && done <= |passes| && Wide(passes)
  {
    && (finished ==> done > 0)
    && forall k :: 0 <= k < done ==> (QuietAt(tag, st, passes, k) <==> finished && k == done - 1)
  }

  /** The flag after the first `n` slots. */
  ghost predicate QuietUpTo(st: State, envs: seq<Env>, n: nat)
    requires st.Sized() && n <= |envs| == Slots
  {
    n > 0 && if st.slots[n - 1].status == Raw then envs[n - 1].incoming.None? else QuietUpTo(st, envs, n - 1)
  }

  lemma {:induction false} QuietIsLast(st: State, envs: seq<Env>, n: nat)
    requires st.Sized() && n <= |envs| == Slots
    requires forall j :: n <= j < Slots ==> st.slots[j].status != Raw
    ensures QuietUpTo(st, envs, n) <==> Quiet(st, envs)
  {
    if n > 0 {
      if st.slots[n - 1].status == Raw {
        assert LastFree(st, n - 1);
      } else {
        QuietIsLast(st, envs, n - 1);
      }
    }
  }

  /** A visit changes no other slot. */
  lemma VisitLeavesOthers(tag: Option<nat>, st: State, i: nat, env: Env, j: nat)
    requires st.Sized() && i < Slots && j < Slots && i != j
    ensures Visit(tag, st, i, env).slots[j] == st.slots[j]
  {
    assert Processed(tag, st, i, env).slots[j] == st.slots[j];
    assert Handled(tag, Processed(tag, st, i, env), i).slots[j] == st.slots[j];
  }

  /** Slot `j` is as it was until its own visit. */
  lemma {:induction false} VisitsLeaveOthers(tag: Option<nat>, st: State, envs: seq<Env>, n: nat, j: nat)
    requires st.Sized() && n <= |envs| == Slots && n <= j < Slots
    ensures AfterVisits(tag, st, envs, n).slots[j] == st.slots[j]
  {
    if n > 0 {
      VisitsLeaveOthers(tag, st, envs, n - 1, j);
      VisitLeavesOthers(tag, AfterVisits(tag, st, envs, n - 1), n - 1, envs[n - 1], j);
    }
  }

  /* ---- When the handler ends, from what it meets alone ---- */

  /** Whether a slot that was free or not at first is free when pass `k` begins:
      it becomes free with room for its acknowledgement, and stays free until
      it meets a request. */
  ghost predicate FreeAt(free: bool, passes: seq<seq<Env>>, i: nat, k: nat)
    requires k <= |passes| && Wide(passes) && i < Slots
  {
    if k == 0 then free
    else passes[k - 1][i].ackOk || (FreeAt(free, passes, i, k - 1) && passes[k - 1][i].incoming.None?)
  }

  /** A visit leaves its slot free exactly in these two cases. */
  lemma VisitFrees(tag: Option<nat>, st: State, i: nat, env: Env)
    requires Inv(tag, st) && i < Slots
    ensures Visit(tag, st, i, env).slots[i].status == Raw <==> env.ackOk || (st.slots[i].status == Raw && env.incoming.None?)
  {
    assert SlotFits(tag, st, i);
    ProcessedKeeps(tag, st, i, env);
    var t := Processed(tag, st, i, env);
    assert SlotFits(tag, t, i);
    var u := Handled(tag, t, i);
    assert u.slots[i].status == t.slots[i].status && (t.slots[i].status == Pending ==> u.slots[i].handled && u.slots[i].session == tag);
  }

  lemma {:induction false} VisitsKeep(tag: Option<nat>, st: State, envs: seq<Env>, n: nat)
    requires Inv(tag, st) && n <= |envs| == Slots
    ensures Inv(tag, AfterVisits(tag, st, envs, n))
  {
    if n > 0 {
      VisitsKeep(tag, st, envs, n - 1);
      VisitKeeps(tag, AfterVisits(tag, st, envs, n - 1), n - 1, envs[n - 1]);
    }
  }

  lemma {:induction false} PassFrees(tag: Option<nat>, st: State, envs: seq<Env>, n: nat, i: nat)
    requires Inv(tag, st) && i < n <= |envs| == Slots
    ensures AfterVisits(tag, st, envs, n).slots[i].status == Raw <==> envs[i].ackOk || (st.slots[i].status == Raw && envs[i].incoming.None?)
  {
    var t := AfterVisits(tag, st, envs, n - 1);
    VisitsKeep(tag, st, envs, n - 1);
    if i == n - 1 {
      VisitsLeaveOthers(tag, st, envs, i, i);
      VisitFrees(tag, t, i, envs[i]);
    } else {
      PassFrees(tag, st, envs, n - 1, i);
      VisitLeavesOthers(tag, t, n - 1, envs[n - 1], i);
    }
  }

  lemma {:induction false} PassesFree(tag: Option<nat>, st: State, passes: seq<seq<Env>>, k: nat, i: nat)
    requires Inv(tag, st) && k <= |passes| && Wide(passes) && i < Slots
    ensures Inv(tag, AfterPasses(tag, st, passes, k))
    ensures AfterPasses(tag, st, passes, k).slots[i].status == Raw <==> FreeAt(st.slots[i].status == Raw, passes, i, k)
  {
    if k > 0 {
      PassesFree(tag, st, passes, k - 1, i);
      var t := AfterPasses(tag, st, passes, k - 1);
      VisitsKeep(tag, t, passes[k - 1], Slots);
      PassFrees(tag, t, passes[k - 1], Slots, i);
    }
  }

  /** Slot `i` is the last free one when pass `k` begins, and meets nothing. */
  ghost predicate Idle(st: State, passes: seq<seq<Env>>, k: nat, i: nat)
    requires st.Sized() && k < |passes| && Wide(passes) && i < Slots
  {
    && FreeAt(st.slots[i].status == Raw, passes, i, k) && passes[k][i].incoming.None?
    && forall j :: i < j < Slots ==> !FreeAt(st.slots[j].status == Raw, passes, j, k)
  }

  /** Exactly when pass `k` is the quiet one, said of the slots that were free
      when the handler began and of what the passes met. */
  lemma QuietIff(tag: Option<nat>, st: State, passes: seq<seq<Env>>, k: nat)
    requires Inv(tag, st) && k < |passes| && Wide(passes)
    ensures QuietAt(tag, st, passes, k) <==> IdlePass(st, passes, k)
  {
    var t := AfterPasses(tag, st, passes, k);
    forall i | 0 <= i < Slots ensures t.slots[i].status == Raw <==> FreeAt(st.slots[i].status == Raw, passes, i, k) {
      PassesFree(tag, st, passes, k, i);
    }
    forall i | 0 <= i < Slots ensures Idle(st, passes, k, i) <==> LastFree(t, i) && passes[k][i].incoming.None? { }
  }

  ghost predicate IdlePass(st: State, passes: seq<seq<Env>>, k: nat)
    requires st.Sized() && k < |passes| && Wide(passes)
  {
    exists i :: 0 <= i < Slots && Idle(st, passes, k, i)
  }

  /** So the handler ends exactly if some pass has such a slot. */
  lemma EndsIff(tag: Option<nat>, st: State, passes: seq<seq<Env>>)
    requires Inv(tag, st) && Wide(passes)
    ensures (exists k :: 0 <= k < |passes| && QuietAt(tag, st, passes, k)) <==> (exists k :: 0 <= k < |passes| && IdlePass(st, passes, k))
  {
    forall k | 0 <= k < |passes| ensures QuietAt(tag, st, passes, k) <==> IdlePass(st, passes, k) {
      QuietIff(tag, st, passes, k);
    }
  }

  /** With every slot waiting for an acknowledgement and no room for one, no pass
      is quiet and nothing changes, so the handler does not end. */
  lemma {:induction false} BusyPasses(tag: Option<nat>, st: State, passes: seq<seq<Env>>, n: nat)
    requires st.Sized() && n <= |passes| && Wide(passes)
    requires forall i :: 0 <= i < Slots ==> Waiting(st, i)
    requires forall k, i :: 0 <= k < |passes| && 0 <= i < Slots ==> !passes[k][i].ackOk
    ensures AfterPasses(tag, st, passes, n) == st
    ensures forall k :: 0 <= k < n ==> !QuietAt(tag, st, passes, k)
  {
    if n > 0 {
      BusyPasses(tag, st, passes, n - 1);
      BusyVisits(tag, st, passes[n - 1], Slots);
      forall i | 0 <= i < Slots ensures !LastFree(st, i) { assert Waiting(st, i); }
    }
  }

  ghost predicate Waiting(st: State, i: nat)
    requires st.Sized() && i < Slots
  {
    st.slots[i].status == Pending && st.slots[i].handled
  }

  lemma {:induction false} BusyVisits(tag: Option<nat>, st: State, envs: seq<Env>, n: nat)
    requires st.Sized() && n <= |envs| == Slots
    requires forall i :: 0 <= i < Slots ==> Waiting(st, i) && !envs[i].ackOk
    ensures AfterVisits(tag, st, envs, n) == st
  {
    if n > 0 {
      assert Waiting(st, n - 1);
      BusyVisits(tag, st, envs, n - 1);
    }
  }

  /** A client that sends requests and does not take acknowledgements. */
  function Greedy(op: Op): seq<Env> { seq(Slots, _ => Env(Some(op), false)) }

  function InTurn(i: nat, env: Env): (nat, Env) { (i, env) }

  lemma {:induction false} GreedyFills(tag: Option<nat>, op: Op, n: nat)
    requires n <= Slots
    ensures forall i :: 0 <= i < n ==> Waiting(AfterVisits(tag, Start(), Greedy(op), n), i)
  {
    if n > 0 {
      GreedyFills(tag, op, n - 1);
      var t := AfterVisits(tag, Start(), Greedy(op), n - 1);
      VisitsLeaveOthers(tag, Start(), Greedy(op), n - 1, n - 1);
      var u := Visit(tag, t, n - 1, Greedy(op)[n - 1]);
      forall i | 0 <= i < n ensures Waiting(u, i) {
        if i < n - 1 {
          assert Waiting(t, i);
          VisitLeavesOthers(tag, t, n - 1, Greedy(op)[n - 1], i);
        }
      }
    }
  }

  /** So the state in which all slots wait is reached from the start by one pass
      over requests of a client that does not take acknowledgements. */
  lemma AllWaitingIsReached(tag: Option<nat>, op: Op) returns (states: seq<State>, visits: seq<(nat, Env)>)
    ensures Run(tag, states, visits) && |visits| == Slots
    ensures states[Slots].Sized() && forall i :: 0 <= i < Slots ==> Waiting(states[Slots], i)
  {
    states := seq(Slots + 1, k requires 0 <= k <= Slots => AfterVisits(tag, Start(), Greedy(op), k));
    visits := seq<(nat, Env)>(Slots, k requires 0 <= k < Slots => InTurn(k, Greedy(op)[k]));
    GreedyFills(tag, op, Slots);
  }

  /** And from the start, however often such a client's requests are met, the
      handler does not end. */
  lemma GreedyNeverEnds(tag: Option<nat>, op: Op, passes: seq<seq<Env>>, k: nat)
    requires k < |passes| && Wide(passes)
    requires forall m :: 0 <= m < |passes| ==> passes[m] == Greedy(op)
    ensures !QuietAt(tag, Start(), passes, k)
  {
    StartHolds(tag);
    QuietIff(tag, Start(), passes, k);
    forall i | 0 <= i < Slots ensures !Idle(Start(), passes, k, i) {
      assert passes[k][i] == Env(Some(op), false);
    }
  }
}

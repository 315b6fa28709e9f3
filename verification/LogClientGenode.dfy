/** The Genode log client: text is collected in a buffer of 4096 characters and
    written in slices of at most 216, each ended by a NUL. */
module LogClientGenode {
  import opened Protocol
  import opened LogText

  const BufferLast: nat := 4096
  const SliceLength: nat := 216

  function Min(a: nat, b: nat): nat { if a < b then a else b }

  /** The slices of a text from position `first` on. */
  function Slices(m: Text, first: nat): (r: seq<Text>)
    requires first <= |m|
    decreases |m| - first
  {
    if first == |m| then [] else
      var next := Min(first + SliceLength, |m|);
      [m[first..next]] + Slices(m, next)
  }

  /** Slices are neither empty nor too long, only the last is short, and
      together they are the text. */
  lemma {:induction false} SlicesCover(m: Text, first: nat)
    requires first <= |m|
    ensures var r := Slices(m, first);
            && (forall i :: 0 <= i < |r| ==> 0 < |r[i]| <= 216)
            && (forall i :: 0 <= i < |r| - 1 ==> |r[i]| == 216)
            && Concat(r) == m[first..]
    decreases |m| - first
  {
    if first < |m| {
      var next := Min(first + SliceLength, |m|);
      SlicesCover(m, next);
      ConcatSplit([m[first..next]], Slices(m, next));
      ConcatSingle(m[first..next]);
      assert m[first..] == m[first..next] + m[next..];
    }
  }

  lemma ConcatSingle(t: Text)
    ensures Concat([t]) == t
  {
    ConcatOne([], t);
    assert [] + [t] == [t];
  }

  lemma {:induction false} ConcatSplit(a: seq<Text>, b: seq<Text>)
    ensures Concat(a + b) == Concat(a) + Concat(b)
  {
    if b == [] {
      assert a + b == a;
    } else {
      var n := |b| - 1;
      ConcatSplit(a, b[..n]);
      ConcatOne(a + b[..n], b[n]);
      assert a + b == a + b[..n] + [b[n]];
    }
  }

  /** What the log service reads: each message up to its first NUL. */
  function Read(rpc: seq<Text>): seq<Text> {
    seq(|rpc|, i requires 0 <= i < |rpc| => Cut(rpc[i]))
  }

  function Terminated(slices: seq<Text>): seq<Text> {
    seq(|slices|, i requires 0 <= i < |slices| => slices[i] + [NUL])
  }

  /** Text without NUL arrives as it was written. */
  lemma ReadBack(slices: seq<Text>)
    requires forall i :: 0 <= i < |slices| ==> NUL !in slices[i]
    ensures Read(Terminated(slices)) == slices
  {
    forall i | 0 <= i < |slices| ensures Cut(slices[i] + [NUL]) == slices[i] {
      CutIs(slices[i] + [NUL], slices[i]);
    }
  }

  /** One slice more. */
  lemma SliceStep(written: seq<Text>, m: Text, first: nat)
    requires first < |m|
    ensures var next := Min(first + SliceLength, |m|);
            && written + Slices(m, first) == written + [m[first..next]] + Slices(m, next)
            && Terminated(written + [m[first..next]]) == Terminated(written) + [m[first..next] + [NUL]]
  {
  }

  /* ---- Sequences of calls ---- */

  /** The slices that were written, and the text that waits. */
  datatype Output = Output(written: seq<Text>, pending: Text)

  function All(o: Output): Text { Concat(o.written) + o.pending }

  function Flushed(o: Output): Output {
    if o.pending == [] then o else Output(o.written + Slices(o.pending, 0), [])
  }

  function Printed(o: Output, msg: Text): Output {
    if msg == [] then o
    else if |msg| > BufferLast - 1 - |o.pending| then
      var f := Flushed(o);
      Output(f.written + Slices(msg, 0), [])
    else Output(o.written, o.pending + msg)
  }

  lemma WrittenAll(written: seq<Text>, m: Text)
    ensures Concat(written + Slices(m, 0)) == Concat(written) + m
  {
    ConcatSplit(written, Slices(m, 0));
    SlicesCover(m, 0);
    assert m[0..] == m;
  }

  /** Neither call loses text or changes its order. */
  lemma CallsConserve(o: Output, msg: Text)
    ensures All(Flushed(o)) == All(o) && Flushed(o).pending == []
    ensures All(Printed(o, msg)) == All(o) + msg
  {
    WrittenAll(o.written, o.pending);
    WrittenAll(Flushed(o).written, msg);
    assert All(Flushed(o)) == All(o);
  }

  datatype Call = Print(msg: Text) | Flush

  function After(calls: seq<Call>, n: nat): Output
    requires n <= |calls|
  {
    if n == 0 then Output([], []) else Called(After(calls, n - 1), calls[n - 1])
  }

  function Texts(calls: seq<Call>, n: nat): Text
    requires n <= |calls|
  {
    if n == 0 then [] else Texts(calls, n - 1) + if calls[n - 1].Print? then calls[n - 1].msg else []
  }

  /** No slice is empty or too long, and what waits fits the buffer. */
  ghost predicate Bounded(o: Output) {
    && |o.pending| < BufferLast
    && (forall i :: 0 <= i < |o.written| ==> 0 < |o.written[i]| <= SliceLength)
  }

  lemma CallsBounded(o: Output, msg: Text)
    requires Bounded(o)
    ensures Bounded(Flushed(o)) && Bounded(Printed(o, msg))
  {
    SlicesCover(o.pending, 0);
    assert Bounded(Flushed(o));
    SlicesCover(msg, 0);
  }

  /** In every sequence of calls, what was written and what waits together are
      what was printed, and no slice is longer than 216. */
  lemma {:induction false} TextIsConserved(calls: seq<Call>, n: nat)
    requires n <= |calls|
    ensures All(After(calls, n)) == Texts(calls, n) && Bounded(After(calls, n))
  {
    if n > 0 {
      TextIsConserved(calls, n - 1);
      CallConserves(After(calls, n - 1), calls[n - 1]);
    }
  }

  function Called(o: Output, call: Call): Output {
    match call
    case Print(msg) => Printed(o, msg)
    case Flush => Flushed(o)
  }

  lemma CallConserves(o: Output, call: Call)
    requires Bounded(o)
    ensures Bounded(Called(o, call)) && All(Called(o, call)) == All(o) + if call.Print? then call.msg else []
  {
    var msg := if call.Print? then call.msg else [];
    CallsConserve(o, msg);
    CallsBounded(o, msg);
  }

  /** So the service reads exactly what was printed and is not waiting, for text
      without NUL. */
  lemma TextArrives(calls: seq<Call>, n: nat)
    requires n <= |calls| && NUL !in Texts(calls, n)
    ensures var o := After(calls, n); Concat(Read(Terminated(o.written))) + o.pending == Texts(calls, n)
  {
    var o := After(calls, n);
    TextIsConserved(calls, n);
    assert NUL !in Concat(o.written);
    forall i | 0 <= i < |o.written| ensures NUL !in o.written[i] { PieceOf(o.written, i); }
    ReadBack(o.written);
  }

  /* ---- The client ---- */

  class Client {
    /** Positions 1 to 4096 of the source are 0 to 4095 here. */
    const buffer: array<Latin>
    var cursor: nat
    var rpc: seq<Text>
    ghost var written: seq<Text>

    ghost predicate Valid()
      reads this, buffer
    {
      buffer.Length == BufferLast && 1 <= cursor <= BufferLast && rpc == Terminated(written)
    }

    ghost function Now(): Output
      requires Valid()
      reads this, buffer
    {
      Output(written, buffer[..cursor - 1])
    }

    constructor ()
      ensures Valid() && Now() == After([], 0) && fresh(buffer)
    {
      buffer := new Latin[BufferLast](_ => NUL);
      cursor, rpc, written := 1, [], [];
    }

    /** `Write`: slice by slice, at least one. */
    method Write(m: Text)
      requires Valid() && m != []
      modifies this`rpc, this`written
      ensures Valid() && written == old(written) + Slices(m, 0)
    {
      var first := 0;
      while true
        invariant Valid() && first < |m| && written + Slices(m, first) == old(written) + Slices(m, 0)
        decreases |m| - first
      {
        var next := Min(first + SliceLength, |m|);
        SliceStep(written, m, first);
        rpc := rpc + [m[first..next] + [NUL]];
        written := written + [m[first..next]];
        if next == |m| {
          break;
        }
        first := next;
      }
    }

    /** `Flush`. */
    method Flush()
      requires Valid()
      modifies this
      ensures Valid() && Now() == Flushed(old(Now()))
    {
      if cursor > 1 {
        Write(buffer[..cursor - 1]);
      }
      cursor := 1;
    }

    /** `Print`: what does not fit goes out at once, behind what waits. */
    method Print(msg: Text)
      requires Valid()
      modifies this, buffer
      ensures Valid() && Now() == Printed(old(Now()), msg)
    {
      if |msg| == 0 {
        return;
      }
      if |msg| > BufferLast - cursor {
        Flush();
        Write(msg);
      } else {
        ghost var o := buffer[..cursor - 1];
        forall i | 0 <= i < |msg| {
          buffer[cursor - 1 + i] := msg[i];
        }
        cursor := cursor + |msg|;
        assert buffer[..cursor - 1] == o + msg;
      }
    }
  }
}

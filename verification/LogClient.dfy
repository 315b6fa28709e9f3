/** The Linux log client and the server's side of its session: text travels in
    messages of 128 characters, cut at the first NUL. */
module LogClient {
  import opened Basics
  import opened Protocol
  import opened LogText

  const MessageSize: nat := 128

  /** The chunks of text that were sent, and the text that waits. */
  datatype Chunks = Chunks(sent: seq<Text>, pending: Text)

  /** All text that was printed. */
  function All(k: Chunks): Text { Concat(k.sent) + k.pending }

  function Flushed(k: Chunks): Chunks { Chunks(k.sent + [k.pending], []) }

  /** One character more: a line feed or a full buffer sends the chunk. */
  function Feed(k: Chunks, c: Latin): Chunks {
    var p := Chunks(k.sent, k.pending + [c]);
    if c == LF || |p.pending| >= MessageSize then Flushed(p) else p
  }

  /** `Print` of the first `n` characters. */
  function Printed(k: Chunks, msg: Text, n: nat): Chunks
    requires n <= |msg|
  {
    if n == 0 then (if |k.pending| >= MessageSize then Flushed(k) else k) else Feed(Printed(k, msg, n - 1), msg[n - 1])
  }

  /* ---- Sequences of calls ---- */

  datatype Call = Print(msg: Text) | Flush

  function After(calls: seq<Call>, n: nat): (k: Chunks)
    requires n <= |calls|
  {
    if n == 0 then Chunks([], [])
    else
      var k := After(calls, n - 1);
      match calls[n - 1]
      case Print(msg) => Printed(k, msg, |msg|)
      case Flush => Flushed(k)
  }

  function Texts(calls: seq<Call>, n: nat): Text
    requires n <= |calls|
  {
    if n == 0 then [] else Texts(calls, n - 1) + if calls[n - 1].Print? then calls[n - 1].msg else []
  }

  lemma FlushedConserves(k: Chunks)
    ensures All(Flushed(k)) == All(k)
  {
    ConcatOne(k.sent, k.pending);
  }

  lemma FeedConserves(k: Chunks, c: Latin)
    ensures All(Feed(k, c)) == All(k) + [c]
  {
    FlushedConserves(Chunks(k.sent, k.pending + [c]));
  }

  lemma {:induction false} PrintedConserves(k: Chunks, msg: Text, n: nat)
    requires n <= |msg|
    ensures All(Printed(k, msg, n)) == All(k) + msg[..n]
  {
    if n == 0 {
      FlushedConserves(k);
    } else {
      PrintedConserves(k, msg, n - 1);
      FeedConserves(Printed(k, msg, n - 1), msg[n - 1]);
      Snoc(All(k), msg, n);
    }
  }

  lemma Snoc(a: Text, msg: Text, n: nat)
    requires 0 < n <= |msg|
    ensures a + msg[..n] == (a + msg[..n - 1]) + [msg[n - 1]]
  {
  }

  /** Whatever is printed and flushed, in whatever order: what was sent and what
      waits together are what was printed. */
  lemma {:induction false} TextIsConserved(calls: seq<Call>, n: nat)
    requires n <= |calls|
    ensures All(After(calls, n)) == Texts(calls, n)
  {
    if n > 0 {
      TextIsConserved(calls, n - 1);
      var k := After(calls, n - 1);
      match calls[n - 1]
      case Print(msg) =>
        PrintedConserves(k, msg, |msg|);
        assert msg[..|msg|] == msg;
      case Flush => FlushedConserves(k);
    }
  }

  /** A chunk is part of one line, and fits a message. */
  predicate InOneLine(t: Text) {
    |t| <= MessageSize && forall i :: 0 <= i < |t| - 1 ==> t[i] != LF
  }

  ghost predicate WellCut(k: Chunks) {
    && (forall i :: 0 <= i < |k.sent| ==> InOneLine(k.sent[i]))
    && |k.pending| < MessageSize && LF !in k.pending
  }

  lemma FeedWellCut(k: Chunks, c: Latin)
    requires WellCut(k)
    ensures WellCut(Feed(k, c)) && WellCut(Flushed(k))
  {
    forall i | 0 <= i < |k.pending| ensures k.pending[i] != LF { assert k.pending[i] in k.pending; }
  }

  lemma {:induction false} PrintedWellCut(k: Chunks, msg: Text, n: nat)
    requires WellCut(k) && n <= |msg|
    ensures WellCut(Printed(k, msg, n))
  {
    if n > 0 {
      PrintedWellCut(k, msg, n - 1);
      FeedWellCut(Printed(k, msg, n - 1), msg[n - 1]);
    }
  }

  lemma {:induction false} AfterWellCut(calls: seq<Call>, n: nat)
    requires n <= |calls|
    ensures WellCut(After(calls, n))
  {
    if n > 0 {
      AfterWellCut(calls, n - 1);
      match calls[n - 1]
      case Print(msg) => PrintedWellCut(After(calls, n - 1), msg, |msg|);
      case Flush => FeedWellCut(After(calls, n - 1), LF);
    }
  }

  /* ---- Messages ---- */

  /** A message carries a chunk: the chunk first, then a NUL, then whatever the
      buffer held before. */
  predicate Carries(m: Text, chunk: Text) {
    |m| == MessageSize && chunk <= m && (|chunk| < MessageSize ==> m[|chunk|] == NUL)
  }

  /** What `Session_Event` hands to the server for a message. */
  function Delivered(m: Text): Text { if |Cut(m)| > 1 then Cut(m) else [] }

  /** A chunk arrives exactly if it has no NUL and is not a single character. */
  lemma DeliveredIff(m: Text, chunk: Text)
    requires Carries(m, chunk)
    ensures Delivered(m) <= chunk
    ensures Delivered(m) == chunk <==> NUL !in chunk && |chunk| != 1
  {
    if NUL !in chunk {
      CutIs(m, chunk);
    } else {
      var i :| 0 <= i < |chunk| && chunk[i] == NUL;
      CutShort(m, i);
    }
  }

  function DeliveredAll(ms: seq<Text>): seq<Text> {
    seq(|ms|, i requires 0 <= i < |ms| => Delivered(ms[i]))
  }

  ghost predicate CarryAll(ms: seq<Text>, chunks: seq<Text>) {
    |ms| == |chunks| && forall i :: 0 <= i < |ms| ==> Carries(ms[i], chunks[i])
  }

  lemma DeliveredLast(ms: seq<Text>)
    requires ms != []
    ensures Concat(DeliveredAll(ms)) == Concat(DeliveredAll(ms[..|ms| - 1])) + Delivered(ms[|ms| - 1])
  {
    assert DeliveredAll(ms) == DeliveredAll(ms[..|ms| - 1]) + [Delivered(ms[|ms| - 1])];
    ConcatOne(DeliveredAll(ms[..|ms| - 1]), Delivered(ms[|ms| - 1]));
  }

  /** From the client's calls to the server: the server gets exactly the text
      that was sent, if and only if no chunk has a NUL or is a single character. */
  lemma {:induction false} AllDeliveredIff(ms: seq<Text>, chunks: seq<Text>)
    requires CarryAll(ms, chunks)
    ensures |Concat(DeliveredAll(ms))| <= |Concat(chunks)|
    ensures Concat(DeliveredAll(ms)) == Concat(chunks) <==> forall i :: 0 <= i < |chunks| ==> NUL !in chunks[i] && |chunks[i]| != 1
  {
    if ms != [] {
      var n := |ms| - 1;
      var a, b := Concat(DeliveredAll(ms[..n])), Concat(chunks[..n]);
      AllDeliveredIff(ms[..n], chunks[..n]);
      DeliveredIff(ms[n], chunks[n]);
      DeliveredLast(ms);
      assert chunks == chunks[..n] + [chunks[n]];
      assert Concat(DeliveredAll(ms)) == a + Delivered(ms[n]) && Concat(chunks) == b + chunks[n];
      SplitEqual(a, Delivered(ms[n]), b, chunks[n]);
      assert (forall i :: 0 <= i < |chunks| ==> NUL !in chunks[i] && |chunks[i]| != 1)
        <==> (forall i :: 0 <= i < n ==> NUL !in chunks[..n][i] && |chunks[..n][i]| != 1) && NUL !in chunks[n] && |chunks[n]| != 1;
    } else {
      assert chunks == [];
    }
  }

  lemma SplitEqual(a: Text, x: Text, b: Text, y: Text)
    requires |a| <= |b| && |x| <= |y|
    ensures a + x == b + y <==> a == b && x == y
  {
    if a + x == b + y {
      assert |a| == |b|;
      assert a == (a + x)[..|a|] && b == (b + y)[..|b|];
      assert x == (a + x)[|a|..] && y == (b + y)[|b|..];
    }
  }

  /* ---- What a caller must avoid ---- */

  /** The characters since the last line feed among the first `j`, or since the
      start and `n` before it. */
  function Since(n: nat, msg: Text, j: nat): nat
    requires j <= |msg|
  {
    if j == 0 then n else if msg[j - 1] == LF then 0 else Since(n, msg, j - 1) + 1
  }

  /** The characters since the last line feed or `Flush` in the first `n` calls. */
  function Run(calls: seq<Call>, n: nat): nat
    requires n <= |calls|
  {
    if n == 0 then 0
    else
      match calls[n - 1]
      case Print(msg) => Since(Run(calls, n - 1), msg, |msg|)
      case Flush => 0
  }

  lemma Wrap(a: nat, b: nat)
    requires a % 128 == b % 128
    ensures (a + 1) % 128 == (b + 1) % 128
    ensures (a + 1) % 128 == if a % 128 == 127 then 0 else a % 128 + 1
  {
  }

  lemma {:induction false} SinceWraps(a: nat, b: nat, msg: Text, j: nat)
    requires j <= |msg| && a % 128 == b % 128
    ensures Since(a, msg, j) % 128 == Since(b, msg, j) % 128
  {
    if j > 0 {
      SinceWraps(a, b, msg, j - 1);
      Wrap(Since(a, msg, j - 1), Since(b, msg, j - 1));
    }
  }

  /** How full the buffer is, from the text alone. */
  lemma {:induction false} Fill(k: Chunks, msg: Text, j: nat)
    requires |k.pending| < MessageSize && j <= |msg|
    ensures |Printed(k, msg, j).pending| == Since(|k.pending|, msg, j) % 128
  {
    if j > 0 {
      Fill(k, msg, j - 1);
      Wrap(Since(|k.pending|, msg, j - 1), Since(|k.pending|, msg, j - 1));
    }
  }

  /** And from the calls alone. */
  lemma {:induction false} FillAfter(calls: seq<Call>, n: nat)
    requires n <= |calls|
    ensures |After(calls, n).pending| == Run(calls, n) % 128
  {
    if n > 0 {
      FillAfter(calls, n - 1);
      var k := After(calls, n - 1);
      match calls[n - 1]
      case Print(msg) =>
        Fill(k, msg, |msg|);
        SinceWraps(|k.pending|, Run(calls, n - 1), msg, |msg|);
      case Flush =>
    }
  }

  /** Character `j` is a line feed that meets an empty buffer, `n` characters
      after the last line feed or `Flush`. */
  predicate LoneLineFeed(n: nat, msg: Text, j: nat)
    requires j < |msg|
  {
    msg[j] == LF && Since(n, msg, j) % 128 == 0
  }

  /** A call that sends a single character: a `Print` with such a line feed, or
      a `Flush` when one character waits. */
  predicate Loses(calls: seq<Call>, m: nat)
    requires m < |calls|
  {
    match calls[m]
    case Print(msg) => exists j :: 0 <= j < |msg| && LoneLineFeed(Run(calls, m), msg, j)
    case Flush => Run(calls, m) % 128 == 1
  }

  ghost predicate NoSingles(chunks: seq<Text>) { forall i :: 0 <= i < |chunks| ==> |chunks[i]| != 1 }

  lemma NoSinglesOne(chunks: seq<Text>, c: Text)
    ensures NoSingles(chunks + [c]) <==> NoSingles(chunks) && |c| != 1
  {
    assert forall i :: 0 <= i < |chunks| ==> (chunks + [c])[i] == chunks[i];
    assert (chunks + [c])[|chunks|] == c;
  }

  /** What `Print` sends has no single character exactly if none of its line
      feeds meets an empty buffer. */
  lemma {:induction false} PrintDelivers(k: Chunks, msg: Text, n: nat)
    requires |k.pending| < MessageSize && n <= |msg|
    ensures NoSingles(Printed(k, msg, n).sent)
       <==> NoSingles(k.sent) && forall j :: 0 <= j < n ==> !LoneLineFeed(|k.pending|, msg, j)
  {
    if n > 0 {
      PrintDelivers(k, msg, n - 1);
      Fill(k, msg, n - 1);
      var was := Printed(k, msg, n - 1);
      NoSinglesOne(was.sent, was.pending + [msg[n - 1]]);
      assert NoSingles(Printed(k, msg, n).sent) <==> NoSingles(was.sent) && !LoneLineFeed(|k.pending|, msg, n - 1);
    }
  }

  lemma LoneAgrees(calls: seq<Call>, m: nat, msg: Text)
    requires m < |calls| && calls[m] == Print(msg)
    ensures (forall j :: 0 <= j < |msg| ==> !LoneLineFeed(|After(calls, m).pending|, msg, j)) <==> !Loses(calls, m)
  {
    FillAfter(calls, m);
    forall j | 0 <= j < |msg| ensures LoneLineFeed(|After(calls, m).pending|, msg, j) <==> LoneLineFeed(Run(calls, m), msg, j) {
      SinceWraps(|After(calls, m).pending|, Run(calls, m), msg, j);
    }
  }

  /** No call of a sequence sends a single character exactly if none loses one. */
  lemma {:induction false} CallsDeliver(calls: seq<Call>, n: nat)
    requires n <= |calls|
    ensures NoSingles(After(calls, n).sent) <==> forall m :: 0 <= m < n ==> !Loses(calls, m)
  {
    if n > 0 {
      CallsDeliver(calls, n - 1);
      FillAfter(calls, n - 1);
      assert (forall m :: 0 <= m < n ==> !Loses(calls, m)) <==> (forall m :: 0 <= m < n - 1 ==> !Loses(calls, m)) && !Loses(calls, n - 1);
      var k := After(calls, n - 1);
      match calls[n - 1]
      case Print(msg) =>
        PrintDelivers(k, msg, |msg|);
        LoneAgrees(calls, n - 1, msg);
        assert After(calls, n) == Printed(k, msg, |msg|);
      case Flush =>
        NoSinglesOne(k.sent, k.pending);
        assert After(calls, n) == Flushed(k);
        assert Loses(calls, n - 1) <==> |k.pending| == 1;
    }
  }

  /** From any calls to the server: what it gets and what waits are together
      what was printed if and only if the text that does not wait has no NUL, no
      line feed met an empty buffer, and no `Flush` came with one character
      waiting. All of this can be read off the calls. */
  lemma TextArrivesIff(calls: seq<Call>, n: nat, ms: seq<Text>)
    requires n <= |calls| && CarryAll(ms, After(calls, n).sent)
    ensures Run(calls, n) % 128 <= |Texts(calls, n)|
    ensures Concat(DeliveredAll(ms)) + After(calls, n).pending == Texts(calls, n)
       <==> && NUL !in Texts(calls, n)[..|Texts(calls, n)| - Run(calls, n) % 128]
            && forall m :: 0 <= m < n ==> !Loses(calls, m)
  {
    var k, t := After(calls, n), Texts(calls, n);
    TextIsConserved(calls, n);
    FillAfter(calls, n);
    assert Concat(k.sent) == t[..|t| - |k.pending|];
    AllDeliveredIff(ms, k.sent);
    SplitEqual(Concat(DeliveredAll(ms)), k.pending, Concat(k.sent), k.pending);
    NulInPieces(k.sent);
    CallsDeliver(calls, n);
  }

  lemma NulInPieces(pieces: seq<Text>)
    ensures NUL !in Concat(pieces) <==> forall i :: 0 <= i < |pieces| ==> NUL !in pieces[i]
  {
    if NUL !in Concat(pieces) {
      forall i | 0 <= i < |pieces| ensures NUL !in pieces[i] { PieceOf(pieces, i); }
    }
  }

  /** For example, an empty line is lost. */
  lemma EmptyLineIsLost(m: Text)
    requires Carries(m, [LF])
    ensures After([Print([LF])], 1).sent == [[LF]] && Delivered(m) == []
  {
    var calls := [Print([LF])];
    var line: Text := [LF];
    assert [] + line == line;
    assert After(calls, 1) == Printed(After(calls, 0), [LF], 1);
    assert Printed(After(calls, 0), [LF], 1) == Feed(Printed(After(calls, 0), [LF], 0), LF);
    DeliveredIff(m, [LF]);
  }

  /** And so is a single character that is flushed. */
  lemma FlushedCharacterIsLost(m: Text)
    requires Carries(m, ['a'])
    ensures After([Print(['a']), Flush], 2).sent == [['a']] && Delivered(m) == []
    ensures Loses([Print(['a']), Flush], 1)
  {
    var calls := [Print(['a']), Flush];
    var a: Text := ['a'];
    assert [] + a == a;
    assert Printed(After(calls, 0), a, 1) == Feed(Printed(After(calls, 0), a, 0), 'a');
    assert After(calls, 1) == Chunks([], a) && After(calls, 2) == Flushed(After(calls, 1));
    FillAfter(calls, 1);
    DeliveredIff(m, a);
  }

  /* ---- The two ends ---- */

  class Client {
    const buffer: array<Latin>
    var cursor: nat
    /** The messages that were written to the socket. */
    var wire: seq<Text>
    ghost var chunks: seq<Text>

    ghost predicate Valid()
      reads this, buffer
    {
      buffer.Length == MessageSize && cursor <= MessageSize && CarryAll(wire, chunks)
    }

    ghost function Now(): Chunks
      requires Valid()
      reads this, buffer
    {
      Chunks(chunks, buffer[..cursor])
    }

    constructor ()
      ensures Valid() && Now() == After([], 0) && fresh(buffer)
    {
      buffer := new Latin[MessageSize](_ => NUL);
      cursor, wire, chunks := 0, [], [];
    }

    /** `Flush_Buffer`. */
    method FlushBuffer()
      requires Valid()
      modifies this, buffer
      ensures Valid() && cursor == 0 && Now() == Flushed(old(Now()))
    {
      ghost var chunk := buffer[..cursor];
      if cursor < buffer.Length {
        buffer[cursor] := NUL;
      }
      assert buffer[..cursor] == chunk && buffer[..][..cursor] == chunk;
      wire := wire + [buffer[..]];
      chunks := chunks + [chunk];
      cursor := 0;
    }

    /** `Print`. */
    method Print(msg: Text)
      requires Valid()
      modifies this, buffer
      ensures Valid() && Now() == Printed(old(Now()), msg, |msg|)
    {
      if cursor >= buffer.Length {
        FlushBuffer();
      }
      for i := 0 to |msg|
        invariant Valid() && cursor < MessageSize && Now() == Printed(old(Now()), msg, i)
      {
        ghost var k := Now();
        buffer[cursor] := msg[i];
        cursor := cursor + 1;
        assert buffer[..cursor] == k.pending + [msg[i]];
        if (msg[i] == LF && cursor < buffer.Length) || cursor >= buffer.Length {
          FlushBuffer();
        }
      }
    }
  }

  /** `Session_Event`: find the end of the text and pass it on. */
  method SessionEvent(buffer: Text) returns (written: Option<Text>)
    requires |buffer| == MessageSize
    ensures written.Some? <==> |Cut(buffer)| > 1
    ensures (if written.Some? then written.value else []) == Delivered(buffer)
  {
    var cursor, i := 0, 0;
    while i < |buffer| && buffer[i] != NUL
      invariant i <= |buffer| && NUL !in buffer[..i] && cursor == (if i == 0 then 0 else i - 1)
    {
      cursor := i;
      i := i + 1;
    }
    CutIs(buffer, buffer[..i]);
    written := None;
    if cursor > 0 {
      written := Some(buffer[..cursor + 1]);
    }
  }
}

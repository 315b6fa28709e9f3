/** Text in pieces. */
module LogText {
  import opened Protocol

  const NUL: Latin := 0 as char
  const LF: Latin := '\n'
  const ESC: Latin := 27 as char

  function Concat(pieces: seq<Text>): (r: Text) {
    if pieces == [] then [] else Concat(pieces[..|pieces| - 1]) + pieces[|pieces| - 1]
  }

  lemma ConcatOne(pieces: seq<Text>, t: Text)
    ensures Concat(pieces + [t]) == Concat(pieces) + t
  {
    assert (pieces + [t])[..|pieces|] == pieces;
  }

  /** The text before the first NUL, as the reader of a buffer sees it. */
  function Cut(t: Text): (r: Text)
    ensures r <= t && NUL !in r
    ensures |r| < |t| ==> t[|r|] == NUL
  {
    if t == [] || t[0] == NUL then [] else [t[0]] + Cut(t[1..])
  }

  /** The only text that can be cut there. */
  lemma {:induction false} CutIs(t: Text, r: Text)
    requires r <= t && NUL !in r && (|r| < |t| ==> t[|r|] == NUL)
    ensures Cut(t) == r
  {
    if r != [] {
      assert t[0] == r[0];
      CutIs(t[1..], r[1..]);
      assert r == [r[0]] + r[1..];
    }
  }

  lemma {:induction false} CutShort(t: Text, i: nat)
    requires i < |t| && t[i] == NUL
    ensures |Cut(t)| <= i
  {
    if i > 0 && t[0] != NUL { CutShort(t[1..], i - 1); }
  }

  lemma {:induction false} PieceOf(pieces: seq<Text>, i: nat)
    requires i < |pieces| && NUL !in Concat(pieces)
    ensures NUL !in pieces[i]
  {
    var n := |pieces| - 1;
    assert Concat(pieces) == Concat(pieces[..n]) + pieces[n];
    if i < n {
      assert NUL !in Concat(pieces[..n]);
      PieceOf(pieces[..n], i);
    }
  }
}

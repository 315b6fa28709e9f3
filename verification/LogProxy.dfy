/** The log proxy: it colours the text of its clients and passes it on through
    a buffer of 1024 characters per session. */
module LogProxy {
  import opened Basics
  import opened Protocol
  import opened LogText

  datatype Color = Red | Orange | Yellow | Green | Cyan | Blue | Magenta

  function Rainbow(c: Color): Color {
    match c
    case Red => Orange
    case Orange => Yellow
    case Yellow => Green
    case Green => Cyan
    case Cyan => Blue
    case Blue => Magenta
    case Magenta => Red
  }

  /** The second digit of a colour's number: 31, 91, 33, 32, 36, 34 or 35. */
  function Digit(c: Color): Latin {
    match c
    case Red => '1'
    case Orange => '1'
    case Yellow => '3'
    case Green => '2'
    case Cyan => '6'
    case Blue => '4'
    case Magenta => '5'
  }

  function Code(c: Color): Text { ['[', if c == Orange then '9' else '3', Digit(c), 'm'] }

  function GetColor(c: Color): Text { [ESC] + Code(c) }

  const Reset: Text := [ESC] + "[0m"

  const BufferSize: nat := 1024

  /** The highest cursor: there is always room for `Reset`. */
  const Limit: nat := 1020

  predicate Plain(c: Latin) { c != LF && c != NUL }

  /* ---- The unbuffered stream ---- */

  /** What is shown for one character. */
  function Shown(c: Latin, hue: Color): Text {
    if Plain(c) then GetColor(hue) + [c] else Reset + [c]
  }

  function NextHue(c: Latin, hue: Color): Color { if Plain(c) then Rainbow(hue) else hue }

  /** The hue after the first `n` characters. */
  function HueAt(data: Text, n: nat, hue: Color): Color
    requires n <= |data|
  {
    if n == 0 then hue else NextHue(data[n - 1], HueAt(data, n - 1, hue))
  }

  /** The first `n` characters in colour. */
  function Paint(data: Text, n: nat, hue: Color): Text
    requires n <= |data|
  {
    if n == 0 then [] else Paint(data, n - 1, hue) + Shown(data[n - 1], HueAt(data, n - 1, hue))
  }

  function Coloured(data: Text, hue: Color): Text { Paint(data, |data|, hue) }

  function HueAfter(data: Text, hue: Color): Color { HueAt(data, |data|, hue) }

  /* ---- What the stream says ---- */

  function Position(c: Color): nat {
    match c
    case Red => 0
    case Orange => 1
    case Yellow => 2
    case Green => 3
    case Cyan => 4
    case Blue => 5
    case Magenta => 6
  }

  /** How many of the first `n` characters are visible. */
  function Visible(data: Text, n: nat): nat
    requires n <= |data|
  {
    if n == 0 then 0 else Visible(data, n - 1) + if Plain(data[n - 1]) then 1 else 0
  }

  /** The hue goes round its seven colours, once per visible character. */
  lemma {:induction false} SevenCycle(data: Text, n: nat, hue: Color)
    requires n <= |data|
    ensures Position(HueAt(data, n, hue)) == (Position(hue) + Visible(data, n)) % 7
  {
    if n > 0 {
      SevenCycle(data, n - 1, hue);
      TurnStep(HueAt(data, n - 1, hue), Position(hue) + Visible(data, n - 1));
    }
  }

  lemma TurnStep(c: Color, a: nat)
    requires Position(c) == a % 7
    ensures Position(Rainbow(c)) == (a + 1) % 7
  {
  }

  /** A character on a terminal: with the last complete escape sequence before
      it, and whether it stands directly behind that sequence. */
  datatype Cell = Cell(c: Latin, style: Text, behind: bool)

  /** What a terminal has seen: `esc` is a sequence that has been started. */
  datatype Screen = Screen(cells: seq<Cell>, style: Text, behind: bool, esc: Option<Text>)

  function Next(v: Screen, c: Latin): Screen {
    if v.esc.Some? then
      var code := v.esc.value + [c];
      if c == 'm' then Screen(v.cells, code, true, None) else v.(esc := Some(code))
    else if c == ESC then v.(esc := Some([]))
    else Screen(v.cells + [Cell(c, v.style, v.behind)], v.style, false, None)
  }

  /** The screen after more text. */
  function View(v: Screen, s: Text): Screen
    decreases |s|
  {
    if s == [] then v else View(Next(v, s[0]), s[1..])
  }

  const Blank := Screen([], [], false, None)

  lemma {:induction false} ViewCat(v: Screen, a: Text, b: Text)
    ensures View(v, a + b) == View(View(v, a), b)
    decreases |a|
  {
    if a == [] {
      assert a + b == b;
    } else {
      assert (a + b)[0] == a[0] && (a + b)[1..] == a[1..] + b;
      ViewCat(Next(v, a[0]), a[1..], b);
    }
  }

  lemma ViewOne(v: Screen, c: Latin)
    ensures View(v, [c]) == Next(v, c)
  {
    assert [c][1..] == [];
  }

  lemma {:induction false} ViewInside(v: Screen, code: Text)
    requires v.esc.Some? && 'm' !in code
    ensures View(v, code) == v.(esc := Some(v.esc.value + code))
    decreases |code|
  {
    if code == [] {
      assert v.esc.value + code == v.esc.value;
    } else {
      assert code[0] in code;
      ViewInside(Next(v, code[0]), code[1..]);
      assert v.esc.value + code == v.esc.value + [code[0]] + code[1..];
    }
  }

  /** A whole escape sequence. */
  lemma ViewSequence(v: Screen, style: Text)
    requires v.esc.None? && IsCode(style)
    ensures View(v, [ESC] + style) == v.(style := style, behind := true)
  {
    var code := style[..|style| - 1];
    var u := v.(esc := Some([]));
    ViewCat(v, [ESC], style);
    ViewOne(v, ESC);
    assert style == code + ['m'];
    ViewCat(u, code, ['m']);
    ViewInside(u, code);
    assert [] + code == code;
    ViewOne(u.(esc := Some(code)), 'm');
  }

  predicate IsCode(style: Text) { style != [] && style[|style| - 1] == 'm' && 'm' !in style[..|style| - 1] }

  /** The seven colours as a terminal gets them, in their order. */
  const Styles: seq<Text> := ["[31m", "[91m", "[33m", "[32m", "[36m", "[34m", "[35m"]

  /** What is to be seen of character `i`: a line feed or NUL directly behind the
      reset sequence, any other directly behind the colour whose turn it is. */
  function CellAt(data: Text, i: nat, hue: Color): Cell
    requires i < |data|
  {
    Cell(data[i], StyleOf(data[i], (Position(hue) + Visible(data, i)) % 7), true)
  }

  function Cells(data: Text, n: nat, hue: Color): seq<Cell>
    requires n <= |data|
  {
    seq(n, i requires 0 <= i < n => CellAt(data, i, hue))
  }

  /** The style of a character that comes when it is this colour's turn. */
  function StyleOf(c: Latin, turn: nat): Text
    requires turn < 7
  {
    if c == LF || c == NUL then "[0m" else Styles[turn]
  }

  lemma StyleIsCode(c: Latin, turn: nat)
    requires turn < 7
    ensures IsCode(StyleOf(c, turn))
  {
    var style := StyleOf(c, turn);
    assert style[|style| - 1] == 'm';
    forall i | 0 <= i < |style| - 1 ensures style[i] != 'm' { }
  }

  lemma ShownIs(c: Latin, hue: Color)
    ensures Shown(c, hue) == [ESC] + StyleOf(c, Position(hue)) + [c]
  {
  }

  /** One character with its sequence. */
  lemma ShownSeen(v: Screen, style: Text, c: Latin)
    requires v.esc.None? && c != ESC && IsCode(style)
    ensures View(v, [ESC] + style + [c]) == Screen(v.cells + [Cell(c, style, true)], style, false, None)
  {
    ViewCat(v, [ESC] + style, [c]);
    ViewSequence(v, style);
    ViewOne(v.(style := style, behind := true), c);
  }

  lemma PaintOne(v: Screen, data: Text, n: nat, hue: Color)
    requires n < |data| && ESC !in data && v.esc.None?
    ensures var u := View(v, Shown(data[n], HueAt(data, n, hue)));
            u.esc.None? && u.cells == v.cells + [CellAt(data, n, hue)]
  {
    var c, h := data[n], HueAt(data, n, hue);
    assert c in data;
    SevenCycle(data, n, hue);
    ShownIs(c, h);
    StyleIsCode(c, Position(h));
    ShownSeen(v, StyleOf(c, Position(h)), c);
  }

  lemma {:induction false} PaintSeen(v: Screen, data: Text, n: nat, hue: Color)
    requires v.esc.None? && n <= |data| && ESC !in data
    ensures var u := View(v, Paint(data, n, hue));
            u.esc.None? && u.cells == v.cells + Cells(data, n, hue)
  {
    if n > 0 {
      var p := Paint(data, n - 1, hue);
      PaintSeen(v, data, n - 1, hue);
      ViewCat(v, p, Shown(data[n - 1], HueAt(data, n - 1, hue)));
      PaintOne(View(v, p), data, n - 1, hue);
      CellsOne(v.cells, data, n, hue);
    }
  }

  lemma CellsOne(before: seq<Cell>, data: Text, n: nat, hue: Color)
    requires 0 < n <= |data|
    ensures before + Cells(data, n, hue) == before + Cells(data, n - 1, hue) + [CellAt(data, n - 1, hue)]
  {
    assert Cells(data, n, hue) == Cells(data, n - 1, hue) + [CellAt(data, n - 1, hue)];
  }

  /** What a terminal sees of the coloured stream, for data without an escape
      character, whatever it has seen before, if no sequence is open: the data,
      each character in its style. */
  lemma TerminalSees(v: Screen, data: Text, hue: Color)
    requires v.esc.None? && ESC !in data
    ensures var u := View(v, Coloured(data, hue));
            u.esc.None? && u.cells == v.cells + Cells(data, |data|, hue)
  {
    PaintSeen(v, data, |data|, hue);
  }

  /** So the colouring leaves the text alone. */
  lemma StripColoured(data: Text, hue: Color)
    requires ESC !in data
    ensures var v := View(Blank, Coloured(data, hue));
            v.esc.None? && |v.cells| == |data| && forall i :: 0 <= i < |data| ==> v.cells[i].c == data[i]
  {
    TerminalSees(Blank, data, hue);
  }

  /* ---- The component ---- */

  datatype Slot = Slot(ident: Text, last: nat, buffer: Text, cursor: nat, hue: Color)
  {
    ghost predicate Valid() { |buffer| == BufferSize && cursor <= Limit && last <= |ident| }

    function Pending(): Text
      requires Valid()
    {
      buffer[..cursor]
    }
  }

  /** The reset sequence behind the text in a buffer. */
  function Overlaid(buffer: Text, cursor: nat): (r: Text)
    requires |buffer| == BufferSize && cursor <= Limit
    ensures |r| == BufferSize && r[..cursor] == buffer[..cursor]
  {
    buffer[..cursor] + Reset + buffer[cursor + 4..]
  }

  class Proxy {
    var slots: seq<Slot>
    /** What was handed to the log client; each piece was flushed there. */
    var printed: seq<Text>

    ghost predicate Valid()
      reads this
    {
      forall i :: 0 <= i < |slots| ==> slots[i].Valid()
    }

    /** All output so far, with what is still in slot `i`'s buffer. */
    ghost function Output(i: nat): Text
      requires Valid() && i < |slots|
      reads this
    {
      Concat(printed) + slots[i].Pending()
    }

    /** The other slots are as they were, and this one has its name and this hue. */
    ghost predicate Only(was: seq<Slot>, i: nat, hue: Color)
      requires i < |was|
      reads this
    {
      && |slots| == |was|
      && (forall j :: 0 <= j < |was| && j != i ==> slots[j] == was[j])
      && (slots[i].ident, slots[i].last, slots[i].hue) == (was[i].ident, was[i].last, hue)
    }

    constructor (n: nat)
      ensures Valid() && |slots| == n && printed == [] && forall i :: 0 <= i < n ==> slots[i].cursor == 0
    {
      slots := seq(n, _ => Slot([], 0, seq(BufferSize, _ => NUL), 0, Red));
      printed := [];
    }

    /** `Flush`: the reset sequence goes behind the text and is not printed. */
    method Flush(i: nat)
      requires Valid() && i < |slots|
      modifies this
      ensures Valid() && Only(old(slots), i, old(slots[i].hue)) && slots[i].cursor == 0
      ensures Output(i) == Concat(printed) == old(Output(i))
    {
      var x := slots[i];
      var buffer := Overlaid(x.buffer, x.cursor);
      ConcatOne(printed, x.Pending());
      printed := printed + [buffer[..x.cursor]];
      slots := slots[i := x.(buffer := buffer, cursor := 0)];
      assert slots[i].Pending() == [];
    }

    /** `Put`: one character more. */
    method Put(i: nat, c: Latin)
      requires Valid() && i < |slots|
      modifies this
      ensures Valid() && Only(old(slots), i, old(slots[i].hue))
      ensures slots[i].cursor == if old(slots[i].cursor) == Limit then 1 else old(slots[i].cursor) + 1
      ensures Output(i) == old(Output(i)) + [c]
    {
      if slots[i].cursor == Limit {
        Flush(i);
      }
      var x := slots[i];
      slots := slots[i := x.(cursor := x.cursor + 1, buffer := x.buffer[x.cursor := c])];
      assert slots[i].Pending() == x.Pending() + [c];
    }

    method PutAll(i: nat, t: Text)
      requires Valid() && i < |slots|
      modifies this
      ensures Valid() && Only(old(slots), i, old(slots[i].hue))
      ensures Output(i) == old(Output(i)) + t
    {
      for j := 0 to |t|
        invariant Valid() && Only(old(slots), i, old(slots[i].hue))
        invariant Output(i) == old(Output(i)) + t[..j]
      {
        Put(i, t[j]);
        assert t[..j + 1] == t[..j] + [t[j]];
      }
    }

    /** `Put_Color`. */
    method PutColor(i: nat, c: Latin)
      requires Valid() && i < |slots|
      modifies this
      ensures Valid() && Only(old(slots), i, NextHue(c, old(slots[i].hue)))
      ensures Output(i) == old(Output(i)) + Shown(c, old(slots[i].hue))
      ensures !Plain(c) ==> slots[i].cursor == 0
    {
      if c == LF || c == NUL {
        PutAll(i, Reset);
        Put(i, c);
        Flush(i);
      } else {
        PutAll(i, GetColor(slots[i].hue));
        Put(i, c);
        slots := slots[i := slots[i].(hue := Rainbow(slots[i].hue))];
      }
    }

    /** The characters of a message, one by one. */
    method PutData(i: nat, data: Text)
      requires Valid() && i < |slots|
      modifies this
      ensures Valid() && Only(old(slots), i, HueAfter(data, old(slots[i].hue)))
      ensures Output(i) == old(Output(i)) + Coloured(data, old(slots[i].hue))
    {
      ghost var start, before, was := slots[i].hue, Output(i), slots;
      for j := 0 to |data|
        invariant Painted(i, data, j, start, before, was)
      {
        PutNext(i, data, j, start, before, was);
      }
    }

    /** The first `j` characters of a message were put. */
    ghost predicate Painted(i: nat, data: Text, j: nat, start: Color, before: Text, was: seq<Slot>)
      requires i < |was| && j <= |data|
      reads this
    {
      Valid() && Only(was, i, HueAt(data, j, start)) && Output(i) == before + Paint(data, j, start)
    }

    method PutNext(i: nat, data: Text, j: nat, ghost start: Color, ghost before: Text, ghost was: seq<Slot>)
      requires i < |was| && j < |data| && Painted(i, data, j, start, before, was)
      modifies this
      ensures Painted(i, data, j + 1, start, before, was)
    {
      ghost var text, shown := Paint(data, j, start), Shown(data[j], slots[i].hue);
      PutColor(i, data[j]);
      assert before + text + shown == before + (text + shown);
    }

    /** The bracketed name in front of a message. */
    method PutIdent(i: nat)
      requires Valid() && i < |slots|
      modifies this
      ensures Valid() && Only(old(slots), i, old(slots[i].hue))
      ensures Output(i) == old(Output(i)) + ("[" + old(slots[i].ident[..slots[i].last]) + "] ")
    {
      Put(i, '[');
      PutAll(i, slots[i].ident[..slots[i].last]);
      Put(i, ']');
      Put(i, ' ');
    }

    /** `Write`: a message of session `i`. The output grows by exactly the
        unbuffered stream, nothing stays in the buffer, and the other sessions
        are not touched. Without a slot nothing happens. */
    method Write(i: nat, data: Text)
      requires Valid()
      requires i < |slots| ==> slots[i].cursor == 0
      modifies this
      ensures Valid() && |slots| == |old(slots)|
      ensures i >= |slots| ==> slots == old(slots) && printed == old(printed)
      ensures i < |slots| ==>
        && Concat(printed) == Concat(old(printed)) + "[" + old(slots[i].ident[..slots[i].last]) + "] " + Coloured(data, old(slots[i].hue))
        && slots[i].cursor == 0
        && Only(old(slots), i, HueAfter(data, old(slots[i].hue)))
    {
      if i >= |slots| {
        return;
      }
      assert Output(i) == Concat(printed);
      PutMessage(i, data);
      Flush(i);
    }

    /** Everything that a message puts. */
    method PutMessage(i: nat, data: Text)
      requires Valid() && i < |slots|
      modifies this
      ensures Valid() && Only(old(slots), i, HueAfter(data, old(slots[i].hue)))
      ensures Output(i) == old(Output(i)) + "[" + old(slots[i].ident[..slots[i].last]) + "] " + Coloured(data, old(slots[i].hue))
    {
      ghost var before, head, body := Output(i), "[" + slots[i].ident[..slots[i].last] + "] ", Coloured(data, slots[i].hue);
      PutIdent(i);
      PutData(i, data);
      assert Output(i) == before + head + body && before + head + body == before + (head + body);
    }
  }
}

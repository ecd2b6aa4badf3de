/** session/session.go:146-201: the bytes Attach replays to a new client. */
module Screens {
  import opened Basics
  import Crlf
  import Session

  datatype Screen = Screen(alt: bool, content: Bytes, scrollback: Bytes, cursorX: nat, cursorY: nat)
  type Terminal = seq<Session.TermEvent> -> Screen

  const ALT_REPLAY: Bytes :=
    [ESC, 0x5B, 0x3F, 0x31, 0x30, 0x34, 0x39, 0x68, ESC, 0x5B, 0x32, 0x4A]

  function CursorMove(x: nat, y: nat): Bytes {
    [ESC, 0x5B] + Decimal(y + 1) + [0x3B] + Decimal(x + 1) + [0x48]
  }

  function Render(v: Screen): Bytes {
    if v.alt then ALT_REPLAY
    else Crlf.ToCrlf([ESC, 0x63] + v.scrollback + v.content
                     + if v.content != [] then CursorMove(v.cursorX, v.cursorY) else [])
  }

  // ----- What a replay shows ----------------------------------------------

  /** text is raw with every line break made \r\n. */
  ghost predicate SameLines(text: Bytes, raw: Bytes) {
    Crlf.Cooked(text) && Crlf.Collapse(text) == Crlf.Collapse(raw)
  }

  /** ds is n in decimal. */
  ghost predicate Spells(ds: Bytes, n: nat) {
    ds != [] && (forall i :: 0 <= i < |ds| ==> 0x30 <= ds[i] <= 0x39) && DigitsValue(ds) == n
  }

  /** ESC [ row ; column H, both counted from one. */
  ghost predicate MovesCursor(b: Bytes, row: nat, column: nat) {
    exists r, c :: Spells(r, row) && Spells(c, column) && b == [0x1B, 0x5B] + r + [0x3B] + c + [0x48]
  }

  /** A terminal reset, then the history followed by the screen, then the cursor put
      where it was if there is anything on the screen. */
  ghost predicate ShowsText(v: Screen, b: Bytes, text: Bytes, move: Bytes) {
    && b == [0x1B, 0x63] + text + move
    && SameLines(text, v.scrollback + v.content)
    && (if v.content == [] then move == [] else MovesCursor(move, v.cursorY + 1, v.cursorX + 1))
  }

  /** Reading the bytes b gives the terminal the screen v. A full-screen application
      is only switched to, ESC [ ? 1049 h ESC [ 2 J, and repaints itself. */
  ghost predicate Shows(v: Screen, b: Bytes) {
    if v.alt then b == [0x1B, 0x5B, 0x3F, 0x31, 0x30, 0x34, 0x39, 0x68, 0x1B, 0x5B, 0x32, 0x4A]
    else exists text, move :: ShowsText(v, b, text, move)
  }

  lemma {:induction false} Unbroken(b: Bytes)
    requires LF !in b
    ensures Crlf.ToCrlf(b) == b && Crlf.Collapse(b) == b && Crlf.Expand(b) == b
  {
    if b != [] {
      Unbroken(b[1..]);
      assert b == [b[0]] + b[1..];
    }
  }

  lemma DigitsUnbroken(n: nat)
    ensures LF !in Decimal(n) && Spells(Decimal(n), n)
  {
    DecimalRoundTrip(n);
    forall i | 0 <= i < |Decimal(n)| ensures 0x30 <= Decimal(n)[i] <= 0x39 { assert IsDigit(Decimal(n)[i]); }
  }

  lemma CursorMoves(x: nat, y: nat)
    ensures LF !in CursorMove(x, y) && CursorMove(x, y)[0] == ESC && MovesCursor(CursorMove(x, y), y + 1, x + 1)
  {
    DigitsUnbroken(y + 1);
    DigitsUnbroken(x + 1);
    assert CursorMove(x, y) == [0x1B, 0x5B] + Decimal(y + 1) + [0x3B] + Decimal(x + 1) + [0x48];
  }

  /** Cooking reset, text and cursor move is cooking the text. */
  lemma CookedParts(text: Bytes, move: Bytes)
    requires LF !in move
    ensures Crlf.ToCrlf([ESC, 0x63] + text + move) == [ESC, 0x63] + Crlf.ToCrlf(text) + move
  {
    Crlf.ToCrlfStreaming([ESC, 0x63] + text, move);
    Crlf.ToCrlfStreaming([ESC, 0x63], text);
    Unbroken([ESC, 0x63]);
    Unbroken(move);
  }

  /** A replay shows the screen it was made from; it is never empty, and it breaks
      lines only with \r\n, so a raw terminal shows it without stair-stepping. */
  lemma RenderShows(v: Screen)
    ensures Shows(v, Render(v)) && Render(v) != [] && Crlf.Cooked(Render(v))
  {
    if !v.alt {
      var text := v.scrollback + v.content;
      var move := if v.content != [] then CursorMove(v.cursorX, v.cursorY) else [];
      CursorMoves(v.cursorX, v.cursorY);
      assert [ESC, 0x63] + v.scrollback + v.content + move == [ESC, 0x63] + text + move;
      CookedParts(text, move);
      Crlf.ToCrlfCooks(text);
      Crlf.ToCrlfCooks([ESC, 0x63] + text + move);
      assert ShowsText(v, Render(v), Crlf.ToCrlf(text), move);
    }
  }
}

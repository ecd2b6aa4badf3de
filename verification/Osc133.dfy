/** ward/osc133.go: the streaming parser for OSC 133 semantic prompt markers. */
module Osc133 {
  import opened Basics

  const PARAM_CAP := 32
  const BACKSLASH: Byte := 0x5C
  const RIGHT_BRACKET: Byte := 0x5D
  const SEMICOLON: Byte := 0x3B
  const PLUS: Byte := 0x2B
  const MINUS: Byte := 0x2D
  const PREFIX: Bytes := [0x31, 0x33, 0x33, SEMICOLON]   // "133;"

  datatype ScanState = Ground | Esc | OscParam | OscEsc
  datatype Zone = Unknown | Prompt | Input | Output
  datatype Marker = PromptStart | CommandStart | CommandExecuted | CommandFinished(code: Option<int>)

  /** The parser as a value: params is the filled part of the parameter buffer. */
  datatype Parser = Parser(state: ScanState, zone: Zone, params: Bytes)

  datatype Outcome = Outcome(p: Parser, events: seq<Marker>)

  predicate IsInt32(n: int) { -0x8000_0000 <= n < 0x8000_0000 }

  predicate AllDigits(s: Bytes) { s != [] && forall i :: 0 <= i < |s| ==> IsDigit(s[i]) }

  /** strconv.ParseInt(s, 10, 32). */
  function ParseInt(s: Bytes): Option<int> {
    if s == [] then None
    else
      var digits := if s[0] == PLUS || s[0] == MINUS then s[1..] else s;
      if !AllDigits(digits) then None
      else
        var n: int := if s[0] == MINUS then 0 - DigitsValue(digits) else DigitsValue(digits);
        if IsInt32(n) then Some(n) else None
  }

  function ExitCode(params: Bytes): Option<int> {
    if |params| > 6 && params[5] == SEMICOLON then ParseInt(params[6..]) else None
  }

  function ZoneOf(m: Marker): Zone {
    match m
    case PromptStart => Prompt
    case CommandStart => Input
    case CommandExecuted => Output
    case CommandFinished(_) => Unknown
  }

  /** dispatch: the marker the collected parameters stand for, if any. */
  function Decode(params: Bytes): Option<Marker> {
    if |params| < 5 || params[..4] != PREFIX then None
    else match params[4]
      case 0x41 => Some(PromptStart)
      case 0x42 => Some(CommandStart)
      case 0x43 => Some(CommandExecuted)
      case 0x44 => Some(CommandFinished(ExitCode(params)))
      case _ => None
  }

  function Dispatch(p: Parser): Outcome {
    var m := Decode(p.params);
    if m.None? then Outcome(p, []) else Outcome(p.(zone := ZoneOf(m.value)), [m.value])
  }

  function Step(p: Parser, b: Byte): Outcome {
    match p.state
    case Ground => Outcome(if b == ESC then p.(state := Esc) else p, [])
    case Esc =>
      Outcome(if b == RIGHT_BRACKET then p.(state := OscParam, params := []) else p.(state := Ground), [])
    case OscParam =>
      if b == BEL then var o := Dispatch(p); o.(p := o.p.(state := Ground))
      else if b == ESC then Outcome(p.(state := OscEsc), [])
      else if |p.params| < PARAM_CAP then Outcome(p.(params := p.params + [b]), [])
      else Outcome(p, [])
    case OscEsc =>
      var o := if b == BACKSLASH then Dispatch(p) else Outcome(p, []);
      o.(p := o.p.(state := Ground))
  }

  function Push(p: Parser, data: Bytes): Outcome {
    if data == [] then Outcome(p, [])
    else
      var o := Push(p, data[..|data| - 1]);
      var last := Step(o.p, data[|data| - 1]);
      Outcome(last.p, o.events + last.events)
  }

  /** Parsing does not depend on how the stream is cut into chunks. */
  lemma {:induction false} PushAppend(p: Parser, a: Bytes, b: Bytes)
    ensures Push(p, a + b) == Outcome(Push(Push(p, a).p, b).p, Push(p, a).events + Push(Push(p, a).p, b).events)
  {
    if b == [] {
      assert a + b == a;
    } else {
      var init := b[..|b| - 1];
      PushAppend(p, a, init);
      assert (a + b)[..|a + b| - 1] == a + init;
    }
  }

  /** Feeding a stream chunk by chunk, collecting the events of each call. */
  function PushAll(p: Parser, chunks: seq<Bytes>): Outcome
    decreases chunks
  {
    if chunks == [] then Outcome(p, [])
    else
      var first := Push(p, chunks[0]);
      var rest := PushAll(first.p, chunks[1..]);
      Outcome(rest.p, first.events + rest.events)
  }

  lemma {:induction false} ChunkingIrrelevant(p: Parser, chunks: seq<Bytes>)
    ensures PushAll(p, chunks) == Push(p, Flatten(chunks))
    decreases chunks
  {
    if chunks != [] {
      ChunkingIrrelevant(Push(p, chunks[0]).p, chunks[1..]);
      PushAppend(p, chunks[0], Flatten(chunks[1..]));
    }
  }

  // ----- The parser object ------------------------------------------------

  class OSC133Parser {
    var state: ScanState
    var zone: Zone
    var paramBuf: array<Byte>
    var paramLen: nat

    ghost predicate Valid()
      reads this
    {
      paramBuf.Length == PARAM_CAP && paramLen <= PARAM_CAP
    }

    function View(): Parser
      requires Valid()
      reads this, paramBuf
    {
      Parser(state, zone, paramBuf[..paramLen])
    }

    constructor ()
      ensures Valid() && fresh(paramBuf) && View() == Parser(Ground, Unknown, [])
    {
      state, zone, paramLen := Ground, Unknown, 0;
      paramBuf := new Byte[PARAM_CAP];
    }

    method DoDispatch() returns (events: seq<Marker>)
      requires Valid()
      modifies this`zone
      ensures Valid() && paramBuf == old(paramBuf) && paramBuf[..] == old(paramBuf[..])
      ensures Outcome(View(), events) == Dispatch(old(View()))
    {
      var m := Decode(paramBuf[..paramLen]);
      events := [];
      if m.Some? {
        zone := ZoneOf(m.value);
        events := [m.value];
      }
    }

    method PushByte(b: Byte) returns (events: seq<Marker>)
      requires Valid()
      modifies this`state, this`zone, this`paramLen, paramBuf
      ensures Valid() && paramBuf == old(paramBuf)
      ensures Outcome(View(), events) == Step(old(View()), b)
    {
      events := [];
      match state {
        case Ground =>
          if b == ESC { state := Esc; }
        case Esc =>
          if b == RIGHT_BRACKET { state, paramLen := OscParam, 0; } else { state := Ground; }
        case OscParam =>
          if b == BEL {
            events := DoDispatch();
            state := Ground;
          } else if b == ESC {
            state := OscEsc;
          } else if paramLen < PARAM_CAP {
            paramBuf[paramLen] := b;
            paramLen := paramLen + 1;
            assert View().params == old(View()).params + [b];
          }
        case OscEsc =>
          if b == BACKSLASH { events := DoDispatch(); }
          state := Ground;
      }
    }

    method PushChunk(data: Bytes) returns (events: seq<Marker>)
      requires Valid()
      modifies this`state, this`zone, this`paramLen, paramBuf
      ensures Valid() && paramBuf == old(paramBuf)
      ensures Outcome(View(), events) == Push(old(View()), data)
    {
      events := [];
      for i := 0 to |data|
        invariant Valid() && paramBuf == old(paramBuf)
        invariant Outcome(View(), events) == Push(old(View()), data[..i])
      {
        assert data[..i + 1][..i] == data[..i];
        var more := PushByte(data[i]);
        events := events + more;
      }
      assert data[..|data|] == data;
    }
  }

  // ----- Printing markers -------------------------------------------------

  datatype Ending = Bell | StringTerminator

  function PrintInt(n: int): Bytes { if n < 0 then [MINUS] + Decimal(-n) else Decimal(n) }

  predicate Printable(m: Marker) { m.CommandFinished? && m.code.Some? ==> IsInt32(m.code.value) }

  function Body(m: Marker): Bytes {
    PREFIX + match m
             case PromptStart => [0x41]
             case CommandStart => [0x42]
             case CommandExecuted => [0x43]
             case CommandFinished(None) => [0x44]
             case CommandFinished(Some(n)) => [0x44, SEMICOLON] + PrintInt(n)
  }

  function Print(m: Marker, e: Ending): Bytes {
    [ESC, RIGHT_BRACKET] + Body(m) + Close(e)
  }

  /** Text, then a marker. */
  datatype Item = Item(text: Bytes, m: Marker, e: Ending)

  predicate PlainText(t: Bytes) { ESC !in t }

  function ItemBytes(it: Item): Bytes { it.text + Print(it.m, it.e) }

  function Stream(items: seq<Item>): Bytes {
    if items == [] then [] else ItemBytes(items[0]) + Stream(items[1..])
  }

  function Markers(items: seq<Item>): seq<Marker> {
    if items == [] then [] else [items[0].m] + Markers(items[1..])
  }

  lemma ParsePrintInt(n: int)
    requires IsInt32(n)
    ensures ParseInt(PrintInt(n)) == Some(n)
  {
    DecimalRoundTrip(if n < 0 then -n else n);
    var s := PrintInt(n);
    if n < 0 {
      assert s[1..] == Decimal(-n);
    } else {
      assert IsDigit(s[0]);
    }
  }

  lemma PrintIntShort(n: int)
    requires IsInt32(n)
    ensures |PrintInt(n)| <= 11
    ensures BEL !in PrintInt(n) && ESC !in PrintInt(n)
  {
    var k := if n < 0 then -n else n;
    assert Pow10(10) == 10_000_000_000 by {
      assert Pow10(2) == 100;
      assert Pow10(4) == 10000;
      assert Pow10(6) == 1000000;
      assert Pow10(8) == 100000000;
    }
    DecimalLength(k, 10);
    forall b | b in Decimal(k) ensures IsDigit(b) {
      var i :| 0 <= i < |Decimal(k)| && Decimal(k)[i] == b;
    }
  }

  lemma BodyFits(m: Marker)
    requires Printable(m)
    ensures |Body(m)| <= PARAM_CAP && BEL !in Body(m) && ESC !in Body(m)
  {
    if m.CommandFinished? && m.code.Some? { PrintIntShort(m.code.value); }
  }

  lemma DecodeFinished(n: int)
    requires IsInt32(n)
    ensures Decode(PREFIX + ([0x44, SEMICOLON] + PrintInt(n))) == Some(CommandFinished(Some(n)))
  {
    var b := PREFIX + ([0x44, SEMICOLON] + PrintInt(n));
    ParsePrintInt(n);
    assert PrintInt(n) != [];
    assert b[..4] == PREFIX && b[4] == 0x44 && b[5] == SEMICOLON;
    assert b[6..] == PrintInt(n);
    assert ExitCode(b) == Some(n);
  }

  /** Decoding undoes printing. */
  lemma DecodeBody(m: Marker)
    requires Printable(m)
    ensures Decode(Body(m)) == Some(m)
    ensures |Body(m)| <= PARAM_CAP && BEL !in Body(m) && ESC !in Body(m)
  {
    BodyFits(m);
    match m
    case CommandFinished(Some(n)) => DecodeFinished(n);
    case _ => assert Body(m)[..4] == PREFIX && |Body(m)| == 5;
  }

  lemma {:induction false} TextPush(p: Parser, t: Bytes)
    requires p.state.Ground? && PlainText(t)
    ensures Push(p, t) == Outcome(p, [])
  {
    if t != [] { TextPush(p, t[..|t| - 1]); }
  }

  lemma {:induction false} BodyPush(p: Parser, b: Bytes)
    requires p.state.OscParam? && |p.params| + |b| <= PARAM_CAP && BEL !in b && ESC !in b
    ensures Push(p, b) == Outcome(p.(params := p.params + b), [])
  {
    if b == [] {
      assert p.params + b == p.params;
    } else {
      var init := b[..|b| - 1];
      BodyPush(p, init);
      assert p.params + init + [b[|b| - 1]] == p.params + b;
    }
  }

  lemma PushOne(p: Parser, x: Byte)
    ensures Push(p, [x]) == Step(p, x)
  {
    assert [x][..0] == [];
    assert [] + Step(p, x).events == Step(p, x).events;
  }

  lemma Then(p: Parser, a: Bytes, b: Bytes, p1: Parser, e1: seq<Marker>, p2: Parser, e2: seq<Marker>)
    requires Push(p, a) == Outcome(p1, e1) && Push(p1, b) == Outcome(p2, e2)
    ensures Push(p, a + b) == Outcome(p2, e1 + e2)
  {
    PushAppend(p, a, b);
  }

  lemma OpenPush(p: Parser)
    requires p.state.Ground?
    ensures Push(p, [ESC, RIGHT_BRACKET]) == Outcome(p.(state := OscParam, params := []), [])
  {
    PushOne(p, ESC);
    PushOne(p.(state := Esc), RIGHT_BRACKET);
    Then(p, [ESC], [RIGHT_BRACKET], p.(state := Esc), [], p.(state := OscParam, params := []), []);
    assert [ESC] + [RIGHT_BRACKET] == [ESC, RIGHT_BRACKET];
  }

  function Close(e: Ending): Bytes { if e.Bell? then [BEL] else [ESC, BACKSLASH] }

  lemma ClosePush(p: Parser, m: Marker, e: Ending)
    requires p.state.OscParam? && Decode(p.params) == Some(m)
    ensures Push(p, Close(e)) == Outcome(p.(state := Ground, zone := ZoneOf(m)), [m])
  {
    if e.Bell? {
      PushOne(p, BEL);
    } else {
      PushOne(p, ESC);
      PushOne(p.(state := OscEsc), BACKSLASH);
      Then(p, [ESC], [BACKSLASH], p.(state := OscEsc), [], p.(state := Ground, zone := ZoneOf(m)), [m]);
      assert [ESC] + [BACKSLASH] == [ESC, BACKSLASH];
    }
  }

  lemma MarkerPush(p: Parser, m: Marker, e: Ending)
    requires p.state.Ground? && Printable(m)
    ensures Push(p, Print(m, e)) == Outcome(Parser(Ground, ZoneOf(m), Body(m)), [m])
  {
    var body := Body(m);
    DecodeBody(m);
    var p1 := p.(state := OscParam, params := []);
    var p2 := p1.(params := body);
    OpenPush(p);
    BodyPush(p1, body);
    assert [] + body == body;
    Then(p, [ESC, RIGHT_BRACKET], body, p1, [], p2, []);
    ClosePush(p2, m, e);
    Then(p, [ESC, RIGHT_BRACKET] + body, Close(e), p2, [], p2.(state := Ground, zone := ZoneOf(m)), [m]);
  }

  lemma ItemPush(p: Parser, it: Item)
    requires p.state.Ground? && PlainText(it.text) && Printable(it.m)
    ensures Push(p, ItemBytes(it)) == Outcome(Parser(Ground, ZoneOf(it.m), Body(it.m)), [it.m])
  {
    TextPush(p, it.text);
    MarkerPush(p, it.m, it.e);
    Then(p, it.text, Print(it.m, it.e), p, [], Parser(Ground, ZoneOf(it.m), Body(it.m)), [it.m]);
  }

  lemma StreamCons(items: seq<Item>, tail: Bytes)
    requires items != []
    ensures Stream(items) + tail == ItemBytes(items[0]) + (Stream(items[1..]) + tail)
  {
    var a, b := ItemBytes(items[0]), Stream(items[1..]);
    assert a + b + tail == a + (b + tail);
  }

  ghost predicate WellFormed(items: seq<Item>) {
    forall i :: 0 <= i < |items| ==> PlainText(items[i].text) && Printable(items[i].m)
  }

  /** Parsing undoes printing: from any ground state, for every list of markers
      with ESC-free text before, between and after, exactly that list is emitted
      and the parser ends in ground, in the last marker's zone. */
  lemma {:induction false} ParsesWhatIsPrinted(p: Parser, items: seq<Item>, tail: Bytes)
    requires p.state.Ground? && PlainText(tail) && WellFormed(items)
    ensures var o := Push(p, Stream(items) + tail);
      && o.events == Markers(items) && o.p.state.Ground?
      && o.p.zone == if items == [] then p.zone else ZoneOf(items[|items| - 1].m)
    decreases items
  {
    if items == [] {
      assert Stream(items) + tail == tail;
      TextPush(p, tail);
    } else {
      var it, more := items[0], items[1..];
      var head, rest := ItemBytes(it), Stream(more) + tail;
      var p1 := Parser(Ground, ZoneOf(it.m), Body(it.m));
      ItemPush(p, it);
      assert WellFormed(more);
      ParsesWhatIsPrinted(p1, more, tail);
      var o := Push(p1, rest);
      Then(p, head, rest, p1, [it.m], o.p, o.events);
      StreamCons(items, tail);
    }
  }

  /** The parameter buffer never overflows, whatever arrives. */
  lemma {:induction false} BufferBounded(p: Parser, data: Bytes)
    requires |p.params| <= PARAM_CAP
    ensures |Push(p, data).p.params| <= PARAM_CAP
  {
    if data != [] { BufferBounded(p, data[..|data| - 1]); }
  }

  // ----- Any stream of complete sequences ---------------------------------

  /** s is a decimal number, with or without a sign, that 32 bits can hold. */
  ghost predicate Denotes(s: Bytes, n: int) {
    -0x8000_0000 <= n <= 0x7FFF_FFFF && exists ds :: DenotesBy(s, n, ds)
  }

  ghost predicate DenotesBy(s: Bytes, n: int, ds: Bytes) {
    && ds != [] && (forall i :: 0 <= i < |ds| ==> 0x30 <= ds[i] <= 0x39)
    && (((s == ds || s == [0x2B] + ds) && n == DigitsValue(ds)) || (s == [0x2D] + ds && n == 0 - DigitsValue(ds)))
  }

  lemma ParsedDenotes(s: Bytes, n: int)
    requires ParseInt(s) == Some(n)
    ensures Denotes(s, n)
  {
    var ds := if s[0] == PLUS || s[0] == MINUS then s[1..] else s;
    forall i | 0 <= i < |ds| ensures 0x30 <= ds[i] <= 0x39 { assert IsDigit(ds[i]); }
    assert s == [s[0]] + s[1..];
    assert DenotesBy(s, n, ds);
  }

  lemma DenotedParses(s: Bytes, n: int, ds: Bytes)
    requires -0x8000_0000 <= n <= 0x7FFF_FFFF && DenotesBy(s, n, ds)
    ensures ParseInt(s) == Some(n)
  {
    assert 0x30 <= ds[0] <= 0x39 && AllDigits(ds);
    if s != ds { assert s[1..] == ds; }
  }

  lemma ParseIntIs(s: Bytes, n: int)
    ensures ParseInt(s) == Some(n) <==> Denotes(s, n)
  {
    if ParseInt(s) == Some(n) { ParsedDenotes(s, n); }
    if -0x8000_0000 <= n <= 0x7FFF_FFFF {
      if ds :| DenotesBy(s, n, ds) { DenotedParses(s, n, ds); }
    }
  }

  /** Parameters starting with these bytes: "133;" and a letter. */
  predicate Marked(ps: Bytes, x: Byte) { |ps| >= 5 && ps[..5] == [0x31, 0x33, 0x33, 0x3B, x] }

  /** The exit code after the letter D: a number after a semicolon, or none. */
  ghost predicate CodeIs(rest: Bytes, code: Option<int>) {
    if |rest| > 1 && rest[0] == 0x3B && exists n :: Denotes(rest[1..], n) then code.Some? && Denotes(rest[1..], code.value)
    else code.None?
  }

  /** Exactly the markers A, B, C and D are recognised; anything else, such as a
      window title, is no marker. */
  lemma DecodeIs(ps: Bytes)
    ensures Decode(ps) == Some(PromptStart) <==> Marked(ps, 0x41)
    ensures Decode(ps) == Some(CommandStart) <==> Marked(ps, 0x42)
    ensures Decode(ps) == Some(CommandExecuted) <==> Marked(ps, 0x43)
    ensures Decode(ps).Some? && Decode(ps).value.CommandFinished? <==> Marked(ps, 0x44)
    ensures Marked(ps, 0x44) ==> CodeIs(ps[5..], Decode(ps).value.code)
  {
    if |ps| >= 5 { assert ps[..5] == ps[..4] + [ps[4]]; }
    if |ps| > 6 {
      assert ps[5..][1..] == ps[6..];
      if n :| Denotes(ps[6..], n) { ParseIntIs(ps[6..], n); }
      if ParseInt(ps[6..]).Some? { ParseIntIs(ps[6..], ParseInt(ps[6..]).value); }
    }
  }

  /** A plain byte; an escape that starts no OSC; an OSC ended by BEL or ST; an OSC
      broken off by ESC and another byte. */
  datatype Piece = Byte1(b: Byte) | Escape(b: Byte) | Osc(body: Bytes, e: Ending) | Broken(body: Bytes, b: Byte)

  predicate PieceOk(x: Piece) {
    match x
    case Byte1(b) => b != 0x1B
    case Escape(b) => b != 0x5D
    case Osc(body, _) => 0x07 !in body && 0x1B !in body
    case Broken(body, b) => 0x07 !in body && 0x1B !in body && b != 0x5C
  }

  function PieceBytes(x: Piece): Bytes {
    match x
    case Byte1(b) => [b]
    case Escape(b) => [0x1B, b]
    case Osc(body, e) => [0x1B, 0x5D] + body + (if e.Bell? then [0x07] else [0x1B, 0x5C])
    case Broken(body, b) => [0x1B, 0x5D] + body + [0x1B, b]
  }

  /** The first 32 bytes. */
  function Clip(b: Bytes): Bytes { if |b| <= 32 then b else b[..32] }

  /** What the parser makes of a piece: only a finished OSC can be a marker. */
  function PieceMarker(x: Piece): Option<Marker> { if x.Osc? then Decode(Clip(x.body)) else None }

  function MarkerEvents(m: Option<Marker>): seq<Marker> { if m.Some? then [m.value] else [] }

  lemma ClipSnoc(a: Bytes, x: Byte)
    ensures Clip(a + [x]) == if |Clip(a)| < 32 then Clip(a) + [x] else Clip(a)
  {
    if |a| >= 32 { assert (a + [x])[..32] == a[..32]; }
  }

  lemma PushSnoc(p: Parser, a: Bytes, x: Byte)
    ensures var o := Push(p, a); var last := Step(o.p, x);
      Push(p, a + [x]) == Outcome(last.p, o.events + last.events)
  {
    assert (a + [x])[..|a|] == a;
  }

  lemma ParamStep(p: Parser, x: Byte)
    requires p.state.OscParam? && x != BEL && x != ESC
    ensures Step(p, x) == Outcome(p.(params := if |p.params| < 32 then p.params + [x] else p.params), [])
  {
  }

  lemma {:induction false} BodyClips(p: Parser, b: Bytes)
    requires p.state.OscParam? && p.params == [] && BEL !in b && ESC !in b
    ensures Push(p, b) == Outcome(p.(params := Clip(b)), [])
  {
    if b != [] {
      var init, x := b[..|b| - 1], b[|b| - 1];
      assert b == init + [x];
      BodyClips(p, init);
      PushSnoc(p, init, x);
      ParamStep(p.(params := Clip(init)), x);
      ClipSnoc(init, x);
    }
  }

  lemma OpenedBody(p: Parser, body: Bytes)
    requires p.state.Ground? && BEL !in body && ESC !in body
    ensures Push(p, [ESC, RIGHT_BRACKET] + body) == Outcome(p.(state := OscParam, params := Clip(body)), [])
  {
    var p1 := p.(state := OscParam, params := []);
    OpenPush(p);
    BodyClips(p1, body);
    Then(p, [ESC, RIGHT_BRACKET], body, p1, [], p1.(params := Clip(body)), []);
  }

  /** Ending an OSC, whatever it holds. */
  lemma EndPush(p: Parser, e: Ending)
    requires p.state.OscParam?
    ensures var m := Decode(p.params);
      Push(p, Close(e)) ==
        Outcome(p.(state := Ground, zone := if m.Some? then ZoneOf(m.value) else p.zone), MarkerEvents(m))
  {
    var m := Decode(p.params);
    var p' := p.(state := Ground, zone := if m.Some? then ZoneOf(m.value) else p.zone);
    if e.Bell? {
      PushOne(p, BEL);
    } else {
      PushOne(p, ESC);
      PushOne(p.(state := OscEsc), BACKSLASH);
      Then(p, [ESC], [BACKSLASH], p.(state := OscEsc), [], p', MarkerEvents(m));
      assert [ESC] + [BACKSLASH] == [ESC, BACKSLASH] && [] + MarkerEvents(m) == MarkerEvents(m);
    }
  }

  lemma BreakPush(p: Parser, b: Byte)
    requires p.state.OscParam? && b != BACKSLASH
    ensures Push(p, [ESC, b]) == Outcome(p.(state := Ground), [])
  {
    PushOne(p, ESC);
    PushOne(p.(state := OscEsc), b);
    Then(p, [ESC], [b], p.(state := OscEsc), [], p.(state := Ground), []);
    assert [ESC] + [b] == [ESC, b];
  }

  lemma EscapePush(p: Parser, b: Byte)
    requires p.state.Ground? && b != RIGHT_BRACKET
    ensures Push(p, [ESC, b]) == Outcome(p, [])
  {
    PushOne(p, ESC);
    PushOne(p.(state := Esc), b);
    Then(p, [ESC], [b], p.(state := Esc), [], p, []);
    assert [ESC] + [b] == [ESC, b];
  }

  /** From ground, a piece leads back to ground, emits its marker if it is one, and
      otherwise changes neither events nor zone. */
  lemma PiecePush(p: Parser, x: Piece)
    requires p.state.Ground? && PieceOk(x)
    ensures var o, m := Push(p, PieceBytes(x)), PieceMarker(x);
      o.events == MarkerEvents(m) && o.p.state.Ground? && o.p.zone == if m.Some? then ZoneOf(m.value) else p.zone
  {
    match x
    case Byte1(b) => PushOne(p, b);
    case Escape(b) => EscapePush(p, b);
    case Osc(body, e) =>
      var p1 := p.(state := OscParam, params := Clip(body));
      OpenedBody(p, body);
      EndPush(p1, e);
      PushAppend(p, [ESC, RIGHT_BRACKET] + body, Close(e));
      assert [] + MarkerEvents(PieceMarker(x)) == MarkerEvents(PieceMarker(x));
    case Broken(body, b) =>
      OpenedBody(p, body);
      BreakPush(p.(state := OscParam, params := Clip(body)), b);
      PushAppend(p, [ESC, RIGHT_BRACKET] + body, [ESC, b]);
  }

  function PiecesBytes(xs: seq<Piece>): Bytes {
    if xs == [] then [] else PiecesBytes(xs[..|xs| - 1]) + PieceBytes(xs[|xs| - 1])
  }

  function PiecesMarkers(xs: seq<Piece>): seq<Marker> {
    if xs == [] then [] else PiecesMarkers(xs[..|xs| - 1]) + MarkerEvents(PieceMarker(xs[|xs| - 1]))
  }

  /** The zone a marker starts. */
  ghost predicate Starts(m: Marker, z: Zone) {
    match z
    case Prompt => m.PromptStart?
    case Input => m.CommandStart?
    case Output => m.CommandExecuted?
    case Unknown => m.CommandFinished?
  }

  /** On any stream of complete sequences exactly the markers among them are emitted,
      in order, and the zone is the one the last of them starts. */
  lemma {:induction false} EmitsTheMarkers(p: Parser, xs: seq<Piece>)
    requires p.state.Ground? && forall i :: 0 <= i < |xs| ==> PieceOk(xs[i])
    ensures var o, ms := Push(p, PiecesBytes(xs)), PiecesMarkers(xs);
      && o.events == ms && o.p.state.Ground?
      && if ms == [] then o.p.zone == p.zone else Starts(ms[|ms| - 1], o.p.zone)
    decreases xs
  {
    if xs != [] {
      var init, x := xs[..|xs| - 1], xs[|xs| - 1];
      EmitsTheMarkers(p, init);
      PiecePush(Push(p, PiecesBytes(init)).p, x);
      PushAppend(p, PiecesBytes(init), PieceBytes(x));
    }
  }
}

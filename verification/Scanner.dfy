/** ward/scanner.go: which escape sequences in the child's output disturb the
    protected bar row, and whether the stream is inside an escape sequence. */
module Scanner {
  import opened Basics

  datatype State = Ground | Esc | Csi | Str | StrEsc

  /** csiNumParam is a 64-bit int; it is kept modulo 2^64, which tells apart every
      value it is compared with. */
  const WORD := 0x1_0000_0000_0000_0000

  datatype Scan = Scan(state: State, hasParams: bool, paramByte: Byte, num: nat)
  datatype Flags = Flags(scrollReset: bool, barErased: bool)
  datatype Step = Step(next: Scan, flags: Flags)

  const START := Scan(Ground, false, 0, 0)
  const NOTHING := Flags(false, false)
  const QUESTION: Byte := 0x3F
  const LOWER_C: Byte := 0x63
  const LOWER_H: Byte := 0x68
  const LOWER_L: Byte := 0x6C
  const LOWER_R: Byte := 0x72
  const UPPER_J: Byte := 0x4A
  const BRACKET: Byte := 0x5B

  predicate IsParam(b: Byte) { 0x30 <= b <= 0x3F }
  predicate IsFinal(b: Byte) { 0x40 <= b <= 0x7E }
  predicate IsStringIntro(b: Byte) { b == 0x5D || b == 0x50 || b == 0x5E || b == 0x5F }
  predicate IsAltScreenMode(n: nat) { n == 1049 || n == 1047 || n == 47 }

  function Or(a: Flags, b: Flags): Flags {
    Flags(a.scrollReset || b.scrollReset, a.barErased || b.barErased)
  }

  /** One more digit on the 64-bit counter. */
  function AddDigit(n: nat, b: Byte): nat
    requires IsDigit(b)
  {
    (n * 10 + (b - ZERO)) % WORD
  }

  function CsiParam(s: Scan, b: Byte): Scan {
    var first := if s.hasParams then s.paramByte else b;
    s.(hasParams := true, paramByte := first,
       num := if first == QUESTION && IsDigit(b) then AddDigit(s.num, b) else s.num)
  }

  function CsiFinal(s: Scan, b: Byte): Flags {
    if b == LOWER_R && !s.hasParams then Flags(true, false)
    else if b == UPPER_J && (!s.hasParams || s.paramByte == ZERO || s.paramByte == ZERO + 2 || s.paramByte == ZERO + 3)
    then Flags(false, true)
    else if (b == LOWER_H || b == LOWER_L) && s.paramByte == QUESTION && IsAltScreenMode(s.num)
    then Flags(true, false)
    else NOTHING
  }

  function ScanByte(s: Scan, b: Byte): Step {
    match s.state
    case Ground => Step(if b == ESC then s.(state := Esc) else s, NOTHING)
    case Esc =>
      if b == LOWER_C then Step(s.(state := Ground), Flags(true, false))
      else if b == BRACKET then Step(Scan(Csi, false, 0, 0), NOTHING)
      else if IsStringIntro(b) then Step(s.(state := Str), NOTHING)
      else Step(s.(state := Ground), NOTHING)
    case Csi =>
      if IsParam(b) then Step(CsiParam(s, b), NOTHING)
      else if IsFinal(b) then Step(s.(state := Ground), CsiFinal(s, b))
      else Step(s, NOTHING)
    case Str =>
      Step(if b == BEL then s.(state := Ground) else if b == ESC then s.(state := StrEsc) else s, NOTHING)
    case StrEsc => Step(s.(state := Ground), Flags(b == LOWER_C, false))
  }

  function Scanned(s: Scan, data: Bytes): Step {
    if data == [] then Step(s, NOTHING)
    else
      var r := Scanned(s, data[..|data| - 1]);
      var last := ScanByte(r.next, data[|data| - 1]);
      Step(last.next, Or(r.flags, last.flags))
  }

  lemma {:induction false} ScannedAppend(s: Scan, a: Bytes, b: Bytes)
    ensures Scanned(s, a + b) ==
      Step(Scanned(Scanned(s, a).next, b).next, Or(Scanned(s, a).flags, Scanned(Scanned(s, a).next, b).flags))
  {
    if b == [] {
      assert a + b == a;
    } else {
      var init := b[..|b| - 1];
      ScannedAppend(s, a, init);
      assert (a + b)[..|a + b| - 1] == a + init;
    }
  }

  class EscScanner {
    var state: State
    var csiHasParams: bool
    var csiParamByte: Byte
    var csiNumParam: nat

    function View(): Scan
      reads this
    {
      Scan(state, csiHasParams, csiParamByte, csiNumParam)
    }

    constructor ()
      ensures View() == START
    {
      state, csiHasParams, csiParamByte, csiNumParam := Ground, false, 0, 0;
    }

    method OneByte(b: Byte) returns (r: Flags)
      modifies this
      ensures Step(View(), r) == ScanByte(old(View()), b)
    {
      r := NOTHING;
      match state {
        case Ground => if b == ESC { state := Esc; }
        case Esc =>
          if b == LOWER_C {
            r, state := Flags(true, false), Ground;
          } else if b == BRACKET {
            state, csiHasParams, csiParamByte, csiNumParam := Csi, false, 0, 0;
          } else if IsStringIntro(b) {
            state := Str;
          } else {
            state := Ground;
          }
        case Csi =>
          if IsParam(b) {
            if !csiHasParams { csiParamByte := b; }
            csiHasParams := true;
            if csiParamByte == QUESTION && IsDigit(b) {
              csiNumParam := AddDigit(csiNumParam, b);
            }
          } else if IsFinal(b) {
            r := CsiFinal(View(), b);
            state := Ground;
          }
        case Str =>
          if b == BEL { state := Ground; } else if b == ESC { state := StrEsc; }
        case StrEsc =>
          r := Flags(b == LOWER_C, false);
          state := Ground;
      }
    }

    method ScanChunk(data: Bytes) returns (r: Flags)
      modifies this
      ensures Step(View(), r) == Scanned(old(View()), data)
    {
      r := NOTHING;
      for i := 0 to |data|
        invariant Step(View(), r) == Scanned(old(View()), data[..i])
      {
        assert data[..i + 1][..i] == data[..i];
        var f := OneByte(data[i]);
        r := Or(r, f);
      }
      assert data[..|data|] == data;
    }

    method InGround() returns (g: bool)
      ensures g <==> View().state.Ground?
    {
      g := state == Ground;
    }
  }

  // ----- Complete tokens --------------------------------------------------

  datatype Token =
    | Plain(b: Byte)
    | Short(b: Byte)                              // ESC b
    | Control(body: Bytes, final: Byte)           // CSI
    | Text(intro: Byte, body: Bytes, end: Option<Byte>) // OSC, DCS, PM, APC; None: ended by BEL, else by ESC and a byte

  /** Said of the bytes: CSI is ESC [, ended by 0x40 to 0x7E; OSC, DCS, PM and APC are
      ESC followed by ], P, ^ or _. */
  predicate TokenOk(t: Token) {
    match t
    case Plain(b) => b != 0x1B
    case Short(b) => b != 0x5B && b != 0x5D && b != 0x50 && b != 0x5E && b != 0x5F
    case Control(body, final) =>
      0x40 <= final <= 0x7E && forall i :: 0 <= i < |body| ==> !(0x40 <= body[i] <= 0x7E)
    case Text(intro, body, _) =>
      (intro == 0x5D || intro == 0x50 || intro == 0x5E || intro == 0x5F) && 0x07 !in body && 0x1B !in body
  }

  function TokenBytes(t: Token): Bytes {
    match t
    case Plain(b) => [b]
    case Short(b) => [0x1B, b]
    case Control(body, final) => [0x1B, 0x5B] + body + [final]
    case Text(intro, body, end) => [0x1B, intro] + body + (if end.None? then [0x07] else [0x1B, end.value])
  }

  /** The parameter bytes of a CSI, 0x30 to 0x3F. */
  function Params(body: Bytes): Bytes {
    if body == [] then []
    else Params(body[..|body| - 1]) + (if 0x30 <= body[|body| - 1] <= 0x3F then [body[|body| - 1]] else [])
  }

  function DigitsOf(ps: Bytes): (ds: Bytes)
    ensures forall i :: 0 <= i < |ds| ==> IsDigit(ds[i])
  {
    if ps == [] then []
    else DigitsOf(ps[..|ps| - 1]) + (if 0x30 <= ps[|ps| - 1] <= 0x39 then [ps[|ps| - 1]] else [])
  }

  /** The number in the parameters, as far as a 64-bit counter can tell it. */
  function Number(ps: Bytes): nat { DigitsValue(DigitsOf(ps)) % 0x1_0000_0000_0000_0000 }

  /** What a complete sequence does to the bar row, said without the scanner. The
      scroll region is reset by ESC c, by CSI r without parameters and by switching
      private modes 1049, 1047 and 47; the row is erased by CSI J, 0J, 2J and 3J. */
  function TokenFlags(t: Token): Flags {
    match t
    case Plain(_) => Flags(false, false)
    case Short(b) => Flags(b == 0x63, false)
    case Text(_, _, end) => Flags(end == Some(0x63), false)
    case Control(body, final) =>
      var ps := Params(body);
      Flags((final == 0x72 && ps == [])
              || ((final == 0x68 || final == 0x6C) && ps != [] && ps[0] == 0x3F
                  && (Number(ps) == 1049 || Number(ps) == 1047 || Number(ps) == 47)),
            final == 0x4A && (ps == [] || ps[0] == 0x30 || ps[0] == 0x32 || ps[0] == 0x33))
  }

  lemma {:induction false} ModShift(a: nat, k: nat)
    ensures (a + k * WORD) % WORD == a % WORD
  {
    if k > 0 {
      ModShift(a, k - 1);
      assert a + k * WORD == (a + (k - 1) * WORD) + WORD;
    }
  }

  lemma ModDigit(v: nat, b: Byte)
    requires IsDigit(b)
    ensures AddDigit(v % WORD, b) == (v * 10 + (b - ZERO)) % WORD
  {
    var q, d := v / WORD, b - ZERO;
    assert v == q * WORD + v % WORD;
    ModShift(v % WORD * 10 + d, 10 * q);
    assert v % WORD * 10 + d + 10 * q * WORD == v * 10 + d;
  }

  /** The counter after the digits ds. */
  function Counter(ds: Bytes): nat
    requires forall i :: 0 <= i < |ds| ==> IsDigit(ds[i])
  {
    if ds == [] then 0 else AddDigit(Counter(ds[..|ds| - 1]), ds[|ds| - 1])
  }

  lemma {:induction false} CounterIs(ds: Bytes)
    requires forall i :: 0 <= i < |ds| ==> IsDigit(ds[i])
    ensures Counter(ds) == DigitsValue(ds) % 0x1_0000_0000_0000_0000
  {
    if ds != [] {
      CounterIs(ds[..|ds| - 1]);
      ModDigit(DigitsValue(ds[..|ds| - 1]), ds[|ds| - 1]);
    }
  }

  /** The scanner inside a CSI with the parameter bytes ps so far. */
  function WithParams(ps: Bytes): Scan {
    Scan(Csi, ps != [], if ps == [] then 0 else ps[0],
         if ps != [] && ps[0] == QUESTION then Counter(DigitsOf(ps)) else 0)
  }

  function Inside(body: Bytes): Scan { WithParams(Params(body)) }

  lemma ParamsSnoc(body: Bytes, b: Byte)
    ensures Params(body + [b]) == if 0x30 <= b <= 0x3F then Params(body) + [b] else Params(body)
  {
    assert (body + [b])[..|body|] == body;
    assert Params(body) + [] == Params(body);
  }

  lemma CounterSnoc(ps: Bytes, b: Byte)
    ensures Counter(DigitsOf(ps + [b])) ==
      if IsDigit(b) then AddDigit(Counter(DigitsOf(ps)), b) else Counter(DigitsOf(ps))
  {
    var ds := DigitsOf(ps);
    assert (ps + [b])[..|ps|] == ps;
    if IsDigit(b) {
      assert DigitsOf(ps + [b]) == ds + [b] && (ds + [b])[..|ds|] == ds;
    } else {
      assert DigitsOf(ps + [b]) == ds + [] == ds;
    }
  }

  lemma FirstParam(b: Byte)
    requires IsParam(b)
    ensures CsiParam(WithParams([]), b) == WithParams([b])
  {
    CounterSnoc([], b);
    assert [] + [b] == [b];
  }

  lemma NextParam(ps: Bytes, b: Byte)
    requires IsParam(b) && ps != []
    ensures CsiParam(WithParams(ps), b) == WithParams(ps + [b])
  {
    CounterSnoc(ps, b);
    assert (ps + [b])[0] == ps[0];
  }

  lemma InsideStep(body: Bytes, b: Byte)
    requires !(0x40 <= b <= 0x7E)
    ensures ScanByte(Inside(body), b) == Step(Inside(body + [b]), NOTHING)
  {
    ParamsSnoc(body, b);
    if IsParam(b) {
      if Params(body) == [] { FirstParam(b); assert [] + [b] == [b]; } else { NextParam(Params(body), b); }
    }
  }

  /** The final byte: what the scanner makes of it is what the sequence does. */
  lemma FinalFlags(body: Bytes, final: Byte)
    requires 0x40 <= final <= 0x7E
    ensures ScanByte(Inside(body), final).next.state.Ground?
    ensures ScanByte(Inside(body), final).flags == TokenFlags(Control(body, final))
  {
    CounterIs(DigitsOf(Params(body)));
  }

  lemma {:induction false} ControlBody(body: Bytes)
    requires forall i :: 0 <= i < |body| ==> !(0x40 <= body[i] <= 0x7E)
    ensures Scanned(Scan(Csi, false, 0, 0), body) == Step(Inside(body), NOTHING)
  {
    if body != [] {
      var init, b := body[..|body| - 1], body[|body| - 1];
      ControlBody(init);
      InsideStep(init, b);
      assert init + [b] == body;
    }
  }

  lemma {:induction false} TextBody(s: Scan, body: Bytes)
    requires s.state.Str? && BEL !in body && ESC !in body
    ensures Scanned(s, body) == Step(s, NOTHING)
  {
    if body != [] { TextBody(s, body[..|body| - 1]); }
  }

  lemma One(s: Scan, b: Byte)
    ensures Scanned(s, [b]) == ScanByte(s, b)
  {
    assert [b][..0] == [];
  }

  lemma Then(s: Scan, a: Bytes, b: Bytes, m: Step, e: Step)
    requires Scanned(s, a) == m && Scanned(m.next, b) == e
    ensures Scanned(s, a + b) == Step(e.next, Or(m.flags, e.flags))
  {
    ScannedAppend(s, a, b);
  }

  lemma Two(s: Scan, a: Byte, b: Byte)
    ensures Scanned(s, [a, b]) ==
      Step(ScanByte(ScanByte(s, a).next, b).next, Or(ScanByte(s, a).flags, ScanByte(ScanByte(s, a).next, b).flags))
  {
    One(s, a);
    One(ScanByte(s, a).next, b);
    Then(s, [a], [b], ScanByte(s, a), ScanByte(ScanByte(s, a).next, b));
    assert [a] + [b] == [a, b];
  }

  lemma ControlScanned(s: Scan, body: Bytes, final: Byte)
    requires s.state.Ground? && TokenOk(Control(body, final))
    ensures Scanned(s, [ESC, BRACKET] + body + [final]) == ScanByte(Inside(body), final)
  {
    var a, b := [ESC, BRACKET], Step(Inside(body), NOTHING);
    Two(s, ESC, BRACKET);
    ControlBody(body);
    Then(s, a, body, Step(Scan(Csi, false, 0, 0), NOTHING), b);
    One(Inside(body), final);
    Then(s, a + body, [final], b, ScanByte(Inside(body), final));
  }

  lemma TextScanned(s: Scan, intro: Byte, body: Bytes, end: Option<Byte>)
    requires s.state.Ground? && TokenOk(Text(intro, body, end))
    ensures var close := if end.None? then [BEL] else [ESC, end.value];
      Scanned(s, [ESC, intro] + body + close) == Step(s, Flags(end == Some(LOWER_C), false))
  {
    var inside := Step(s.(state := Str), NOTHING);
    Two(s, ESC, intro);
    TextBody(inside.next, body);
    Then(s, [ESC, intro], body, inside, inside);
    if end.None? {
      One(inside.next, BEL);
      Then(s, [ESC, intro] + body, [BEL], inside, Step(s, NOTHING));
    } else {
      Two(inside.next, ESC, end.value);
      Then(s, [ESC, intro] + body, [ESC, end.value], inside, Step(s, Flags(end == Some(LOWER_C), false)));
    }
  }

  /** From ground, a complete token leads back to ground and raises exactly the
      flags its specification says. */
  lemma TokenScanned(s: Scan, t: Token)
    requires s.state.Ground? && TokenOk(t)
    ensures Scanned(s, TokenBytes(t)).next.state.Ground?
    ensures Scanned(s, TokenBytes(t)).flags == TokenFlags(t)
  {
    match t
    case Plain(b) => One(s, b);
    case Short(b) => Two(s, ESC, b);
    case Control(body, final) =>
      ControlScanned(s, body, final);
      FinalFlags(body, final);
    case Text(intro, body, end) => TextScanned(s, intro, body, end);
  }

  lemma {:induction false} InsideControl(s: Scan, body: Bytes)
    requires s.state.Csi? && forall i :: 0 <= i < |body| ==> !(0x40 <= body[i] <= 0x7E)
    ensures Scanned(s, body).next.state.Csi?
  {
    if body != [] { InsideControl(s, body[..|body| - 1]); }
  }

  lemma Frame(x: Byte, y: Byte, body: Bytes, end: Bytes, k: nat)
    requires 2 <= k <= 2 + |body| + |end|
    ensures var b := [x, y] + body + end;
      && b[..k] == [x, y] + b[2..k]
      && b[2..k] == if k - 2 <= |body| then body[..k - 2] else body + end[..k - 2 - |body|]
  {
    var b, tail := [x, y] + body + end, body + end;
    AppendAssoc([x, y], body, end);
    assert b[..k] == [x, y] + tail[..k - 2] && b[2..k] == tail[..k - 2];
    if k - 2 <= |body| {
      assert tail[..k - 2] == body[..k - 2];
    } else {
      assert tail[..k - 2] == body + end[..k - 2 - |body|];
    }
  }

  lemma InsideText(s: Scan, body: Bytes, end: Bytes, k: nat)
    requires s.state.Str? && BEL !in body && ESC !in body && (end == [BEL] || (|end| == 2 && end[0] == ESC))
    requires k < |body| + |end|
    ensures !Scanned(s, if k <= |body| then body[..k] else body + end[..k - |body|]).next.state.Ground?
  {
    if k <= |body| {
      TextBody(s, body[..k]);
    } else {
      assert end[..k - |body|] == [ESC];
      TextBody(s, body);
      ScannedAppend(s, body, [ESC]);
      One(s, ESC);
    }
  }

  lemma ControlInside(s: Scan, body: Bytes, final: Byte, k: nat)
    requires s.state.Ground? && TokenOk(Control(body, final)) && 2 <= k < 3 + |body|
    ensures !Scanned(s, ([ESC, BRACKET] + body + [final])[..k]).next.state.Ground?
  {
    Two(s, ESC, BRACKET);
    Frame(ESC, BRACKET, body, [final], k);
    ScannedAppend(s, [ESC, BRACKET], body[..k - 2]);
    InsideControl(Scanned(s, [ESC, BRACKET]).next, body[..k - 2]);
  }

  lemma TextInside(s: Scan, intro: Byte, body: Bytes, close: Bytes, k: nat)
    requires s.state.Ground? && TokenOk(Text(intro, body, None)) && 2 <= k < 2 + |body| + |close|
    requires close == [BEL] || (|close| == 2 && close[0] == ESC)
    ensures !Scanned(s, ([ESC, intro] + body + close)[..k]).next.state.Ground?
  {
    var part := ([ESC, intro] + body + close)[2..k];
    Two(s, ESC, intro);
    Frame(ESC, intro, body, close, k);
    ScannedAppend(s, [ESC, intro], part);
    InsideText(Scanned(s, [ESC, intro]).next, body, close, k - 2);
  }

  /** Between the bytes of one sequence the scanner is never in ground. */
  lemma NotGroundInside(s: Scan, t: Token, k: nat)
    requires s.state.Ground? && TokenOk(t) && 0 < k < |TokenBytes(t)|
    ensures !Scanned(s, TokenBytes(t)[..k]).next.state.Ground?
  {
    if k == 1 {
      assert TokenBytes(t)[..1] == [ESC];
      One(s, ESC);
    } else {
      match t
      case Control(body, final) => ControlInside(s, body, final, k);
      case Text(intro, body, end) => TextInside(s, intro, body, if end.None? then [BEL] else [ESC, end.value], k);
      case _ =>
    }
  }

  function TokensBytes(ts: seq<Token>): Bytes {
    if ts == [] then [] else TokenBytes(ts[0]) + TokensBytes(ts[1..])
  }

  /** On a stream of complete tokens the scanner reports a reset exactly if one of them
      resets the scroll region, and an erasure exactly if one erases the row. */
  lemma {:induction false} TokensScanned(s: Scan, ts: seq<Token>)
    requires s.state.Ground? && forall i :: 0 <= i < |ts| ==> TokenOk(ts[i])
    ensures Scanned(s, TokensBytes(ts)).next.state.Ground?
    ensures var f := Scanned(s, TokensBytes(ts)).flags;
      && (f.scrollReset <==> exists i :: 0 <= i < |ts| && TokenFlags(ts[i]).scrollReset)
      && (f.barErased <==> exists i :: 0 <= i < |ts| && TokenFlags(ts[i]).barErased)
    decreases ts
  {
    if ts != [] {
      var m, rest := Scanned(s, TokenBytes(ts[0])), ts[1..];
      TokenScanned(s, ts[0]);
      TokensScanned(m.next, rest);
      Then(s, TokenBytes(ts[0]), TokensBytes(rest), m, Scanned(m.next, TokensBytes(rest)));
      assert forall i :: 0 <= i < |rest| ==> rest[i] == ts[i + 1];
      assert forall i :: 0 < i < |ts| ==> ts[i] == rest[i - 1];
    }
  }
}

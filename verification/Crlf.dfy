/** session/session.go, ToCRLF: cooking generated output for a raw terminal. */
module Crlf {
  import opened Basics

  /** bytes.ReplaceAll(b, "\r\n", "\n"), scanning left to right. */
  function Collapse(b: Bytes): Bytes {
    if |b| < 2 then b
    else if b[0] == CR && b[1] == LF then [LF] + Collapse(b[2..])
    else [b[0]] + Collapse(b[1..])
  }

  /** bytes.ReplaceAll(b, "\n", "\r\n"). */
  function Expand(b: Bytes): Bytes {
    if b == [] then []
    else (if b[0] == LF then [CR, LF] else [b[0]]) + Expand(b[1..])
  }

  function ToCrlf(b: Bytes): Bytes { Expand(Collapse(b)) }

  ghost predicate Cooked(b: Bytes) {
    forall i :: 0 <= i < |b| && b[i] == LF ==> i > 0 && b[i - 1] == CR
  }

  lemma {:induction false} ExpandCooked(b: Bytes)
    ensures Cooked(Expand(b))
  {
    if b != [] {
      ExpandCooked(b[1..]);
      var tail := Expand(b[1..]);
      var whole := Expand(b);
      assert whole == (if b[0] == LF then [CR, LF] else [b[0]]) + tail;
      forall i | 0 <= i < |whole| && whole[i] == LF ensures i > 0 && whole[i - 1] == CR {
        var k := |whole| - |tail|;
        if i >= k { assert tail[i - k] == LF; }
      }
    }
  }

  lemma {:induction false} CollapseExpand(b: Bytes)
    ensures Collapse(Expand(b)) == b
  {
    if b != [] {
      CollapseExpand(b[1..]);
      var tail := Expand(b[1..]);
      if b[0] == LF {
        assert Expand(b)[2..] == tail;
      } else {
        assert Expand(b) == [b[0]] + tail;
        assert Expand(b)[1..] == tail;
        if tail != [] { assert tail[0] != LF; }
      }
    }
  }

  /** The result uses only \r\n line breaks, cooking twice is cooking once, and
      cooking loses nothing but the distinction between \n and \r\n. */
  lemma ToCrlfCooks(b: Bytes)
    ensures Cooked(ToCrlf(b))
    ensures ToCrlf(ToCrlf(b)) == ToCrlf(b)
    ensures Collapse(ToCrlf(b)) == Collapse(b)
  {
    ExpandCooked(Collapse(b));
    CollapseExpand(Collapse(b));
  }

  ghost predicate SplitsBreak(a: Bytes, b: Bytes) {
    a != [] && b != [] && a[|a| - 1] == CR && b[0] == LF
  }

  lemma {:induction false} ExpandAppend(a: Bytes, b: Bytes)
    ensures Expand(a + b) == Expand(a) + Expand(b)
  {
    if a == [] {
      assert a + b == b;
    } else {
      assert (a + b)[1..] == a[1..] + b;
      ExpandAppend(a[1..], b);
    }
  }

  lemma {:induction false} CollapseAppend(a: Bytes, b: Bytes)
    requires !SplitsBreak(a, b)
    ensures Collapse(a + b) == Collapse(a) + Collapse(b)
  {
    if a == [] {
      assert a + b == b;
    } else if |a| == 1 {
      assert (a + b)[1..] == b;
    } else if a[0] == CR && a[1] == LF {
      assert (a + b)[2..] == a[2..] + b;
      CollapseAppend(a[2..], b);
    } else {
      assert (a + b)[1..] == a[1..] + b;
      CollapseAppend(a[1..], b);
    }
  }

  /** Cooking piece by piece equals cooking the whole exactly when the cut does
      not fall inside a \r\n. */
  lemma ToCrlfStreaming(a: Bytes, b: Bytes)
    ensures ToCrlf(a + b) == ToCrlf(a) + ToCrlf(b) <==> !SplitsBreak(a, b)
  {
    if !SplitsBreak(a, b) {
      CollapseAppend(a, b);
      ExpandAppend(Collapse(a), Collapse(b));
    } else {
      var init := a[..|a| - 1];
      assert a == init + [CR] && a + b == init + ([CR] + b);
      CollapseAppend(init, [CR]);
      CollapseAppend(init, [CR] + b);
      assert Collapse([CR] + b) == Collapse(b) by {
        assert ([CR] + b)[2..] == b[1..];
        assert Collapse(b) == [LF] + Collapse(b[1..]);
      }
      ExpandAppend(Collapse(init), Collapse(b));
      ExpandAppend(Collapse(init), [CR]);
      assert |Expand([CR])| == 1;
    }
  }
}

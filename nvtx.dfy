/**
 * The message an NVTX-mode session pushes for a range
 * (ProfilerThreadLocalState::pushRange, torch/csrc/autograd/profiler.cpp):
 * the name, message and sequence number, then the input shapes, each shape a
 * bracketed, comma-separated list of dimensions.
 */
module Nvtx {
  import opened Wrappers

  // ---------------------------------------------------------------------
  // Decimal rendering of integers, as `operator<<` on a stringstream does
  // ---------------------------------------------------------------------

  predicate IsDigit(c: char) {
    '0' <= c <= '9'
  }

  predicate AllDigits(s: string) {
    forall i :: 0 <= i < |s| ==> IsDigit(s[i])
  }

  function DigitChar(d: nat): (c: char)
    requires d < 10
    ensures IsDigit(c)
  {
    "0123456789"[d]
  }

  /** Decimal digits of `n`, most significant first, no leading zeros. */
  function NatToString(n: nat): (s: string)
    ensures |s| >= 1 && AllDigits(s)
    ensures n >= 10 ==> s[0] != '0'
    decreases n
  {
    if n < 10 then [DigitChar(n)] else NatToString(n / 10) + [DigitChar(n % 10)]
  }

  /** Decimal rendering of an integer: a '-' sign for negative values. */
  function IntToString(n: int): string {
    if n < 0 then "-" + NatToString(-n) else NatToString(n)
  }

  /** Value of a string of decimal digits. */
  function DigitsValue(s: string): nat
    requires AllDigits(s)
  {
    if s == [] then 0 else DigitsValue(s[..|s| - 1]) * 10 + ((s[|s| - 1] as int) - ('0' as int))
  }

  /** Reads back what `IntToString` writes. */
  function ParseInt(s: string): Option<int> {
    if |s| >= 2 && s[0] == '-' && AllDigits(s[1..]) then Some(0 - DigitsValue(s[1..]))
    else if |s| >= 1 && AllDigits(s) then Some(DigitsValue(s))
    else None
  }

  lemma {:induction false} NatToStringValue(n: nat)
    ensures DigitsValue(NatToString(n)) == n
    decreases n
  {
    var s := NatToString(n);
    if n >= 10 {
      var front := NatToString(n / 10);
      NatToStringValue(n / 10);
      assert s == front + [DigitChar(n % 10)];
      assert s[..|s| - 1] == front;
      assert DigitsValue(s) == DigitsValue(front) * 10 + n % 10;
    } else {
      assert s == [DigitChar(n)];
      assert s[..0] == [];
    }
  }

  /** Every integer's rendering reads back as that integer. */
  lemma IntToStringRoundTrip(n: int)
    ensures ParseInt(IntToString(n)) == Some(n)
  {
    var t := IntToString(n);
    if n < 0 {
      var digits := NatToString(-n);
      NatToStringValue(-n);
      assert t == "-" + digits;
      assert t[1..] == digits;
      assert ParseInt(t) == Some(0 - DigitsValue(digits));
    } else {
      NatToStringValue(n);
      assert IsDigit(t[0]);
      assert ParseInt(t) == Some(DigitsValue(t));
    }
  }

  // ---------------------------------------------------------------------
  // Joining and counting
  // ---------------------------------------------------------------------

  /** `parts` with `sep` between neighbours. */
  function Join(parts: seq<string>, sep: string): string {
    if parts == [] then ""
    else if |parts| == 1 then parts[0]
    else Join(parts[..|parts| - 1], sep) + sep + parts[|parts| - 1]
  }

  /** Joining one more part adds a separator (unless it is the first) and the part. */
  lemma JoinSnoc(parts: seq<string>, sep: string, k: nat)
    requires k < |parts|
    ensures Join(parts[..k + 1], sep) == Join(parts[..k], sep) + (if k > 0 then sep else "") + parts[k]
  {
    var front := parts[..k + 1];
    if k > 0 {
      assert front[..|front| - 1] == parts[..k];
    }
  }

  predicate EndsWith(s: string, suffix: string) {
    |suffix| <= |s| && s[|s| - |suffix|..] == suffix
  }

  function Count(s: string, c: char): nat {
    if s == [] then 0 else Count(s[..|s| - 1], c) + (if s[|s| - 1] == c then 1 else 0)
  }

  lemma {:induction false} CountAppend(a: string, b: string, c: char)
    ensures Count(a + b, c) == Count(a, c) + Count(b, c)
    decreases |b|
  {
    if b != [] {
      var ab := a + b;
      assert ab[..|ab| - 1] == a + b[..|b| - 1];
      assert ab[|ab| - 1] == b[|b| - 1];
      CountAppend(a, b[..|b| - 1], c);
    } else {
      assert a + b == a;
    }
  }

  /**
   * When the separator holds no `c` and every part holds the same number of
   * them (none or one), the joined string holds that many per part.
   */
  lemma {:induction false} CountJoin(parts: seq<string>, sep: string, c: char, k: nat)
    requires k <= 1
    requires Count(sep, c) == 0
    requires forall i :: 0 <= i < |parts| ==> Count(parts[i], c) == k
    ensures Count(Join(parts, sep), c) == if k == 1 then |parts| else 0
    decreases |parts|
  {
    var n := |parts|;
    if n > 1 {
      var front := parts[..n - 1];
      var last := parts[n - 1];
      assert forall i :: 0 <= i < |front| ==> front[i] == parts[i];
      CountJoin(front, sep, c, k);
      CountAppend(Join(front, sep), sep, c);
      CountAppend(Join(front, sep) + sep, last, c);
      assert Join(parts, sep) == Join(front, sep) + sep + last;
    }
  }

  lemma {:induction false} CountAbsent(s: string, c: char)
    requires forall i :: 0 <= i < |s| ==> s[i] != c
    ensures Count(s, c) == 0
    decreases |s|
  {
    if s != [] {
      CountAbsent(s[..|s| - 1], c);
    }
  }

  lemma {:induction false} CountDigits(s: string, c: char)
    requires AllDigits(s) && !IsDigit(c)
    ensures Count(s, c) == 0
    decreases |s|
  {
    if s != [] {
      CountDigits(s[..|s| - 1], c);
    }
  }

  lemma CountIntToString(n: int, c: char)
    requires !IsDigit(c) && c != '-'
    ensures Count(IntToString(n), c) == 0
  {
    var digits := NatToString(if n < 0 then -n else n);
    CountDigits(digits, c);
    if n < 0 {
      CountAppend("-", digits, c);
    }
  }

  // ---------------------------------------------------------------------
  // The range message
  // ---------------------------------------------------------------------

  function IntTexts(dims: seq<int>): (r: seq<string>)
    ensures |r| == |dims|
  {
    seq(|dims|, i requires 0 <= i < |dims| => IntToString(dims[i]))
  }

  /** One shape: `[d1, d2, ...]`, and `[]` for the empty shape. */
  function ShapeText(dims: seq<int>): string {
    "[" + Join(IntTexts(dims), ", ") + "]"
  }

  function ShapeTexts(shapes: seq<seq<int>>): (r: seq<string>)
    ensures |r| == |shapes|
  {
    seq(|shapes|, i requires 0 <= i < |shapes| => ShapeText(shapes[i]))
  }

  /** The shapes suffix: `, sizes = [` then the shapes joined by `, ` then `]`. */
  function SizesText(shapes: seq<seq<int>>): string {
    ", sizes = [" + Join(ShapeTexts(shapes), ", ") + "]"
  }

  const SizesOpen: string := ", sizes = ["

  /**
   * The text pushed for a range in NVTX mode: with a sequence number or
   * shapes, the optional `name msg seqNr` head followed by the optional shapes
   * suffix; with neither, the bare name.
   */
  function NvtxMessage(name: string, msg: string, seqNr: int, shapes: seq<seq<int>>): string
  {
    if seqNr >= 0 || |shapes| > 0 then
      (if seqNr >= 0 then name + msg + IntToString(seqNr) else "")
      + (if |shapes| > 0 then SizesText(shapes) else "")
    else
      name
  }

  /**
   * How the range text is laid out: a sequence number puts the name, message
   * and number at the front; shapes put the shapes suffix at the end; with
   * neither the text is the bare name; with shapes but no sequence number the
   * name is left out and the text opens with the shapes suffix.
   */
  lemma NvtxMessageLayout(name: string, msg: string, seqNr: int, shapes: seq<seq<int>>)
    ensures var r := NvtxMessage(name, msg, seqNr, shapes);
      && (seqNr >= 0 ==> name + msg + IntToString(seqNr) <= r)
      && (seqNr >= 0 && shapes == [] ==> r == name + msg + IntToString(seqNr))
      && (seqNr < 0 && shapes == [] ==> r == name)
      && (seqNr < 0 && shapes != [] ==> r == SizesText(shapes) && SizesOpen <= r)
      && (shapes != [] ==> EndsWith(r, SizesText(shapes)))
  {
    var r := NvtxMessage(name, msg, seqNr, shapes);
    var head := if seqNr >= 0 then name + msg + IntToString(seqNr) else "";
    if shapes != [] {
      var tail := SizesText(shapes);
      assert r == head + tail;
      assert r[|r| - |tail|..] == tail;
      assert tail == SizesOpen + (Join(ShapeTexts(shapes), ", ") + "]");
      if seqNr < 0 {
        assert r == tail;
      }
    }
  }

  lemma CountSingle(x: char, c: char)
    ensures Count([x], c) == if x == c then 1 else 0
  {
    assert [x][..0] == [];
  }

  /** Brackets in the fixed pieces of the range text. */
  lemma LiteralBrackets(c: char)
    requires c == '[' || c == ']'
    ensures Count(", ", c) == 0
    ensures Count("[", c) == (if c == '[' then 1 else 0)
    ensures Count("]", c) == (if c == ']' then 1 else 0)
    ensures Count(SizesOpen, c) == (if c == '[' then 1 else 0)
  {
    CountAbsent(", ", c);
    CountSingle('[', c);
    CountSingle(']', c);
    var words := ", sizes = ";
    assert forall i :: 0 <= i < |words| ==> words[i] != c;
    CountAbsent(words, c);
    CountAppend(words, "[", c);
    assert SizesOpen == words + "[";
  }

  /** A shape's text has exactly one opening and one closing bracket. */
  lemma ShapeTextBrackets(dims: seq<int>, c: char)
    requires c == '[' || c == ']'
    ensures Count(ShapeText(dims), c) == 1
  {
    var texts := IntTexts(dims);
    forall i | 0 <= i < |texts|
      ensures Count(texts[i], c) == 0
    {
      CountIntToString(dims[i], c);
    }
    LiteralBrackets(c);
    CountJoin(texts, ", ", c, 0);
    var inner := Join(texts, ", ");
    CountAppend("[", inner, c);
    CountAppend("[" + inner, "]", c);
  }

  /**
   * The shapes suffix is bracket-balanced: one pair per shape and one pair
   * around the list.
   */
  lemma SizesTextBrackets(shapes: seq<seq<int>>, c: char)
    requires c == '[' || c == ']'
    ensures Count(SizesText(shapes), c) == |shapes| + 1
  {
    var texts := ShapeTexts(shapes);
    forall i | 0 <= i < |texts|
      ensures Count(texts[i], c) == 1
    {
      ShapeTextBrackets(shapes[i], c);
    }
    LiteralBrackets(c);
    CountJoin(texts, ", ", c, 1);
    var inner := Join(texts, ", ");
    CountAppend(SizesOpen, inner, c);
    CountAppend(SizesOpen + inner, "]", c);
  }

  /**
   * What a separator-joining loop has written after `k` of the parts: the
   * first `k` parts joined, and the separator that follows the `k`th part
   * unless it is the last.
   */
  function JoinedSoFar(parts: seq<string>, sep: string, k: nat): string
    requires k <= |parts|
  {
    Join(parts[..k], sep) + (if 0 < k < |parts| then sep else "")
  }

  /**
   * One step of a separator-joining loop: appending part `k`, followed by the
   * separator unless it is the last part, extends the joined prefix by one.
   */
  lemma JoinLoopStep(pre: string, parts: seq<string>, sep: string, k: nat, s: string, s': string)
    requires k < |parts|
    requires s == pre + JoinedSoFar(parts, sep, k)
    requires s' == s + parts[k] + (if k < |parts| - 1 then sep else "")
    ensures s' == pre + JoinedSoFar(parts, sep, k + 1)
  {
    JoinSnoc(parts, sep, k);
  }

  lemma JoinLoopEnd(parts: seq<string>, sep: string)
    ensures JoinedSoFar(parts, sep, |parts|) == Join(parts, sep)
  {
    assert parts[..|parts|] == parts;
  }

  /** Appends one shape to the text: `[d1, d2, ...]`, or `[]` when it is empty. */
  method AppendShape(s0: string, dims: seq<int>) returns (s: string)
    ensures s == s0 + ShapeText(dims)
  {
    ghost var texts := IntTexts(dims);
    if |dims| > 0 {
      s := s0 + "[";
      ghost var pre := s;
      var dim := 0;
      while dim < |dims|
        invariant 0 <= dim <= |dims|
        invariant s == pre + JoinedSoFar(texts, ", ", dim)
      {
        ghost var prev := s;
        assert texts[dim] == IntToString(dims[dim]);
        s := s + IntToString(dims[dim]);
        if dim < |dims| - 1 {
          s := s + ", ";
        }
        JoinLoopStep(pre, texts, ", ", dim, prev, s);
        dim := dim + 1;
      }
      JoinLoopEnd(texts, ", ");
      s := s + "]";
      assert s == s0 + ("[" + Join(texts, ", ") + "]");
    } else {
      s := s0 + "[]";
      assert texts == [];
    }
  }

  /** Appends the shapes suffix: `, sizes = [`, the shapes joined by `, `, and `]`. */
  method AppendSizes(s0: string, shapes: seq<seq<int>>) returns (s: string)
    ensures s == s0 + SizesText(shapes)
  {
    ghost var texts := ShapeTexts(shapes);
    s := s0 + SizesOpen;
    ghost var pre := s;
    var i := 0;
    while i < |shapes|
      invariant 0 <= i <= |shapes|
      invariant s == pre + JoinedSoFar(texts, ", ", i)
    {
      ghost var prev := s;
      s := AppendShape(s, shapes[i]);
      if i < |shapes| - 1 {
        s := s + ", ";
      }
      JoinLoopStep(pre, texts, ", ", i, prev, s);
      i := i + 1;
    }
    JoinLoopEnd(texts, ", ");
    s := s + "]";
  }

  /** Builds the text pushed for a range in NVTX mode. */
  method FormatNvtx(name: string, msg: string, seqNr: int, shapes: seq<seq<int>>) returns (s: string)
    ensures s == NvtxMessage(name, msg, seqNr, shapes)
  {
    if seqNr >= 0 || |shapes| > 0 {
      s := "";
      if seqNr >= 0 {
        s := s + name + msg + IntToString(seqNr);
        assert s == name + msg + IntToString(seqNr);
      }
      ghost var head := s;
      if |shapes| > 0 {
        s := AppendSizes(s, shapes);
        assert s == head + SizesText(shapes);
      } else {
        assert s == head + "";
      }
    } else {
      s := name;
    }
  }
}

/**
 The functions that turn sampled counters into the report's series: `rate`, the finite differences with drops
 suppressed, and `uint64SliceToString`, the comma-separated decimal form, with a reader that inverts it.
 */
module Series {
  import opened Wrappers

  type uint64 = x: int | 0 <= x < 0x1_0000_0000_0000_0000

  // ---------------------------------------------------------------------------------------------
  // rate

  /** The rise from one sample to the next; a drop, as when counters are flushed, counts as no rise. */
  function Rise(previous: uint64, current: uint64): nat {
    if current < previous then 0 else current - previous
  }

  function Drop(previous: uint64, current: uint64): nat {
    if current < previous then previous - current else 0
  }

  /** A float64 without rounding; division by zero gives an infinity or not a number. */
  datatype Float = Finite(value: real) | PosInf | NegInf | NaN

  function Divide(x: real, y: real): (f: Float)
    ensures f.Finite? <==> y != 0.0
  {
    if y != 0.0 then Finite(x / y)
    else if x > 0.0 then PosInf
    else if x < 0.0 then NegInf
    else NaN
  }

  function RateAt(sl: seq<uint64>, step: real, i: nat): (f: Float)
    requires i < |sl|
    ensures step != 0.0 ==> f.Finite?
  {
    if i == 0 then Finite(0.0) else Divide(Rise(sl[i - 1], sl[i]) as real, step)
  }

  lemma MulDiv(x: real, step: real)
    requires step != 0.0
    ensures step * (x / step) == x
  {
  }

  /** What a point says about two samples: nothing rises at a drop, and otherwise step times the rate is the rise. */
  ghost predicate PointIs(previous: uint64, current: uint64, step: real, f: Float) {
    if step == 0.0 then f == (if current > previous then PosInf else NaN)
    else f.Finite? && if current <= previous then f.value == 0.0 else step * f.value == (current - previous) as real
  }

  lemma RatePoint(sl: seq<uint64>, step: real, i: nat)
    requires 0 < i < |sl|
    ensures PointIs(sl[i - 1], sl[i], step, RateAt(sl, step, i))
  {
    if step != 0.0 {
      MulDiv(Rise(sl[i - 1], sl[i]) as real, step);
    }
  }

  method Rate(sl: seq<uint64>, step: real) returns (result: array<Float>)
    ensures result.Length == |sl|
    ensures forall i :: 0 <= i < |sl| ==> result[i] == RateAt(sl, step, i)
    ensures sl != [] ==> result[0] == Finite(0.0)
    ensures forall i :: 0 < i < |sl| ==> PointIs(sl[i - 1], sl[i], step, result[i])
  {
    forall i | 0 < i < |sl| ensures PointIs(sl[i - 1], sl[i], step, RateAt(sl, step, i)) {
      RatePoint(sl, step, i);
    }
    result := new Float[|sl|](_ => Finite(0.0));
    if |sl| < 2 {
      return;
    }
    var i := 1;
    while i < |sl|
      invariant 1 <= i <= |sl|
      invariant forall k :: 0 <= k < i ==> result[k] == RateAt(sl, step, k)
    {
      var curValue := sl[i - 1];
      var lastValue := sl[i];
      if lastValue < curValue {
        lastValue := curValue;
      }
      result[i] := Divide(lastValue as real - curValue as real, step);
      i := i + 1;
    }
  }

  /** The area one point stands for. */
  ghost function Slice(sl: seq<uint64>, step: real, n: nat): real
    requires step != 0.0 && n < |sl|
  {
    step * RateAt(sl, step, n).value
  }

  lemma SliceIsRise(sl: seq<uint64>, step: real, n: nat)
    requires step != 0.0 && n < |sl|
    ensures Slice(sl, step, n) == if n == 0 then 0.0 else Rise(sl[n - 1], sl[n]) as real
  {
    if n > 0 {
      MulDiv(Rise(sl[n - 1], sl[n]) as real, step);
    }
  }

  /** The area under the first n + 1 points of the rate. */
  ghost function Area(sl: seq<uint64>, step: real, n: nat): real
    requires step != 0.0 && n < |sl|
  {
    Slice(sl, step, n) + if n == 0 then 0.0 else Area(sl, step, n - 1)
  }

  ghost function Drops(sl: seq<uint64>, n: nat): nat
    requires n < |sl|
  {
    if n == 0 then 0 else Drop(sl[n - 1], sl[n]) + Drops(sl, n - 1)
  }

  /** The area under the rate up to any sample is the change of the counter plus everything it dropped. */
  lemma {:induction false} AreaIsChangePlusDrops(sl: seq<uint64>, step: real, n: nat)
    requires step != 0.0 && n < |sl|
    ensures Area(sl, step, n) == (sl[n] - sl[0] + Drops(sl, n)) as real
    decreases n
  {
    hide Slice;
    SliceIsRise(sl, step, n);
    if n > 0 {
      AreaIsChangePlusDrops(sl, step, n - 1);
    }
  }

  lemma {:induction false} NoDrops(sl: seq<uint64>, n: nat)
    requires n < |sl|
    requires forall i, j :: 0 <= i < j < |sl| ==> sl[i] <= sl[j]
    ensures Drops(sl, n) == 0
    decreases n
  {
    if n > 0 {
      NoDrops(sl, n - 1);
    }
  }

  /** A counter that never drops is recovered, sample by sample, from its first value and its rate. */
  lemma NondecreasingIsRecovered(sl: seq<uint64>, step: real)
    requires step != 0.0
    requires forall i, j :: 0 <= i < j < |sl| ==> sl[i] <= sl[j]
    ensures forall n :: 0 <= n < |sl| ==> sl[n] as real == sl[0] as real + Area(sl, step, n)
  {
    forall n | 0 <= n < |sl| ensures sl[n] as real == sl[0] as real + Area(sl, step, n) {
      AreaIsChangePlusDrops(sl, step, n);
      NoDrops(sl, n);
    }
  }

  lemma {:induction false} DropsZeroIff(sl: seq<uint64>, n: nat)
    requires n < |sl|
    ensures Drops(sl, n) == 0 <==> forall i :: 0 < i <= n ==> sl[i - 1] <= sl[i]
    decreases n
  {
    if n > 0 {
      DropsZeroIff(sl, n - 1);
    }
  }

  /** With a drop anywhere, the samples after it are not recovered: the area is too large by all drops. */
  lemma RecoveredIff(sl: seq<uint64>, step: real, n: nat)
    requires step != 0.0 && n < |sl|
    ensures sl[n] as real == sl[0] as real + Area(sl, step, n)
       <==> forall i :: 0 < i <= n ==> sl[i - 1] <= sl[i]
  {
    AreaIsChangePlusDrops(sl, step, n);
    DropsZeroIff(sl, n);
  }

  // ---------------------------------------------------------------------------------------------
  // uint64SliceToString

  /** Go's conversion from uint64 to int64: the same 64 bits. */
  function AsInt64(v: uint64): (i: int)
    ensures -0x8000_0000_0000_0000 <= i < 0x8000_0000_0000_0000
    ensures i % 0x1_0000_0000_0000_0000 == v
  {
    if v < 0x8000_0000_0000_0000 then v else v - 0x1_0000_0000_0000_0000
  }

  function AsUint64(i: int): (v: uint64)
    requires -0x8000_0000_0000_0000 <= i < 0x8000_0000_0000_0000
    ensures v == i % 0x1_0000_0000_0000_0000
  {
    if i < 0 then i + 0x1_0000_0000_0000_0000 else i
  }

  function Digit(d: nat): (c: char)
    requires d < 10
    ensures '0' <= c <= '9'
  {
    ('0' as int + d) as char
  }

  ghost predicate IsDigits(s: string) {
    forall i :: 0 <= i < |s| ==> '0' <= s[i] <= '9'
  }

  /** strconv.FormatInt in base 10, for a natural number. */
  function FormatNat(n: nat): (s: string)
    ensures s != [] && IsDigits(s)
  {
    if n < 10 then [Digit(n)] else FormatNat(n / 10) + [Digit(n % 10)]
  }

  ghost predicate NoComma(s: string) {
    forall k :: 0 <= k < |s| ==> s[k] != ','
  }

  function FormatInt(i: int): (s: string)
    ensures s != [] && NoComma(s)
  {
    if i < 0 then "-" + FormatNat(-i) else FormatNat(i)
  }

  function Join(parts: seq<string>): string {
    if parts == [] then ""
    else if |parts| == 1 then parts[0]
    else parts[0] + "," + Join(parts[1..])
  }

  /** The decimal form of every element. */
  function Parts(sl: seq<uint64>): (parts: seq<string>)
    ensures |parts| == |sl|
    ensures forall i :: 0 <= i < |sl| ==> parts[i] == FormatInt(AsInt64(sl[i]))
  {
    seq(|sl|, i requires 0 <= i < |sl| => FormatInt(AsInt64(sl[i])))
  }

  // The reader.

  function DigitValue(c: char): Option<nat> {
    if '0' <= c <= '9' then Some(c as int - '0' as int) else None
  }

  function ParseNat(s: string): Option<nat> {
    if s == [] then None
    else
      var last := DigitValue(s[|s| - 1]);
      if last.None? then None
      else if |s| == 1 then last
      else
        match ParseNat(s[..|s| - 1])
        case None => None
        case Some(n) => Some(10 * n + last.value)
  }

  /** A decimal int64: digits after an optional minus sign, in range. */
  function ParseInt(s: string): (r: Option<int>)
    ensures r.Some? ==> -0x8000_0000_0000_0000 <= r.value < 0x8000_0000_0000_0000
  {
    var negative := s != [] && s[0] == '-';
    var n := ParseNat(if negative then s[1..] else s);
    if n.None? then None
    else
      var i: int := if negative then 0 - n.value else n.value;
      if -0x8000_0000_0000_0000 <= i < 0x8000_0000_0000_0000 then Some(i) else None
  }

  /** The pieces between commas; there is always at least one. */
  function Split(s: string): (parts: seq<string>)
    ensures parts != []
  {
    if s == [] then [""]
    else
      var parts := Split(s[1..]);
      if s[0] == ',' then [""] + parts else [[s[0]] + parts[0]] + parts[1..]
  }

  function ReadAll(parts: seq<string>): Option<seq<uint64>> {
    if parts == [] then Some([])
    else
      match (ParseInt(parts[0]), ReadAll(parts[1..]))
      case (Some(i), Some(rest)) => Some([AsUint64(i)] + rest)
      case _ => None
  }

  /** Split at commas, read each piece as an int64 and take its 64 bits as a uint64. */
  function Read(s: string): Option<seq<uint64>> {
    ReadAll(Split(s))
  }

  lemma ParseSnoc(s: string, m: nat, d: nat)
    requires s != [] && ParseNat(s) == Some(m) && d < 10
    ensures ParseNat(s + [Digit(d)]) == Some(10 * m + d)
  {
    assert (s + [Digit(d)])[..|s|] == s;
  }

  lemma {:induction false} ParseFormatNat(n: nat)
    ensures ParseNat(FormatNat(n)) == Some(n)
  {
    if n >= 10 {
      ParseFormatNat(n / 10);
      ParseSnoc(FormatNat(n / 10), n / 10, n % 10);
    }
  }

  /** A decimal number without leading zeros. */
  ghost predicate IsCanonical(s: string) {
    s != [] && IsDigits(s) && (s[0] == '0' ==> |s| == 1)
  }

  lemma {:induction false} FormatIsCanonical(n: nat)
    ensures IsCanonical(FormatNat(n))
    ensures FormatNat(n)[0] == '0' <==> n == 0
  {
    if n >= 10 {
      FormatIsCanonical(n / 10);
    }
  }

  lemma {:induction false} CanonicalIsFormat(s: string)
    requires IsCanonical(s)
    ensures ParseNat(s).Some? && FormatNat(ParseNat(s).value) == s
    decreases |s|
  {
    if |s| > 1 {
      var init, last := s[..|s| - 1], s[|s| - 1];
      CanonicalIsFormat(init);
      var n := ParseNat(init).value;
      FormatIsCanonical(n);
      var d := last as int - '0' as int;
      assert ParseNat(s) == Some(10 * n + d);
      assert (10 * n + d) / 10 == n && (10 * n + d) % 10 == d;
      assert s == init + [Digit(d)];
    }
  }

  /** The printed form of a number is the one decimal numeral without leading zeros that reads as it. */
  lemma DecimalFormIff(n: nat, s: string)
    ensures FormatNat(n) == s <==> IsCanonical(s) && ParseNat(s) == Some(n)
  {
    FormatIsCanonical(n);
    ParseFormatNat(n);
    if IsCanonical(s) && ParseNat(s) == Some(n) {
      CanonicalIsFormat(s);
    }
  }

  lemma ParseFormatInt(i: int)
    requires -0x8000_0000_0000_0000 <= i < 0x8000_0000_0000_0000
    ensures ParseInt(FormatInt(i)) == Some(i)
  {
    hide ParseNat, FormatNat;
    if i < 0 {
      ParseFormatNat(-i);
      assert FormatInt(i)[1..] == FormatNat(-i);
    } else {
      ParseFormatNat(i);
      assert '0' <= FormatNat(i)[0];
    }
  }

  lemma {:induction false} SplitPiece(s: string)
    requires NoComma(s)
    ensures Split(s) == [s]
  {
    if s != [] {
      SplitPiece(s[1..]);
      assert [s[0]] + s[1..] == s;
    }
  }

  lemma {:induction false} SplitFirst(s: string, rest: string)
    requires NoComma(s)
    ensures Split(s + "," + rest) == [s] + Split(rest)
  {
    var all := s + "," + rest;
    if s == [] {
      assert all[1..] == rest;
    } else {
      assert all[1..] == s[1..] + "," + rest;
      SplitFirst(s[1..], rest);
      assert [s[0]] + s[1..] == s;
    }
  }

  lemma {:induction false} SplitJoin(parts: seq<string>)
    requires parts != [] && forall i :: 0 <= i < |parts| ==> NoComma(parts[i])
    ensures Split(Join(parts)) == parts
  {
    if |parts| == 1 {
      SplitPiece(parts[0]);
    } else {
      SplitJoin(parts[1..]);
      SplitFirst(parts[0], Join(parts[1..]));
      assert [parts[0]] + parts[1..] == parts;
    }
  }

  lemma {:induction false} ReadParts(sl: seq<uint64>)
    ensures ReadAll(Parts(sl)) == Some(sl)
  {
    if sl != [] {
      ReadParts(sl[1..]);
      ParseFormatInt(AsInt64(sl[0]));
      assert Parts(sl)[1..] == Parts(sl[1..]);
      assert [sl[0]] + sl[1..] == sl;
    }
  }

  lemma PrintedIsRead(sl: seq<uint64>)
    requires sl != []
    ensures Read(Join(Parts(sl))) == Some(sl)
  {
    SplitJoin(Parts(sl));
    ReadParts(sl);
  }

  method Uint64SliceToString(sl: seq<uint64>) returns (s: string)
    ensures s == Join(Parts(sl))
    ensures sl != [] ==> Read(s) == Some(sl)
  {
    hide Join, Read, FormatInt;
    var str: seq<string> := [];
    for i := 0 to |sl|
      invariant |str| == i
      invariant forall k :: 0 <= k < i ==> str[k] == FormatInt(AsInt64(sl[k]))
    {
      str := str + [FormatInt(AsInt64(sl[i]))];
    }
    assert str == Parts(sl);
    s := Join(str);
    if sl != [] {
      PrintedIsRead(sl);
    }
  }

  /** The printed form determines the slice exactly for non-empty slices: the empty one prints nothing. */
  lemma RoundTripIff(sl: seq<uint64>)
    ensures Read(Join(Parts(sl))) == Some(sl) <==> sl != []
  {
    if sl != [] {
      PrintedIsRead(sl);
    } else {
      assert Split("") == [""];
      assert ParseInt("") == None;
    }
  }
}

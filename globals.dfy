/** Time and byte helpers of K3b (src/tools/k3bglobals.cpp): Compact Disc
    Digital Audio (IEC 60908, "Red Book") MSF time strings, byte counts as
    play time, byte-order swapping and the packed stereo `Sample`.
    `short` and `Q_INT16` are modelled as their 16-bit pattern (`bv16`),
    `Q_INT32` as `bv32`, `unsigned char` as `bv8`. */
module Globals {
  import opened CInt
  import opened Decimal
  import opened QtString
  import opened Wrappers

  /** One second of CD-DA holds 75 frames, one minute 4500. */
  const FRAMES_PER_SECOND: int := 75
  const FRAMES_PER_MINUTE: int := 4500
  /** 44100 stereo samples per second over 75 frames. */
  const SAMPLES_PER_FRAME: int := 588
  /** `sizeof(Sample)`: two 16-bit channels. */
  const SAMPLE_BYTES: int := 4

  /** One stereo sample, each channel stored most significant byte first. */
  class Sample {
    var msbLeft: bv8
    var lsbLeft: bv8
    var msbRight: bv8
    var lsbRight: bv8

    constructor (msbLeft: bv8, lsbLeft: bv8, msbRight: bv8, lsbRight: bv8)
      ensures this.msbLeft == msbLeft && this.lsbLeft == lsbLeft
      ensures this.msbRight == msbRight && this.lsbRight == lsbRight
    {
      this.msbLeft, this.lsbLeft := msbLeft, lsbLeft;
      this.msbRight, this.lsbRight := msbRight, lsbRight;
    }

    /** `short left() const` */
    function Left(): (d: bv16)
      reads this
      ensures d >> 8 == msbLeft as bv16 && d & 0xff == lsbLeft as bv16
    {
      (msbLeft as bv16 << 8) | lsbLeft as bv16
    }

    /** `short right() const` */
    function Right(): (d: bv16)
      reads this
      ensures d >> 8 == msbRight as bv16 && d & 0xff == lsbRight as bv16
    {
      (msbRight as bv16 << 8) | lsbRight as bv16
    }

    /** `void left(short d)`: the high byte of `d` (`d >> 8` narrowed to
        `unsigned char`) and its low byte. */
    method SetLeft(d: bv16)
      modifies this
      ensures Left() == d
      ensures msbRight == old(msbRight) && lsbRight == old(lsbRight)
    {
      msbLeft := (d >> 8) as bv8;
      lsbLeft := (d & 0xff) as bv8;
    }

    /** `void right(short d)` */
    method SetRight(d: bv16)
      modifies this
      ensures Right() == d
      ensures msbLeft == old(msbLeft) && lsbLeft == old(lsbLeft)
    {
      msbRight := (d >> 8) as bv8;
      lsbRight := (d & 0xff) as bv8;
    }
  }

  /** Minutes, seconds and frames of a frame count. */
  datatype Msf = Msf(minutes: int, seconds: int, frames: int)

  /** The three fields `framesToString` computes with C's truncating `/`
      and `%`. For a non-negative count they are its MSF address. */
  function MsfOf(h: int): (t: Msf)
    ensures h >= 0 ==> t.minutes >= 0 && 0 <= t.seconds < 60 && 0 <= t.frames < 75
    ensures h >= 0 ==> t.minutes * FRAMES_PER_MINUTE + t.seconds * FRAMES_PER_SECOND + t.frames == h
  {
    var t := Msf(CDiv(h, FRAMES_PER_MINUTE), CDiv(CRem(h, FRAMES_PER_MINUTE), FRAMES_PER_SECOND),
                 CRem(h, FRAMES_PER_SECOND));
    if h >= 0 then MsfOfNonNegative(h); t else t
  }

  lemma MsfOfNonNegative(h: int)
    requires h >= 0
    ensures var m, r := h / 4500, h % 4500;
            CDiv(h, 4500) == m && CRem(h, 4500) == r &&
            CDiv(r, 75) == r / 75 && CRem(h, 75) == r % 75 && r / 75 < 60 &&
            m * 4500 + (r / 75) * 75 + r % 75 == h
  {
    var m, r := h / 4500, h % 4500;
    CDivNonNegative(h, 4500);
    CDivNonNegative(r, 75);
    CDivNonNegative(h, 75);
    assert h == (m * 60) * 75 + r;
    ModAfterMultiple(m * 60, r);
  }

  lemma ModAfterMultiple(k: int, r: nat)
    requires k >= 0
    ensures (k * 75 + r) % 75 == r % 75
  {
  }

  /** `K3b::framesToString(h, showFrames)`: "mm:ss:ff" or "mm:ss", each
      field printed with `%.2i`. */
  function FramesToString(h: int, showFrames: bool): string {
    var t := MsfOf(h);
    if showFrames then Pad2(t.minutes) + ":" + Pad2(t.seconds) + ":" + Pad2(t.frames)
    else Pad2(t.minutes) + ":" + Pad2(t.seconds)
  }

  /** The colon-separated fields of a time string. */
  function SplitFields(t: string): (fields: seq<string>)
    ensures |fields| >= 1
    decreases |t|
  {
    var i := Find(t, ":", 0);
    if i < 0 then [t] else [t[..i]] + SplitFields(t[i + 1..])
  }

  /** Every field is a non-empty string of digits. */
  predicate NumberFields(fields: seq<string>) {
    forall i :: 0 <= i < |fields| ==> fields[i] != [] && AllDigits(fields[i])
  }

  /** Reads "m:s:f" back into a frame count and "m:s" into a count of whole
      seconds; an independent inverse of `FramesToString`. */
  function ParseTime(t: string): Option<int> {
    ParseFields(SplitFields(t))
  }

  /** The value of the fields of a time string. */
  function ParseFields(fields: seq<string>): Option<int> {
    if !NumberFields(fields) then None
    else if |fields| == 3 then
      Some(ValueOf(fields[0]) * FRAMES_PER_MINUTE + ValueOf(fields[1]) * FRAMES_PER_SECOND + ValueOf(fields[2]))
    else if |fields| == 2 then
      Some(ValueOf(fields[0]) * 60 + ValueOf(fields[1]))
    else None
  }

  lemma SplitDigitsThenColon(a: string, b: string)
    requires AllDigits(a)
    ensures SplitFields(a + ":" + b) == [a] + SplitFields(b)
  {
    var t := a + ":" + b;
    assert OccursAt(t, ":", |a|);
    assert forall k :: 0 <= k < |a| ==> t[k] == a[k] && !OccursAt(t, ":", k);
    assert Find(t, ":", 0) == |a|;
    assert t[..|a|] == a && t[|a| + 1..] == b;
  }

  lemma SplitDigits(a: string)
    requires AllDigits(a)
    ensures SplitFields(a) == [a]
  {
    forall k | 0 <= k < |a|
      ensures !OccursAt(a, ":", k)
    {
      assert a[k..k + 1][0] == a[k];
    }
    assert Find(a, ":", 0) == -1;
  }

  /** Three digit fields read back as minutes, seconds and frames. */
  lemma ParseThreeFields(m: string, s: string, f: string)
    requires |m| >= 1 && |s| >= 1 && |f| >= 1 && AllDigits(m) && AllDigits(s) && AllDigits(f)
    ensures ParseFields([m, s, f]) == Some(ValueOf(m) * FRAMES_PER_MINUTE + ValueOf(s) * FRAMES_PER_SECOND + ValueOf(f))
  {
    var fields := [m, s, f];
    assert NumberFields(fields) by {
      forall i | 0 <= i < 3
        ensures fields[i] != [] && AllDigits(fields[i])
      {
        if i == 0 {} else if i == 1 {} else {}
      }
    }
  }

  /** Two digit fields read back as minutes and seconds. */
  lemma ParseTwoFields(m: string, s: string)
    requires |m| >= 1 && |s| >= 1 && AllDigits(m) && AllDigits(s)
    ensures ParseFields([m, s]) == Some(ValueOf(m) * 60 + ValueOf(s))
  {
    var fields := [m, s];
    assert NumberFields(fields) by {
      forall i | 0 <= i < 2
        ensures fields[i] != [] && AllDigits(fields[i])
      {
        if i == 0 {} else {}
      }
    }
  }

  /** The fields of an MSF string are its three padded numbers. */
  lemma MsfFields(m: string, s: string, f: string)
    requires AllDigits(m) && AllDigits(s) && AllDigits(f)
    ensures SplitFields(m + ":" + s + ":" + f) == [m, s, f]
  {
    assert m + ":" + s + ":" + f == m + ":" + (s + ":" + f);
    SplitDigits(f);
    SplitDigitsThenColon(s, f);
    SplitDigitsThenColon(m, s + ":" + f);
  }

  /** A string of three digit fields reads back as their MSF value. */
  lemma TimeOfThreeFields(t: string, m: string, s: string, f: string)
    requires t == m + ":" + s + ":" + f
    requires |m| >= 1 && |s| >= 1 && |f| >= 1 && AllDigits(m) && AllDigits(s) && AllDigits(f)
    ensures ParseTime(t) == Some(ValueOf(m) * FRAMES_PER_MINUTE + ValueOf(s) * FRAMES_PER_SECOND + ValueOf(f))
  {
    MsfFields(m, s, f);
    ParseThreeFields(m, s, f);
  }

  /** A string of two digit fields reads back as minutes and seconds. */
  lemma TimeOfTwoFields(t: string, m: string, s: string)
    requires t == m + ":" + s
    requires |m| >= 1 && |s| >= 1 && AllDigits(m) && AllDigits(s)
    ensures ParseTime(t) == Some(ValueOf(m) * 60 + ValueOf(s))
  {
    SplitDigits(s);
    SplitDigitsThenColon(m, s);
    assert [m] + [s] == [m, s];
    assert SplitFields(t) == [m, s];
    ParseTwoFields(m, s);
  }

  /** Round trip: the MSF string of a non-negative frame count reads back
      as that count. */
  lemma {:induction false} FramesToStringRoundTrip(h: int)
    requires h >= 0
    ensures ParseTime(FramesToString(h, true)) == Some(h)
  {
    var t := MsfOf(h);
    var m, s, f := Pad2(t.minutes), Pad2(t.seconds), Pad2(t.frames);
    ValueOfPad2(t.minutes);
    ValueOfPad2(t.seconds);
    ValueOfPad2(t.frames);
    TimeOfThreeFields(FramesToString(h, true), m, s, f);
    assert ValueOf(m) == t.minutes && ValueOf(s) == t.seconds && ValueOf(f) == t.frames;
  }

  /** Without frames the string reads back as the whole seconds of `h`. */
  lemma {:induction false} FramesToStringSeconds(h: int)
    requires h >= 0
    ensures ParseTime(FramesToString(h, false)) == Some(h / FRAMES_PER_SECOND)
  {
    var t := MsfOf(h);
    ValueOfPad2(t.minutes);
    ValueOfPad2(t.seconds);
    TimeOfTwoFields(FramesToString(h, false), Pad2(t.minutes), Pad2(t.seconds));
    assert h == (t.minutes * 60 + t.seconds) * 75 + t.frames;
  }

  lemma DivDiv(u: nat)
    ensures u / SAMPLE_BYTES / SAMPLES_PER_FRAME == u / 2352
  {
  }

  /** `K3b::sizeToTime(size)`: the `long` byte count is divided by the
      unsigned `sizeof(Sample)` (so a negative size is first read as an
      unsigned 64-bit value), then by 588 samples per frame, and the
      quotient is stored in an `int`. For every size up to the largest
      frame count an `int` holds, that is the number of whole 2352-byte
      CD-DA frames. */
  function SizeToTime(size: int64): (str: string)
    ensures 0 <= size < 2352 * 0x8000_0000 ==> str == FramesToString(size / 2352, false)
  {
    var u := ToUnsigned64(size);
    var h := ToInt32(u / SAMPLE_BYTES / SAMPLES_PER_FRAME);
    if 0 <= size < 2352 * 0x8000_0000 then
      DivDiv(u);
      FramesToString(h, false)
    else FramesToString(h, false)
  }

  /** C's `>>` on a negative `int`: an arithmetic shift (sign fill). */
  function Sar(w: bv32, n: bv32): bv32
    requires n < 32
  {
    if w & 0x8000_0000 == 0 then w >> n else (w >> n) | !(0xffff_ffff >> n)
  }

  /** Promotion of a `Q_INT16` to `int`. */
  function SignExtend(i: bv16): bv32 {
    if i & 0x8000 == 0 then i as bv32 else i as bv32 | 0xffff_0000
  }

  /** `K3b::swapByteOrder(Q_INT16)`: the two bytes exchanged. */
  function SwapByteOrder16(i: bv16): (r: bv16)
    ensures r & 0xff == i >> 8 && r >> 8 == i & 0xff
  {
    var w := SignExtend(i);
    var high := Sar(w, 8);
    assert high & 0xff == (i >> 8) as bv32;
    assert (w << 8) & 0xff00 == (i & 0xff) as bv32 << 8;
    var v := ((w << 8) & 0xff00) | (high & 0xff);
    (v & 0xffff) as bv16
  }

  /** `K3b::swapByteOrder(Q_INT32)`: the four bytes in reverse order. */
  function SwapByteOrder32(i: bv32): (r: bv32)
    ensures r & 0xff == (i >> 24) & 0xff
    ensures (r >> 8) & 0xff == (i >> 16) & 0xff
    ensures (r >> 16) & 0xff == (i >> 8) & 0xff
    ensures (r >> 24) & 0xff == i & 0xff
  {
    var shifted8, shifted24 := Sar(i, 8), Sar(i, 24);
    assert shifted8 & 0xff00 == (i >> 8) & 0xff00;
    assert shifted24 & 0xff == (i >> 24) & 0xff;
    ((i << 24) & 0xff00_0000) | ((i << 8) & 0xff_0000) | (shifted8 & 0xff00) | (shifted24 & 0xff)
  }

  lemma SwapByteOrder16Involution(i: bv16)
    ensures SwapByteOrder16(SwapByteOrder16(i)) == i
  {
  }

  lemma SwapByteOrder32Involution(i: bv32)
    ensures SwapByteOrder32(SwapByteOrder32(i)) == i
  {
  }
}

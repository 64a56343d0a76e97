/** The Qt 3 `QString` operations the writer's line parser is built from,
    with Qt 3's treatment of out-of-range positions: `mid` takes unsigned
    arguments (a negative position yields the empty string, a negative
    length the rest of the string), `find` counts a negative start from the
    end, and `toInt` reports failure through `ok` and then yields 0.
    Characters are compared as they are. */
module QtString {
  import opened CInt
  import opened Decimal

  /** `QChar::isSpace` restricted to ASCII: blank, tab, LF, VT, FF, CR. */
  predicate IsSpace(c: char) {
    c == ' ' || ('\t' <= c <= '\r')
  }

  predicate AllSpace(s: string) {
    forall i :: 0 <= i < |s| ==> IsSpace(s[i])
  }

  function Lower(c: char): char {
    if 'A' <= c <= 'Z' then (c as int + 32) as char else c
  }

  function LowerString(s: string): (r: string)
    ensures |r| == |s|
  {
    seq(|s|, i requires 0 <= i < |s| => Lower(s[i]))
  }

  /** `QString::startsWith(p)` */
  predicate StartsWith(s: string, p: string) {
    |p| <= |s| && s[..|p|] == p
  }

  predicate OccursAt(s: string, p: string, i: int) {
    0 <= i && i + |p| <= |s| && s[i..i + |p|] == p
  }

  /** `QString::contains(p) > 0`, case-sensitive */
  predicate Contains(s: string, p: string) {
    exists i :: 0 <= i <= |s| - |p| && OccursAt(s, p, i)
  }

  /** `QString::contains(p, false) > 0`, case-insensitive */
  predicate ContainsNoCase(s: string, p: string) {
    Contains(LowerString(s), LowerString(p))
  }

  /** The first occurrence of `p` at or after position `i`, or -1. */
  function FindFrom(s: string, p: string, i: nat): (r: int)
    requires p != []
    ensures r == -1 || (i <= r && OccursAt(s, p, r))
    ensures forall k :: i <= k && (r == -1 || k < r) ==> !OccursAt(s, p, k)
    decreases |s| - i
  {
    if i + |p| > |s| then -1
    else if s[i..i + |p|] == p then i
    else FindFrom(s, p, i + 1)
  }

  /** Where `QString::find` starts: a negative index counts from the end. */
  function StartIndex(s: string, from: int): int {
    if from < 0 then from + |s| else from
  }

  /** `QString::find(p, from)` for a non-empty `p`; a start that is still
      negative after counting from the end finds nothing (the writer only
      passes -1 and above, where this is what Qt 3 does). */
  function Find(s: string, p: string, from: int): (r: int)
    requires p != []
    ensures r == -1 || (StartIndex(s, from) <= r && OccursAt(s, p, r))
    ensures StartIndex(s, from) >= 0 ==>
              forall k :: StartIndex(s, from) <= k && (r == -1 || k < r) ==> !OccursAt(s, p, k)
  {
    var f := StartIndex(s, from);
    if f < 0 then -1 else FindFrom(s, p, f)
  }

  lemma ContainsIffFound(s: string, p: string)
    requires p != []
    ensures Contains(s, p) <==> Find(s, p, 0) >= 0
  {
    if Contains(s, p) {
      var i :| 0 <= i <= |s| - |p| && OccursAt(s, p, i);
      assert Find(s, p, 0) >= 0;
    }
  }

  /** The first position at or after `i` whose character is a digit
      (`digit`) or a non-digit (`!digit`), or -1. */
  function ScanClass(s: string, digit: bool, i: nat): (r: int)
    requires i <= |s|
    ensures r == -1 || (i <= r < |s| && IsDigit(s[r]) == digit)
    ensures forall k :: i <= k < |s| && (r == -1 || k < r) ==> IsDigit(s[k]) != digit
    decreases |s| - i
  {
    if i == |s| then -1
    else if IsDigit(s[i]) == digit then i
    else ScanClass(s, digit, i + 1)
  }

  /** `QString::find(QRegExp("\\d"), from)` (`digit`) and
      `QString::find(QRegExp("\\D"), from)` (`!digit`), after Qt 3's
      `QRegExp::search`: a start past the end finds nothing. */
  function FindClass(s: string, digit: bool, from: int): (r: int)
    ensures r == -1 || (0 <= StartIndex(s, from) <= r < |s| && IsDigit(s[r]) == digit)
  {
    var f := StartIndex(s, from);
    if f < 0 || f > |s| then -1 else ScanClass(s, digit, f)
  }

  /** The last position at or before `i` whose character is of the class. */
  function ScanClassBack(s: string, digit: bool, i: int): (r: int)
    requires i <= |s|
    ensures r == -1 || (0 <= r <= i && r < |s| && IsDigit(s[r]) == digit)
    ensures forall k :: r < k <= i && k < |s| ==> IsDigit(s[k]) != digit
    decreases i + 1
  {
    if i < 0 then -1
    else if i < |s| && IsDigit(s[i]) == digit then i
    else ScanClassBack(s, digit, i - 1)
  }

  /** `QString::findRev(QRegExp(...), from)`, after `QRegExp::searchRev`. */
  function FindClassRev(s: string, digit: bool, from: int): (r: int)
    ensures r == -1 || (0 <= r < |s| && IsDigit(s[r]) == digit)
  {
    var f := StartIndex(s, from);
    if f < 0 || f > |s| then -1 else ScanClassBack(s, digit, f)
  }

  /** `QString::mid(index, len)`. Both arguments are unsigned in Qt 3, so a
      negative `index` is out of range and a negative `len` means "to the
      end". */
  function Mid(s: string, index: int, len: int): (r: string)
    ensures index < 0 || index >= |s| ==> r == []
    ensures 0 <= index < |s| ==>
              r == s[index..if len < 0 || index + len > |s| then |s| else index + len]
  {
    if index < 0 || index >= |s| then []
    else if len < 0 || index + len > |s| then s[index..]
    else s[index..index + len]
  }

  function StripLeading(s: string): (r: string)
    ensures r == [] || !IsSpace(r[0])
    decreases |s|
  {
    if s != [] && IsSpace(s[0]) then StripLeading(s[1..]) else s
  }

  function StripTrailing(s: string): (r: string)
    ensures r == [] || !IsSpace(r[|r| - 1])
    decreases |s|
  {
    if s != [] && IsSpace(s[|s| - 1]) then StripTrailing(s[..|s| - 1]) else s
  }

  /** The result of `QString::toInt(&ok)`. */
  datatype Conversion = Conversion(value: int, ok: bool)

  /** `QString::toInt(&ok)`: optional white space, an optional sign, at
      least one digit, optional white space, and a value that fits in an
      `int`; anything else is not ok and converts to 0. */
  function ToInt(s: string): (r: Conversion)
    ensures r.ok ==> InInt32(r.value)
    ensures !r.ok ==> r.value == 0
    ensures r.ok ==> exists i :: 0 <= i < |s| && IsDigit(s[i])
  {
    var body := StripTrailing(StripLeading(s));
    var signed := body != [] && (body[0] == '-' || body[0] == '+');
    var digits := if signed then body[1..] else body;
    if digits == [] || !AllDigits(digits) then Conversion(0, false)
    else
      var v: int := if signed && body[0] == '-' then -(ValueOf(digits) as int) else ValueOf(digits);
      if InInt32(v) then
        assert IsDigit(digits[0]);
        StrippedDigit(s, body, if signed then 1 else 0);
        Conversion(v, true)
      else Conversion(0, false)
  }

  lemma StrippedDigit(s: string, body: string, j: nat)
    requires body == StripTrailing(StripLeading(s))
    requires j < |body| && IsDigit(body[j])
    ensures exists i :: 0 <= i < |s| && IsDigit(s[i])
  {
    StripLeadingIsInfix(s);
    StripTrailingIsPrefix(StripLeading(s));
    var t := StripLeading(s);
    var k :| 0 <= k <= |s| && t == s[k..];
    assert body == t[..|body|];
    assert s[k + j] == body[j];
  }

  lemma {:induction false} StripLeadingIsInfix(s: string)
    ensures exists k :: 0 <= k <= |s| && StripLeading(s) == s[k..]
    decreases |s|
  {
    if s != [] && IsSpace(s[0]) {
      StripLeadingIsInfix(s[1..]);
      var k :| 0 <= k <= |s[1..]| && StripLeading(s[1..]) == s[1..][k..];
      assert StripLeading(s) == s[k + 1..];
    } else {
      assert StripLeading(s) == s[0..];
    }
  }

  lemma {:induction false} StripTrailingIsPrefix(s: string)
    ensures |StripTrailing(s)| <= |s| && StripTrailing(s) == s[..|StripTrailing(s)|]
    decreases |s|
  {
    if s != [] && IsSpace(s[|s| - 1]) {
      StripTrailingIsPrefix(s[..|s| - 1]);
    }
  }

  lemma {:induction false} StripLeadingSpaces(a: string, x: string)
    requires AllSpace(a)
    requires x == [] || !IsSpace(x[0])
    ensures StripLeading(a + x) == x
    decreases |a|
  {
    if a == [] {
      assert a + x == x;
    } else {
      assert (a + x)[1..] == a[1..] + x;
      StripLeadingSpaces(a[1..], x);
    }
  }

  lemma {:induction false} StripTrailingSpaces(x: string, b: string)
    requires AllSpace(b)
    requires x == [] || !IsSpace(x[|x| - 1])
    ensures StripTrailing(x + b) == x
    decreases |b|
  {
    if b == [] {
      assert x + b == x;
    } else {
      assert (x + b)[..|x + b| - 1] == x + b[..|b| - 1];
      StripTrailingSpaces(x, b[..|b| - 1]);
    }
  }

  /** Round trip: a number printed by `QString::arg` and surrounded by white
      space converts back to itself. */
  lemma ToIntOfPrinted(a: string, n: int, b: string)
    requires AllSpace(a) && AllSpace(b) && InInt32(n)
    ensures ToInt(a + IntToString(n) + b) == Conversion(n, true)
  {
    var t := IntToString(n);
    var d := NatToString(Abs(n));
    assert !IsSpace(t[0]) && !IsSpace(t[|t| - 1]);
    StripLeadingSpaces(a, t + b);
    assert a + t + b == a + (t + b);
    StripTrailingSpaces(t, b);
    ValueOfNatToString(Abs(n));
    if n < 0 {
      assert t[1..] == d;
    } else {
      assert t == d;
    }
  }
}

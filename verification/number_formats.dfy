/** The number format accepted by the Qt processors: a printf conversion
    `%[+- 0#]*[0-9]*([.][0-9]+)?[efEF]` matched in full, stored in a fixed
    10-byte C string buffer. */
module NumberFormats {

  /** Size of the static `char numberFormat[10]` buffer, terminator included. */
  const FormatCapacity: nat := 10

  /** The format shown before any change: "%8.1f ms". */
  const DefaultNumberFormat: string := "%8.1f ms"

  /** The character classes of the pattern. The flag class is read as the
      set {'+', '-', ' ', '0', '#'}. */
  predicate IsFlag(c: char) { c == '+' || c == '-' || c == ' ' || c == '0' || c == '#' }
  predicate IsDigit(c: char) { '0' <= c <= '9' }
  predicate IsConversion(c: char) { c == 'e' || c == 'f' || c == 'E' || c == 'F' }

  /** `s` splits as "%" + flags s[1..i] + width s[i..j] + precision
      s[j..|s|-1] + one conversion character, the precision being empty or
      a dot followed by at least one digit. */
  ghost predicate SplitsAsFormat(s: string, i: int, j: int)
  {
    && 1 <= i <= j < |s|
    && s[0] == '%'
    && (forall k :: 1 <= k < i ==> IsFlag(s[k]))
    && (forall k :: i <= k < j ==> IsDigit(s[k]))
    && (j == |s| - 1 || (j + 2 <= |s| - 1 && s[j] == '.' && forall k :: j < k < |s| - 1 ==> IsDigit(s[k])))
    && IsConversion(s[|s| - 1])
  }

  /** The whole of `s` matches the pattern. */
  ghost predicate IsNumberFormat(s: string)
  {
    exists i, j :: SplitsAsFormat(s, i, j)
  }

  /** The end of the longest run of characters of class `p` starting at `i`. */
  function SpanEnd(s: string, i: nat, p: char -> bool): (e: nat)
    requires i <= |s|
    ensures i <= e <= |s|
    ensures forall k :: i <= k < e ==> p(s[k])
    ensures e < |s| ==> !p(s[e])
    decreases |s| - i
  {
    if i < |s| && p(s[i]) then SpanEnd(s, i + 1, p) else i
  }

  /** A left-to-right recogniser for the pattern: longest run of flags, then
      of width digits, then an optional precision, then exactly one
      conversion character at the end. */
  function AcceptsNumberFormat(s: string): (ok: bool)
  {
    if |s| < 2 || s[0] != '%' then false
    else
      var i := SpanEnd(s, 1, IsFlag);
      var j := SpanEnd(s, i, IsDigit);
      var k := if j < |s| && s[j] == '.' then SpanEnd(s, j + 1, IsDigit) else j;
      (k == j || j + 1 < k) && k == |s| - 1 && IsConversion(s[k])
  }

  /** The recogniser accepts exactly the strings matching the pattern in full. */
  lemma AcceptsNumberFormatIff(s: string)
    ensures AcceptsNumberFormat(s) <==> IsNumberFormat(s)
  {
    if AcceptsNumberFormat(s) {
      var i := SpanEnd(s, 1, IsFlag);
      var j := SpanEnd(s, i, IsDigit);
      assert SplitsAsFormat(s, i, j);
    }
    if IsNumberFormat(s) {
      var i', j' :| SplitsAsFormat(s, i', j');
      assert !IsFlag(s[j']) && !IsDigit(s[j']);
      var i := SpanEnd(s, 1, IsFlag);
      assert i' <= i <= j';
      var j := SpanEnd(s, i, IsDigit);
      assert j == j';
      if j' < |s| - 1 {
        var k := SpanEnd(s, j + 1, IsDigit);
        assert k == |s| - 1;
      }
    }
  }

  /** A format made of pattern characters holds no NUL. */
  predicate NoNul(s: string)
  {
    forall k :: 0 <= k < |s| ==> s[k] != '\0'
  }

  lemma AcceptedFormatHasNoNul(s: string)
    requires AcceptsNumberFormat(s)
    ensures NoNul(s)
  {
    AcceptsNumberFormatIff(s);
    var i, j :| SplitsAsFormat(s, i, j);
  }

  /** setNumberFormat's test, corrected: the pattern matches and the format
      fits in the buffer with its terminator (strlen < 10). */
  predicate FormatAccepted(f: string)
  {
    AcceptsNumberFormat(f) && |f| < FormatCapacity
  }

  /** An accepted format can be copied with its terminator into the buffer. */
  lemma AcceptedFormatFits(f: string)
    requires FormatAccepted(f)
    ensures |f| + 1 <= FormatCapacity && NoNul(f)
  {
    AcceptedFormatHasNoNul(f);
  }

  /** setNumberFormat's test as written: the pattern matches and
      strlen(format) <= 10. */
  predicate FormatAcceptedAsWritten(f: string)
  {
    AcceptsNumberFormat(f) && |f| <= 10
  }

  /** The test as written lets through a ten-character format, whose copy
      with its terminator needs eleven bytes in the ten-byte buffer. */
  lemma AsWrittenTestOverflowsBuffer()
    ensures FormatAcceptedAsWritten("%000000.1f")
    ensures |"%000000.1f"| + 1 > FormatCapacity
    ensures !FormatAccepted("%000000.1f")
  {
    var f := "%000000.1f";
    assert SplitsAsFormat(f, 7, 7);
    AcceptsNumberFormatIff(f);
  }

  /** The initial format does not itself match the pattern (it ends in
      " ms"), so setting it back is refused. */
  lemma DefaultFormatIsRefused()
    ensures !FormatAccepted(DefaultNumberFormat)
  {
    AcceptsNumberFormatIff(DefaultNumberFormat);
  }

  /** The C string held by a buffer: the characters before the first NUL. */
  function CString(buf: seq<char>): (r: string)
    ensures |r| <= |buf| && NoNul(r)
    ensures forall k :: 0 <= k < |r| ==> r[k] == buf[k]
    ensures |r| < |buf| ==> buf[|r|] == '\0'
  {
    if buf == [] || buf[0] == '\0' then [] else [buf[0]] + CString(buf[1..])
  }

  /** Copying `f` and its terminator to the front of a buffer makes `f` the
      buffer's C string, whatever follows. */
  lemma {:induction false} CStringOfCopy(f: string, rest: seq<char>)
    requires NoNul(f)
    ensures CString(f + ['\0'] + rest) == f
    decreases |f|
  {
    if f != [] {
      assert (f + ['\0'] + rest)[1..] == f[1..] + ['\0'] + rest;
      CStringOfCopy(f[1..], rest);
    }
  }
}

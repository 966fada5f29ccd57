/**
 * String helpers the command line and the web front end rely on: Python's
 * `str.strip()` with no argument, `sep.join(parts)` and `str(n)` for a
 * natural number. Strings are sequences of Unicode code points.
 */
module Text {

  /** Python's `str.isspace()` for one character: the code points CPython
      classifies as whitespace (bidirectional class WS, B or S, or category Zs). */
  predicate IsSpace(c: char) {
    var n := c as int;
    (9 <= n <= 13) || (28 <= n <= 32) || n == 0x85 || n == 0xA0 || n == 0x1680
    || (0x2000 <= n <= 0x200A) || n == 0x2028 || n == 0x2029 || n == 0x202F
    || n == 0x205F || n == 0x3000
  }

  ghost predicate AllSpace(s: string) {
    forall i :: 0 <= i < |s| ==> IsSpace(s[i])
  }

  /** A string that `strip()` leaves alone: empty, or starting and ending with a non-space. */
  ghost predicate Trimmed(s: string) {
    s == [] || (!IsSpace(s[0]) && !IsSpace(s[|s| - 1]))
  }

  /** Number of leading whitespace characters of `s`. */
  function LeadingSpaces(s: string): (k: nat)
    ensures k <= |s|
    ensures forall i :: 0 <= i < k ==> IsSpace(s[i])
    ensures k < |s| ==> !IsSpace(s[k])
  {
    if |s| == 0 || !IsSpace(s[0]) then 0 else 1 + LeadingSpaces(s[1..])
  }

  /** End of `s` once its trailing whitespace is cut off. */
  function TrailingStart(s: string): (j: nat)
    ensures j <= |s|
    ensures forall i :: j <= i < |s| ==> IsSpace(s[i])
    ensures 0 < j ==> !IsSpace(s[j - 1])
  {
    if |s| == 0 || !IsSpace(s[|s| - 1]) then |s| else TrailingStart(s[..|s| - 1])
  }

  /** Python's `s.strip()`: `s` without its leading and trailing whitespace. */
  function Strip(s: string): (r: string)
    ensures Trimmed(r)
    ensures r == [] <==> AllSpace(s)
    ensures |r| <= |s|
  {
    var t := s[LeadingSpaces(s)..];
    t[..TrailingStart(t)]
  }

  /** `Strip` cuts exactly the whitespace around the first and last
      non-space character: it is determined by any split of `s` into a
      whitespace prefix, a trimmed middle and a whitespace suffix. */
  lemma {:induction false} StripOfPadded(pre: string, mid: string, post: string)
    requires AllSpace(pre) && AllSpace(post) && Trimmed(mid)
    ensures Strip(pre + mid + post) == mid
  {
    var s := pre + mid + post;
    if mid == [] {
      assert AllSpace(s) by {
        forall i | 0 <= i < |s| ensures IsSpace(s[i]) {
          if i < |pre| { assert s[i] == pre[i]; } else { assert s[i] == post[i - |pre|]; }
        }
      }
    } else {
      var k := LeadingSpaces(s);
      assert s[|pre|] == mid[0];
      assert k == |pre|;
      var t := s[k..];
      assert t == mid + post;
      var j := TrailingStart(t);
      assert t[|mid| - 1] == mid[|mid| - 1];
      assert j == |mid|;
      assert t[..j] == mid;
    }
  }

  /** The result is a slice of the input with only whitespace cut away on either side. */
  lemma StripIsTrimmedSlice(s: string)
    ensures exists i, j :: 0 <= i <= j <= |s| && Strip(s) == s[i..j]
                        && AllSpace(s[..i]) && AllSpace(s[j..])
  {
    var k := LeadingSpaces(s);
    var t := s[k..];
    var j := TrailingStart(t);
    assert Strip(s) == s[k..k + j];
    assert AllSpace(s[..k]);
    assert s[k + j..] == t[j..];
    assert AllSpace(s[k + j..]);
  }

  /** Stripping twice is stripping once. */
  lemma StripIdempotent(s: string)
    ensures Strip(Strip(s)) == Strip(s)
  {
    StripOfPadded([], Strip(s), []);
    assert [] + Strip(s) + [] == Strip(s);
  }

  /** Sum of the lengths of `parts`. */
  function TotalLength(parts: seq<string>): nat {
    if parts == [] then 0 else |parts[0]| + TotalLength(parts[1..])
  }

  /** Python's `sep.join(parts)`. */
  function Join(parts: seq<string>, sep: string): string {
    if |parts| == 0 then "" else if |parts| == 1 then parts[0]
    else parts[0] + sep + Join(parts[1..], sep)
  }

  /** Joining loses no text: the parts' lengths plus one separator between neighbours. */
  lemma {:induction false} JoinLength(parts: seq<string>, sep: string)
    ensures |Join(parts, sep)| == TotalLength(parts) + (if parts == [] then 0 else (|parts| - 1) * |sep|)
  {
    if |parts| > 1 {
      JoinLength(parts[1..], sep);
    }
  }

  /** Joining splits at any inner boundary: the parts before it, the
      separator, then the parts after it. */
  lemma {:induction false} JoinSplitAt(parts: seq<string>, sep: string, k: nat)
    requires 0 < k < |parts|
    ensures Join(parts, sep) == Join(parts[..k], sep) + sep + Join(parts[k..], sep)
  {
    if k == 1 {
      assert parts[..1] == [parts[0]];
      assert parts[1..] == parts[k..];
    } else {
      var tail := parts[1..];
      JoinSplitAt(tail, sep, k - 1);
      assert tail[..k - 1] == parts[1..k];
      assert tail[k - 1..] == parts[k..];
      assert parts[..k][1..] == parts[1..k];
      assert |parts[..k]| >= 2;
    }
  }

  /** Appending a part to a non-empty list appends the separator and the part. */
  lemma JoinAppend(parts: seq<string>, sep: string, p: string)
    requires parts != []
    ensures Join(parts + [p], sep) == Join(parts, sep) + sep + p
  {
    var all := parts + [p];
    JoinSplitAt(all, sep, |parts|);
    assert all[..|parts|] == parts;
    assert all[|parts|..] == [p];
  }

  /** Every part appears in the joined string, in its position: after the
      earlier parts and a separator, before a separator and the later parts. */
  lemma JoinPieceAt(parts: seq<string>, sep: string, i: nat)
    requires i < |parts|
    ensures Join(parts, sep) ==
              (if i == 0 then "" else Join(parts[..i], sep) + sep)
              + parts[i]
              + (if i == |parts| - 1 then "" else sep + Join(parts[i + 1..], sep))
  {
    var rest := parts[i..];
    assert rest[0] == parts[i];
    assert rest[1..] == parts[i + 1..];
    if i > 0 {
      JoinSplitAt(parts, sep, i);
    }
    if i < |parts| - 1 {
      assert Join(rest, sep) == parts[i] + sep + Join(parts[i + 1..], sep);
    } else {
      assert rest == [parts[i]];
    }
  }

  /** The character Python's `str` writes for the digit `d`. */
  function DigitChar(d: nat): (c: char)
    requires d < 10
    ensures '0' <= c <= '9' && (c as int) - ('0' as int) == d
  {
    ('0' as int + d) as char
  }

  /** Python's `str(n)` for a natural number: its decimal digits, no leading zero. */
  function Decimal(n: nat): (r: string)
    ensures 1 <= |r|
    ensures forall i :: 0 <= i < |r| ==> '0' <= r[i] <= '9'
    ensures r[0] == '0' ==> n == 0
  {
    if n < 10 then [DigitChar(n)] else Decimal(n / 10) + [DigitChar(n % 10)]
  }

  /** The number a string of decimal digits denotes. */
  function DecimalValue(s: string): nat
    requires forall i :: 0 <= i < |s| ==> '0' <= s[i] <= '9'
  {
    if s == [] then 0
    else 10 * DecimalValue(s[..|s| - 1]) + ((s[|s| - 1] as int) - ('0' as int))
  }

  /** Reading back the digits `Decimal` writes gives the number. */
  lemma {:induction false} DecimalRoundTrip(n: nat)
    ensures DecimalValue(Decimal(n)) == n
  {
    var r := Decimal(n);
    if n >= 10 {
      DecimalRoundTrip(n / 10);
      assert r[..|r| - 1] == Decimal(n / 10);
    } else {
      assert r[..|r| - 1] == [];
    }
  }
}

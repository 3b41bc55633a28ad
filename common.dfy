/** Small shared vocabulary: bytes, optional values, byte-string helpers and
    the character-level string tests the Python code relies on. */
module Common {

  newtype byte = x: int | 0 <= x < 256

  /** The contents of a file or of a captured audio buffer. */
  type Bytes = seq<byte>

  /** The files the code reads and writes, by path. */
  type FileSystem = map<string, Bytes>

  datatype Option<+T> = None | Some(value: T)

  /** Concatenation of a list of byte strings, in list order. */
  function Flatten(parts: seq<Bytes>): (r: Bytes)
  {
    if parts == [] then [] else Flatten(parts[..|parts| - 1]) + parts[|parts| - 1]
  }

  lemma {:induction false} FlattenAppend(parts: seq<Bytes>, more: seq<Bytes>)
    ensures Flatten(parts + more) == Flatten(parts) + Flatten(more)
  {
    if more == [] {
      assert parts + more == parts;
    } else {
      var last := more[|more| - 1];
      assert (parts + more)[..|parts + more| - 1] == parts + more[..|more| - 1];
      FlattenAppend(parts, more[..|more| - 1]);
    }
  }

  lemma FlattenCons(x: Bytes, rest: seq<Bytes>)
    ensures Flatten([x] + rest) == x + Flatten(rest)
  {
    FlattenAppend([x], rest);
    assert [x][..0] == [];
  }

  /** Python truthiness of an optional string: present and not empty. */
  predicate Truthy(s: Option<string>)
  {
    s.Some? && s.value != ""
  }

  /** The characters Python's str.strip() removes (ASCII subset). */
  predicate IsSpace(c: char)
  {
    c == ' ' || c == '\t' || c == '\n' || c == '\r' || c == '\U{B}' || c == '\U{C}'
  }

  /** `s.strip()` is the empty string, i.e. `s.strip()` is falsy. */
  predicate IsBlank(s: string)
  {
    forall i :: 0 <= i < |s| ==> IsSpace(s[i])
  }

  /** The first position from `from` on that does not hold whitespace. */
  function SpaceEnd(s: string, from: nat): (n: nat)
    requires from <= |s|
    ensures from <= n <= |s|
    ensures forall k :: from <= k < n ==> IsSpace(s[k])
    ensures n < |s| ==> !IsSpace(s[n])
    decreases |s| - from
  {
    if from < |s| && IsSpace(s[from]) then SpaceEnd(s, from + 1) else from
  }

  /** The start of the whitespace that `s[lo..hi]` ends with. */
  function SpaceStart(s: string, lo: nat, hi: nat): (n: nat)
    requires lo <= hi <= |s|
    ensures lo <= n <= hi
    ensures forall k :: n <= k < hi ==> IsSpace(s[k])
    ensures n > lo ==> !IsSpace(s[n - 1])
    decreases hi - lo
  {
    if hi > lo && IsSpace(s[hi - 1]) then SpaceStart(s, lo, hi - 1) else hi
  }

  /** `s.strip()`: `s` without its leading and trailing whitespace. */
  function Strip(s: string): (r: string)
    ensures r == "" <==> IsBlank(s)
    ensures r != "" ==> !IsSpace(r[0]) && !IsSpace(r[|r| - 1])
  {
    var a := SpaceEnd(s, 0);
    s[a..SpaceStart(s, a, |s|)]
  }

  /** What `strip()` removes is whitespace, on both sides of a slice of the
      input. */
  lemma StripIsInfix(s: string)
    ensures exists i :: 0 <= i <= |s| - |Strip(s)| && Strip(s) == s[i..i + |Strip(s)|]
                        && IsBlank(s[..i]) && IsBlank(s[i + |Strip(s)|..])
  {
    var a := SpaceEnd(s, 0);
    var b := SpaceStart(s, a, |s|);
    assert Strip(s) == s[a..b];
    assert IsBlank(s[..a]) by {
      forall k | 0 <= k < a
        ensures IsSpace(s[..a][k])
      {
        assert s[..a][k] == s[k];
      }
    }
    assert IsBlank(s[b..]) by {
      forall k | 0 <= k < |s| - b
        ensures IsSpace(s[b..][k])
      {
        assert s[b..][k] == s[b + k];
      }
    }
  }

  /** `sub` occurs in `s` starting at position `k`. */
  predicate OccursAt(s: string, sub: string, k: int)
  {
    0 <= k <= |s| - |sub| && s[k..k + |sub|] == sub
  }

  /** Python's `sub in s` on strings. */
  ghost predicate Contains(s: string, sub: string)
  {
    exists k :: OccursAt(s, sub, k)
  }

  /** A decision procedure for `Contains`, scanning from position `from`. */
  function ContainsFrom(s: string, sub: string, from: nat): (r: bool)
    requires from <= |s|
    ensures r <==> exists k :: from <= k && OccursAt(s, sub, k)
    decreases |s| - from
  {
    if from + |sub| > |s| then false
    else if OccursAt(s, sub, from) then true
    else ContainsFrom(s, sub, from + 1)
  }

  predicate IsDigitChar(c: char)
  {
    '0' <= c <= '9'
  }

  function DigitChar(d: nat): (c: char)
    requires d < 10
    ensures IsDigitChar(c) && c as int - '0' as int == d
  {
    (d + '0' as int) as char
  }

  function DigitValue(c: char): (d: nat)
    requires IsDigitChar(c)
    ensures d < 10 && DigitChar(d) == c
  {
    (c as int - '0' as int) as nat
  }

  /** Python's `str(n)` for a non-negative integer. */
  function DecimalString(n: nat): (s: string)
    decreases n
  {
    if n < 10 then [DigitChar(n)] else DecimalString(n / 10) + [DigitChar(n % 10)]
  }

  /** The value `int(s)` of a string of decimal digits (leading zeros allowed). */
  function DigitsValue(s: string): (v: nat)
    requires forall i :: 0 <= i < |s| ==> IsDigitChar(s[i])
  {
    if s == [] then 0 else DigitsValue(s[..|s| - 1]) * 10 + DigitValue(s[|s| - 1])
  }

  lemma {:induction false} DecimalStringRoundTrip(n: nat)
    ensures |DecimalString(n)| >= 1
    ensures forall i :: 0 <= i < |DecimalString(n)| ==> IsDigitChar(DecimalString(n)[i])
    ensures DigitsValue(DecimalString(n)) == n
    decreases n
  {
    var s := DecimalString(n);
    if n < 10 {
      assert s[..0] == [];
    } else {
      var p := DecimalString(n / 10);
      DecimalStringRoundTrip(n / 10);
      assert s == p + [DigitChar(n % 10)];
      assert s[..|s| - 1] == p;
      assert DigitsValue(s) == DigitsValue(p) * 10 + n % 10;
    }
  }
}

/** Paths of the temporary files of one stream task: `os.path.join`, the
    directory listing test, and the two file-name schemes of the stream
    module (`generate_segment_filename` and the combined-chunk name). */
module Naming {
  import opened Common

  /** What `os.path.join(dir, name)` puts in front of a relative `name`. */
  function DirPrefix(dir: string): string
  {
    if dir == [] || dir[|dir| - 1] == '/' then dir else dir + "/"
  }

  /** `os.path.join(dir, name)` for POSIX paths. */
  function PathJoin(dir: string, name: string): string
  {
    if |name| > 0 && name[0] == '/' then name else DirPrefix(dir) + name
  }

  /** `path` names an entry directly inside `dir`, i.e. one that
      `os.listdir(dir)` returns. */
  predicate InDir(path: string, dir: string)
  {
    var pre := DirPrefix(dir);
    |pre| < |path| && path[..|pre|] == pre && forall i :: |pre| <= i < |path| ==> path[i] != '/'
  }

  predicate AllDigits(s: string)
  {
    forall i :: 0 <= i < |s| ==> IsDigitChar(s[i])
  }

  /** Python's `f"{n:05d}"` for a non-negative `n`. */
  function ZeroPad5(n: nat): string
  {
    var d := DecimalString(n);
    if |d| < 5 then seq(5 - |d|, _ => '0') + d else d
  }

  /** What follows the task id in a segment file name:
      `f"_{counter:05d}_{url_hash}.ts"`. */
  function SegmentSuffix(urlHash: string, counter: nat): string
  {
    "_" + (ZeroPad5(counter) + HashSuffix(urlHash))
  }

  function HashSuffix(urlHash: string): string
  {
    "_" + (urlHash + ".ts")
  }

  /** `generate_segment_filename(url, counter, task_id)`, where `urlHash`
      stands for `hashlib.md5(url.encode()).hexdigest()`. */
  function SegmentFileName(dir: string, taskId: string, urlHash: string, counter: nat): string
  {
    PathJoin(dir, taskId + SegmentSuffix(urlHash, counter))
  }

  /** What follows the task id in a chunk file name: `f"_combined_{counter}.ts"`. */
  function CombinedSuffix(counter: nat): string
  {
    "_combined_" + (DecimalString(counter) + ".ts")
  }

  /** The chunk path `os.path.join(temp_dir, f"{task_id}_combined_{counter}.ts")`. */
  function CombinedFileName(dir: string, taskId: string, counter: nat): string
  {
    PathJoin(dir, taskId + CombinedSuffix(counter))
  }

  lemma {:induction false} ZerosValue(z: string)
    requires forall i :: 0 <= i < |z| ==> z[i] == '0'
    ensures AllDigits(z) && DigitsValue(z) == 0
  {
    if z != [] {
      ZerosValue(z[..|z| - 1]);
    }
  }

  lemma {:induction false} LeadingZerosValue(z: string, s: string)
    requires forall i :: 0 <= i < |z| ==> z[i] == '0'
    requires AllDigits(s)
    ensures AllDigits(z + s) && DigitsValue(z + s) == DigitsValue(s)
  {
    if s == [] {
      assert z + s == z;
      ZerosValue(z);
    } else {
      var t := z + s;
      assert t[..|t| - 1] == z + s[..|s| - 1];
      LeadingZerosValue(z, s[..|s| - 1]);
    }
  }

  /** The padded counter is a string of at least five digits whose value is
      the counter, so it determines the counter. */
  lemma ZeroPad5Value(n: nat)
    ensures |ZeroPad5(n)| >= 5 && AllDigits(ZeroPad5(n))
    ensures DigitsValue(ZeroPad5(n)) == n
  {
    var d := DecimalString(n);
    DecimalStringRoundTrip(n);
    if |d| < 5 {
      LeadingZerosValue(seq(5 - |d|, _ => '0'), d);
    }
  }

  /** The length of the run of digits that `s` starts with. */
  function DigitRun(s: string): nat
  {
    if s == [] || !IsDigitChar(s[0]) then 0 else 1 + DigitRun(s[1..])
  }

  lemma {:induction false} DigitRunOf(a: string, r: string)
    requires AllDigits(a) && |r| > 0 && !IsDigitChar(r[0])
    ensures DigitRun(a + r) == |a|
  {
    if a == [] {
      assert a + r == r;
    } else {
      assert (a + r)[1..] == a[1..] + r;
      DigitRunOf(a[1..], r);
    }
  }

  /** A run of digits followed by '_' can be split off uniquely. */
  lemma DigitsThenUnderscore(a: string, r1: string, b: string, r2: string)
    requires AllDigits(a) && AllDigits(b)
    requires |r1| > 0 && r1[0] == '_' && |r2| > 0 && r2[0] == '_'
    requires a + r1 == b + r2
    ensures a == b && r1 == r2
  {
    DigitRunOf(a, r1);
    DigitRunOf(b, r2);
    assert |a| == |b|;
    {
      assert a == (a + r1)[..|a|];
      assert b == (b + r2)[..|b|];
      assert r1 == (a + r1)[|a|..];
      assert r2 == (b + r2)[|b|..];
    }
  }

  lemma JoinSamePrefix(dir: string, taskId: string, x: string, y: string)
    requires |x| > 0 && |y| > 0 && x[0] == y[0]
    ensures PathJoin(dir, taskId + x) == PathJoin(dir, taskId + y) <==> x == y
  {
    var t := taskId + x;
    var u := taskId + y;
    assert |t| > 0 && |u| > 0 && t[0] == u[0] by {
      if |taskId| > 0 {
        assert t[0] == taskId[0] == u[0];
      } else {
        assert t == x && u == y;
      }
    }
    if PathJoin(dir, t) == PathJoin(dir, u) {
      if t[0] != '/' {
        var pre := DirPrefix(dir);
        assert t == (pre + t)[|pre|..];
        assert u == (pre + u)[|pre|..];
      }
      assert x == t[|taskId|..];
      assert y == u[|taskId|..];
    }
  }

  /** Two segment paths of one task coincide only when they carry the same
      counter and the same URL hash: counters are never reused, so segment
      files never collide. */
  lemma SegmentFileNameInjective(dir: string, taskId: string, h1: string, c1: nat, h2: string, c2: nat)
    requires SegmentFileName(dir, taskId, h1, c1) == SegmentFileName(dir, taskId, h2, c2)
    ensures c1 == c2 && h1 == h2
  {
    JoinSamePrefix(dir, taskId, SegmentSuffix(h1, c1), SegmentSuffix(h2, c2));
    SegmentSuffixInjective(h1, c1, h2, c2);
  }

  lemma SegmentSuffixInjective(h1: string, c1: nat, h2: string, c2: nat)
    requires SegmentSuffix(h1, c1) == SegmentSuffix(h2, c2)
    ensures c1 == c2 && h1 == h2
  {
    var z1, z2 := ZeroPad5(c1), ZeroPad5(c2);
    var r1, r2 := HashSuffix(h1), HashSuffix(h2);
    assert z1 + r1 == SegmentSuffix(h1, c1)[1..];
    assert z2 + r2 == SegmentSuffix(h2, c2)[1..];
    ZeroPad5Value(c1);
    ZeroPad5Value(c2);
    DigitsThenUnderscore(z1, r1, z2, r2);
    assert h1 == r1[1..|r1| - 3];
    assert h2 == r2[1..|r2| - 3];
  }

  /** A chunk path is never a segment path of the same task. */
  lemma SegmentIsNotCombined(dir: string, taskId: string, h: string, c1: nat, c2: nat)
    ensures SegmentFileName(dir, taskId, h, c1) != CombinedFileName(dir, taskId, c2)
  {
    var x, y := SegmentSuffix(h, c1), CombinedSuffix(c2);
    var z := ZeroPad5(c1);
    ZeroPad5Value(c1);
    assert x == "_" + (z + HashSuffix(h));
    assert x[1] == z[0] && IsDigitChar(x[1]);
    assert y[1] == 'c';
    JoinSamePrefix(dir, taskId, x, y);
  }

  /** Chunk paths of one task are distinct for distinct counters. */
  lemma CombinedFileNameInjective(dir: string, taskId: string, c1: nat, c2: nat)
    requires CombinedFileName(dir, taskId, c1) == CombinedFileName(dir, taskId, c2)
    ensures c1 == c2
  {
    var x, y := CombinedSuffix(c1), CombinedSuffix(c2);
    JoinSamePrefix(dir, taskId, x, y);
    assert DecimalString(c1) == x[10..|x| - 3];
    assert DecimalString(c2) == y[10..|y| - 3];
    DecimalStringRoundTrip(c1);
    DecimalStringRoundTrip(c2);
  }

  /** A name without '/' joined to `dir` is listed by `os.listdir(dir)`. */
  lemma JoinedIsInDir(dir: string, name: string)
    requires |name| > 0 && '/' !in name
    ensures InDir(PathJoin(dir, name), dir)
  {
    assert name[0] in name;
    var p := PathJoin(dir, name);
    assert p == DirPrefix(dir) + name;
    forall i | |DirPrefix(dir)| <= i < |p|
      ensures p[i] != '/'
    {
      assert p[i] == name[i - |DirPrefix(dir)|];
      assert name[i - |DirPrefix(dir)|] in name;
    }
  }

  lemma DecimalHasNoSlash(n: nat)
    ensures '/' !in DecimalString(n)
  {
    DecimalStringRoundTrip(n);
  }

  /** Segment files of a task whose id and URL hash contain no '/' live
      directly in the temporary directory. */
  lemma SegmentFileInDir(dir: string, taskId: string, h: string, c: nat)
    requires '/' !in taskId && '/' !in h
    ensures InDir(SegmentFileName(dir, taskId, h, c), dir)
  {
    var name := taskId + SegmentSuffix(h, c);
    ZeroPad5Value(c);
    assert '/' !in ZeroPad5(c);
    JoinedIsInDir(dir, name);
  }

  /** Chunk files of a task whose id contains no '/' live directly in the
      temporary directory, so the cleanup listing finds them. */
  lemma CombinedFileInDir(dir: string, taskId: string, c: nat)
    requires '/' !in taskId
    ensures InDir(CombinedFileName(dir, taskId, c), dir)
  {
    var name := taskId + CombinedSuffix(c);
    DecimalHasNoSlash(c);
    JoinedIsInDir(dir, name);
  }
}

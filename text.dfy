/**
 * The string operations the source applies to text columns: Python's
 * `str.split(sep)`, `str.strip()` and the ordering `<` on strings (used by
 * pandas to sort group labels).
 */
module Text {
  import opened Seqs

  /** Python's `str.split(sep)` with an explicit one-character separator. */
  function Split(s: string, sep: char): (parts: seq<string>)
    ensures |parts| >= 1
    ensures forall i :: 0 <= i < |parts| ==> sep !in parts[i]
    ensures parts[0] <= s && (|parts[0]| < |s| ==> s[|parts[0]|] == sep)
  {
    if s == [] then [[]]
    else
      var rest := Split(s[1..], sep);
      if s[0] == sep then [[]] + rest
      else [[s[0]] + rest[0]] + rest[1..]
  }

  /** Python's `sep.join(parts)`. */
  function Join(parts: seq<string>, sep: char): string
  {
    if |parts| == 0 then []
    else if |parts| == 1 then parts[0]
    else parts[0] + [sep] + Join(parts[1..], sep)
  }

  function Is(c: char): char -> bool
  {
    x => x == c
  }

  /** Splitting loses nothing: joining the pieces back gives the original string. */
  lemma {:induction false} JoinSplit(s: string, sep: char)
    ensures Join(Split(s, sep), sep) == s
  {
    if s != [] {
      JoinSplit(s[1..], sep);
      var rest := Split(s[1..], sep);
      if s[0] == sep {
        assert ([[]] + rest)[1..] == rest;
      } else if |rest| == 1 {
        assert s == [s[0]] + s[1..];
      } else {
        var parts := [[s[0]] + rest[0]] + rest[1..];
        assert parts[1..] == rest[1..];
        assert s == [s[0]] + s[1..];
      }
    }
  }

  /** A piece free of the separator, followed by the separator, starts a new piece. */
  lemma {:induction false} SplitAfterPiece(p: string, t: string, sep: char)
    requires sep !in p
    ensures Split(p + [sep] + t, sep) == [p] + Split(t, sep)
  {
    if p != [] {
      var q := p[1..] + [sep] + t;
      assert p + [sep] + t == [p[0]] + q;
      SplitCons(p[0], q, sep);
      SplitAfterPiece(p[1..], t, sep);
      assert [p[0]] + p[1..] == p;
    } else {
      assert p + [sep] + t == [sep] + t && ([sep] + t)[1..] == t;
    }
  }

  /** A character other than the separator joins the first piece of the rest. */
  lemma SplitCons(c: char, s: string, sep: char)
    requires c != sep
    ensures Split([c] + s, sep) == [[c] + Split(s, sep)[0]] + Split(s, sep)[1..]
  {
    assert ([c] + s)[1..] == s;
  }

  /** A string free of the separator splits into itself alone. */
  lemma {:induction false} SplitSinglePiece(p: string, sep: char)
    requires sep !in p
    ensures Split(p, sep) == [p]
  {
    if p != [] {
      SplitSinglePiece(p[1..], sep);
      assert p == [p[0]] + p[1..];
    }
  }

  /** The converse round trip: separator-free pieces are recovered by splitting their join. */
  lemma {:induction false} SplitJoin(parts: seq<string>, sep: char)
    requires |parts| >= 1
    requires forall i :: 0 <= i < |parts| ==> sep !in parts[i]
    ensures Split(Join(parts, sep), sep) == parts
  {
    if |parts| == 1 {
      SplitSinglePiece(parts[0], sep);
    } else {
      SplitJoin(parts[1..], sep);
      SplitAfterPiece(parts[0], Join(parts[1..], sep), sep);
    }
  }

  /** A string with k separators splits into k + 1 pieces. */
  lemma {:induction false} SplitCount(s: string, sep: char)
    ensures |Split(s, sep)| == |Filter(s, Is(sep))| + 1
  {
    if s != [] {
      SplitCount(s[1..], sep);
    }
  }

  /** Python's `str.isspace()` for one character: the Unicode whitespace characters. */
  predicate IsSpace(c: char)
    ensures c == ' ' || c == '\t' || c == '\n' || c == '\r' ==> IsSpace(c)
    ensures IsSpace(c) ==> c != '|' && c as int <= 0x3000
  {
    var n := c as int;
    || 9 <= n <= 13 || 28 <= n <= 32 || n == 0x85 || n == 0xA0 || n == 0x1680
    || 0x2000 <= n <= 0x200A || n == 0x2028 || n == 0x2029 || n == 0x202F
    || n == 0x205F || n == 0x3000
  }

  /** No whitespace at either end, as `str.strip()` leaves a string. */
  predicate Stripped(s: string)
  {
    s == [] || (!IsSpace(s[0]) && !IsSpace(s[|s| - 1]))
  }

  /** Every character of `s` is whitespace. */
  predicate AllSpace(s: string)
  {
    forall k :: 0 <= k < |s| ==> IsSpace(s[k])
  }

  /** `r` is `s` with a whitespace prefix and a whitespace suffix cut off. */
  ghost predicate Trims(s: string, r: string)
  {
    exists i, j :: 0 <= i <= j <= |s| && r == s[i..j] && AllSpace(s[..i]) && AllSpace(s[j..])
  }

  /** Length of the leading whitespace run. */
  function StripStart(s: string): (i: nat)
    ensures i <= |s|
    ensures forall k :: 0 <= k < i ==> IsSpace(s[k])
    ensures i < |s| ==> !IsSpace(s[i])
  {
    if s == [] || !IsSpace(s[0]) then 0 else 1 + StripStart(s[1..])
  }

  /** Where the trailing whitespace run begins. */
  function StripEnd(s: string): (j: nat)
    ensures j <= |s|
    ensures forall k :: j <= k < |s| ==> IsSpace(s[k])
    ensures j > 0 ==> !IsSpace(s[j - 1])
  {
    if s == [] || !IsSpace(s[|s| - 1]) then |s| else StripEnd(s[..|s| - 1])
  }

  /**
   * Python's `str.strip()`: cuts the leading and the trailing whitespace off
   * and keeps the middle, which then starts and ends with a non-space.
   */
  function Strip(s: string): (r: string)
    ensures Stripped(r)
    ensures Trims(s, r)
  {
    var i := StripStart(s);
    var t := s[i..];
    var e := StripEnd(t);
    assert AllSpace(s[..i]);
    assert s[i + e..] == t[e..] && AllSpace(t[e..]);
    assert t[..e] == s[i..i + e];
    assert e > 0 ==> t[..e][0] == s[i] && t[..e][e - 1] == t[e - 1];
    t[..e]
  }

  /** The leading run ends at the first non-space. */
  lemma StartAt(s: string, i: nat)
    requires i < |s| && !IsSpace(s[i]) && AllSpace(s[..i])
    ensures StripStart(s) == i
  {
  }

  /** The trailing run starts after the last non-space. */
  lemma EndAt(t: string, e: nat)
    requires 0 < e <= |t| && !IsSpace(t[e - 1]) && AllSpace(t[e..])
    ensures StripEnd(t) == e
  {
  }

  /** A string of whitespace strips to nothing. */
  lemma StripAllSpace(s: string)
    requires AllSpace(s)
    ensures Strip(s) == []
  {
    var a := StripStart(s);
    assert a == |s|;
  }

  /** Cutting the whitespace runs at `i` and `j` leaves what `Strip` leaves. */
  lemma StripBetween(s: string, i: nat, j: nat)
    requires i <= j <= |s| && Stripped(s[i..j]) && AllSpace(s[..i]) && AllSpace(s[j..])
    ensures s[i..j] == Strip(s)
  {
    if i == j {
      forall k | 0 <= k < |s| ensures IsSpace(s[k]) {
        if k < i {
          assert s[..i][k] == s[k];
        } else {
          assert s[j..][k - j] == s[k];
        }
      }
      StripAllSpace(s);
    } else {
      StartAt(s, i);
      var t := s[i..];
      assert t[j - i - 1] == s[j - 1];
      assert t[j - i..] == s[j..];
      EndAt(t, j - i);
      assert t[..j - i] == s[i..j];
    }
  }

  /** Exactly one stripped string trims `s`: `Strip` is determined by its contract. */
  lemma StripUnique(s: string, r: string)
    requires Stripped(r) && Trims(s, r)
    ensures r == Strip(s)
  {
    var i, j :| 0 <= i <= j <= |s| && r == s[i..j] && AllSpace(s[..i]) && AllSpace(s[j..]);
    StripBetween(s, i, j);
  }

  /** Stripping twice is stripping once. */
  lemma StripIdempotent(s: string)
    ensures Strip(Strip(s)) == Strip(s)
  {
    var r := Strip(s);
    assert AllSpace(r[..0]) && AllSpace(r[|r|..]) && r == r[0..|r|];
    StripUnique(r, r);
  }

  /** Lexicographic order on code points: Python's `<` on `str`. */
  predicate StrLess(a: string, b: string)
    ensures a < b ==> StrLess(a, b)
    ensures StrLess(a, b) ==> a != b
  {
    if a == [] then b != []
    else if b == [] then false
    else if a[0] == b[0] then StrLess(a[1..], b[1..])
    else a[0] < b[0]
  }

  /** The first differing code point decides: a smaller one puts its string first. */
  lemma {:induction false} StrLessLex(a: string, b: string, k: nat)
    requires k < |a| && k < |b| && a[..k] == b[..k] && a[k] < b[k]
    ensures StrLess(a, b)
  {
    if k > 0 {
      assert a[0] == a[..k][0] && b[0] == b[..k][0];
      assert a[1..][..k - 1] == a[1..k] && b[1..][..k - 1] == b[1..k];
      assert a[1..k] == a[..k][1..] && b[1..k] == b[..k][1..];
      StrLessLex(a[1..], b[1..], k - 1);
    }
  }

  /** Conversely, a string comes first only as a proper prefix or at a smaller first differing code point. */
  lemma {:induction false} StrLessCases(a: string, b: string)
    requires StrLess(a, b)
    ensures a < b || exists k :: 0 <= k < |a| && k < |b| && a[..k] == b[..k] && a[k] < b[k]
  {
    if a != [] && a[0] == b[0] {
      StrLessCases(a[1..], b[1..]);
      assert a == [a[0]] + a[1..] && b == [b[0]] + b[1..];
      if !(a[1..] < b[1..]) {
        var k :| 0 <= k < |a[1..]| && k < |b[1..]| && a[1..][..k] == b[1..][..k] && a[1..][k] < b[1..][k];
        assert a[..k + 1] == [a[0]] + a[1..][..k] && b[..k + 1] == [b[0]] + b[1..][..k];
        assert a[k + 1] < b[k + 1];
      }
    } else if a != [] {
      assert a[..0] == b[..0];
    }
  }

  lemma {:induction false} StrLessIrreflexive(a: string)
    ensures !StrLess(a, a)
  {
    if a != [] {
      StrLessIrreflexive(a[1..]);
    }
  }

  lemma {:induction false} StrLessTransitive(a: string, b: string, c: string)
    requires StrLess(a, b) && StrLess(b, c)
    ensures StrLess(a, c)
  {
    if a != [] && b != [] && c != [] && a[0] == b[0] && b[0] == c[0] {
      StrLessTransitive(a[1..], b[1..], c[1..]);
    }
  }

  lemma {:induction false} StrLessTotal(a: string, b: string)
    requires a != b
    ensures StrLess(a, b) || StrLess(b, a)
  {
    if a != [] && b != [] && a[0] == b[0] {
      assert a == [a[0]] + a[1..] && b == [b[0]] + b[1..];
      StrLessTotal(a[1..], b[1..]);
    }
  }
}

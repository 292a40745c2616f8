/**
 * The PHP string primitives the database layer is built from: `explode` and
 * `implode` with a one-character separator, `strpos` for one character,
 * `str_replace` of one character, `trim`, integer-to-string conversion and
 * `dirname`. Each comes with the property that the layer relies on.
 */
module PhpStrings {
  import opened Wrappers

  /** Number of occurrences of `c` in `s`. */
  function Count(s: string, c: char): nat
  {
    if s == [] then 0 else (if s[0] == c then 1 else 0) + Count(s[1..], c)
  }

  lemma {:induction false} CountPositive(s: string, c: char)
    ensures Count(s, c) > 0 <==> c in s
  {
    if s != [] {
      CountPositive(s[1..], c);
      assert s == [s[0]] + s[1..];
    }
  }

  /** `strpos($s, $c)` for a single character: the first index of `c`, if any. */
  function IndexOf(s: string, c: char): (r: Option<nat>)
    ensures r.None? <==> c !in s
    ensures r.Some? ==> r.value < |s| && s[r.value] == c && c !in s[..r.value]
  {
    if s == [] then None
    else if s[0] == c then Some(0)
    else match IndexOf(s[1..], c)
      case None => None
      case Some(i) => assert s[1..][..i] == s[1..i + 1]; Some(i + 1)
  }

  /** The first `c` in `a + b` is the first character of `b` when `a` holds none. */
  lemma IndexOfAfter(a: string, b: string, c: char)
    requires c !in a && b != [] && b[0] == c
    ensures IndexOf(a + b, c) == Some(|a|)
  {
    var r := IndexOf(a + b, c);
    assert (a + b)[|a|] == c;
  }

  /** `explode($c, $s)`: the pieces of `s` between occurrences of `c`. */
  function Split(s: string, c: char): (parts: seq<string>)
    ensures |parts| >= 1
    decreases |s|
  {
    if s == [] then [[]]
    else
      var rest := Split(s[1..], c);
      if s[0] == c then [[]] + rest
      else [[s[0]] + rest[0]] + rest[1..]
  }

  /** `implode($sep, $parts)`. */
  function Join(parts: seq<string>, sep: string): string
  {
    if |parts| == 0 then []
    else if |parts| == 1 then parts[0]
    else parts[0] + sep + Join(parts[1..], sep)
  }

  /** Splitting on `c` and joining with `c` gives back the original string. */
  lemma {:induction false} JoinSplit(s: string, c: char)
    ensures Join(Split(s, c), [c]) == s
  {
    if s != [] {
      var rest := Split(s[1..], c);
      JoinSplit(s[1..], c);
      if s[0] == c {
        assert Split(s, c) == [[]] + rest;
        assert ([[]] + rest)[1..] == rest;
      } else {
        var parts := Split(s, c);
        assert parts == [[s[0]] + rest[0]] + rest[1..];
        if |rest| == 1 {
          assert Join(rest, [c]) == rest[0];
        } else {
          assert parts[1..] == rest[1..];
          assert Join(rest, [c]) == rest[0] + [c] + Join(rest[1..], [c]);
        }
      }
    }
  }

  /** There is one more piece than there are separators. */
  lemma {:induction false} SplitCount(s: string, c: char)
    ensures |Split(s, c)| == Count(s, c) + 1
  {
    if s != [] {
      SplitCount(s[1..], c);
    }
  }

  /** No piece contains the separator. */
  lemma {:induction false} SplitPiecesFree(s: string, c: char)
    ensures forall i | 0 <= i < |Split(s, c)| :: c !in Split(s, c)[i]
  {
    if s != [] {
      SplitPiecesFree(s[1..], c);
      var rest := Split(s[1..], c);
      if s[0] != c {
        assert c !in [s[0]] + rest[0];
      }
    }
  }

  /** A string without the separator is its own single piece. */
  lemma {:induction false} SplitWithout(s: string, c: char)
    requires c !in s
    ensures Split(s, c) == [s]
  {
    if s != [] {
      SplitWithout(s[1..], c);
      assert [s[0]] + s[1..] == s;
    }
  }

  /** `c` between two dot-free pieces splits there. */
  lemma {:induction false} SplitAt(a: string, b: string, c: char)
    requires c !in a
    ensures Split(a + [c] + b, c) == [a] + Split(b, c)
  {
    if a == [] {
      assert ([c] + b)[1..] == b;
    } else {
      SplitAt(a[1..], b, c);
      assert (a + [c] + b)[1..] == a[1..] + [c] + b;
      assert [a[0]] + a[1..] == a;
    }
  }

  /** Joining separator-free pieces and splitting again gives the pieces back. */
  lemma {:induction false} SplitJoin(parts: seq<string>, c: char)
    requires |parts| >= 1
    requires forall i | 0 <= i < |parts| :: c !in parts[i]
    ensures Split(Join(parts, [c]), c) == parts
  {
    if |parts| == 1 {
      SplitWithout(parts[0], c);
    } else {
      SplitJoin(parts[1..], c);
      SplitAt(parts[0], Join(parts[1..], [c]), c);
      assert [parts[0]] + parts[1..] == parts;
    }
  }

  /** `str_replace($c, $t, $s)` for a one-character search string. */
  function ReplaceChar(s: string, c: char, t: string): string
  {
    if s == [] then [] else (if s[0] == c then t else [s[0]]) + ReplaceChar(s[1..], c, t)
  }

  /** After replacing `c` by a text without `c`, no `c` is left. */
  lemma {:induction false} ReplaceCharRemoves(s: string, c: char, t: string)
    requires c !in t
    ensures c !in ReplaceChar(s, c, t)
  {
    if s != [] {
      ReplaceCharRemoves(s[1..], c, t);
    }
  }

  /** Replacing `c` by `t` grows the string by |t| - 1 per occurrence. */
  lemma {:induction false} ReplaceCharLength(s: string, c: char, t: string)
    ensures |ReplaceChar(s, c, t)| == |s| + Count(s, c) * (|t| - 1)
  {
    if s != [] {
      ReplaceCharLength(s[1..], c, t);
    }
  }

  /** Replacing never introduces a character that neither the string nor the replacement holds. */
  lemma {:induction false} ReplaceCharKeeps(s: string, c: char, t: string, x: char)
    requires x !in s && x !in t
    ensures x !in ReplaceChar(s, c, t)
  {
    if s != [] {
      ReplaceCharKeeps(s[1..], c, t, x);
      assert s[0] in s;
    }
  }

  /** A string without `c` is left unchanged. */
  lemma {:induction false} ReplaceCharAbsent(s: string, c: char, t: string)
    requires c !in s
    ensures ReplaceChar(s, c, t) == s
  {
    if s != [] {
      ReplaceCharAbsent(s[1..], c, t);
      assert [s[0]] + s[1..] == s;
    }
  }

  /** Replacement works piecewise over a concatenation. */
  lemma {:induction false} ReplaceCharAppend(a: string, b: string, c: char, t: string)
    ensures ReplaceChar(a + b, c, t) == ReplaceChar(a, c, t) + ReplaceChar(b, c, t)
  {
    if a != [] {
      ReplaceCharAppend(a[1..], b, c, t);
      assert (a + b)[1..] == a[1..] + b;
    } else {
      assert a + b == b;
    }
  }

  /** An occurrence of `c` between two strings is replaced by `t`. */
  lemma ReplaceCharAround(a: string, b: string, c: char, t: string)
    ensures ReplaceChar(a + [c] + b, c, t) == ReplaceChar(a, c, t) + t + ReplaceChar(b, c, t)
  {
    ReplaceCharAppend(a, [c] + b, c, t);
    assert a + [c] + b == a + ([c] + b);
    assert ([c] + b)[1..] == b;
  }

  /** The inverse of doubling every `c`: each pair `cc` becomes one `c`. */
  function Undouble(s: string, c: char): string
    decreases |s|
  {
    if |s| >= 2 && s[0] == c && s[1] == c then [c] + Undouble(s[2..], c)
    else if s == [] then []
    else [s[0]] + Undouble(s[1..], c)
  }

  /** Doubling every `c` and undoubling recovers the string. */
  lemma {:induction false} UndoubleDoubled(s: string, c: char)
    ensures Undouble(ReplaceChar(s, c, [c, c]), c) == s
  {
    if s != [] {
      UndoubleDoubled(s[1..], c);
      var tail := ReplaceChar(s[1..], c, [c, c]);
      if s[0] == c {
        assert ([c, c] + tail)[2..] == tail;
      } else {
        assert ([s[0]] + tail)[1..] == tail;
      }
      assert [s[0]] + s[1..] == s;
    }
  }

  /** The characters `trim()` removes by default. */
  predicate IsBlank(ch: char)
  {
    ch == ' ' || ch == '\t' || ch == '\n' || ch == '\r' || ch == '\0' || ch == '\U{000B}'
  }

  predicate AllBlank(s: string)
  {
    forall i | 0 <= i < |s| :: IsBlank(s[i])
  }

  function TrimStart(s: string): string
  {
    if s != [] && IsBlank(s[0]) then TrimStart(s[1..]) else s
  }

  function TrimEnd(s: string): string
  {
    if s != [] && IsBlank(s[|s| - 1]) then TrimEnd(s[..|s| - 1]) else s
  }

  /** `trim($s)`. */
  function Trim(s: string): string
  {
    TrimEnd(TrimStart(s))
  }

  lemma {:induction false} TrimStartShape(s: string)
    ensures TrimStart(s) == [] <==> AllBlank(s)
    ensures TrimStart(s) != [] ==> !IsBlank(TrimStart(s)[0])
  {
    if s != [] && IsBlank(s[0]) {
      TrimStartShape(s[1..]);
      assert AllBlank(s) <==> AllBlank(s[1..]) by {
        if AllBlank(s[1..]) {
          forall i | 0 <= i < |s| ensures IsBlank(s[i]) {
            if i > 0 { assert s[i] == s[1..][i - 1]; }
          }
        }
      }
    }
  }

  lemma {:induction false} TrimEndShape(s: string)
    ensures TrimEnd(s) == [] <==> AllBlank(s)
  {
    if s != [] && IsBlank(s[|s| - 1]) {
      var init := s[..|s| - 1];
      TrimEndShape(init);
      assert AllBlank(s) <==> AllBlank(init) by {
        if AllBlank(init) {
          forall i | 0 <= i < |s| ensures IsBlank(s[i]) {
            if i < |s| - 1 { assert s[i] == init[i]; }
          }
        }
      }
    } else if s != [] {
      assert !IsBlank(s[|s| - 1]);
    }
  }

  /** `'' !== trim($s)` holds exactly when `s` has a character `trim()` keeps. */
  lemma TrimEmpty(s: string)
    ensures Trim(s) == [] <==> AllBlank(s)
  {
    TrimStartShape(s);
    var t := TrimStart(s);
    TrimEndShape(t);
    if t != [] {
      assert !IsBlank(t[0]);
      assert !AllBlank(t);
    }
  }

  predicate IsDigit(ch: char)
  {
    '0' <= ch <= '9'
  }

  predicate AllDigits(s: string)
  {
    forall i | 0 <= i < |s| :: IsDigit(s[i])
  }

  function DigitChar(d: nat): (ch: char)
    requires d < 10
    ensures IsDigit(ch)
  {
    ('0' as int + d) as char
  }

  function DigitValue(ch: char): nat
    requires IsDigit(ch)
  {
    ch as int - '0' as int
  }

  /** The decimal digits of `n`, most significant first, without leading zeros. */
  function NatToString(n: nat): (s: string)
    ensures s != [] && AllDigits(s)
    decreases n
  {
    if n < 10 then [DigitChar(n)] else NatToString(n / 10) + [DigitChar(n % 10)]
  }

  /** The string PHP produces for an integer: `(string) $i`, as used by `'…' . (int) $x`. */
  function IntToString(i: int): string
  {
    if i < 0 then "-" + NatToString(-i) else NatToString(i)
  }

  function ParseNat(s: string): nat
    requires AllDigits(s)
  {
    if s == [] then 0 else 10 * ParseNat(s[..|s| - 1]) + DigitValue(s[|s| - 1])
  }

  /** Reads back a decimal integer, optionally negative. */
  function ParseInt(s: string): Option<int>
  {
    if |s| >= 2 && s[0] == '-' && AllDigits(s[1..]) then Some(0 - ParseNat(s[1..]) as int)
    else if s != [] && AllDigits(s) then Some(ParseNat(s))
    else None
  }

  lemma {:induction false} ParseNatToString(n: nat)
    ensures ParseNat(NatToString(n)) == n
  {
    if n >= 10 {
      ParseNatToString(n / 10);
      var s := NatToString(n);
      assert s[..|s| - 1] == NatToString(n / 10);
    }
  }

  /** Integer rendering is reversible. */
  lemma ParseIntToString(i: int)
    ensures ParseInt(IntToString(i)) == Some(i)
  {
    if i < 0 {
      ParseNatToString(-i);
      assert IntToString(i)[1..] == NatToString(-i);
    } else {
      ParseNatToString(i);
    }
  }

  /** A rendered integer holds only digits and a leading minus sign: never a space or a dot. */
  lemma IntToStringChars(i: int)
    ensures ' ' !in IntToString(i) && '.' !in IntToString(i)
  {
    var s := IntToString(i);
    if i < 0 {
      var d := NatToString(-i);
      assert s == "-" + d;
      forall k | 0 <= k < |s| ensures s[k] != ' ' && s[k] != '.' {
        if k > 0 { assert s[k] == d[k - 1]; }
      }
    }
  }

  /**
   * `dirname($p)` for a path as `realpath()` returns it (absolute, no
   * trailing slash): everything before the last '/', or "/" for a file in
   * the root, "." for a bare name and "" for the empty string.
   */
  function Dirname(p: string): string
  {
    if p == [] then []
    else
      var pieces := Split(p, '/');
      if |pieces| == 1 then "."
      else
        var parent := Join(pieces[..|pieces| - 1], "/");
        if parent == [] then "/" else parent
  }

  /** `x` stands in `s` at position `k`. */
  predicate OccursAt(x: string, s: string, k: int)
  {
    0 <= k <= |s| - |x| && s[k..k + |x|] == x
  }

  /** Every element of a list stands somewhere in the list joined with any separator. */
  lemma {:induction false} JoinContains(parts: seq<string>, sep: string, i: nat)
    requires i < |parts|
    ensures exists k :: OccursAt(parts[i], Join(parts, sep), k)
  {
    var j := Join(parts, sep);
    if |parts| == 1 || i == 0 {
      assert OccursAt(parts[i], j, 0);
    } else {
      JoinContains(parts[1..], sep, i - 1);
      var rest := Join(parts[1..], sep);
      var k :| OccursAt(parts[i], rest, k);
      var off := |parts[0]| + |sep|;
      assert j == parts[0] + sep + rest;
      assert j[off + k..off + k + |parts[i]|] == rest[k..k + |parts[i]|];
      assert OccursAt(parts[i], j, off + k);
    }
  }

  /** What stands in a string stands, shifted, in any string that ends with it. */
  lemma OccursAfter(x: string, head: string, s: string, k: int)
    requires OccursAt(x, s, k)
    ensures OccursAt(x, head + s, |head| + k)
  {
    assert (head + s)[|head| + k..|head| + k + |x|] == s[k..k + |x|];
  }

  /** The middle piece of a three-part concatenation stands right after the first. */
  lemma OccursInThree(a: string, b: string, c: string)
    ensures OccursAt(b, a + b + c, |a|)
  {
    assert (a + b + c)[|a|..|a| + |b|] == b;
  }

  /** The middle pieces of a five-part concatenation stand at the sum of the lengths before them. */
  lemma OccursInFive(a: string, b: string, c: string, d: string, e: string)
    ensures OccursAt(b, a + b + c + d + e, |a|)
    ensures OccursAt(c, a + b + c + d + e, |a| + |b|)
    ensures OccursAt(d, a + b + c + d + e, |a| + |b| + |c|)
  {
    var s := a + b + c + d + e;
    assert s[|a|..|a| + |b|] == b;
    assert s[|a| + |b|..|a| + |b| + |c|] == c;
    assert s[|a| + |b| + |c|..|a| + |b| + |c| + |d|] == d;
  }

  /** Where a string stands, so does each of its prefixes. */
  lemma OccursPrefix(x: string, y: string, s: string, k: int)
    requires OccursAt(x + y, s, k)
    ensures OccursAt(x, s, k)
  {
    assert s[k..k + |x|] == (x + y)[..|x|];
  }

  /** A bare file name has "." as its directory. */
  lemma DirnameBare(p: string)
    requires p != [] && '/' !in p
    ensures Dirname(p) == "."
  {
    SplitWithout(p, '/');
  }
}

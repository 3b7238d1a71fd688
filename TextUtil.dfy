/**
 * The JavaScript string operations the adapter relies on: `Array.prototype.join`,
 * `String.prototype.split` on one character, `startsWith`, `includes`, and the
 * decimal rendering of a status code.
 */
module TextUtil {

  /** `parts.join(sep)`. */
  function Join(parts: seq<string>, sep: string): string
  {
    if |parts| == 0 then ""
    else if |parts| == 1 then parts[0]
    else parts[0] + sep + Join(parts[1..], sep)
  }

  /** `s.split(sep)` for a one-character separator: the pieces between separators, in order. */
  function Split(s: string, sep: char): (pieces: seq<string>)
    ensures |pieces| >= 1
  {
    if s == [] then [""] else Prepend(s[0], Split(s[1..], sep), sep)
  }

  /** The pieces of `[c] + t`, given the pieces of `t`. */
  function Prepend(c: char, pieces: seq<string>, sep: char): (r: seq<string>)
    requires |pieces| >= 1
    ensures |r| >= 1
  {
    if c == sep then [""] + pieces else [[c] + pieces[0]] + pieces[1..]
  }

  /** The pieces of a concatenation, given the pieces of its two halves. */
  function Fuse(left: seq<string>, right: seq<string>): (r: seq<string>)
    requires |left| >= 1 && |right| >= 1
    ensures |r| == |left| + |right| - 1
  {
    left[..|left| - 1] + [left[|left| - 1] + right[0]] + right[1..]
  }

  /** No piece of a split contains the separator. */
  lemma {:induction false} SplitPiecesHaveNoSeparator(s: string, sep: char)
    ensures forall k :: 0 <= k < |Split(s, sep)| ==> sep !in Split(s, sep)[k]
  {
    if s != [] {
      SplitPiecesHaveNoSeparator(s[1..], sep);
    }
  }

  /** Joining the pieces with the separator gives back the string: split has an inverse. */
  lemma {:induction false} JoinSplit(s: string, sep: char)
    ensures Join(Split(s, sep), [sep]) == s
  {
    if s != [] {
      var rest := Split(s[1..], sep);
      JoinSplit(s[1..], sep);
      if s[0] == sep {
        calc {
          Join([""] + rest, [sep]);
          "" + [sep] + Join(rest, [sep]);
          [s[0]] + s[1..];
        }
      } else if |rest| == 1 {
        assert Split(s, sep) == [[s[0]] + rest[0]];
      } else {
        var pieces := [[s[0]] + rest[0]] + rest[1..];
        assert pieces[1..] == rest[1..];
        calc {
          Join(pieces, [sep]);
          [s[0]] + rest[0] + [sep] + Join(rest[1..], [sep]);
          [s[0]] + (rest[0] + [sep] + Join(rest[1..], [sep]));
          [s[0]] + Join(rest, [sep]);
        }
      }
    }
  }

  /** A string without the separator splits into itself alone. */
  lemma {:induction false} SplitWithoutSeparator(s: string, sep: char)
    requires sep !in s
    ensures Split(s, sep) == [s]
  {
    if s != [] {
      SplitWithoutSeparator(s[1..], sep);
      assert [s[0]] + s[1..] == s;
    }
  }

  /** Prepending one character commutes with fusing the pieces of two halves. */
  lemma PrependFuse(c: char, left: seq<string>, right: seq<string>, sep: char)
    requires |left| >= 1 && |right| >= 1
    ensures Prepend(c, Fuse(left, right), sep) == Fuse(Prepend(c, left, sep), right)
  {
    if c == sep {
      PrependSeparatorFuse(left, right, sep);
    } else if |left| == 1 {
      PrependCharFuseSingle(c, left[0], right, sep);
    } else {
      PrependCharFuse(c, left, right, sep);
    }
  }

  lemma PrependSeparatorFuse(left: seq<string>, right: seq<string>, sep: char)
    requires |left| >= 1 && |right| >= 1
    ensures Prepend(sep, Fuse(left, right), sep) == Fuse(Prepend(sep, left, sep), right)
  {
    var n := |left|;
    var l := [""] + left;
    assert l[..|l| - 1] == [""] + left[..n - 1];
    assert l[|l| - 1] == left[n - 1];
    var rest := [left[n - 1] + right[0]] + right[1..];
    assert Fuse(left, right) == left[..n - 1] + rest;
    assert Fuse(l, right) == l[..|l| - 1] + rest;
    Regroup(Fuse(l, right), [""], left[..n - 1], rest, Fuse(left, right));
  }

  lemma PrependCharFuseSingle(c: char, piece: string, right: seq<string>, sep: char)
    requires c != sep && |right| >= 1
    ensures Prepend(c, Fuse([piece], right), sep) == Fuse(Prepend(c, [piece], sep), right)
  {
    assert Fuse([piece], right) == [piece + right[0]] + right[1..];
    assert [c] + (piece + right[0]) == ([c] + piece) + right[0];
  }

  lemma PrependCharFuse(c: char, left: seq<string>, right: seq<string>, sep: char)
    requires c != sep && |left| >= 2 && |right| >= 1
    ensures Prepend(c, Fuse(left, right), sep) == Fuse(Prepend(c, left, sep), right)
  {
    var n := |left|;
    var f := Fuse(left, right);
    var l := Prepend(c, left, sep);
    var rest := [left[n - 1] + right[0]] + right[1..];
    assert f == left[..n - 1] + rest;
    assert f[1..] == left[1..n - 1] + rest;
    assert l[..n - 1] == [[c] + left[0]] + left[1..n - 1];
    assert l[n - 1] == left[n - 1];
    assert Fuse(l, right) == l[..n - 1] + rest;
    Regroup(Fuse(l, right), [[c] + left[0]], left[1..n - 1], rest, f[1..]);
  }

  /** Regrouping a three-way concatenation. */
  lemma Regroup<T>(whole: seq<T>, x: seq<T>, y: seq<T>, z: seq<T>, tail: seq<T>)
    requires whole == (x + y) + z && tail == y + z
    ensures whole == x + tail
  {
  }

  /**
   * Splitting a concatenation: the last piece of `a` and the first piece of `b`
   * fuse; every other piece is kept as it is.
   */
  lemma {:induction false} SplitAppend(a: string, b: string, sep: char)
    ensures Split(a + b, sep) == Fuse(Split(a, sep), Split(b, sep))
  {
    if a == [] {
      var sb := Split(b, sep);
      assert a + b == b;
      assert "" + sb[0] == sb[0];
      assert Fuse([""], sb) == [sb[0]] + sb[1..];
    } else {
      assert (a + b)[1..] == a[1..] + b;
      SplitAppend(a[1..], b, sep);
      PrependFuse(a[0], Split(a[1..], sep), Split(b, sep), sep);
    }
  }

  /** `s.startsWith(prefix)`. */
  predicate StartsWith(s: string, prefix: string)
  {
    |prefix| <= |s| && s[..|prefix|] == prefix
  }

  /** `s.includes(sub)`, scanning start positions from the left. */
  predicate Contains(s: string, sub: string)
  {
    StartsWith(s, sub) || (|s| > 0 && Contains(s[1..], sub))
  }

  /** `sub` occurs in `s` starting at position `i`. */
  predicate OccursAt(s: string, sub: string, i: int)
  {
    0 <= i <= |s| - |sub| && s[i..i + |sub|] == sub
  }

  /** `includes` holds exactly when `sub` occurs at some position of `s`. */
  lemma {:induction false} ContainsOccurrence(s: string, sub: string)
    ensures Contains(s, sub) <==> exists i :: OccursAt(s, sub, i)
  {
    if StartsWith(s, sub) {
      assert OccursAt(s, sub, 0);
    } else if |s| > 0 {
      ContainsOccurrence(s[1..], sub);
      if Contains(s[1..], sub) {
        var i :| OccursAt(s[1..], sub, i);
        assert s[i + 1..i + 1 + |sub|] == s[1..][i..i + |sub|];
        assert OccursAt(s, sub, i + 1);
      }
      if exists i :: OccursAt(s, sub, i) {
        var i :| OccursAt(s, sub, i);
        assert i != 0;
        assert s[1..][i - 1..i - 1 + |sub|] == s[i..i + |sub|];
        assert OccursAt(s[1..], sub, i - 1);
      }
    }
  }

  /** The decimal digit for `d`. */
  function Digit(d: nat): char
    requires d < 10
  {
    "0123456789"[d]
  }

  /** The decimal text of `n`, as template-literal interpolation renders a status code. */
  function NatToDecimal(n: nat): (s: string)
    ensures |s| >= 1
    ensures forall k :: 0 <= k < |s| ==> '0' <= s[k] <= '9'
  {
    if n < 10 then [Digit(n)] else NatToDecimal(n / 10) + [Digit(n % 10)]
  }
  /** The value of a decimal digit character. */
  function DigitValue(c: char): nat
    requires '0' <= c <= '9'
  {
    (c as int - '0' as int) as nat
  }

  /** The number a string of decimal digits denotes; the inverse of `NatToDecimal`. */
  function DecimalValue(s: string): nat
    requires forall k :: 0 <= k < |s| ==> '0' <= s[k] <= '9'
  {
    if |s| == 0 then 0 else 10 * DecimalValue(s[..|s| - 1]) + DigitValue(s[|s| - 1])
  }

  /** Reading back the decimal text of a number gives the number: no two numbers share a text. */
  lemma {:induction false} DecimalRoundTrip(n: nat)
    ensures DecimalValue(NatToDecimal(n)) == n
  {
    var s := NatToDecimal(n);
    if n < 10 {
      assert s == [Digit(n)];
      assert s[..0] == [];
    } else {
      DecimalRoundTrip(n / 10);
      assert s[..|s| - 1] == NatToDecimal(n / 10);
    }
  }

  /** Different numbers have different decimal texts. */
  lemma DecimalInjective(a: nat, b: nat)
    requires NatToDecimal(a) == NatToDecimal(b)
    ensures a == b
  {
    DecimalRoundTrip(a);
    DecimalRoundTrip(b);
  }
}

/**
 * String helpers the pipeline relies on: Python's `str.split(sep)` (used to
 * turn a lineup's `GROUP_NAME` into `players_list`), the inverse join,
 * `str.replace("-", "")` and the decimal rendering of small numbers in file
 * names.
 */
module Text {

  /** `sep` occurs in `s` starting at index `i`. */
  predicate OccursAt(s: string, sep: string, i: nat)
  {
    i + |sep| <= |s| && s[i..i + |sep|] == sep
  }

  /** `sep` occurs somewhere in `s`. */
  ghost predicate Contains(s: string, sep: string)
  {
    exists i: nat :: OccursAt(s, sep, i)
  }

  /**
   * `s.split(sep)`: cut `s` at every occurrence of `sep`, scanning left to
   * right and never reusing the characters of an occurrence.
   */
  function Split(s: string, sep: string): (parts: seq<string>)
    requires |sep| > 0
    ensures |parts| >= 1
    decreases |s|
  {
    if |s| < |sep| then [s]
    else if s[..|sep|] == sep then [""] + Split(s[|sep|..], sep)
    else
      var rest := Split(s[1..], sep);
      [[s[0]] + rest[0]] + rest[1..]
  }

  /** `sep.join(parts)`. */
  function Join(parts: seq<string>, sep: string): string
    decreases |parts|
  {
    if parts == [] then ""
    else if |parts| == 1 then parts[0]
    else parts[0] + sep + Join(parts[1..], sep)
  }

  /** Joining the pieces again gives back the original string. */
  lemma {:induction false} JoinSplit(s: string, sep: string)
    requires |sep| > 0
    ensures Join(Split(s, sep), sep) == s
    decreases |s|
  {
    if |s| < |sep| {
    } else if s[..|sep|] == sep {
      var rest := Split(s[|sep|..], sep);
      JoinSplit(s[|sep|..], sep);
      assert Split(s, sep) == [""] + rest;
      assert ([""] + rest)[1..] == rest;
      assert Join([""] + rest, sep) == "" + sep + Join(rest, sep);
      assert s == s[..|sep|] + s[|sep|..];
    } else {
      var rest := Split(s[1..], sep);
      JoinSplit(s[1..], sep);
      var parts := [[s[0]] + rest[0]] + rest[1..];
      assert parts[1..] == rest[1..];
      if |rest| == 1 {
        assert Join(parts, sep) == [s[0]] + rest[0];
        assert Join(rest, sep) == rest[0];
      } else {
        assert Join(parts, sep) == [s[0]] + rest[0] + sep + Join(rest[1..], sep);
        assert Join(rest, sep) == rest[0] + sep + Join(rest[1..], sep);
      }
      assert s == [s[0]] + s[1..];
    }
  }

  /** A string shorter than `sep` contains no occurrence of it. */
  lemma ShortHasNone(s: string, sep: string)
    requires |s| < |sep|
    ensures !Contains(s, sep)
  {
  }

  /** No piece of a split contains the separator. */
  lemma {:induction false} SplitPiecesFree(s: string, sep: string)
    requires |sep| > 0
    ensures forall k :: 0 <= k < |Split(s, sep)| ==> !Contains(Split(s, sep)[k], sep)
    decreases |s|
  {
    var parts := Split(s, sep);
    if |s| < |sep| {
      ShortHasNone(s, sep);
    } else if s[..|sep|] == sep {
      SplitPiecesFree(s[|sep|..], sep);
      var rest := Split(s[|sep|..], sep);
      assert parts == [""] + rest;
      ShortHasNone("", sep);
      assert forall k :: 1 <= k < |parts| ==> parts[k] == rest[k - 1];
    } else {
      SplitPiecesFree(s[1..], sep);
      var rest := Split(s[1..], sep);
      assert parts == [[s[0]] + rest[0]] + rest[1..];
      JoinSplit(s[1..], sep);
      JoinPrefix(rest, sep);
      ConsFree(s, sep, rest[0]);
      assert forall k :: 1 <= k < |parts| ==> parts[k] == rest[k];
    }
  }

  /**
   * A prefix of `s[1..]` free of `sep` stays free once `s[0]` is put back,
   * when `s` itself does not start with `sep`.
   */
  lemma ConsFree(s: string, sep: string, p: string)
    requires |sep| > 0 && |s| >= |sep| && s[..|sep|] != sep
    requires PrefixOf(p, s[1..]) && !Contains(p, sep)
    ensures !Contains([s[0]] + p, sep)
  {
    var head := [s[0]] + p;
    assert head == s[..|p| + 1];
    if Contains(head, sep) {
      var i: nat :| OccursAt(head, sep, i);
      if i > 0 {
        var here, there := head[i..i + |sep|], p[i - 1..i - 1 + |sep|];
        forall k | 0 <= k < |sep| ensures here[k] == there[k] {
          assert head[i + k] == p[i - 1 + k];
        }
        assert here == there;
        assert OccursAt(p, sep, i - 1);
      }
    }
  }

  /** `p` is a prefix of `s`. */
  predicate PrefixOf(p: string, s: string)
  {
    |p| <= |s| && s[..|p|] == p
  }

  /** The first piece of a join is a prefix of the joined string. */
  lemma JoinPrefix(parts: seq<string>, sep: string)
    requires |parts| >= 1
    ensures PrefixOf(parts[0], Join(parts, sep))
  {
  }

  /** `s.replace(c, "")`: every occurrence of `c` removed. */
  function RemoveChar(s: string, c: char): (t: string)
    ensures c !in t
    ensures forall x :: x != c ==> (x in t <==> x in s)
    ensures |t| <= |s|
    decreases |s|
  {
    if s == [] then ""
    else if s[0] == c then RemoveChar(s[1..], c)
    else [s[0]] + RemoveChar(s[1..], c)
  }

  /** Removing from a concatenation removes from each side. */
  lemma {:induction false} RemoveCharAppend(a: string, b: string, c: char)
    ensures RemoveChar(a + b, c) == RemoveChar(a, c) + RemoveChar(b, c)
    decreases |a|
  {
    if a != [] {
      RemoveCharAppend(a[1..], b, c);
      assert (a + b)[0] == a[0] && (a + b)[1..] == a[1..] + b;
      var rest := RemoveChar(a[1..], c);
      assert [a[0]] + (rest + RemoveChar(b, c)) == ([a[0]] + rest) + RemoveChar(b, c);
    } else {
      assert a + b == b;
    }
  }

  /** One `c` between two strings is dropped, and removal goes on in each of them. */
  lemma RemoveCharAround(a: string, b: string, c: char)
    ensures RemoveChar(a + [c] + b, c) == RemoveChar(a, c) + RemoveChar(b, c)
  {
    RemoveCharAppend(a + [c], b, c);
    RemoveCharAppend(a, [c], c);
    RemoveCharOne(c, c);
    assert RemoveChar(a, c) + "" == RemoveChar(a, c);
  }

  /** A single character is dropped when it is `c` and kept otherwise. */
  lemma RemoveCharOne(x: char, c: char)
    ensures RemoveChar([x], c) == if x == c then "" else [x]
  {
    assert [x][1..] == "";
  }

  /** Removal keeps every other character as often as it occurs, and leaves no `c`. */
  lemma {:induction false} RemoveCharCount(s: string, c: char)
    ensures multiset(RemoveChar(s, c)) == multiset(s)[c := 0]
    decreases |s|
  {
    if s != [] {
      RemoveCharCount(s[1..], c);
      assert s == [s[0]] + s[1..];
    }
  }

  /** A string without `c` is left as it is. */
  lemma {:induction false} RemoveCharAbsent(s: string, c: char)
    requires c !in s
    ensures RemoveChar(s, c) == s
    decreases |s|
  {
    if s != [] {
      assert s[0] in s;
      assert forall x :: x in s[1..] ==> x in s;
      RemoveCharAbsent(s[1..], c);
    }
  }

  /** The value of a decimal digit, and zero for any other character. */
  function DigitValue(x: char): (v: nat)
    ensures v <= 9
    ensures '0' <= x <= '9' ==> v == x as int - '0' as int
  {
    if '0' <= x <= '9' then x as int - '0' as int else 0
  }

  /** The number a string of decimal digits denotes, most significant first. */
  function DigitsValue(t: string): nat
    decreases |t|
  {
    if t == [] then 0 else 10 * DigitsValue(t[..|t| - 1]) + DigitValue(t[|t| - 1])
  }

  /** The decimal digits of `n`, as `str(n)` writes them. */
  function NatToString(n: nat): (t: string)
    ensures |t| >= 1
    ensures forall x :: x in t ==> '0' <= x <= '9'
    decreases n
  {
    var d := [(('0' as int) + n % 10) as char];
    if n < 10 then d else NatToString(n / 10) + d
  }

  /** Reading back the digits of `n` gives `n`. */
  lemma {:induction false} NatToStringValue(n: nat)
    ensures DigitsValue(NatToString(n)) == n
    decreases n
  {
    var d := [(('0' as int) + n % 10) as char];
    if n >= 10 {
      NatToStringValue(n / 10);
      var t := NatToString(n / 10) + d;
      assert t[..|t| - 1] == NatToString(n / 10);
    }
  }

  /** Only zero is written with a leading `0`, so the digits carry no padding. */
  lemma {:induction false} NatToStringLeading(n: nat)
    ensures NatToString(n)[0] == '0' <==> n == 0
    decreases n
  {
    if n >= 10 {
      NatToStringLeading(n / 10);
    }
  }

  /** Different numbers are written differently. */
  lemma NatToStringInjective(m: nat, n: nat)
    ensures NatToString(m) == NatToString(n) <==> m == n
  {
    NatToStringValue(m);
    NatToStringValue(n);
  }

  /**
   * Two different strings of digits, each followed by text starting with
   * the same character that is not a digit, give different strings.
   */
  lemma DigitsThenLetterDiffer(x: string, y: string, u: string, v: string)
    requires x != y
    requires forall a :: a in x ==> '0' <= a <= '9'
    requires forall a :: a in y ==> '0' <= a <= '9'
    requires |u| > 0 && |v| > 0 && u[0] == v[0] && !('0' <= u[0] <= '9')
    ensures x + u != y + v
  {
    if |x| == |y| {
      assert exists i :: 0 <= i < |x| && x[i] != y[i];
      var i :| 0 <= i < |x| && x[i] != y[i];
      assert (x + u)[i] != (y + v)[i];
    } else if |x| < |y| {
      assert y[|x|] in y;
      assert (x + u)[|x|] != (y + v)[|x|];
    } else {
      assert x[|y|] in x;
      assert (x + u)[|y|] != (y + v)[|y|];
    }
  }
}

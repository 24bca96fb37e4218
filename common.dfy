/** Sequence and string helpers shared by the reducers and services:
    the JavaScript array and string operations they rely on
    (indexOf, splice(i, 1), includes, join, toLowerCase). */
module Common {

  datatype Option<+T> = None | Some(value: T)

  /** One key of a partial object spread over another: the key is absent, or
      present with a value that may itself be undefined. */
  datatype Field<+T> = Absent | Present(value: Option<T>)

  /** `{ ...base, ...patch }` on one optional key. */
  function Spread<T>(base: Option<T>, f: Field<T>): (r: Option<T>)
    ensures f.Absent? ==> r == base
    ensures f.Present? ==> r == f.value
  {
    match f
    case Absent => base
    case Present(v) => v
  }

  /** A JavaScript string is truthy when it is present and non-empty. */
  predicate Truthy(s: Option<string>) {
    s.Some? && s.value != ""
  }

  predicate Distinct<T(==)>(s: seq<T>) {
    forall i, j :: 0 <= i < j < |s| ==> s[i] != s[j]
  }

  /** Array.prototype.indexOf: the first position of `x`, or -1. */
  function IndexOf<T(==)>(s: seq<T>, x: T): (r: int)
    ensures -1 <= r < |s|
    ensures r == -1 <==> x !in s
    ensures 0 <= r ==> s[r] == x && x !in s[..r]
  {
    if |s| == 0 then -1
    else if s[0] == x then 0
    else
      var k := IndexOf(s[1..], x);
      assert s[1..][..k + 1] == s[1..k + 2] by { if k >= 0 { assert s[1..][..k + 1] == s[1..k + 2]; } }
      if k == -1 then -1 else k + 1
  }

  lemma IndexOfDistinct<T>(s: seq<T>, i: int)
    requires Distinct(s) && 0 <= i < |s|
    ensures IndexOf(s, s[i]) == i
  {
    PrefixAt(s, IndexOf(s, s[i]), i);
  }

  lemma PrefixAt<T>(s: seq<T>, n: int, i: int)
    ensures 0 <= i < n <= |s| ==> s[..n][i] == s[i] && s[i] in s[..n]
  {
  }

  lemma SliceAt<T>(s: seq<T>, lo: int, hi: int, k: int)
    ensures 0 <= lo && lo + k < hi <= |s| && 0 <= k ==> s[lo..hi][k] == s[lo + k] && s[lo + k] in s
  {
  }

  /** Array.prototype.splice(i, 1): drop the element at position `i`. */
  function RemoveAt<T>(s: seq<T>, i: int): (r: seq<T>)
    requires 0 <= i < |s|
    ensures |r| == |s| - 1
    ensures forall k :: 0 <= k < i ==> r[k] == s[k]
    ensures forall k :: i <= k < |r| ==> r[k] == s[k + 1]
  {
    s[..i] + s[i + 1..]
  }

  /** Remove the first occurrence of `x` if there is one, otherwise append it
      (the indexOf / splice / push idiom of the reducers). */
  function Toggle<T(==)>(s: seq<T>, x: T): (r: seq<T>)
    ensures x !in s ==> r == s + [x]
    ensures x in s ==> |r| == |s| - 1
  {
    var i := IndexOf(s, x);
    if i > -1 then RemoveAt(s, i) else s + [x]
  }

  /** Toggling a present element removes its first occurrence and keeps
      every other element in order. */
  lemma TogglePresent<T>(s: seq<T>, x: T)
    requires x in s
    ensures var i := IndexOf(s, x);
            x !in s[..i] && Toggle(s, x) == s[..i] + s[i + 1..]
    ensures multiset(Toggle(s, x)) == multiset(s) - multiset{x}
  {
    var i := IndexOf(s, x);
    assert s == s[..i] + [x] + s[i + 1..];
    assert multiset(s) == multiset(s[..i]) + multiset{x} + multiset(s[i + 1..]);
    assert Toggle(s, x) == s[..i] + s[i + 1..];
  }

  /** Toggling an absent element twice gives back the original sequence. */
  lemma ToggleTwiceAbsent<T>(s: seq<T>, x: T)
    requires x !in s
    ensures Toggle(s, x) == s + [x]
    ensures Toggle(Toggle(s, x), x) == s
  {
    var t := s + [x];
    PrefixAt(t, |s|, IndexOf(t, x));
    assert t[..|s|] == s;
  }

  /** On a duplicate-free sequence, toggling keeps it duplicate-free, flips the
      membership of the toggled element and leaves every other element's. */
  lemma ToggleFlipsMembership<T>(s: seq<T>, x: T)
    requires Distinct(s)
    ensures Distinct(Toggle(s, x))
    ensures x in Toggle(s, x) <==> x !in s
    ensures forall y :: y != x ==> (y in Toggle(s, x) <==> y in s)
  {
    var t := Toggle(s, x);
    if x in s {
      var i := IndexOf(s, x);
      TogglePresent(s, x);
      assert t == s[..i] + s[i + 1..];
      forall a, b | 0 <= a < b < |t| ensures t[a] != t[b] {
        var a' := if a < i then a else a + 1;
        var b' := if b < i then b else b + 1;
        assert t[a] == s[a'] && t[b] == s[b'];
      }
      assert multiset(t)[x] == 0;
      forall y | y != x ensures y in t <==> y in s {
        assert multiset(t)[y] == multiset(s)[y];
      }
    } else {
      assert t == s + [x];
    }
  }

  // ---------------------------------------------------------------------
  // Substrings: String.prototype.includes and the first-occurrence search
  // that a regular expression match performs.

  predicate OccursAt<T(==)>(s: seq<T>, pat: seq<T>, i: int) {
    0 <= i && i + |pat| <= |s| && s[i..i + |pat|] == pat
  }

  /** The first position at or after `from` where `pat` occurs in `s`, or -1. */
  function FindFrom<T(==)>(s: seq<T>, pat: seq<T>, from: nat): (r: int)
    ensures r == -1 || (from <= r && OccursAt(s, pat, r))
    ensures forall j :: from <= j && (r == -1 || j < r) ==> !OccursAt(s, pat, j)
    decreases |s| + 1 - from
  {
    if from + |pat| > |s| then -1
    else if s[from..from + |pat|] == pat then from
    else FindFrom(s, pat, from + 1)
  }

  /** String.prototype.includes. */
  predicate Includes(s: string, pat: string) {
    FindFrom(s, pat, 0) != -1
  }

  lemma IncludesIffOccurs(s: string, pat: string)
    ensures Includes(s, pat) <==> exists i :: OccursAt(s, pat, i)
  {
    if !Includes(s, pat) {
      forall i ensures !OccursAt(s, pat, i) {
        if 0 <= i { assert !OccursAt(s, pat, i); }
      }
    }
  }

  /** A pattern whose first character does not appear in `s` occurs nowhere in it. */
  lemma NotFoundWithoutFirstChar<T>(s: seq<T>, pat: seq<T>, from: nat)
    requires |pat| > 0 && pat[0] !in s
    ensures FindFrom(s, pat, from) == -1
  {
    var r := FindFrom(s, pat, from);
    SliceAt(s, r, r + |pat|, 0);
  }

  // ---------------------------------------------------------------------
  // Array.prototype.join

  /** parts.join(sep), unfolded from the right as the parts are pushed. */
  function Join(parts: seq<string>, sep: string): string
  {
    if |parts| == 0 then ""
    else if |parts| == 1 then parts[0]
    else Join(parts[..|parts| - 1], sep) + sep + parts[|parts| - 1]
  }

  /** Each part followed by the separator. */
  function Terminated(parts: seq<string>, sep: string): string
  {
    if |parts| == 0 then "" else parts[0] + sep + Terminated(parts[1..], sep)
  }

  /** Joining `first`, some middle parts and `last` puts a separator after the
      first part and after each middle part. */
  lemma {:induction false} JoinFramed(first: string, middle: seq<string>, last: string, sep: string)
    ensures Join([first] + middle + [last], sep) == first + sep + Terminated(middle, sep) + last
    decreases |middle|
  {
    var ps := [first] + middle + [last];
    if |middle| == 0 {
      assert ps == [first, last];
      assert ps[..1] == [first];
    } else {
      var init := middle[..|middle| - 1];
      var m := middle[|middle| - 1];
      assert ps[..|ps| - 1] == [first] + init + [m];
      JoinFramed(first, init, m, sep);
      TerminatedSnoc(init, m, sep);
      assert middle == init + [m];
    }
  }

  lemma {:induction false} TerminatedSnoc(parts: seq<string>, x: string, sep: string)
    ensures Terminated(parts + [x], sep) == Terminated(parts, sep) + x + sep
    decreases |parts|
  {
    if |parts| == 0 {
      assert [x][1..] == [];
    } else {
      assert (parts + [x])[1..] == parts[1..] + [x];
      TerminatedSnoc(parts[1..], x, sep);
    }
  }

  // ---------------------------------------------------------------------
  // Case mapping, restricted to ASCII letters.

  function LowerChar(c: char): char {
    if 'A' <= c <= 'Z' then (c as int + 32) as char else c
  }

  function UpperChar(c: char): char {
    if 'a' <= c <= 'z' then (c as int - 32) as char else c
  }

  /** String.prototype.toLowerCase on ASCII letters. */
  function ToLower(s: string): (r: string)
    ensures |r| == |s|
    ensures forall i :: 0 <= i < |s| ==> r[i] == LowerChar(s[i])
  {
    if |s| == 0 then "" else [LowerChar(s[0])] + ToLower(s[1..])
  }

  /** s.charAt(0).toUpperCase() + s.slice(1) */
  function Capitalize(s: string): (r: string)
    ensures |r| == |s|
    ensures |s| > 0 ==> r[0] == UpperChar(s[0]) && r[1..] == s[1..]
  {
    if |s| == 0 then "" else [UpperChar(s[0])] + s[1..]
  }
}

/**
 * The Python string operations the application relies on, with Python's own
 * semantics: str.strip(), str.lower() (ASCII letters), str.startswith/endswith,
 * the `in` substring test, str.split(sep), str.split(), sep.join(parts),
 * str.replace(c, ''), and the "cut and append an ellipsis" idiom.
 */
module PyText {
  import opened Wrappers

  /** Python's str.isspace() on one character (the characters strip() and split() remove). */
  predicate IsSpace(c: char) {
    || c == ' '
    || ('\t' <= c <= '\r')
    || ('\U{1c}' <= c <= '\U{1f}')
    || c == '\U{85}' || c == '\U{a0}' || c == '\U{1680}'
    || ('\U{2000}' <= c <= '\U{200a}')
    || c == '\U{2028}' || c == '\U{2029}' || c == '\U{202f}' || c == '\U{205f}' || c == '\U{3000}'
  }

  /** str.lstrip(): drops the longest whitespace prefix. */
  function LStrip(s: string): (r: string)
    ensures |r| <= |s| && r == s[|s| - |r|..]
    ensures r == [] || !IsSpace(r[0])
    ensures forall i :: 0 <= i < |s| - |r| ==> IsSpace(s[i])
    decreases |s|
  {
    if s != [] && IsSpace(s[0]) then LStrip(s[1..]) else s
  }

  /** str.rstrip(): drops the longest whitespace suffix. */
  function RStrip(s: string): (r: string)
    ensures |r| <= |s| && r == s[..|r|]
    ensures r == [] || !IsSpace(r[|r| - 1])
    ensures forall i :: |r| <= i < |s| ==> IsSpace(s[i])
    decreases |s|
  {
    if s != [] && IsSpace(s[|s| - 1]) then RStrip(s[..|s| - 1]) else s
  }

  /** str.strip() */
  function Strip(s: string): string {
    RStrip(LStrip(s))
  }

  /** A stripped string neither begins nor ends with whitespace. */
  predicate Trimmed(s: string) {
    s == [] || (!IsSpace(s[0]) && !IsSpace(s[|s| - 1]))
  }

  lemma StripTrims(s: string)
    ensures Trimmed(Strip(s))
    ensures |Strip(s)| <= |s|
  {
    var l := LStrip(s);
    var r := RStrip(l);
    if r != [] {
      assert r[0] == l[0];
    }
  }

  /** Stripping a trimmed string changes nothing, so strip() is idempotent. */
  lemma StripTrimmed(s: string)
    requires Trimmed(s)
    ensures Strip(s) == s
  {
  }

  /** One space on either side of a trimmed text is stripped off and nothing more. */
  lemma StripPadded(s: string)
    requires s != [] && Trimmed(s)
    ensures Strip(" " + s + " ") == s
  {
    var padded := " " + s + " ";
    assert padded[1..] == s + " ";
    assert LStrip(padded) == LStrip(s + " ");
    assert (s + " ")[0] == s[0];
    assert LStrip(s + " ") == s + " ";
    assert (s + " ")[..|s|] == s;
    assert RStrip(s + " ") == RStrip(s);
  }

  lemma StripIdempotent(s: string)
    ensures Strip(Strip(s)) == Strip(s)
  {
    StripTrims(s);
    StripTrimmed(Strip(s));
  }

  /** str.lower() on one character; letters outside ASCII are not modelled. */
  function LowerChar(c: char): char {
    if 'A' <= c <= 'Z' then (c as int + 32) as char else c
  }

  /** str.lower() */
  function Lower(s: string): (r: string)
    ensures |r| == |s|
    ensures forall i :: 0 <= i < |s| ==> r[i] == LowerChar(s[i])
    decreases |s|
  {
    if s == [] then [] else [LowerChar(s[0])] + Lower(s[1..])
  }

  lemma LowerIdempotent(s: string)
    ensures Lower(Lower(s)) == Lower(s)
  {
  }

  predicate StartsWith(s: string, p: string) {
    |p| <= |s| && s[..|p|] == p
  }

  predicate EndsWith(s: string, p: string) {
    |p| <= |s| && s[|s| - |p|..] == p
  }

  /** t occurs in s at position j. */
  predicate OccursAt(s: string, t: string, j: int) {
    0 <= j && j + |t| <= |s| && s[j..j + |t|] == t
  }

  /** Python's `t in s` for strings. */
  predicate Contains(s: string, t: string) {
    exists j | 0 <= j <= |s| - |t| :: OccursAt(s, t, j)
  }

  /** The first position at or after k where a non-empty sep occurs (str.find(sep, k)). */
  function IndexFrom(s: string, sep: string, k: nat): (r: Option<nat>)
    requires |sep| > 0
    ensures r.Some? ==> k <= r.value && OccursAt(s, sep, r.value)
    ensures r.Some? ==> forall j :: k <= j < r.value ==> !OccursAt(s, sep, j)
    ensures r.None? ==> forall j :: k <= j ==> !OccursAt(s, sep, j)
    decreases |s| - k
  {
    if k + |sep| > |s| then None
    else if s[k..k + |sep|] == sep then Some(k)
    else IndexFrom(s, sep, k + 1)
  }

  /** str.find(sep) */
  function IndexOf(s: string, sep: string): Option<nat>
    requires |sep| > 0
  {
    IndexFrom(s, sep, 0)
  }

  /** find() fails exactly when sep does not occur. */
  lemma IndexOfNone(s: string, sep: string)
    requires |sep| > 0
    ensures IndexOf(s, sep).None? <==> !Contains(s, sep)
  {
    if IndexOf(s, sep).Some? {
      var i := IndexOf(s, sep).value;
      assert OccursAt(s, sep, i);
    }
  }

  /** An occurrence inside a prefix is an occurrence in the whole string. */
  lemma OccursInPrefix(s: string, n: nat, t: string, j: int)
    requires n <= |s| && OccursAt(s[..n], t, j)
    ensures OccursAt(s, t, j)
  {
    assert s[..n][j..j + |t|] == s[j..j + |t|];
  }

  /** The text before the first occurrence of sep does not contain sep. */
  lemma BeforeFirstOccurrence(s: string, sep: string)
    requires |sep| > 0 && IndexOf(s, sep).Some?
    ensures !Contains(s[..IndexOf(s, sep).value], sep)
  {
    var i := IndexOf(s, sep).value;
    forall j | 0 <= j <= i - |sep| ensures !OccursAt(s[..i], sep, j) {
      if OccursAt(s[..i], sep, j) {
        OccursInPrefix(s, i, sep, j);
      }
    }
  }

  /** str.split(sep) for a non-empty separator: empty pieces are kept. */
  function Split(s: string, sep: string): (r: seq<string>)
    requires |sep| > 0
    ensures |r| >= 1
    ensures forall k :: 0 <= k < |r| ==> !Contains(r[k], sep)
    decreases |s|
  {
    match IndexOf(s, sep)
    case None =>
      IndexOfNone(s, sep);
      [s]
    case Some(i) =>
      BeforeFirstOccurrence(s, sep);
      [s[..i]] + Split(s[i + |sep|..], sep)
  }

  /** sep.join(parts) */
  function Join(parts: seq<string>, sep: string): string
    decreases |parts|
  {
    if |parts| == 0 then ""
    else if |parts| == 1 then parts[0]
    else parts[0] + sep + Join(parts[1..], sep)
  }

  /** Joining the pieces of a split with the same separator gives the string back. */
  lemma {:induction false} JoinSplit(s: string, sep: string)
    requires |sep| > 0
    ensures Join(Split(s, sep), sep) == s
    decreases |s|
  {
    match IndexOf(s, sep)
    case None =>
    case Some(i) =>
      var rest := s[i + |sep|..];
      var pieces := Split(rest, sep);
      JoinSplit(rest, sep);
      assert Split(s, sep) == [s[..i]] + pieces;
      assert ([s[..i]] + pieces)[1..] == pieces;
      assert Join([s[..i]] + pieces, sep) == s[..i] + sep + Join(pieces, sep);
      assert s[i..i + |sep|] == sep;
      assert s == s[..i] + s[i..i + |sep|] + rest;
  }

  /** Joining a concatenation puts one separator between the two joins. */
  lemma {:induction false} JoinAppend(a: seq<string>, b: seq<string>, sep: string)
    requires a != [] && b != []
    ensures Join(a + b, sep) == Join(a, sep) + sep + Join(b, sep)
    decreases |a|
  {
    if |a| == 1 {
      assert (a + b)[1..] == b;
    } else {
      assert (a + b)[1..] == a[1..] + b;
      JoinAppend(a[1..], b, sep);
    }
  }

  /** A string without sep splits into itself alone. */
  lemma SplitWithout(s: string, sep: string)
    requires |sep| > 0 && !Contains(s, sep)
    ensures Split(s, sep) == [s]
  {
    IndexOfNone(s, sep);
  }

  /**
   * The first piece of split(sep) on `a + sep + b` is `a` exactly when sep does not
   * occur in `a` followed by all but the last character of sep (an occurrence there
   * would start before the separator that was put after `a`).
   */
  lemma {:induction false} SplitFirstPiece(a: string, sep: string, b: string)
    requires |sep| > 0
    ensures Split(a + sep + b, sep)[0] == a <==> !Contains(a + sep[..|sep| - 1], sep)
  {
    var s := a + sep + b;
    var w := a + sep[..|sep| - 1];
    assert w == s[..|a| + |sep| - 1];
    assert OccursAt(s, sep, |a|) by { assert s[|a|..|a| + |sep|] == sep; }
    var i := IndexOf(s, sep).value;
    assert i <= |a|;
    assert Split(s, sep)[0] == s[..i];
    if Contains(w, sep) {
      var j :| 0 <= j <= |w| - |sep| && OccursAt(w, sep, j);
      OccursInPrefix(s, |a| + |sep| - 1, sep, j);
      assert i <= j < |a|;
      assert |s[..i]| != |a|;
    } else {
      if i < |a| {
        assert s[..|a| + |sep| - 1][i..i + |sep|] == s[i..i + |sep|];
        assert OccursAt(w, sep, i);
        assert false;
      }
      assert s[..i] == a;
    }
  }

  /**
   * When the separator put after `a` is the first occurrence, split(sep) on
   * `a + sep + b` is `a` followed by the pieces of `b`.
   */
  lemma SplitAfterFirst(a: string, sep: string, b: string)
    requires |sep| > 0 && !Contains(a + sep[..|sep| - 1], sep)
    ensures Split(a + sep + b, sep) == [a] + Split(b, sep)
  {
    var s := a + sep + b;
    SplitFirstPiece(a, sep, b);
    assert OccursAt(s, sep, |a|) by { assert s[|a|..|a| + |sep|] == sep; }
    var i := IndexOf(s, sep).value;
    assert s[..i] == a;
    assert s[i + |sep|..] == b;
  }

  /** split(sep) gives a single piece exactly when sep does not occur. */
  lemma SplitSingle(s: string, sep: string)
    requires |sep| > 0
    ensures |Split(s, sep)| == 1 <==> !Contains(s, sep)
  {
    IndexOfNone(s, sep);
  }

  /** The number of leading characters of s that are not whitespace. */
  function WordLength(s: string): (n: nat)
    ensures n <= |s|
    ensures forall i :: 0 <= i < n ==> !IsSpace(s[i])
    ensures n == |s| || IsSpace(s[n])
    decreases |s|
  {
    if s == [] || IsSpace(s[0]) then 0 else 1 + WordLength(s[1..])
  }

  /** A non-empty run of non-whitespace characters. */
  predicate IsWord(w: string) {
    w != [] && forall i :: 0 <= i < |w| ==> !IsSpace(w[i])
  }

  /** str.split() without arguments: maximal runs of non-whitespace. */
  function SplitWords(s: string): seq<string>
    decreases |s|
  {
    var t := LStrip(s);
    if t == [] then [] else [t[..WordLength(t)]] + SplitWords(t[WordLength(t)..])
  }

  /** Every piece str.split() returns is a non-empty run of non-whitespace. */
  lemma {:induction false} SplitWordsAreWords(s: string)
    ensures forall k :: 0 <= k < |SplitWords(s)| ==> IsWord(SplitWords(s)[k])
    decreases |s|
  {
    var t := LStrip(s);
    if t != [] {
      var n := WordLength(t);
      assert IsWord(t[..n]);
      SplitWordsAreWords(t[n..]);
    }
  }

  /** str.replace(c, '') for a one-character pattern. */
  function RemoveChar(s: string, c: char): (r: string)
    ensures |r| <= |s|
    ensures c !in r
    ensures forall x :: x in r ==> x in s
  {
    if s == [] then []
    else if s[0] == c then RemoveChar(s[1..], c)
    else [s[0]] + RemoveChar(s[1..], c)
  }

  /** Lowering and removing a character that is not a letter can be done in either order. */
  lemma {:induction false} RemoveCharLower(s: string, c: char)
    requires !('A' <= c <= 'Z') && !('a' <= c <= 'z')
    ensures RemoveChar(Lower(s), c) == Lower(RemoveChar(s, c))
  {
    if s != [] {
      RemoveCharLower(s[1..], c);
      assert Lower(s) == [LowerChar(s[0])] + Lower(s[1..]);
      assert Lower(s)[1..] == Lower(s[1..]);
      if s[0] != c {
        assert Lower([s[0]] + RemoveChar(s[1..], c)) == [LowerChar(s[0])] + Lower(RemoveChar(s[1..], c));
      }
    }
  }

  /** Removing a character the string does not hold leaves it as it is. */
  lemma {:induction false} RemoveCharAbsent(s: string, c: char)
    requires c !in s
    ensures RemoveChar(s, c) == s
  {
    if s != [] {
      assert forall x :: x in s[1..] ==> x in s;
      RemoveCharAbsent(s[1..], c);
      assert s == [s[0]] + s[1..];
    }
  }

  /** s[:n] */
  function Prefix<T>(s: seq<T>, n: nat): (r: seq<T>)
    ensures |r| == if |s| <= n then |s| else n
    ensures r == s[..|r|]
  {
    if |s| <= n then s else s[..n]
  }

  /**
   * The application's length cap: a string longer than cap is cut to cap - 3
   * characters followed by "..."; a shorter one is kept.
   */
  function Ellipsize(s: string, cap: nat): (r: string)
    requires cap >= 3
    ensures |r| <= cap
    ensures |s| <= cap ==> r == s
    ensures |s| > cap ==> |r| == cap && EndsWith(r, "...") && r[..cap - 3] == s[..cap - 3]
  {
    if |s| > cap then s[..cap - 3] + "..." else s
  }

  /** Capping twice is capping once. */
  lemma EllipsizeIdempotent(s: string, cap: nat)
    requires cap >= 3
    ensures Ellipsize(Ellipsize(s, cap), cap) == Ellipsize(s, cap)
  {
  }

  /** str.find(c) for one character: the first position holding c. */
  function FindChar(s: string, c: char): (r: Option<nat>)
    ensures r.Some? ==> r.value < |s| && s[r.value] == c && forall k :: 0 <= k < r.value ==> s[k] != c
    ensures r.None? ==> c !in s
    decreases |s|
  {
    if s == [] then None
    else if s[0] == c then Some(0)
    else match FindChar(s[1..], c)
      case None => None
      case Some(k) => Some(k + 1)
  }

  /** str.rfind(c) for one character: the last position holding c. */
  function RFindChar(s: string, c: char): (r: Option<nat>)
    ensures r.Some? ==> r.value < |s| && s[r.value] == c && forall k :: r.value < k < |s| ==> s[k] != c
    ensures r.None? ==> c !in s
    decreases |s|
  {
    if s == [] then None
    else if s[|s| - 1] == c then Some(|s| - 1)
    else RFindChar(s[..|s| - 1], c)
  }
}

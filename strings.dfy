/** The parts of Go's `strings` package the core relies on, restricted to what
    the core passes them: `HasPrefix`, `Trim` with the cutset " ", `ToLower`
    on ASCII letters, `Join`, and a count of the `?` placeholders of an SQL
    text. */
module Strings {

  /** strings.HasPrefix */
  predicate HasPrefix(s: string, prefix: string)
  {
    |prefix| <= |s| && s[..|prefix|] == prefix
  }

  /** strings.TrimLeft(s, " "): drop the leading spaces. */
  function TrimLeft(s: string): (r: string)
    ensures |r| <= |s| && r == s[|s| - |r|..]
    ensures forall k :: 0 <= k < |s| - |r| ==> s[k] == ' '
    ensures r == [] || r[0] != ' '
  {
    if |s| > 0 && s[0] == ' ' then TrimLeft(s[1..]) else s
  }

  /** strings.TrimRight(s, " "): drop the trailing spaces. */
  function TrimRight(s: string): (r: string)
    ensures |r| <= |s| && r == s[..|r|]
    ensures forall k :: |r| <= k < |s| ==> s[k] == ' '
    ensures r == [] || r[|r| - 1] != ' '
  {
    if |s| > 0 && s[|s| - 1] == ' ' then TrimRight(s[..|s| - 1]) else s
  }

  /** strings.Trim(s, " "): cut the spaces on both sides. */
  function Trim(s: string): (r: string)
    ensures |r| <= |s|
    ensures r == [] || (r[0] != ' ' && r[|r| - 1] != ' ')
  {
    TrimRight(TrimLeft(s))
  }

  /** `n` spaces. */
  function Spaces(n: nat): (r: string)
    ensures |r| == n && forall k :: 0 <= k < n ==> r[k] == ' '
  {
    seq(n, k => ' ')
  }

  /** Trim undoes any padding with spaces of a text that neither starts nor
      ends with one. */
  lemma {:induction false} TrimPadded(left: nat, w: string, right: nat)
    requires w == [] || (w[0] != ' ' && w[|w| - 1] != ' ')
    ensures Trim(Spaces(left) + w + Spaces(right)) == w
  {
    if w == [] {
      assert Spaces(left) + w + Spaces(right) == Spaces(left + right);
      TrimLeftPadded(left + right, []);
      assert Spaces(left + right) + [] == Spaces(left + right);
    } else {
      assert Spaces(left) + w + Spaces(right) == Spaces(left) + (w + Spaces(right));
      TrimLeftPadded(left, w + Spaces(right));
      TrimRightPadded(w, right);
    }
  }

  lemma {:induction false} TrimLeftPadded(n: nat, t: string)
    requires t == [] || t[0] != ' '
    ensures TrimLeft(Spaces(n) + t) == t
  {
    if n > 0 {
      assert (Spaces(n) + t)[1..] == Spaces(n - 1) + t;
      TrimLeftPadded(n - 1, t);
    } else {
      assert Spaces(n) + t == t;
    }
  }

  lemma {:induction false} TrimRightPadded(w: string, n: nat)
    requires w == [] || w[|w| - 1] != ' '
    ensures TrimRight(w + Spaces(n)) == w
  {
    if n > 0 {
      assert (w + Spaces(n))[..|w| + n - 1] == w + Spaces(n - 1);
      TrimRightPadded(w, n - 1);
    } else {
      assert w + Spaces(n) == w;
    }
  }

  predicate IsUpper(c: char)
  {
    'A' <= c <= 'Z'
  }

  /** unicode.ToLower restricted to ASCII: upper-case Latin letters map to
      their lower-case letter, every other character is kept. */
  function LowerChar(c: char): char
  {
    if IsUpper(c) then (c as int + 32) as char else c
  }

  /** strings.ToLower on ASCII text. */
  function ToLower(s: string): (r: string)
    ensures |r| == |s|
    ensures forall k :: 0 <= k < |s| ==> r[k] == LowerChar(s[k])
  {
    seq(|s|, k requires 0 <= k < |s| => LowerChar(s[k]))
  }

  /** A text without upper-case letters is its own lower-case form. */
  lemma LowerFixed(s: string)
    requires forall k :: 0 <= k < |s| ==> !IsUpper(s[k])
    ensures ToLower(s) == s
  {
    assert forall k :: 0 <= k < |s| ==> ToLower(s)[k] == s[k];
  }

  /** Lower-casing twice is lower-casing once. */
  lemma LowerIdempotent(s: string)
    ensures ToLower(ToLower(s)) == ToLower(s)
  {
    LowerFixed(ToLower(s));
  }

  /** strings.Join: the items in order, with `sep` between neighbours. */
  function Join(items: seq<string>, sep: string): (r: string)
    ensures items == [] ==> r == ""
  {
    if |items| == 0 then ""
    else if |items| == 1 then items[0]
    else Join(items[..|items| - 1], sep) + sep + items[|items| - 1]
  }

  /** The number of `?` placeholders in an SQL text. */
  function Placeholders(s: string): nat
  {
    PlaceholdersFrom(s, 0)
  }

  /** The number of `?` placeholders in `s` at position `i` or later. */
  function PlaceholdersFrom(s: string, i: nat): nat
    requires i <= |s|
    decreases |s| - i
  {
    if i == |s| then 0 else (if s[i] == '?' then 1 else 0) + PlaceholdersFrom(s, i + 1)
  }

  lemma {:induction false} PlaceholdersShift(a: string, b: string, j: nat)
    requires j <= |b|
    ensures PlaceholdersFrom(a + b, |a| + j) == PlaceholdersFrom(b, j)
    decreases |b| - j
  {
    if j < |b| {
      PlaceholdersShift(a, b, j + 1);
    }
  }

  lemma {:induction false} PlaceholdersSplit(a: string, b: string, i: nat)
    requires i <= |a|
    ensures PlaceholdersFrom(a + b, i) == PlaceholdersFrom(a, i) + Placeholders(b)
    decreases |a| - i
  {
    if i < |a| {
      PlaceholdersSplit(a, b, i + 1);
    } else {
      PlaceholdersShift(a, b, 0);
    }
  }

  /** Counting placeholders distributes over concatenation. */
  lemma PlaceholdersAppend(a: string, b: string)
    ensures Placeholders(a + b) == Placeholders(a) + Placeholders(b)
  {
    PlaceholdersSplit(a, b, 0);
  }

  lemma {:induction false} PlaceholdersFromAbsent(s: string, i: nat)
    requires i <= |s|
    ensures PlaceholdersFrom(s, i) == 0 <==> '?' !in s[i..]
    decreases |s| - i
  {
    if i < |s| {
      PlaceholdersFromAbsent(s, i + 1);
      assert s[i..] == [s[i]] + s[i + 1..];
    }
  }

  /** A text holds a placeholder exactly when it contains a question mark. */
  lemma PlaceholdersAbsent(s: string)
    ensures Placeholders(s) == 0 <==> '?' !in s
  {
    PlaceholdersFromAbsent(s, 0);
    assert s[0..] == s;
  }
}

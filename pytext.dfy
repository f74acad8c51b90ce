/** The handful of Python string operations the core relies on, written out:
    `s.split()[-1]`, `s.find(t)`, `t in s`, `sep.join(parts)`, `s.split(sep)`
    and `re.sub(r"[^...]", "", s)` for a negated character class. */
module PyText {
  import opened Base

  /** Python's str.isspace(): the characters str.split() separates on. */
  predicate IsSpace(c: char) {
    c == ' ' || ('\U{9}' <= c <= '\U{D}') || ('\U{1C}' <= c <= '\U{1F}')
    || c == '\U{85}' || c == '\U{A0}' || c == '\U{1680}' || ('\U{2000}' <= c <= '\U{200A}')
    || c == '\U{2028}' || c == '\U{2029}' || c == '\U{202F}' || c == '\U{205F}' || c == '\U{3000}'
  }

  predicate AllSpace(s: string) {
    forall i :: 0 <= i < |s| ==> IsSpace(s[i])
  }

  predicate NoSpace(s: string) {
    forall i :: 0 <= i < |s| ==> !IsSpace(s[i])
  }

  /** `s` with its trailing whitespace removed (Python's s.rstrip()). */
  function TrimEnd(s: string): (t: string)
    ensures t <= s
    ensures AllSpace(s[|t|..])
    ensures t == [] || !IsSpace(t[|t| - 1])
    decreases |s|
  {
    if s == [] || !IsSpace(s[|s| - 1]) then s
    else
      var t := TrimEnd(s[..|s| - 1]);
      assert s[|t|..] == s[..|s| - 1][|t|..] + [s[|s| - 1]];
      t
  }

  /** The longest whitespace-free suffix of `t`. */
  function TrailingWord(t: string): (w: string)
    ensures |w| <= |t| && w == t[|t| - |w|..]
    ensures NoSpace(w)
    ensures |w| == |t| || IsSpace(t[|t| - |w| - 1])
    decreases |t|
  {
    if t == [] || IsSpace(t[|t| - 1]) then [] else TrailingWord(t[..|t| - 1]) + [t[|t| - 1]]
  }

  /** `w` is the last whitespace-delimited word of `s`, starting at index `k`:
      it is preceded by whitespace or the start of `s`, and only whitespace follows it. */
  ghost predicate IsLastWordAt(s: string, w: string, k: int) {
    && w != [] && NoSpace(w)
    && 0 <= k && k + |w| <= |s| && s[k..k + |w|] == w
    && (k == 0 || IsSpace(s[k - 1]))
    && AllSpace(s[k + |w|..])
  }

  /** `s.split()[-1]`: the last word of `s`, or None where Python raises
      IndexError because `s` is empty or all whitespace. */
  function LastWord(s: string): (r: Option<string>)
    ensures r.None? <==> AllSpace(s)
    ensures r.Some? ==> exists k :: IsLastWordAt(s, r.value, k)
  {
    var t := TrimEnd(s);
    if t == [] then
      assert s == s[|t|..];
      None
    else
      var w := TrailingWord(t);
      assert IsLastWordAt(s, w, |t| - |w|) by {
        assert s[..|t|] == t;
        assert s[|t| - |w|..|t|] == w;
      }
      Some(w)
  }

  /** A string that ends in the word `w`, after whitespace or nothing, has `w`
      as its last word. */
  lemma LastWordAfterSpace(pre: string, w: string)
    requires w != [] && NoSpace(w)
    requires pre == [] || IsSpace(pre[|pre| - 1])
    ensures LastWord(pre + w) == Some(w)
  {
    TrailingWordAfterSpace(pre, w);
  }

  lemma {:induction false} TrailingWordAfterSpace(pre: string, w: string)
    requires NoSpace(w)
    requires pre == [] || IsSpace(pre[|pre| - 1])
    ensures TrailingWord(pre + w) == w
    decreases |w|
  {
    if w == [] {
      assert pre + w == pre;
    } else {
      var init, last := w[..|w| - 1], w[|w| - 1];
      assert w == init + [last];
      assert pre + w == (pre + init) + [last];
      TrailingWordSnoc(pre + init, last);
      NoSpacePrefix(w, |w| - 1);
      TrailingWordAfterSpace(pre, init);
    }
  }

  lemma TrailingWordSnoc(t: string, c: char)
    requires !IsSpace(c)
    ensures TrailingWord(t + [c]) == TrailingWord(t) + [c]
  {
    assert (t + [c])[..|t|] == t;
  }

  lemma NoSpacePrefix(w: string, n: nat)
    requires NoSpace(w) && n <= |w|
    ensures NoSpace(w[..n])
  {
  }

  /** Whether `needle` occurs in `hay` starting at index `i`. */
  predicate OccursAt(hay: string, needle: string, i: int) {
    0 <= i && i + |needle| <= |hay| && hay[i..i + |needle|] == needle
  }

  function FindFrom(hay: string, needle: string, i: nat): (r: int)
    ensures r == -1 || (i <= r && OccursAt(hay, needle, r))
    ensures r == -1 ==> forall j :: i <= j ==> !OccursAt(hay, needle, j)
    ensures r != -1 ==> forall j :: i <= j < r ==> !OccursAt(hay, needle, j)
    decreases |hay| - i
  {
    if i + |needle| > |hay| then -1
    else if hay[i..i + |needle|] == needle then i
    else FindFrom(hay, needle, i + 1)
  }

  /** `hay.find(needle)`: the lowest index where `needle` occurs, or -1. */
  function Find(hay: string, needle: string): (r: int)
    ensures r == -1 <==> forall j :: !OccursAt(hay, needle, j)
    ensures r != -1 ==> OccursAt(hay, needle, r) && forall j :: 0 <= j < r ==> !OccursAt(hay, needle, j)
  {
    FindFrom(hay, needle, 0)
  }

  /** `needle in hay` for two strings: substring containment. */
  predicate Contains(hay: string, needle: string) {
    Find(hay, needle) != -1
  }

  /** `sep.join(parts)`. */
  function Join(parts: seq<string>, sep: string): string
    decreases |parts|
  {
    if |parts| == 0 then ""
    else if |parts| == 1 then parts[0]
    else parts[0] + sep + Join(parts[1..], sep)
  }

  /** `s.split(c)` for a one-character separator: every occurrence splits,
      so the result is never empty. */
  function SplitOn(s: string, c: char): (r: seq<string>)
    ensures |r| >= 1
    decreases |s|
  {
    var i := Find(s, [c]);
    if i == -1 then [s] else [s[..i]] + SplitOn(s[i + 1..], c)
  }

  /** Splitting a join on a separator none of the parts contains gives the
      parts back; an empty list is the exception, since "".split(c) == [""]. */
  lemma {:induction false} SplitJoin(parts: seq<string>, c: char)
    requires |parts| >= 1
    requires forall k :: 0 <= k < |parts| ==> c !in parts[k]
    ensures SplitOn(Join(parts, [c]), c) == parts
    decreases |parts|
  {
    var p := parts[0];
    if |parts| == 1 {
      NoCharNotFound(p, c);
    } else {
      var s := Join(parts, [c]);
      var rest := Join(parts[1..], [c]);
      assert s == p + [c] + rest;
      FirstCharAt(p, c, rest);
      assert s[..|p|] == p;
      assert s[|p| + 1..] == rest;
      SplitJoin(parts[1..], c);
    }
  }

  lemma NoCharNotFound(s: string, c: char)
    requires c !in s
    ensures Find(s, [c]) == -1
  {
    forall j | 0 <= j < |s| ensures !OccursAt(s, [c], j) {
      assert s[j..j + 1] == [s[j]];
    }
  }

  lemma FirstCharAt(p: string, c: char, rest: string)
    requires c !in p
    ensures Find(p + [c] + rest, [c]) == |p|
  {
    var s := p + [c] + rest;
    assert OccursAt(s, [c], |p|);
    forall j | 0 <= j < |p| ensures !OccursAt(s, [c], j) {
      assert s[j..j + 1] == [p[j]];
    }
  }

  /** `re.sub(r"[^...]", "", s)`: keep exactly the characters `keep` accepts, in order. */
  function Keep(s: string, keep: char -> bool): (r: string)
    ensures |r| <= |s|
    ensures forall i :: 0 <= i < |r| ==> keep(r[i])
    ensures forall i :: 0 <= i < |s| && keep(s[i]) ==> s[i] in r
    ensures |s| == 1 ==> r == (if keep(s[0]) then s else [])
    decreases |s|
  {
    if s == [] then []
    else if keep(s[0]) then [s[0]] + Keep(s[1..], keep)
    else Keep(s[1..], keep)
  }

  /** Filtering a concatenation filters each part: with the one-character case
      in Keep's contract, every accepted character survives, in its place in
      the order, and every rejected one is deleted. */
  lemma {:induction false} KeepConcat(a: string, b: string, keep: char -> bool)
    ensures Keep(a + b, keep) == Keep(a, keep) + Keep(b, keep)
    decreases |a|
  {
    if a == [] {
      assert a + b == b;
    } else {
      assert (a + b)[0] == a[0] && (a + b)[1..] == a[1..] + b;
      KeepConcat(a[1..], b, keep);
    }
  }

  /** Filtering is the identity on a string that already passes the filter... */
  lemma {:induction false} KeepFixed(s: string, keep: char -> bool)
    requires forall i :: 0 <= i < |s| ==> keep(s[i])
    ensures Keep(s, keep) == s
    decreases |s|
  {
    if s != [] {
      KeepFixed(s[1..], keep);
    }
  }

  /** ...so filtering twice is filtering once. */
  lemma KeepIdempotent(s: string, keep: char -> bool)
    ensures Keep(Keep(s, keep), keep) == Keep(s, keep)
  {
    KeepFixed(Keep(s, keep), keep);
  }

  /** No accepted character is lost: the result equals the input exactly when
      every input character is accepted. */
  lemma {:induction false} KeepDropsOnlyRejected(s: string, keep: char -> bool)
    ensures Keep(s, keep) == s <==> forall i :: 0 <= i < |s| ==> keep(s[i])
    decreases |s|
  {
    if s != [] {
      KeepDropsOnlyRejected(s[1..], keep);
      if !keep(s[0]) {
        assert |Keep(s, keep)| < |s|;
      } else if Keep(s, keep) == s {
        assert Keep(s[1..], keep) == s[1..];
      }
    }
  }
}

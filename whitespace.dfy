/**
 * The Python string operations the fetch tool uses to clean page text:
 * `str.split()` with no separator, `" ".join(...)` and `str.strip()`, all
 * over Python's notion of whitespace (`str.isspace`).
 */
module Whitespace {

  /**
   * The characters for which Python's `str.isspace()` holds: tab through
   * carriage return, the four information separators and the space, next
   * line, no-break space, ogham space mark, the spaces from en quad to hair
   * space, the line and paragraph separators, the narrow no-break and medium
   * mathematical spaces, and the ideographic space.
   */
  predicate IsSpace(c: char) {
    || '\t' <= c <= '\r'
    || '\U{1C}' <= c <= ' '
    || c == '\U{85}' || c == '\U{A0}' || c == '\U{1680}'
    || '\U{2000}' <= c <= '\U{200A}'
    || c == '\U{2028}' || c == '\U{2029}' || c == '\U{202F}' || c == '\U{205F}' || c == '\U{3000}'
  }

  /** A word as `split()` produces it: non-empty and free of whitespace. */
  predicate IsWord(w: string) {
    w != [] && forall i :: 0 <= i < |w| ==> !IsSpace(w[i])
  }

  /** Neither the first nor the last character is whitespace. */
  predicate NoEdgeSpace(t: string) {
    t == [] || (!IsSpace(t[0]) && !IsSpace(t[|t| - 1]))
  }

  /** Every whitespace character is a plain space and none is next to another. */
  ghost predicate SingleSpaced(t: string) {
    && (forall i :: 0 <= i < |t| && IsSpace(t[i]) ==> t[i] == ' ')
    && (forall i, j | 0 <= i < j < |t| && j == i + 1 :: !(IsSpace(t[i]) && IsSpace(t[j])))
  }

  /** Text in the form `" ".join(s.split())` produces. */
  ghost predicate Normalized(t: string) {
    NoEdgeSpace(t) && SingleSpaced(t)
  }

  /** The non-whitespace run at the start of `s`. */
  function LeadingWord(s: string): (w: string)
    ensures |w| <= |s| && w == s[..|w|]
    ensures forall i :: 0 <= i < |w| ==> !IsSpace(w[i])
    ensures |w| < |s| ==> IsSpace(s[|w|])
  {
    if s == [] || IsSpace(s[0]) then [] else [s[0]] + LeadingWord(s[1..])
  }

  /** Python's `s.split()`: the maximal runs of non-whitespace, in order. */
  function Split(s: string): (words: seq<string>)
    ensures forall k :: 0 <= k < |words| ==> IsWord(words[k])
    ensures s != [] && !IsSpace(s[0]) ==> words != [] && words[0] == LeadingWord(s)
    decreases |s|
  {
    if s == [] then []
    else if IsSpace(s[0]) then Split(s[1..])
    else
      var w := LeadingWord(s);
      [w] + Split(s[|w|..])
  }

  /** The leading run of `a` is unchanged by what follows `a` when it ends inside `a` or at whitespace. */
  lemma {:induction false} LeadingWordAppend(a: string, t: string)
    requires |LeadingWord(a)| < |a| || (t != [] && IsSpace(t[0]))
    ensures LeadingWord(a + t) == LeadingWord(a)
    decreases |a|
  {
    if a != [] && !IsSpace(a[0]) {
      assert (a + t)[1..] == a[1..] + t;
      LeadingWordAppend(a[1..], t);
    } else if a == [] {
      assert a + t == t;
    }
  }

  /**
   * `split()` cuts at every whitespace character: the words of `a`, a
   * whitespace character and `b` are the words of `a` followed by those of `b`.
   */
  lemma {:induction false} SplitAtSpace(a: string, c: char, b: string)
    requires IsSpace(c)
    ensures Split(a + [c] + b) == Split(a) + Split(b)
    decreases |a|
  {
    var s := a + [c] + b;
    if a == [] {
      assert s[1..] == b;
    } else if IsSpace(a[0]) {
      assert s[1..] == a[1..] + [c] + b;
      SplitAtSpace(a[1..], c, b);
    } else {
      var w := LeadingWord(a);
      assert s == a + ([c] + b);
      LeadingWordAppend(a, [c] + b);
      assert s[|w|..] == a[|w|..] + [c] + b;
      SplitAtSpace(a[|w|..], c, b);
    }
  }

  /** A word on its own splits into itself: `split()` never cuts between non-whitespace characters. */
  lemma SplitOfWord(w: string)
    requires IsWord(w)
    ensures Split(w) == [w]
  {
    var lw := LeadingWord(w);
    assert |lw| == |w|;
    assert lw == w[..|w|] == w;
    assert !IsSpace(w[0]);
    assert Split(w) == [w] + Split(w[|w|..]);
    assert w[|w|..] == [];
  }

  /** Text made only of whitespace has no words. */
  lemma {:induction false} SplitOfSpaces(s: string)
    requires forall i :: 0 <= i < |s| ==> IsSpace(s[i])
    ensures Split(s) == []
    decreases |s|
  {
    if s != [] {
      SplitOfSpaces(s[1..]);
    }
  }

  /** Python's `sep.join(words)`. */
  function Join(words: seq<string>, sep: string): string
    decreases |words|
  {
    if words == [] then []
    else if |words| == 1 then words[0]
    else words[0] + sep + Join(words[1..], sep)
  }

  /** `" ".join(s.split())`: whitespace runs become one space, edges are trimmed. */
  function Collapse(s: string): string {
    Join(Split(s), " ")
  }

  /** The characters of `s` that are not whitespace, in order. */
  function Visible(s: string): string
    decreases |s|
  {
    if s == [] then []
    else if IsSpace(s[0]) then Visible(s[1..])
    else [s[0]] + Visible(s[1..])
  }

  /** The characters of all the words, in order. */
  function Concat(words: seq<string>): string
    decreases |words|
  {
    if words == [] then [] else words[0] + Concat(words[1..])
  }

  lemma {:induction false} JoinOfWords(words: seq<string>)
    requires forall k :: 0 <= k < |words| ==> IsWord(words[k])
    ensures Normalized(Join(words, " "))
    ensures words != [] ==> Join(words, " ") != []
    decreases |words|
  {
    if |words| > 1 {
      var w, j := words[0], Join(words[1..], " ");
      JoinOfWords(words[1..]);
      assert IsWord(words[1]);
      var t := w + " " + j;
      assert Join(words, " ") == t;
      assert t[0] == w[0];
      assert t[|t| - 1] == j[|j| - 1];
      forall i | 0 <= i < |t| && IsSpace(t[i])
        ensures t[i] == ' '
      {
        if i > |w| { assert t[i] == j[i - |w| - 1]; }
      }
      forall i, k | 0 <= i < k < |t| && k == i + 1
        ensures !(IsSpace(t[i]) && IsSpace(t[k]))
      {
        if i > |w| { assert t[i] == j[i - |w| - 1] && t[k] == j[k - |w| - 1]; }
        else if i == |w| { assert t[k] == j[0]; }
      }
    }
  }

  /** Collapsed text has no whitespace at its edges, no run of whitespace, and only plain spaces. */
  lemma CollapseNormalized(s: string)
    ensures Normalized(Collapse(s))
  {
    JoinOfWords(Split(s));
  }

  /** A suffix of normalized text that starts after a space is normalized. */
  lemma NormalizedAfterSpace(t: string, k: nat)
    requires Normalized(t) && 0 < k < |t| && IsSpace(t[k - 1])
    ensures Normalized(t[k..]) && t[k..] != [] && !IsSpace(t[k])
  {
    var u := t[k..];
    assert !(IsSpace(t[k - 1]) && IsSpace(t[k]));
    forall i, j | 0 <= i < j < |u| && j == i + 1
      ensures !(IsSpace(u[i]) && IsSpace(u[j]))
    {
      assert u[i] == t[k + i] && u[j] == t[k + j];
    }
    forall i | 0 <= i < |u| && IsSpace(u[i])
      ensures u[i] == ' '
    {
      assert u[i] == t[k + i];
    }
  }

  /**
   * Normalized text that is more than one word is its first word, one space,
   * and normalized rest; `split()` yields that word followed by the words of
   * the rest.
   */
  lemma NormalizedStep(t: string)
    requires Normalized(t) && t != [] && |LeadingWord(t)| < |t|
    ensures var n := |LeadingWord(t)|;
      && n + 1 < |t| && Normalized(t[n + 1..])
      && t == LeadingWord(t) + " " + t[n + 1..]
      && Split(t) == [LeadingWord(t)] + Split(t[n + 1..])
  {
    var n := |LeadingWord(t)|;
    assert IsSpace(t[n]) && n > 0;
    assert n + 1 < |t|;
    NormalizedAfterSpace(t, n + 1);
    SplitPastWord(t);
    SpliceSpace(t, n);
  }

  /** Past its first word and one whitespace character, `split()` goes on with the rest. */
  lemma SplitPastWord(t: string)
    requires t != [] && !IsSpace(t[0]) && |LeadingWord(t)| < |t|
    ensures Split(t) == [LeadingWord(t)] + Split(t[|LeadingWord(t)| + 1..])
  {
    var n := |LeadingWord(t)|;
    assert t[n..][1..] == t[n + 1..];
  }

  lemma SpliceSpace(t: string, n: nat)
    requires n < |t| && t[n] == ' '
    ensures t == t[..n] + " " + t[n + 1..]
  {
  }

  lemma JoinCons(w: string, words: seq<string>, sep: string)
    requires words != []
    ensures Join([w] + words, sep) == w + sep + Join(words, sep)
  {
    assert ([w] + words)[1..] == words;
  }

  /** Normalized text is left unchanged by collapsing. */
  lemma {:induction false} CollapseFixesNormalized(t: string)
    requires Normalized(t)
    ensures Collapse(t) == t
    decreases |t|
  {
    if t != [] {
      var w := LeadingWord(t);
      if |w| == |t| {
        assert t[|w|..] == [];
        assert Split(t) == [w] + Split(t[|w|..]);
      } else {
        NormalizedStep(t);
        var u := t[|w| + 1..];
        CollapseFixesNormalized(u);
        assert Split(u) != [];
        JoinCons(w, Split(u), " ");
      }
    }
  }

  /** Splitting words joined by single spaces gives back the words: `" ".join` and `split()` round-trip. */
  lemma {:induction false} SplitOfJoin(words: seq<string>)
    requires forall k :: 0 <= k < |words| ==> IsWord(words[k])
    ensures Split(Join(words, " ")) == words
    decreases |words|
  {
    if |words| == 1 {
      SplitOfWord(words[0]);
    } else if |words| > 1 {
      var rest := Join(words[1..], " ");
      SplitOfJoin(words[1..]);
      SplitAtSpace(words[0], ' ', rest);
      assert Join(words, " ") == words[0] + [' '] + rest;
      SplitOfWord(words[0]);
    }
  }

  /** Collapsing keeps the words apart and in order: the collapsed text has exactly the original words. */
  lemma SplitOfCollapse(s: string)
    ensures Split(Collapse(s)) == Split(s)
  {
    SplitOfJoin(Split(s));
  }

  /** Collapsing twice is collapsing once. */
  lemma CollapseIdempotent(s: string)
    ensures Collapse(Collapse(s)) == Collapse(s)
  {
    CollapseNormalized(s);
    CollapseFixesNormalized(Collapse(s));
  }

  lemma {:induction false} VisibleAppend(a: string, b: string)
    ensures Visible(a + b) == Visible(a) + Visible(b)
    decreases |a|
  {
    if a == [] {
      assert a + b == b;
    } else {
      assert (a + b)[0] == a[0];
      assert (a + b)[1..] == a[1..] + b;
      VisibleAppend(a[1..], b);
      if IsSpace(a[0]) {
        assert Visible(a + b) == Visible(a[1..] + b);
      } else {
        assert Visible(a + b) == [a[0]] + Visible(a[1..] + b);
        assert [a[0]] + (Visible(a[1..]) + Visible(b)) == ([a[0]] + Visible(a[1..])) + Visible(b);
      }
    }
  }

  lemma {:induction false} VisibleOfWord(w: string)
    requires forall i :: 0 <= i < |w| ==> !IsSpace(w[i])
    ensures Visible(w) == w
    decreases |w|
  {
    if w != [] { VisibleOfWord(w[1..]); }
  }

  lemma {:induction false} VisibleOfJoin(words: seq<string>)
    requires forall k :: 0 <= k < |words| ==> IsWord(words[k])
    ensures Visible(Join(words, " ")) == Concat(words)
    decreases |words|
  {
    if words == [] {
    } else if |words| == 1 {
      VisibleOfWord(words[0]);
      assert Concat(words[1..]) == [];
    } else {
      VisibleOfJoin(words[1..]);
      VisibleAppend(words[0] + " ", Join(words[1..], " "));
      VisibleAppend(words[0], " ");
      VisibleOfWord(words[0]);
      assert Visible(" ") == [];
    }
  }

  lemma {:induction false} VisibleOfSplit(s: string)
    ensures Visible(s) == Concat(Split(s))
    decreases |s|
  {
    if s != [] {
      if IsSpace(s[0]) {
        VisibleOfSplit(s[1..]);
      } else {
        var w := LeadingWord(s);
        VisibleOfSplit(s[|w|..]);
        assert s == w + s[|w|..];
        VisibleAppend(w, s[|w|..]);
        VisibleOfWord(w);
        assert ([w] + Split(s[|w|..]))[1..] == Split(s[|w|..]);
      }
    }
  }

  /** Collapsing only changes whitespace: every other character survives, in order. */
  lemma CollapseKeepsVisible(s: string)
    ensures Visible(Collapse(s)) == Visible(s)
  {
    VisibleOfJoin(Split(s));
    VisibleOfSplit(s);
  }

  /** The index of the first non-whitespace character of `s` at or after `i` (`|s|` if none). */
  function VisibleStart(s: string, i: nat): (k: nat)
    requires i <= |s|
    ensures i <= k <= |s|
    ensures forall j :: i <= j < k ==> IsSpace(s[j])
    ensures k < |s| ==> !IsSpace(s[k])
    decreases |s| - i
  {
    if i < |s| && IsSpace(s[i]) then VisibleStart(s, i + 1) else i
  }

  /** The index just past the last non-whitespace character of `s[lo..j]` (`lo` if none). */
  function VisibleEnd(s: string, lo: nat, j: nat): (k: nat)
    requires lo <= j <= |s|
    ensures lo <= k <= j
    ensures forall i :: k <= i < j ==> IsSpace(s[i])
    ensures lo < k ==> !IsSpace(s[k - 1])
    decreases j
  {
    if lo < j && IsSpace(s[j - 1]) then VisibleEnd(s, lo, j - 1) else j
  }

  /** Python's `s.strip()`: the text between the leading and the trailing whitespace. */
  function Strip(s: string): (r: string)
    ensures NoEdgeSpace(r)
  {
    var a := VisibleStart(s, 0);
    s[a..VisibleEnd(s, a, |s|)]
  }

  /**
   * `strip()` removes whitespace only, and only at the two ends: the result
   * is `s[a..b]` with nothing but whitespace before `a` and from `b` on.
   */
  lemma StripBounds(s: string) returns (a: nat, b: nat)
    ensures a <= b <= |s| && Strip(s) == s[a..b]
    ensures forall i :: 0 <= i < a ==> IsSpace(s[i])
    ensures forall i :: b <= i < |s| ==> IsSpace(s[i])
  {
    a := VisibleStart(s, 0);
    b := VisibleEnd(s, a, |s|);
  }

  /** Text without whitespace at either end is left unchanged by `strip()`. */
  lemma StripFixesNoEdgeSpace(s: string)
    requires NoEdgeSpace(s)
    ensures Strip(s) == s
  {
    if s != [] {
      assert VisibleStart(s, 0) == 0;
      assert VisibleEnd(s, 0, |s|) == |s|;
    }
  }

  /** Stripping twice is stripping once. */
  lemma StripIdempotent(s: string)
    ensures Strip(Strip(s)) == Strip(s)
  {
    StripFixesNoEdgeSpace(Strip(s));
  }
}

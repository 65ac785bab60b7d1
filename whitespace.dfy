/** Python's `' '.join(text.split())`, the whitespace clean-up applied to every
    scraped page: `str.split()` with no separator cuts the text into maximal runs
    of non-whitespace characters, and `' '.join` glues them back with one space. */
module Whitespace {

  /** Python's `str.isspace()` for one character: the ASCII controls TAB, LF, VT,
      FF, CR, the four information separators 0x1C-0x1F, SPACE, and the Unicode
      spaces and line/paragraph separators. */
  predicate IsSpace(c: char): (b: bool)
    ensures c == ' ' || c == '\t' || c == '\n' || c == '\r' ==> b
    ensures '0' <= c <= '9' || 'A' <= c <= 'Z' || 'a' <= c <= 'z' ==> !b
  {
    var k := c as int;
    (9 <= k <= 13) || (28 <= k <= 32) || k == 0x85 || k == 0xA0 || k == 0x1680 ||
    (0x2000 <= k <= 0x200A) || k == 0x2028 || k == 0x2029 || k == 0x202F ||
    k == 0x205F || k == 0x3000
  }

  /** A word as `str.split()` yields it: non-empty and free of whitespace. */
  predicate IsWord(w: string) {
    w != [] && forall i :: 0 <= i < |w| ==> !IsSpace(w[i])
  }

  predicate AllWords(words: seq<string>) {
    forall k :: 0 <= k < |words| ==> IsWord(words[k])
  }

  /** Length of the longest whitespace-free prefix of `s`. */
  function WordEnd(s: string): (n: nat)
    ensures n <= |s|
    ensures forall i :: 0 <= i < n ==> !IsSpace(s[i])
    ensures n < |s| ==> IsSpace(s[n])
  {
    if s == [] || IsSpace(s[0]) then 0 else 1 + WordEnd(s[1..])
  }

  /** `s.split()`: the maximal whitespace-free runs of `s`, left to right. */
  function Split(s: string): (words: seq<string>)
    ensures AllWords(words)
    decreases |s|
  {
    if s == [] then []
    else if IsSpace(s[0]) then Split(s[1..])
    else
      var n := WordEnd(s);
      [s[..n]] + Split(s[n..])
  }

  /** `' '.join(words)`. */
  function Join(words: seq<string>): string {
    if |words| == 0 then ""
    else if |words| == 1 then words[0]
    else words[0] + " " + Join(words[1..])
  }

  /** `' '.join(s.split())`. */
  function Normalize(s: string): (r: string)
    ensures IsNormalized(r)
    ensures Visible(r) == Visible(s)
    ensures Split(r) == Split(s)
  {
    SplitVisible(s);
    SplitJoin(Split(s));
    JoinVisible(Split(s));
    JoinNormalized(Split(s));
    Join(Split(s))
  }

  /** The non-whitespace characters of `s`, in their original order. */
  function Visible(s: string): string {
    if s == [] then []
    else if IsSpace(s[0]) then Visible(s[1..])
    else [s[0]] + Visible(s[1..])
  }

  /** The words laid end to end, with nothing between them. */
  function Concat(words: seq<string>): string {
    if words == [] then [] else words[0] + Concat(words[1..])
  }

  /** Text already in normal form: no whitespace at either end, no whitespace
      other than the plain space, and never two spaces in a row. */
  predicate IsNormalized(t: string) {
    && (t != [] ==> !IsSpace(t[0]) && !IsSpace(t[|t| - 1]))
    && (forall i :: 0 <= i < |t| && IsSpace(t[i]) ==> t[i] == ' ')
    && (forall i, j :: 0 <= i < |t| && j == i + 1 && j < |t| && IsSpace(t[i]) ==> !IsSpace(t[j]))
  }

  lemma {:induction false} VisibleAppend(a: string, b: string)
    ensures Visible(a + b) == Visible(a) + Visible(b)
    decreases |a|
  {
    if a == [] {
      assert a + b == b;
    } else {
      assert (a + b)[1..] == a[1..] + b;
      VisibleAppend(a[1..], b);
    }
  }

  /** A word is all visible. */
  lemma {:induction false} VisibleOfWord(w: string)
    requires forall i :: 0 <= i < |w| ==> !IsSpace(w[i])
    ensures Visible(w) == w
    decreases |w|
  {
    if w != [] {
      VisibleOfWord(w[1..]);
      assert w == [w[0]] + w[1..];
    }
  }

  /** The words of `s`, laid end to end, are exactly its visible characters. */
  lemma {:induction false} SplitVisible(s: string)
    ensures Concat(Split(s)) == Visible(s)
    decreases |s|
  {
    if s == [] {
    } else if IsSpace(s[0]) {
      SplitVisible(s[1..]);
    } else {
      var n := WordEnd(s);
      assert s == s[..n] + s[n..];
      SplitVisible(s[n..]);
      VisibleOfWord(s[..n]);
      VisibleAppend(s[..n], s[n..]);
      assert Split(s) == [s[..n]] + Split(s[n..]);
      assert Concat(Split(s)) == s[..n] + Concat(Split(s[n..]));
    }
  }

  /** Joining words with spaces adds no visible character and loses none. */
  lemma {:induction false} JoinVisible(words: seq<string>)
    requires AllWords(words)
    ensures Visible(Join(words)) == Concat(words)
    decreases |words|
  {
    if |words| == 0 {
    } else if |words| == 1 {
      VisibleOfWord(words[0]);
      assert Concat(words) == words[0] + Concat([]);
    } else {
      var rest := words[1..];
      JoinVisible(rest);
      VisibleOfWord(words[0]);
      VisibleAppend(words[0], " " + Join(rest));
      VisibleAppend(" ", Join(rest));
      assert Join(words) == words[0] + (" " + Join(rest));
      assert Visible(" ") == [];
    }
  }

  /** A non-empty joined text starts and ends with a character of a word. */
  lemma {:induction false} JoinEnds(words: seq<string>)
    requires AllWords(words) && words != []
    ensures Join(words) != []
    ensures Join(words)[0] == words[0][0]
    ensures Join(words)[|Join(words)| - 1] == words[|words| - 1][|words[|words| - 1]| - 1]
    decreases |words|
  {
    var w := words[0];
    assert IsWord(w);
    if |words| > 1 {
      var rest := words[1..];
      JoinEnds(rest);
      var t := w + " " + Join(rest);
      assert Join(words) == t;
      assert t[0] == w[0];
      assert t[|t| - 1] == Join(rest)[|Join(rest)| - 1];
      assert words[|words| - 1] == rest[|rest| - 1];
    }
  }

  /** `' '.join` of whitespace-free words is in normal form. */
  lemma {:induction false} JoinNormalized(words: seq<string>)
    requires AllWords(words)
    ensures IsNormalized(Join(words))
    decreases |words|
  {
    if |words| == 0 {
    } else if |words| == 1 {
      assert IsWord(words[0]);
    } else {
      var w, rest := words[0], Join(words[1..]);
      JoinNormalized(words[1..]);
      JoinEnds(words);
      JoinEnds(words[1..]);
      assert IsWord(w);
      var t := w + " " + rest;
      assert Join(words) == t;
      forall i | 0 <= i < |t| && IsSpace(t[i])
        ensures t[i] == ' '
      {
        if i > |w| {
          assert t[i] == rest[i - |w| - 1];
        }
      }
      forall i, j | 0 <= i && j == i + 1 && j < |t| && IsSpace(t[i])
        ensures !IsSpace(t[j])
      {
        if i > |w| {
          assert t[i] == rest[i - |w| - 1];
          assert t[j] == rest[j - |w| - 1];
        } else if i == |w| {
          assert t[j] == rest[0];
        }
      }
    }
  }

  /** The first word of a text whose leading word is `w` and whose remainder
      starts with whitespace (or is empty) ends exactly where `w` ends. */
  lemma {:induction false} WordEndAfterWord(w: string, tail: string)
    requires forall i :: 0 <= i < |w| ==> !IsSpace(w[i])
    requires tail == [] || IsSpace(tail[0])
    ensures WordEnd(w + tail) == |w|
    decreases |w|
  {
    if w == [] {
      assert w + tail == tail;
    } else {
      assert (w + tail)[1..] == w[1..] + tail;
      WordEndAfterWord(w[1..], tail);
    }
  }

  /** Round trip: splitting what `' '.join` produced gives back the words. */
  lemma {:induction false} SplitJoin(words: seq<string>)
    requires AllWords(words)
    ensures Split(Join(words)) == words
    decreases |words|
  {
    if |words| == 0 {
    } else if |words| == 1 {
      var w := words[0];
      WordEndAfterWord(w, []);
      assert w + [] == w;
      assert w[|w|..] == [];
    } else {
      var w, rest := words[0], Join(words[1..]);
      var t := w + (" " + rest);
      assert Join(words) == t;
      WordEndAfterWord(w, " " + rest);
      assert t[..|w|] == w;
      assert t[|w|..] == " " + rest;
      assert (" " + rest)[1..] == rest;
      SplitJoin(words[1..]);
    }
  }

  /** Normal form is exactly the set of fixed points of the clean-up. */
  lemma {:induction false} NormalizedIsFixpoint(t: string)
    ensures IsNormalized(t) <==> Normalize(t) == t
  {
    if IsNormalized(t) {
      JoinSplitNormalized(t);
    }
  }

  lemma {:induction false} JoinSplitNormalized(t: string)
    requires IsNormalized(t)
    ensures Join(Split(t)) == t
    ensures t != [] ==> Split(t) != []
    decreases |t|
  {
    if t != [] {
      var n := WordEnd(t);
      if n < |t| {
        var w, u := t[..n], t[n + 1..];
        NormalizedAfterFirstWord(t);
        JoinSplitNormalized(u);
        SplitAfterFirstWord(t);
        JoinCons(w, Split(u), u);
        SpaceSplice(t, n);
      } else {
        assert t[n..] == [];
        assert t[..n] == t;
      }
    }
  }

  lemma JoinCons(w: string, ws: seq<string>, u: string)
    requires ws != [] && Join(ws) == u
    ensures Join([w] + ws) == w + " " + u
  {
    JoinAppend([w], ws);
  }

  lemma SpaceSplice(t: string, n: nat)
    requires n < |t| && t[n] == ' '
    ensures t[..n] + " " + t[n + 1..] == t
  {
    assert t == t[..n] + t[n..];
    assert t[n..] == [t[n]] + t[n + 1..];
  }

  /** In normal form, a first word that is not the whole text is followed by
      one space and a non-empty remainder that is again in normal form. */
  lemma NormalizedAfterFirstWord(t: string)
    requires IsNormalized(t) && t != [] && WordEnd(t) < |t|
    ensures WordEnd(t) < |t| - 1 && t[WordEnd(t)] == ' '
    ensures IsNormalized(t[WordEnd(t) + 1..])
  {
    var n := WordEnd(t);
    var u := t[n + 1..];
    forall i, j | 0 <= i && j == i + 1 && j < |u| && IsSpace(u[i])
      ensures !IsSpace(u[j])
    {
      assert u[i] == t[n + 1 + i] && u[j] == t[n + 1 + j];
    }
    assert u != [] ==> u[|u| - 1] == t[|t| - 1];
  }

  /** A text that starts with a word followed by whitespace splits into that
      word and the words of what follows the whitespace character. */
  lemma SplitAfterFirstWord(t: string)
    requires t != [] && !IsSpace(t[0]) && WordEnd(t) < |t|
    ensures Split(t) == [t[..WordEnd(t)]] + Split(t[WordEnd(t) + 1..])
  {
    var n := WordEnd(t);
    assert t[n..][1..] == t[n + 1..];
  }

  /** `split()` cuts at every whitespace character: whatever lies on either
      side of one is split on its own, so a run of whitespace separates two
      words exactly as a single character does. */
  lemma {:induction false} SplitAtSpace(a: string, c: char, b: string)
    requires IsSpace(c)
    ensures Split(a + [c] + b) == Split(a) + Split(b)
    decreases |a|
  {
    var s := a + [c] + b;
    if a == [] {
      assert s == [c] + b && s[1..] == b;
    } else if IsSpace(a[0]) {
      assert s[1..] == a[1..] + [c] + b;
      SplitAtSpace(a[1..], c, b);
    } else {
      var n := WordEnd(a);
      if n == |a| {
        WordEndAfterWord(a, [c] + b);
        assert s == a + ([c] + b);
        assert s[..n] == a && s[n..] == [c] + b && ([c] + b)[1..] == b;
        assert a[..n] == a && a[n..] == [];
      } else {
        WordEndAfterWord(a[..n], a[n..] + [c] + b);
        assert s == a[..n] + (a[n..] + [c] + b);
        assert s[..n] == a[..n] && s[n..] == a[n..] + [c] + b;
        SplitAtSpace(a[n..], c, b);
      }
    }
  }

  /** A single word splits into itself. */
  lemma SplitWord(w: string)
    requires IsWord(w)
    ensures Split(w) == [w]
  {
    assert AllWords([w]);
    SplitJoin([w]);
  }

  /** Applying the clean-up twice is the same as applying it once. */
  lemma NormalizeIdempotent(s: string)
    ensures Normalize(Normalize(s)) == Normalize(s)
  {
    NormalizedIsFixpoint(Normalize(s));
  }

  /** The clean-up yields the empty string exactly when the input holds no
      visible character. */
  lemma {:induction false} NormalizeEmpty(s: string)
    ensures Normalize(s) == "" <==> Visible(s) == ""
  {
    var r := Normalize(s);
    if r != "" {
      assert r == [r[0]] + r[1..];
      VisibleAppend([r[0]], r[1..]);
    }
  }

  /** Joining two non-empty runs of words puts one space between their joins. */
  lemma {:induction false} JoinAppend(a: seq<string>, b: seq<string>)
    requires a != [] && b != []
    ensures Join(a + b) == Join(a) + " " + Join(b)
    decreases |a|
  {
    if |a| == 1 {
      assert (a + b)[1..] == b;
    } else {
      assert (a + b)[1..] == a[1..] + b;
      JoinAppend(a[1..], b);
    }
  }
}

/** The string operations the message handler of apps/main.py relies on:
    `str.split()` without a separator, `str.startswith`, and taking the
    second whitespace-separated word of a message as the command's argument. */
module Text {
  import opened Options

  /** The characters Python's `str.split()` separates on (those for which
      `str.isspace` holds): tab through carriage return, the four
      information separators, space, and the Unicode spaces and line and
      paragraph separators. */
  predicate IsSpace(c: char) {
    || c == ' '
    || '\t' <= c <= '\r'
    || '\U{1C}' <= c <= '\U{1F}'
    || c == '\U{85}' || c == '\U{A0}' || c == '\U{1680}'
    || '\U{2000}' <= c <= '\U{200A}'
    || c == '\U{2028}' || c == '\U{2029}'
    || c == '\U{202F}' || c == '\U{205F}' || c == '\U{3000}'
  }

  /** The same characters listed one by one, as Unicode defines them:
      the controls with the bidirectional types B, S or WS, and the space
      separators (category Zs). */
  const WHITESPACE: set<char> := {
    '\t', '\n', '\U{B}', '\U{C}', '\r', '\U{1C}', '\U{1D}', '\U{1E}', '\U{1F}', ' ',
    '\U{85}', '\U{A0}', '\U{1680}',
    '\U{2000}', '\U{2001}', '\U{2002}', '\U{2003}', '\U{2004}', '\U{2005}',
    '\U{2006}', '\U{2007}', '\U{2008}', '\U{2009}', '\U{200A}',
    '\U{2028}', '\U{2029}', '\U{202F}', '\U{205F}', '\U{3000}'
  }

  /** `IsSpace` holds of exactly the characters of `WHITESPACE`. */
  lemma IsSpaceIsWhitespace(c: char)
    ensures IsSpace(c) <==> c in WHITESPACE
  {
  }

  /** A word `str.split()` can produce: non-empty and free of whitespace. */
  predicate IsToken(t: string) {
    t != [] && forall i :: 0 <= i < |t| ==> !IsSpace(t[i])
  }

  /** `str.startswith`. */
  predicate StartsWith(s: string, prefix: string) {
    |prefix| <= |s| && s[..|prefix|] == prefix
  }

  /** The text starts with the prefix exactly when it is at least as long
      and agrees with it at every position of the prefix. */
  lemma StartsWithAgrees(s: string, prefix: string)
    ensures StartsWith(s, prefix) <==>
              |prefix| <= |s| && forall k :: 0 <= k < |prefix| ==> s[k] == prefix[k]
  {
    assert |prefix| <= |s| ==> forall k :: 0 <= k < |prefix| ==> s[..|prefix|][k] == s[k];
  }

  /** `s` without its leading whitespace. */
  function TrimStart(s: string): (r: string)
    ensures |r| <= |s| && r == s[|s| - |r|..]
    ensures forall i :: 0 <= i < |s| - |r| ==> IsSpace(s[i])
    ensures r == [] || !IsSpace(r[0])
  {
    if s != [] && IsSpace(s[0]) then TrimStart(s[1..]) else s
  }

  /** The longest prefix of `s` that holds no whitespace. */
  function Word(s: string): (w: string)
    ensures |w| <= |s| && w == s[..|w|]
    ensures forall i :: 0 <= i < |w| ==> !IsSpace(w[i])
    ensures |w| == |s| || IsSpace(s[|w|])
  {
    if s == [] || IsSpace(s[0]) then [] else [s[0]] + Word(s[1..])
  }

  /** `s.split()`: the maximal runs of non-whitespace characters, in order;
      leading, trailing and repeated whitespace produce no empty words. */
  function Split(s: string): (words: seq<string>)
    ensures forall w :: w in words ==> IsToken(w)
    ensures words == [] <==> TrimStart(s) == []
    decreases |s|
  {
    var t := TrimStart(s);
    if t == [] then []
    else
      var w := Word(t);
      [w] + Split(t[|w|..])
  }

  /** `s.split()[1]`, or None where Python raises IndexError. */
  function SecondWord(s: string): (r: Option<string>)
    ensures r.Some? <==> |Split(s)| >= 2
    ensures r.Some? ==> IsToken(r.value)
  {
    var words := Split(s);
    if |words| >= 2 then Some(words[1]) else None
  }

  /** The words separated by single spaces: the right inverse of `Split`. */
  function Join(words: seq<string>): string {
    if words == [] then []
    else if |words| == 1 then words[0]
    else words[0] + " " + Join(words[1..])
  }

  lemma {:induction false} TrimStartKeepsRest(a: string, b: string)
    requires TrimStart(a) != []
    ensures TrimStart(a + b) == TrimStart(a) + b
  {
    assert (a + b)[0] == a[0];
    if IsSpace(a[0]) {
      assert (a + b)[1..] == a[1..] + b;
      TrimStartKeepsRest(a[1..], b);
    } else {
      assert TrimStart(a) == a && TrimStart(a + b) == a + b;
    }
  }

  lemma {:induction false} TrimStartSkipsBlank(a: string, b: string)
    requires TrimStart(a) == []
    ensures TrimStart(a + b) == TrimStart(b)
  {
    if a != [] {
      assert (a + b)[0] == a[0];
      assert (a + b)[1..] == a[1..] + b;
      TrimStartSkipsBlank(a[1..], b);
      assert TrimStart(a + b) == TrimStart(a[1..] + b);
    } else {
      assert a + b == b;
    }
  }

  lemma {:induction false} WordStopsAtSpace(t: string, b: string)
    requires b == [] || IsSpace(b[0])
    ensures Word(t + b) == Word(t)
  {
    if t == [] {
      assert t + b == b;
    } else if !IsSpace(t[0]) {
      assert (t + b)[0] == t[0];
      assert (t + b)[1..] == t[1..] + b;
      WordStopsAtSpace(t[1..], b);
    }
  }

  /** Splitting distributes over a concatenation whose second part starts
      with whitespace: no word straddles the seam. */
  lemma {:induction false} SplitConcat(a: string, b: string)
    requires b == [] || IsSpace(b[0])
    ensures Split(a + b) == Split(a) + Split(b)
    decreases |a|
  {
    var t := TrimStart(a);
    if t == [] {
      TrimStartSkipsBlank(a, b);
      SplitSameTrim(a + b, b);
      assert Split(a) == [];
    } else {
      TrimStartKeepsRest(a, b);
      WordStopsAtSpace(t, b);
      var w := Word(t);
      var rest := t[|w|..];
      DropConcat(t, b, |w|);
      assert Split(a + b) == [w] + Split(rest + b);
      SplitConcat(rest, b);
      ConcatAssoc([w], Split(rest), Split(b));
    }
  }

  lemma DropConcat<T>(x: seq<T>, y: seq<T>, k: nat)
    requires k <= |x|
    ensures (x + y)[k..] == x[k..] + y
  {
  }

  lemma ConcatAssoc<T>(x: seq<T>, y: seq<T>, z: seq<T>)
    ensures x + (y + z) == (x + y) + z
  {
  }

  /** Split looks at its input only through the input's trimmed form. */
  lemma SplitSameTrim(x: string, y: string)
    requires TrimStart(x) == TrimStart(y)
    ensures Split(x) == Split(y)
  {
  }

  /** A single token splits into itself. */
  lemma {:induction false} SplitToken(t: string)
    requires IsToken(t)
    ensures Split(t) == [t]
  {
    assert TrimStart(t) == t;
    WordOfToken(t);
    assert t[|t|..] == [];
  }

  lemma {:induction false} WordOfToken(t: string)
    requires forall i :: 0 <= i < |t| ==> !IsSpace(t[i])
    ensures Word(t) == t
  {
    if t != [] {
      WordOfToken(t[1..]);
    }
  }

  /** Splitting undoes joining with single spaces. */
  lemma {:induction false} SplitJoin(words: seq<string>)
    requires forall i :: 0 <= i < |words| ==> IsToken(words[i])
    ensures Split(Join(words)) == words
  {
    if |words| == 1 {
      SplitToken(words[0]);
    } else if |words| > 1 {
      var tail := words[1..];
      assert Split(Join(tail)) == tail by {
        SplitJoin(tail);
      }
      assert Split(Join(words)) == [words[0]] + Split(Join(tail)) by {
        SplitAfterToken(words[0], Join(tail));
      }
      ConsDrop(words);
    }
  }

  /** A token followed by a space is the first word of the split. */
  lemma SplitAfterToken(w: string, tail: string)
    requires IsToken(w)
    ensures Split(w + " " + tail) == [w] + Split(tail)
  {
    var rest := " " + tail;
    ConcatAssoc(w, " ", tail);
    SplitConcat(w, rest);
    SplitToken(w);
    assert rest[1..] == tail;
    SplitSameTrim(rest, tail);
  }

  lemma ConsDrop<T>(x: seq<T>)
    requires x != []
    ensures [x[0]] + x[1..] == x
  {
  }

  /** Whatever follows the second word after a space does not change it:
      `split()[1]` ignores the words after the second. */
  lemma SecondWordIgnoresTail(s: string, tail: string)
    requires |Split(s)| >= 2
    ensures SecondWord(s + " " + tail) == SecondWord(s)
  {
    SplitConcat(s, " " + tail);
    ConcatAssoc(s, " ", tail);
  }

  /** The second word of joined words is the second of them. */
  lemma SecondWordOfJoin(words: seq<string>)
    requires |words| >= 2
    requires forall i :: 0 <= i < |words| ==> IsToken(words[i])
    ensures SecondWord(Join(words)) == Some(words[1])
  {
    SplitJoin(words);
  }

  /** A whitespace-free prefix matches text followed by a space and more
      text exactly when it matches the text alone. */
  lemma StartsWithBeforeSpace(s: string, tail: string, prefix: string)
    requires forall i :: 0 <= i < |prefix| ==> !IsSpace(prefix[i])
    ensures StartsWith(s + " " + tail, prefix) <==> StartsWith(s, prefix)
  {
    var u := s + " " + tail;
    assert u[|s|] == ' ';
    if |prefix| <= |s| {
      assert u[..|prefix|] == s[..|prefix|];
    } else {
      // the space after s would lie inside the prefix
      assert !IsSpace(prefix[|s|]);
    }
  }
}

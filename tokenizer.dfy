/**
 * `boost::tokenizer` over a `boost::char_separator<char>(" ")`: the only
 * dropped delimiter is the space character, there are no kept delimiters, and
 * empty tokens are dropped. Tabs, newlines and every other character belong to
 * the token they stand in.
 */
module Tokenizer {

  /** Length of the run of non-space characters that starts `s`. */
  function RunLength(s: string): (n: nat)
    ensures n <= |s|
    ensures forall k :: 0 <= k < n ==> s[k] != ' '
    ensures n == |s| || s[n] == ' '
  {
    if s == [] || s[0] == ' ' then 0 else 1 + RunLength(s[1..])
  }

  /** The tokens of `s`, left to right: skip spaces, then take the longest run of non-spaces. */
  function Tokenize(s: string): (toks: seq<string>)
    ensures forall i :: 0 <= i < |toks| ==> |toks[i]| > 0 && ' ' !in toks[i]
    decreases |s|
  {
    if s == [] then []
    else if s[0] == ' ' then Tokenize(s[1..])
    else
      var n := RunLength(s);
      [s[..n]] + Tokenize(s[n..])
  }

  /** The characters of `s` other than the space, in order. */
  function WithoutSpaces(s: string): string {
    if s == [] then [] else (if s[0] == ' ' then [] else [s[0]]) + WithoutSpaces(s[1..])
  }

  /** The tokens written one after another. */
  function Concat(toks: seq<string>): string {
    if toks == [] then [] else toks[0] + Concat(toks[1..])
  }

  /** The tokens written with one space between neighbours. */
  function JoinBySpace(toks: seq<string>): string {
    if toks == [] then []
    else if |toks| == 1 then toks[0]
    else toks[0] + [' '] + JoinBySpace(toks[1..])
  }

  /** What a token can be: non-empty and free of spaces. */
  predicate IsToken(t: string) {
    |t| > 0 && ' ' !in t
  }

  lemma {:induction false} WithoutSpacesAppend(a: string, b: string)
    ensures WithoutSpaces(a + b) == WithoutSpaces(a) + WithoutSpaces(b)
    decreases |a|
  {
    if a != [] {
      assert (a + b)[0] == a[0] && (a + b)[1..] == a[1..] + b;
      WithoutSpacesAppend(a[1..], b);
    } else {
      assert a + b == b;
    }
  }

  lemma {:induction false} WithoutSpacesOfToken(t: string)
    requires ' ' !in t
    ensures WithoutSpaces(t) == t
    decreases |t|
  {
    if t != [] {
      WithoutSpacesOfToken(t[1..]);
    }
  }

  /** No character other than the space is dropped or moved: the tokens, written together, are `s` without its spaces. */
  lemma {:induction false} TokenizeKeepsOtherCharacters(s: string)
    ensures Concat(Tokenize(s)) == WithoutSpaces(s)
    decreases |s|
  {
    if s != [] {
      if s[0] == ' ' {
        TokenizeKeepsOtherCharacters(s[1..]);
      } else {
        var n := RunLength(s);
        assert s == s[..n] + s[n..];
        WithoutSpacesAppend(s[..n], s[n..]);
        WithoutSpacesOfToken(s[..n]);
        TokenizeKeepsOtherCharacters(s[n..]);
        var toks := Tokenize(s);
        assert toks[0] == s[..n] && toks[1..] == Tokenize(s[n..]);
      }
    }
  }

  lemma {:induction false} RunLengthBeforeSpace(a: string, b: string)
    ensures RunLength(a + [' '] + b) == RunLength(a)
    decreases |a|
  {
    if a != [] {
      assert (a + [' '] + b)[1..] == a[1..] + [' '] + b;
      RunLengthBeforeSpace(a[1..], b);
    }
  }

  /** Tokenising distributes over a space: the tokens of `a`, then those of `b`. */
  lemma {:induction false} TokenizeAtSpace(a: string, b: string)
    ensures Tokenize(a + [' '] + b) == Tokenize(a) + Tokenize(b)
    decreases |a|
  {
    var s := a + [' '] + b;
    if a == [] {
      assert s[1..] == b;
    } else if a[0] == ' ' {
      assert s[1..] == a[1..] + [' '] + b;
      TokenizeAtSpace(a[1..], b);
    } else {
      var n := RunLength(s);
      RunLengthBeforeSpace(a, b);
      assert s[..n] == a[..n];
      assert s[n..] == a[n..] + [' '] + b;
      TokenizeAtSpace(a[n..], b);
    }
  }

  /** A space-free, non-empty string is a single token. */
  lemma {:induction false} TokenizeToken(t: string)
    requires IsToken(t)
    ensures Tokenize(t) == [t]
  {
    var n := RunLength(t);
    assert forall k :: 0 <= k < |t| ==> t[k] != ' ';
    assert t[..n] == t && t[n..] == [];
  }

  /** Round trip: tokens joined by single spaces tokenise back to themselves. */
  lemma {:induction false} TokenizeJoinBySpace(toks: seq<string>)
    requires forall i :: 0 <= i < |toks| ==> IsToken(toks[i])
    ensures Tokenize(JoinBySpace(toks)) == toks
    decreases |toks|
  {
    if |toks| == 1 {
      TokenizeToken(toks[0]);
    } else if |toks| > 1 {
      TokenizeAtSpace(toks[0], JoinBySpace(toks[1..]));
      TokenizeToken(toks[0]);
      TokenizeJoinBySpace(toks[1..]);
      assert toks == [toks[0]] + toks[1..];
    }
  }

  /** Two names separated by several spaces; a tab inside a name does not split it. */
  lemma TabIsNotASeparator()
    ensures Tokenize("a\tb  c ") == ["a\tb", "c"]
  {
    assert "a\tb  c " == "a\tb" + [' '] + " c ";
    TokenizeAtSpace("a\tb", " c ");
    TokenizeToken("a\tb");
    assert " c "[1..] == "c ";
    assert "c " == "c" + [' '] + "";
    TokenizeAtSpace("c", "");
    TokenizeToken("c");
  }
}

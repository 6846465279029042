/** String operations on `seq<char>`: `Array.prototype.join` as the
    command builders use it, and two readers used to state what the built
    strings contain — splitting on one separator character and the
    space-separated words of a line. */
module Strings {

  /** `parts.join(sep)`: the parts in order with `sep` between neighbours;
      the empty list gives the empty string. */
  function Join(parts: seq<string>, sep: string): (r: string)
    ensures |parts| == 1 ==> r == parts[0]
    ensures parts == [] ==> r == ""
  {
    if |parts| == 0 then ""
    else if |parts| == 1 then parts[0]
    else parts[0] + sep + Join(parts[1..], sep)
  }

  /** The pieces of `s` between occurrences of `c`, left to right (as
      `s.split(c)` for a one-character separator): one more piece than
      there are occurrences of `c`. */
  function Split(s: string, c: char): (r: seq<string>)
    ensures |r| >= 1
    decreases |s|
  {
    if s == [] then [""]
    else
      var rest := Split(s[1..], c);
      if s[0] == c then [""] + rest
      else [[s[0]] + rest[0]] + rest[1..]
  }

  /** A string without the separator is a single piece. */
  lemma {:induction false} SplitWithoutSeparator(s: string, c: char)
    requires c !in s
    ensures Split(s, c) == [s]
    decreases |s|
  {
    if s != [] {
      SplitWithoutSeparator(s[1..], c);
      assert [s[0]] + s[1..] == s;
    }
  }

  /** The non-empty strings of `pieces`, in order. */
  function NonEmpty(pieces: seq<string>): (r: seq<string>)
    ensures forall i :: 0 <= i < |r| ==> r[i] != ""
    ensures |r| <= |pieces|
  {
    if pieces == [] then []
    else if pieces[0] == "" then NonEmpty(pieces[1..])
    else [pieces[0]] + NonEmpty(pieces[1..])
  }

  /** The words of `s` separated by runs of spaces. For a line with no
      tab, newline, quote or other character `sh` treats specially, these
      are the fields the shell splits it into. */
  function Tokens(s: string): seq<string>
  {
    NonEmpty(Split(s, ' '))
  }

  /** True when no string of `parts` contains `c`. */
  predicate NoneContains(parts: seq<string>, c: char)
  {
    forall i :: 0 <= i < |parts| ==> c !in parts[i]
  }

  lemma {:induction false} NonEmptyAppend(a: seq<string>, b: seq<string>)
    ensures NonEmpty(a + b) == NonEmpty(a) + NonEmpty(b)
    decreases |a|
  {
    if a != [] {
      assert (a + b)[1..] == a[1..] + b;
      NonEmptyAppend(a[1..], b);
    } else {
      assert a + b == b;
    }
  }

  /** Splitting at an occurrence of the separator splits the two sides
      independently. */
  lemma {:induction false} SplitAppend(s: string, c: char, t: string)
    ensures Split(s + [c] + t, c) == Split(s, c) + Split(t, c)
    decreases |s|
  {
    if s == [] {
      SplitCons(c, t, c);
      assert s + [c] + t == [c] + t;
    } else {
      var x, s' := s[0], s[1..];
      assert s == [x] + s';
      assert s + [c] + t == [x] + (s' + [c] + t);
      SplitAppend(s', c, t);
      SplitAppendStep(x, s', c, t);
    }
  }

  /** The inductive step of SplitAppend: prepending one character. */
  lemma SplitAppendStep(x: char, s: string, c: char, t: string)
    requires Split(s + [c] + t, c) == Split(s, c) + Split(t, c)
    ensures Split([x] + (s + [c] + t), c) == Split([x] + s, c) + Split(t, c)
  {
    SplitCons(x, s + [c] + t, c);
    SplitCons(x, s, c);
    if x != c {
      ConsAppend([x] + Split(s, c)[0], Split(s, c), Split(t, c));
    }
  }

  /** One step of `Split`: the first character either closes the first
      piece or is prepended to it. */
  lemma SplitCons(x: char, s: string, c: char)
    ensures Split([x] + s, c) ==
            if x == c then [""] + Split(s, c)
            else [[x] + Split(s, c)[0]] + Split(s, c)[1..]
  {
    assert ([x] + s)[1..] == s;
  }

  lemma ConsAppend<T>(f: T, l: seq<T>, r: seq<T>)
    requires |l| >= 1
    ensures (l + r)[0] == l[0]
    ensures [f] + (l + r)[1..] == ([f] + l[1..]) + r
  {
    assert (l + r)[1..] == l[1..] + r;
  }

  /** One occurrence of the separator makes exactly two pieces. */
  lemma SplitTwo(a: string, c: char, b: string)
    requires c !in a && c !in b
    ensures Split(a + [c] + b, c) == [a, b]
  {
    SplitAppend(a, c, b);
    SplitWithoutSeparator(a, c);
    SplitWithoutSeparator(b, c);
  }

  /** `join` then `split` on the same one-character separator gives the
      parts back, provided there is at least one part and no part contains
      the separator. */
  lemma {:induction false} SplitJoin(parts: seq<string>, c: char)
    requires |parts| >= 1
    requires NoneContains(parts, c)
    ensures Split(Join(parts, [c]), c) == parts
    decreases |parts|
  {
    assert c !in parts[0];
    SplitWithoutSeparator(parts[0], c);
    if |parts| > 1 {
      SplitJoin(parts[1..], c);
      SplitAppend(parts[0], c, Join(parts[1..], [c]));
      assert parts == [parts[0]] + parts[1..];
    }
  }

  /** Joining parts that are free of a character `d` with a separator free
      of `d` yields a string free of `d`. */
  lemma {:induction false} JoinAvoids(parts: seq<string>, sep: string, d: char)
    requires NoneContains(parts, d)
    requires d !in sep
    ensures d !in Join(parts, sep)
    decreases |parts|
  {
    if |parts| > 1 {
      JoinAvoids(parts[1..], sep, d);
      assert d !in parts[0];
    }
  }

  /** The words of `s + " " + t` are the words of `s` followed by those of
      `t`: any number of spaces separates words. */
  lemma TokensAppend(s: string, t: string)
    ensures Tokens(s + " " + t) == Tokens(s) + Tokens(t)
  {
    SplitAppend(s, ' ', t);
    NonEmptyAppend(Split(s, ' '), Split(t, ' '));
  }

  /** The word list of a single string: none when it is empty. */
  function Word(w: string): (r: seq<string>)
    ensures |r| <= 1
  {
    if w == "" then [] else [w]
  }

  /** A string without spaces is one word, or none when it is empty. */
  lemma TokensOfWord(w: string)
    requires ' ' !in w
    ensures Tokens(w) == Word(w)
  {
    SplitWithoutSeparator(w, ' ');
  }

  /** A leading word without spaces, then a space: that word (if not
      empty) and then the words of the rest. */
  lemma TokensCons(w: string, rest: string)
    requires ' ' !in w
    ensures Tokens(w + " " + rest) == Word(w) + Tokens(rest)
  {
    TokensAppend(w, rest);
    TokensOfWord(w);
  }

  /** Leading spaces produce no word. */
  lemma TokensLeadingSpace(rest: string)
    ensures Tokens(" " + rest) == Tokens(rest)
  {
    TokensCons("", rest);
    assert "" + " " + rest == " " + rest;
  }
}

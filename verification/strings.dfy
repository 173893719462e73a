/**
 * String assembly used by the generators: Guava's Joiner / Collectors.joining,
 * Java identifiers, and a splitter that serves as the decoding partner of joining.
 */
module Strings {

  /**
   * Characters a Java identifier may contain, over-approximated: any character other than
   * the punctuation and whitespace that Java never allows in an identifier and that the
   * generated text uses as separators. Unicode letters and digits are included.
   */
  predicate IsIdentifierChar(c: char) {
    c !in {'.', ',', '\n', '\t', ' ', '(', ')', ';'}
  }

  /** A non-empty Java identifier, such as a simple class name. */
  predicate IsIdentifier(s: string) {
    |s| > 0 && forall i :: 0 <= i < |s| ==> IsIdentifierChar(s[i])
  }

  /** A package name: identifiers separated by dots, or the empty (default) package. */
  predicate IsPackageName(s: string) {
    forall i :: 0 <= i < |s| ==> IsIdentifierChar(s[i]) || s[i] == '.'
  }

  /** `String.join(sep, xs)`: the elements of `xs` with `sep` between neighbours. */
  function Join(xs: seq<string>, sep: string): string
    decreases |xs|
  {
    if |xs| == 0 then ""
    else if |xs| == 1 then xs[0]
    else xs[0] + sep + Join(xs[1..], sep)
  }

  /** Index of the first occurrence of `c` in `s`. */
  function IndexOf<T(==)>(s: seq<T>, c: T): (i: nat)
    requires c in s
    ensures i < |s| && s[i] == c && c !in s[..i]
  {
    if s[0] == c then 0
    else
      assert c in s[1..] by { var k :| 0 <= k < |s| && s[k] == c; assert s[1..][k - 1] == c; }
      1 + IndexOf(s[1..], c)
  }

  /**
   * Cuts `s` at each occurrence of the first character of `sep`, skipping `|sep|`
   * characters there: the inverse of `Join` for elements free of that character.
   */
  function Split(s: string, sep: string): (r: seq<string>)
    requires |sep| > 0
    ensures |r| > 0
    ensures sep[0] !in s ==> r == [s]
    decreases |s|
  {
    if sep[0] !in s then [s]
    else
      var i := IndexOf(s, sep[0]);
      var next := if i + |sep| <= |s| then i + |sep| else |s|;
      [s[..i]] + Split(s[next..], sep)
  }

  /** A character that is neither in `sep` nor in any element is not in the joined string. */
  lemma {:induction false} JoinAvoids(xs: seq<string>, sep: string, c: char)
    requires c !in sep
    requires forall k :: 0 <= k < |xs| ==> c !in xs[k]
    ensures c !in Join(xs, sep)
    decreases |xs|
  {
    if |xs| > 1 {
      JoinAvoids(xs[1..], sep, c);
      assert c !in xs[0];
    }
  }

  /** The first occurrence of `c` in `a + b` is where `b` starts when `a` lacks `c`. */
  lemma IndexOfAfterPrefix(a: string, b: string, c: char)
    requires c !in a && |b| > 0 && b[0] == c
    ensures c in a + b && IndexOf(a + b, c) == |a|
  {
    assert (a + b)[|a|] == c;
  }

  /** One step of `Split` at an occurrence of the whole separator. */
  lemma SplitStep(head: string, sep: string, rest: string)
    requires |sep| > 0 && sep[0] !in head
    ensures Split(head + sep + rest, sep) == [head] + Split(rest, sep)
  {
    var s := head + sep + rest;
    assert s == head + (sep + rest);
    IndexOfAfterPrefix(head, sep + rest, sep[0]);
    var next := |head| + |sep|;
    assert next <= |s|;
    assert Split(s, sep) == [s[..|head|]] + Split(s[next..], sep);
    assert s[..|head|] == head;
    assert s[next..] == rest;
  }

  /**
   * Round trip: splitting a joined non-empty list gives the list back, provided no
   * element contains the separator's first character.
   */
  lemma {:induction false} SplitJoin(xs: seq<string>, sep: string)
    requires |xs| > 0 && |sep| > 0
    requires forall k :: 0 <= k < |xs| ==> sep[0] !in xs[k]
    ensures Split(Join(xs, sep), sep) == xs
    decreases |xs|
  {
    if |xs| > 1 {
      var rest := Join(xs[1..], sep);
      assert Join(xs, sep) == xs[0] + sep + rest;
      SplitStep(xs[0], sep, rest);
      SplitJoin(xs[1..], sep);
      assert xs == [xs[0]] + xs[1..];
    }
  }
}

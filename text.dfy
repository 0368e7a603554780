/** ASCII string helpers: `toLowerCase`/`toUpperCase`, `includes`,
    `join(' ')`, and the whitespace tokenisation a `class` attribute undergoes. */
module Text {

  function ToLowerChar(c: char): char {
    if 'A' <= c <= 'Z' then (c as int + 32) as char else c
  }

  function ToUpperChar(c: char): char {
    if 'a' <= c <= 'z' then (c as int - 32) as char else c
  }

  /** `s.toLowerCase()` restricted to ASCII letters. */
  function ToLower(s: string): (r: string)
    ensures |r| == |s|
    ensures forall i :: 0 <= i < |s| ==> r[i] == ToLowerChar(s[i])
    decreases |s|
  {
    if s == [] then [] else [ToLowerChar(s[0])] + ToLower(s[1..])
  }

  /** `s.toUpperCase()` restricted to ASCII letters. */
  function ToUpper(s: string): (r: string)
    ensures |r| == |s|
    ensures forall i :: 0 <= i < |s| ==> r[i] == ToUpperChar(s[i])
    ensures forall i :: 0 <= i < |s| ==> !('a' <= r[i] <= 'z')
    decreases |s|
  {
    if s == [] then [] else [ToUpperChar(s[0])] + ToUpper(s[1..])
  }

  /** Upper-casing an upper-cased string changes nothing. */
  lemma ToUpperIdempotent(s: string)
    ensures ToUpper(ToUpper(s)) == ToUpper(s)
  {
    var u := ToUpper(s);
    assert forall i :: 0 <= i < |u| ==> ToUpperChar(u[i]) == u[i];
  }

  /** `hay.includes(needle)`: `needle` occurs at some position of `hay`. */
  predicate Contains(hay: string, needle: string) {
    exists i :: 0 <= i <= |hay| && needle <= hay[i..]
  }

  /** `parts.join(' ')`. */
  function JoinSpace(parts: seq<string>): string
    decreases |parts|
  {
    if parts == [] then ""
    else if |parts| == 1 then parts[0]
    else parts[0] + " " + JoinSpace(parts[1..])
  }

  predicate NoSpace(s: string) {
    forall i :: 0 <= i < |s| ==> s[i] != ' '
  }

  /** Index of the first space in `s`, or `|s|` when there is none. */
  function FirstSpace(s: string): (k: nat)
    ensures k <= |s|
    ensures NoSpace(s[..k])
    ensures k < |s| ==> s[k] == ' '
    decreases |s|
  {
    if s == [] then 0
    else if s[0] == ' ' then 0
    else
      var k := 1 + FirstSpace(s[1..]);
      assert forall i :: 1 <= i < k ==> s[..k][i] == s[1..][..k - 1][i - 1];
      k
  }

  /** The non-empty, space-separated tokens of `s`, as a browser reads a
      `class` attribute. */
  function Tokens(s: string): seq<string>
    decreases |s|
  {
    if s == [] then []
    else
      var k := FirstSpace(s);
      (if k == 0 then [] else [s[..k]]) + (if k == |s| then [] else Tokens(s[k + 1..]))
  }

  lemma {:induction false} TokensOfWord(w: string)
    requires NoSpace(w)
    ensures Tokens(w) == if w == "" then [] else [w]
  {
    if w != [] {
      FirstSpaceOfWord(w);
      assert w[..|w|] == w;
    }
  }

  lemma {:induction false} FirstSpaceOfWord(w: string)
    requires NoSpace(w)
    ensures FirstSpace(w) == |w|
    decreases |w|
  {
    if w != [] {
      FirstSpaceOfWord(w[1..]);
    }
  }

  /** The first space of `a + " " + b` is the one after `a` when `a` has none. */
  lemma {:induction false} FirstSpaceAfterWord(a: string, b: string)
    requires NoSpace(a)
    ensures FirstSpace(a + " " + b) == |a|
    decreases |a|
  {
    if a != [] {
      assert (a + " " + b)[1..] == a[1..] + " " + b;
      FirstSpaceAfterWord(a[1..], b);
    }
  }

  /** A single space separates the tokens of its two sides and nothing more. */
  lemma {:induction false} TokensAround(a: string, b: string)
    ensures Tokens(a + " " + b) == Tokens(a) + Tokens(b)
    decreases |a|
  {
    var s := a + " " + b;
    var k := FirstSpace(a);
    if k == |a| {
      assert a[..k] == a;
      FirstSpaceAfterWord(a, b);
      assert s[..k] == a;
      assert s[k + 1..] == b;
      TokensOfWord(a);
    } else {
      assert a == a[..k] + " " + a[k + 1..];
      assert NoSpace(s[..k]) by { assert s[..k] == a[..k]; }
      FirstSpaceAfterWord(a[..k], a[k + 1..] + " " + b);
      assert s == a[..k] + " " + (a[k + 1..] + " " + b);
      assert s[..k] == a[..k];
      assert s[k + 1..] == a[k + 1..] + " " + b;
      TokensAround(a[k + 1..], b);
    }
  }

  /** Joining space-free words with single spaces and tokenising again gives
      back exactly the non-empty words, in order. */
  lemma {:induction false} TokensOfJoin(parts: seq<string>)
    requires forall i :: 0 <= i < |parts| ==> NoSpace(parts[i])
    ensures Tokens(JoinSpace(parts)) == NonEmpty(parts)
    decreases |parts|
  {
    if |parts| == 1 {
      TokensOfWord(parts[0]);
    } else if |parts| > 1 {
      TokensAround(parts[0], JoinSpace(parts[1..]));
      TokensOfWord(parts[0]);
      TokensOfJoin(parts[1..]);
    }
  }

  function NonEmpty(parts: seq<string>): (r: seq<string>)
    decreases |parts|
  {
    if parts == [] then []
    else (if parts[0] == "" then [] else [parts[0]]) + NonEmpty(parts[1..])
  }
}

/** The handful of PHP built-ins whose exact behaviour the resolvers depend on. */
module Php {

  /** PHP's `empty()` on a string: both "" and "0" count as empty. */
  predicate Empty(s: string) {
    s == "" || s == "0"
  }

  /** The characters `trim()` strips by default: space, tab, newline, carriage return, NUL, vertical tab. */
  predicate IsTrimChar(c: char) {
    c == ' ' || c == '\t' || c == '\n' || c == '\r' || c == '\0' || c == '\U{B}'
  }

  /** `ltrim()`: drops leading trim characters. */
  function TrimLeft(s: string): string {
    if |s| > 0 && IsTrimChar(s[0]) then TrimLeft(s[1..]) else s
  }

  /** `rtrim()`: drops trailing trim characters. */
  function TrimRight(s: string): string {
    if |s| > 0 && IsTrimChar(s[|s| - 1]) then TrimRight(s[..|s| - 1]) else s
  }

  /** `trim()`: both ends stripped. */
  function Trim(s: string): string {
    TrimRight(TrimLeft(s))
  }

  /*
   * The facts about trimming live in lemmas rather than in the functions' contracts, so that every
   * resolver that mentions a trimmed POST value does not carry them into its own proof.
   */

  /** `ltrim()` keeps a suffix, strips only trim characters, and leaves no trim character in front. */
  lemma {:induction false} TrimLeftShape(s: string)
    ensures |TrimLeft(s)| <= |s| && TrimLeft(s) == s[|s| - |TrimLeft(s)|..]
    ensures forall i :: 0 <= i < |s| - |TrimLeft(s)| ==> IsTrimChar(s[i])
    ensures TrimLeft(s) == [] || !IsTrimChar(TrimLeft(s)[0])
  {
    if |s| > 0 && IsTrimChar(s[0]) {
      TrimLeftShape(s[1..]);
    }
  }

  /** `rtrim()` keeps a prefix, strips only trim characters, and leaves no trim character at the end. */
  lemma {:induction false} TrimRightShape(s: string)
    ensures |TrimRight(s)| <= |s| && TrimRight(s) == s[..|TrimRight(s)|]
    ensures forall i :: |TrimRight(s)| <= i < |s| ==> IsTrimChar(s[i])
    ensures TrimRight(s) == [] || !IsTrimChar(TrimRight(s)[|TrimRight(s)| - 1])
  {
    if |s| > 0 && IsTrimChar(s[|s| - 1]) {
      TrimRightShape(s[..|s| - 1]);
    }
  }

  /**
   * `trim()` returns the infix of `s` left after stripping trim characters from both ends: every stripped
   * character is a trim character, and the result neither starts nor ends with one.
   */
  lemma TrimShape(s: string)
    ensures var l := TrimLeft(s);
      && |l| <= |s| && |Trim(s)| <= |l|
      && l == s[|s| - |l|..] && Trim(s) == l[..|Trim(s)|]
      && (forall i :: 0 <= i < |s| - |l| ==> IsTrimChar(s[i]))
      && (forall i :: |Trim(s)| <= i < |l| ==> IsTrimChar(l[i]))
    ensures Trim(s) == [] || (!IsTrimChar(Trim(s)[0]) && !IsTrimChar(Trim(s)[|Trim(s)| - 1]))
  {
    TrimLeftShape(s);
    TrimRightShape(TrimLeft(s));
  }

  /** A string that neither starts nor ends with a trim character is left as it is. */
  lemma TrimKeeps(s: string)
    requires s == [] || (!IsTrimChar(s[0]) && !IsTrimChar(s[|s| - 1]))
    ensures Trim(s) == s
  {
    assert TrimLeft(s) == s;
  }

  /** Trimming twice is trimming once. */
  lemma TrimIdempotent(s: string)
    ensures Trim(Trim(s)) == Trim(s)
  {
    TrimShape(s);
    TrimKeeps(Trim(s));
  }

  /** `str_starts_with()`. */
  predicate StartsWith(s: string, prefix: string) {
    |prefix| <= |s| && s[..|prefix|] == prefix
  }

  /** `substr($s, strlen($prefix))` guarded by `str_starts_with($s, $prefix)`: removes one leading `prefix`. */
  function StripPrefix(s: string, prefix: string): (r: string)
    ensures StartsWith(s, prefix) ==> prefix + r == s
    ensures !StartsWith(s, prefix) ==> r == s
  {
    if StartsWith(s, prefix) then s[|prefix|..] else s
  }

  /** `implode($sep, $xs)`. */
  function Join(xs: seq<string>, sep: string): (r: string)
    ensures xs == [] ==> r == ""
    ensures |xs| == 1 ==> r == xs[0]
  {
    if |xs| == 0 then ""
    else if |xs| == 1 then xs[0]
    else Join(xs[..|xs| - 1], sep) + sep + xs[|xs| - 1]
  }

  /** Joining two non-empty lists puts exactly one separator between their joins. */
  lemma {:induction false} JoinConcat(a: seq<string>, b: seq<string>, sep: string)
    requires a != [] && b != []
    ensures Join(a + b, sep) == Join(a, sep) + sep + Join(b, sep)
    decreases |b|
  {
    var ab := a + b;
    assert ab[..|ab| - 1] == a + b[..|b| - 1];
    if |b| == 1 {
      assert ab[..|ab| - 1] == a;
    } else {
      JoinConcat(a, b[..|b| - 1], sep);
    }
  }
}

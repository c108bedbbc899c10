/** The string matching the service relies on: the case-insensitive regular
    expression `/\/todos/gi` and the pathname Express routes on. */
module Text {

  /** ASCII lower-casing. A JavaScript `/i` regular expression without the `u`
      flag never folds a non-ASCII character onto an ASCII one, so for the
      all-ASCII patterns used here this is exactly its notion of case. */
  function LowerChar(c: char): char {
    if 'A' <= c <= 'Z' then (c as int + 32) as char else c
  }

  function Lower(s: string): string {
    seq(|s|, i requires 0 <= i < |s| => LowerChar(s[i]))
  }

  /** `pat` (written in lower case) occurs in `s` at position `i`, ignoring case. */
  predicate OccursAt(s: string, pat: string, i: nat) {
    i + |pat| <= |s| && Lower(s[i..i + |pat|]) == pat
  }

  ghost predicate ContainsIgnoringCase(s: string, pat: string) {
    exists i: nat :: OccursAt(s, pat, i)
  }

  /** Left-to-right scan for a match at or after `from`; the result is true
      exactly when the regular expression finds some match there. */
  function SearchFrom(s: string, pat: string, from: nat): (found: bool)
    requires from <= |s|
    ensures found <==> exists i: nat :: from <= i && OccursAt(s, pat, i)
    decreases |s| - from
  {
    if OccursAt(s, pat, from) then true
    else if from == |s| then false
    else SearchFrom(s, pat, from + 1)
  }

  /** `s.match(/pat/gi)?.length > 0`: the match array is non-empty exactly when
      the pattern occurs somewhere. */
  function MatchesIgnoringCase(s: string, pat: string): (found: bool)
    ensures found <==> ContainsIgnoringCase(s, pat)
  {
    SearchFrom(s, pat, 0)
  }

  /** The pathname of a request target: everything before the first `?`
      (query) or `#` (fragment). */
  function PathName(url: string): (p: string)
    ensures p <= url
    ensures '?' !in p && '#' !in p
    ensures |p| < |url| ==> url[|p|] == '?' || url[|p|] == '#'
  {
    if url == [] || url[0] == '?' || url[0] == '#' then []
    else [url[0]] + PathName(url[1..])
  }

  /** Lower-casing commutes with taking a prefix. */
  lemma LowerPrefix(s: string, n: nat)
    requires n <= |s|
    ensures Lower(s)[..n] == Lower(s[..n])
  {
  }

  /** A case-insensitive occurrence at the start of a prefix of `s` is one in `s`. */
  lemma {:induction false} PrefixOccurrence(p: string, s: string, pat: string)
    requires p <= s
    requires |pat| <= |p| && Lower(p)[..|pat|] == pat
    ensures ContainsIgnoringCase(s, pat)
  {
    LowerPrefix(p, |pat|);
    assert p[..|pat|] == s[0..|pat|];
    assert OccursAt(s, pat, 0);
  }

  /** A string in which no character folds to some letter of `pat` does not
      contain `pat` in any case. */
  lemma NoOccurrenceWithoutLetter(s: string, pat: string, j: nat)
    requires j < |pat|
    requires forall i :: 0 <= i < |s| ==> LowerChar(s[i]) != pat[j]
    ensures !ContainsIgnoringCase(s, pat)
  {
    forall i: nat
      ensures !OccursAt(s, pat, i)
    {
      if i + |pat| <= |s| {
        assert Lower(s[i..i + |pat|])[j] == LowerChar(s[i + j]) != pat[j];
      }
    }
  }

  /** The query string does not take part in routing. */
  lemma {:induction false} PathNameBeforeQuery(path: string, query: string)
    requires '?' !in path && '#' !in path
    ensures PathName(path + "?" + query) == path
  {
    if path != [] {
      assert (path + "?" + query)[1..] == path[1..] + "?" + query;
      PathNameBeforeQuery(path[1..], query);
    }
  }

  /** An occurrence in a suffix is an occurrence in the whole string. */
  lemma OccurrenceInSuffix(prefix: string, s: string, pat: string)
    requires ContainsIgnoringCase(s, pat)
    ensures ContainsIgnoringCase(prefix + s, pat)
  {
    var i: nat :| OccursAt(s, pat, i);
    assert (prefix + s)[|prefix| + i..|prefix| + i + |pat|] == s[i..i + |pat|];
    assert OccursAt(prefix + s, pat, |prefix| + i);
  }
}

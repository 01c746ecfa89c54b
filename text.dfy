/** Case normalisation of list and item names: every tool lowercases its
    string arguments before it looks anything up or stores anything.
    Python's `str.lower` is modelled on the ASCII range only. */
module Text {

  /** Lowercases one character: 'A'..'Z' become 'a'..'z', everything else is kept. */
  function LowerChar(c: char): char
  {
    if 'A' <= c <= 'Z' then (c as int + 32) as char else c
  }

  /** No character of `s` is an upper-case ASCII letter. */
  predicate IsLowerCase(s: string)
  {
    forall i :: 0 <= i < |s| ==> !('A' <= s[i] <= 'Z')
  }

  /** `s.lower()`: each character lowercased, in place. */
  function Lower(s: string): string
  {
    seq(|s|, i requires 0 <= i < |s| => LowerChar(s[i]))
  }

  /** The result of lowercasing has no upper-case letter, and a string is its
      own lowercasing exactly when it is already lower case: `Lower` projects
      onto the lower-case strings. */
  lemma LowerProjects(s: string)
    ensures IsLowerCase(Lower(s))
    ensures IsLowerCase(s) <==> Lower(s) == s
  {
  }

  /** Lowercasing twice is lowercasing once. */
  lemma LowerIdempotent(s: string)
    ensures Lower(Lower(s)) == Lower(s)
  {
    LowerProjects(s);
    LowerProjects(Lower(s));
  }

  /** Lowercasing neither creates nor removes a non-letter character, in
      particular the line separator used when a list is rendered. */
  lemma LowerKeepsNonLetter(s: string, c: char)
    requires !('A' <= c <= 'Z') && !('a' <= c <= 'z')
    ensures c in Lower(s) <==> c in s
  {
    if c in s {
      var i :| 0 <= i < |s| && s[i] == c;
      assert Lower(s)[i] == c;
    }
  }
}

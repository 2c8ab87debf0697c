/** The two string tests the checks on free text use: `s.lower()` over ASCII letters, and `word in s`. */
module Text {

  function LowerChar(c: char): char {
    if 'A' <= c <= 'Z' then ((c as int) - ('A' as int) + ('a' as int)) as char else c
  }

  function Lower(s: string): string {
    seq(|s|, i requires 0 <= i < |s| => LowerChar(s[i]))
  }

  predicate Mentions(s: string, word: string) {
    exists i :: 0 <= i <= |s| - |word| && s[i..][..|word|] == word
  }

  lemma MentionsIff(s: string, word: string)
    ensures Mentions(s, word) <==> exists a, b :: s == a + word + b
  {
    if i :| 0 <= i <= |s| - |word| && s[i..][..|word|] == word {
      assert s == s[..i] + word + s[i + |word|..];
    }
    if a, b :| s == a + word + b {
      assert s[|a|..][..|word|] == word;
    }
  }

  /** Lower-casing keeps the length, maps the capitals to their small letters and changes nothing else. */
  lemma LowerIsPointwise(s: string, i: nat)
    requires i < |s|
    ensures |Lower(s)| == |s|
    ensures 'A' <= s[i] <= 'Z' ==> 'a' <= Lower(s)[i] <= 'z' && Lower(s)[i] as int - s[i] as int == 32
    ensures !('A' <= s[i] <= 'Z') ==> Lower(s)[i] == s[i]
  {
  }
}

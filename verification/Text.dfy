/** The few string operations the server relies on. Case folding is ASCII only. */
module Text {

  function LowerChar(c: char): char {
    if 'A' <= c <= 'Z' then (c as int + 32) as char else c
  }

  function Lower(s: string): (r: string)
    ensures |r| == |s|
    ensures forall i :: 0 <= i < |s| ==> r[i] == LowerChar(s[i])
  {
    seq(|s|, i requires 0 <= i < |s| => LowerChar(s[i]))
  }

  /** Exactly the capital letters change, each into the small letter at the same place of the alphabet. */
  lemma LowerLetters(c: char)
    ensures LowerChar(c) != c <==> 'A' <= c <= 'Z'
    ensures 'A' <= c <= 'Z' ==>
      'a' <= LowerChar(c) <= 'z' && LowerChar(c) as int - 'a' as int == c as int - 'A' as int
  {
  }

  lemma LowerIdempotent(s: string)
    ensures Lower(Lower(s)) == Lower(s)
  {
    assert |Lower(Lower(s))| == |Lower(s)|;
    assert forall i :: 0 <= i < |s| ==> Lower(Lower(s))[i] == Lower(s)[i];
  }

  predicate IsSpace(c: char) {
    c in {' ', '\t', '\n', '\r'}
  }

  function StripLeft(s: string): string {
    if s != "" && IsSpace(s[0]) then StripLeft(s[1..]) else s
  }

  function StripRight(s: string): string {
    if s != "" && IsSpace(s[|s| - 1]) then StripRight(s[..|s| - 1]) else s
  }

  /** s.strip().lower() */
  function Normalised(s: string): string {
    Lower(StripRight(StripLeft(s)))
  }

  predicate Blank(s: string) {
    forall i :: 0 <= i < |s| ==> s[i] in {' ', '\t', '\n', '\r'}
  }

  lemma {:induction false} StripLeftBlank(blank: string, s: string)
    requires Blank(blank)
    ensures StripLeft(blank + s) == StripLeft(s)
  {
    if blank != "" {
      StripLeftBlank(blank[1..], s);
      assert (blank + s)[1..] == blank[1..] + s;
    } else {
      assert blank + s == s;
    }
  }

  lemma {:induction false} StripRightBlank(s: string, blank: string)
    requires Blank(blank)
    ensures StripRight(s + blank) == StripRight(s)
  {
    if blank != "" {
      StripRightBlank(s, blank[..|blank| - 1]);
      assert (s + blank)[..|s + blank| - 1] == s + blank[..|blank| - 1];
    } else {
      assert s + blank == s;
    }
  }

  /** Blanks around a word and the case of its letters do not matter; nothing else is dropped. */
  lemma {:induction false} NormalisedWord(before: string, word: string, after: string)
    requires Blank(before) && Blank(after)
    requires word != "" && !Blank(word[..1]) && !Blank(word[|word| - 1..])
    ensures Normalised(before + word + after) == Lower(word)
  {
    assert before + word + after == before + (word + after);
    StripLeftBlank(before, word + after);
    assert StripLeft(word + after) == word + after;
    StripRightBlank(word, after);
    assert StripRight(word) == word;
  }
}

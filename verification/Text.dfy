/** The string methods of Python that the models need: strip, upper and the line breaks. */
module Text {

  predicate IsBreak(c: char) {
    c in {'\n', '\r', '\U{0B}', '\U{0C}', '\U{1C}', '\U{1D}', '\U{1E}', '\U{85}', '\U{2028}', '\U{2029}'}
  }

  predicate IsSpace(c: char) {
    || IsBreak(c) || c in {' ', '\t', '\U{1F}', '\U{A0}', '\U{1680}', '\U{202F}', '\U{205F}', '\U{3000}'}
    || '\U{2000}' <= c <= '\U{200A}'
  }

  predicate Blank(s: string) {
    forall i | 0 <= i < |s| :: IsSpace(s[i])
  }

  function StripLeft(s: string): string {
    if s != "" && IsSpace(s[0]) then StripLeft(s[1..]) else s
  }

  function StripRight(s: string): string {
    if s != "" && IsSpace(s[|s| - 1]) then StripRight(s[..|s| - 1]) else s
  }

  function Strip(s: string): string {
    StripRight(StripLeft(s))
  }

  /** The single characters whose upper case is a letter A to Z: a to z, the long s and the dotless i. */
  function UpperOf(c: char): char {
    if 'a' <= c <= 'z' then c - 'a' + 'A'
    else if c == '\U{17F}' then 'S'
    else if c == '\U{131}' then 'I'
    else c
  }

  function Upper(s: string): (t: string)
    ensures |t| == |s| && forall i | 0 <= i < |s| :: t[i] == UpperOf(s[i])
  {
    if s == "" then "" else [UpperOf(s[0])] + Upper(s[1..])
  }

  lemma {:induction false} StripLeftOf(pre: string, s: string)
    requires Blank(pre) && s != "" && !IsSpace(s[0])
    ensures StripLeft(pre + s) == s
  {
    if pre == "" {
      assert pre + s == s;
    } else {
      assert (pre + s)[1..] == pre[1..] + s;
      StripLeftOf(pre[1..], s);
    }
  }

  lemma {:induction false} StripRightOf(s: string, post: string)
    requires Blank(post) && s != "" && !IsSpace(s[|s| - 1])
    ensures StripRight(s + post) == s
  {
    if post == "" {
      assert s + post == s;
    } else {
      assert (s + post)[..|s + post| - 1] == s + post[..|post| - 1];
      StripRightOf(s, post[..|post| - 1]);
    }
  }

  /** A text that starts and ends with other characters is what is left when blanks are added around it. */
  lemma StripOf(pre: string, s: string, post: string)
    requires Blank(pre) && Blank(post) && s != "" && !IsSpace(s[0]) && !IsSpace(s[|s| - 1])
    ensures Strip(pre + s + post) == s
  {
    assert pre + s + post == pre + (s + post);
    StripLeftOf(pre, s + post);
    StripRightOf(s, post);
  }

  lemma {:induction false} StrippedLeft(s: string) returns (pre: string)
    ensures Blank(pre) && s == pre + StripLeft(s)
  {
    if s != "" && IsSpace(s[0]) {
      var rest := StrippedLeft(s[1..]);
      pre := [s[0]] + rest;
    } else {
      pre := "";
    }
  }

  lemma {:induction false} StrippedRight(s: string) returns (post: string)
    ensures Blank(post) && s == StripRight(s) + post
  {
    if s != "" && IsSpace(s[|s| - 1]) {
      var rest := StrippedRight(s[..|s| - 1]);
      post := rest + [s[|s| - 1]];
    } else {
      post := "";
    }
  }

  /** Some stretch of the text, with blanks around it, is the word in any case. */
  ghost predicate Says(s: string, word: string) {
    exists pre, mid, post :: s == pre + mid + post && Blank(pre) && Blank(post) && Spells(mid, word)
  }

  ghost predicate Spells(s: string, word: string) {
    |s| == |word| && forall i | 0 <= i < |s| :: UpperOf(s[i]) == word[i]
  }

  lemma LettersAreNotBlank(c: char)
    requires 'A' <= UpperOf(c) <= 'Z'
    ensures !IsSpace(c)
  {
  }

  lemma StripSpelled(pre: string, mid: string, post: string, word: string)
    requires Blank(pre) && Blank(post) && Spells(mid, word)
    requires word != "" && forall i | 0 <= i < |word| :: 'A' <= word[i] <= 'Z'
    ensures Upper(Strip(pre + mid + post)) == word
  {
    LettersAreNotBlank(mid[0]);
    LettersAreNotBlank(mid[|mid| - 1]);
    StripOf(pre, mid, post);
  }

  lemma SaysSpelled(s: string, pre: string, mid: string, post: string, word: string)
    requires s == pre + mid + post && Blank(pre) && Blank(post) && Spells(mid, word)
    ensures Says(s, word)
  {
  }

  /** Trimming and upper-casing gives the word exactly if the text is the word in any case, among blanks. */
  lemma SaysIs(s: string, word: string)
    requires word != "" && forall i | 0 <= i < |word| :: 'A' <= word[i] <= 'Z'
    ensures Upper(Strip(s)) == word <==> Says(s, word)
  {
    if Upper(Strip(s)) == word {
      var pre := StrippedLeft(s);
      var post := StrippedRight(StripLeft(s));
      assert s == pre + Strip(s) + post;
      SaysSpelled(s, pre, Strip(s), post, word);
    }
    if Says(s, word) {
      var pre, mid, post :| s == pre + mid + post && Blank(pre) && Blank(post) && Spells(mid, word);
      StripSpelled(pre, mid, post, word);
    }
  }
}

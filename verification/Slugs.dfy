/** Path and key segments made from free text. */
module Slugs {
  import opened Text

  predicate IsAlnum(c: char) { 'a' <= c <= 'z' || '0' <= c <= '9' }

  /** The characters that a slug keeps. */
  lemma {:induction false} AlnumExact(c: char)
    ensures IsAlnum(c) <==> c in "abcdefghijklmnopqrstuvwxyz" || c in "0123456789"
  {
    var letters, digits := "abcdefghijklmnopqrstuvwxyz", "0123456789";
    assert forall i | 0 <= i < 26 :: letters[i] == 'a' + i as char;
    assert forall i | 0 <= i < 10 :: digits[i] == '0' + i as char;
    if 'a' <= c <= 'z' {
      assert letters[(c - 'a') as int] == c;
    }
    if '0' <= c <= '9' {
      assert digits[(c - '0') as int] == c;
    }
  }

  predicate AllAlnum(s: string) { forall i | 0 <= i < |s| :: IsAlnum(s[i]) }

  // ---------------------------------------------------------------- what a slug is

  predicate InWord(s: string) { s != "" && IsAlnum(s[|s| - 1]) }

  /** What one more character makes of the words of a text, given whether the text ends in a word. */
  function Grown(words: seq<string>, inWord: bool, c: char): seq<string> {
    if !IsAlnum(c) then words
    else if inWord && words != [] then words[|words| - 1 := words[|words| - 1] + [c]]
    else words + [[c]]
  }

  /** The maximal runs of letters and digits, in order. */
  function Words(s: string): seq<string> {
    if s == "" then []
    else
      var before := s[..|s| - 1];
      Grown(Words(before), InWord(before), s[|s| - 1])
  }

  /** The words of the trimmed, lowered text, joined by single dashes. */
  function Slug(lower: char -> char, value: string): string {
    Join(Words(MapChars(lower, TrimSpace(value))), '-')
  }

  // ---------------------------------------------------------------- the two loops

  /** What either loop has written after reading some text: every run of other characters is one dash. */
  function Squeeze(s: string): string {
    if s == "" then ""
    else
      var before, c := Squeeze(s[..|s| - 1]), s[|s| - 1];
      if IsAlnum(c) then before + [c]
      else if before != "" && before[|before| - 1] == '-' then before
      else before + "-"
  }

  function TrimDashLeft(s: string): string {
    if s != "" && s[0] == '-' then TrimDashLeft(s[1..]) else s
  }

  function TrimDashRight(s: string): string {
    if s != "" && s[|s| - 1] == '-' then TrimDashRight(s[..|s| - 1]) else s
  }

  /** `strings.Trim(s, "-")`. */
  function TrimDashes(s: string): string { TrimDashRight(TrimDashLeft(s)) }

  method SlugKeyPart(lower: char -> char, value: string) returns (r: string)
    ensures r == Slug(lower, value)
  {
    var text := MapChars(lower, TrimSpace(value));
    var builder, lastDash := "", false;
    for n := 0 to |text|
      invariant builder == Squeeze(text[..n])
      invariant lastDash <==> builder != "" && builder[|builder| - 1] == '-'
    {
      assert text[..n + 1][..n] == text[..n] && text[..n + 1][n] == text[n];
      if IsAlnum(text[n]) {
        builder := builder + [text[n]];
        lastDash := false;
      } else if !lastDash {
        builder := builder + "-";
        lastDash := true;
      }
    }
    assert text[..|text|] == text;
    TrimSqueeze(text);
    return TrimDashes(builder);
  }

  method SanitizePathSegment(lower: char -> char, value: string) returns (r: string)
    ensures r == Slug(lower, value)
  {
    var text := MapChars(lower, TrimSpace(value));
    if text == "" {
      return "";
    }
    var builder, prevDash := "", false;
    for n := 0 to |text|
      invariant builder == Squeeze(text[..n])
      invariant prevDash <==> builder != "" && builder[|builder| - 1] == '-'
    {
      assert text[..n + 1][..n] == text[..n] && text[..n + 1][n] == text[n];
      var isAlphaNum := 'a' <= text[n] <= 'z' || '0' <= text[n] <= '9';
      if isAlphaNum {
        builder := builder + [text[n]];
        prevDash := false;
      } else if !prevDash {
        builder := builder + "-";
        prevDash := true;
      }
    }
    assert text[..|text|] == text;
    TrimSqueeze(text);
    return TrimDashes(builder);
  }

  // ---------------------------------------------------------------- squeezing and trimming is joining words

  predicate AreWords(words: seq<string>) {
    forall i | 0 <= i < |words| :: words[i] != "" && AllAlnum(words[i])
  }

  lemma {:induction false} WordsAreWords(s: string)
    ensures AreWords(Words(s))
    ensures Words(s) == [] <==> forall i | 0 <= i < |s| :: !IsAlnum(s[i])
  {
    if s != "" {
      var before, c := s[..|s| - 1], s[|s| - 1];
      WordsAreWords(before);
      assert forall i | 0 <= i < |before| :: before[i] == s[i];
    }
  }

  lemma {:induction false} JoinSnoc(words: seq<string>, w: string)
    ensures Join(words + [w], '-') == (if words == [] then w else Join(words, '-') + "-" + w)
  {
    if words != [] {
      JoinAppend(words, [w], '-');
    }
  }

  /** Growing the last word grows the joined text. */
  lemma {:induction false} JoinGrow(words: seq<string>, c: char)
    requires words != []
    ensures Join(words[|words| - 1 := words[|words| - 1] + [c]], '-') == Join(words, '-') + [c]
  {
    var front, last := words[..|words| - 1], words[|words| - 1];
    assert words[|words| - 1 := last + [c]] == front + [last + [c]];
    assert words == front + [last];
    JoinSnoc(front, last);
    JoinSnoc(front, last + [c]);
  }

  /** A dash before the first word if the text starts otherwise, and one after the last if it ends
    * otherwise. */
  function Lead(s: string): string { if s != "" && !IsAlnum(s[0]) then "-" else "" }

  function Tail(s: string): string {
    if s != "" && !IsAlnum(s[|s| - 1]) && Words(s) != [] then "-" else ""
  }

  lemma {:induction false} SqueezeLast(s: string)
    ensures Squeeze(s) != "" && Squeeze(s)[|Squeeze(s)| - 1] == '-' <==> s != "" && !InWord(s)
    ensures Squeeze(s) == "" <==> s == ""
  {
    if s != "" { SqueezeLast(s[..|s| - 1]); }
  }

  predicate InForm(s: string) { Squeeze(s) == Lead(s) + Join(Words(s), '-') + Tail(s) }

  /** A letter or digit after another one extends the last word. */
  lemma {:induction false} ExtendForm(before: string, c: char)
    requires InForm(before) && InWord(before) && IsAlnum(c)
    ensures InForm(before + [c])
  {
    var s := before + [c];
    assert s[..|s| - 1] == before;
    WordsAreWords(before);
    JoinGrow(Words(before), c);
    var j := Join(Words(before), '-');
    assert Squeeze(s) == Lead(before) + j + "" + [c] == Lead(s) + (j + [c]) + "";
  }

  /** A letter or digit after anything else starts a word. */
  lemma {:induction false} StartForm(before: string, c: char)
    requires InForm(before) && !InWord(before) && IsAlnum(c)
    ensures InForm(before + [c])
  {
    var s := before + [c];
    var words := Words(before);
    assert s[..|s| - 1] == before;
    assert Words(s) == words + [[c]];
    assert Squeeze(s) == Squeeze(before) + [c] && Tail(s) == "";
    JoinSnoc(words, [c]);
    hide Words, Squeeze;
    var j := Join(words, '-');
    if before == "" {
      assert Lead(s) == "" && words == [] by { EmptyWords(); }
    } else {
      assert Lead(s) == Lead(before);
      WordsAreWords(before);
      if words == [] {
        assert j == "" && Tail(before) == "";
      } else {
        assert Tail(before) == "-";
      }
    }
    hide Lead, Tail, Join, IsAlnum;
    if words == [] {
      assert Lead(s) + j + "" + [c] == Lead(s) + [c] + "";
    } else {
      assert Lead(s) + j + "-" + [c] == Lead(s) + (j + "-" + [c]) + "";
    }
  }

  lemma {:induction false} EmptyWords()
    ensures Words("") == [] && Squeeze("") == ""
  {
  }

  /** Any other character ends the word or lengthens the gap. */
  lemma {:induction false} GapForm(before: string, c: char)
    requires InForm(before) && !IsAlnum(c)
    ensures InForm(before + [c])
  {
    var s := before + [c];
    assert s[..|s| - 1] == before;
    assert Words(s) == Words(before);
    SqueezeLast(before);
    WordsAreWords(before);
    if before == "" {
      assert Squeeze(s) == "-" && Words(s) == [];
    } else if InWord(before) {
      assert Words(before) != [];
      assert Squeeze(s) == Squeeze(before) + "-";
      assert Tail(before) == "" && Tail(s) == "-" && Lead(s) == Lead(before);
    } else {
      assert Squeeze(s) == Squeeze(before) && Tail(s) == Tail(before) && Lead(s) == Lead(before);
    }
  }

  lemma {:induction false} SqueezeForm(s: string)
    ensures InForm(s)
  {
    if s != "" {
      var before, c := s[..|s| - 1], s[|s| - 1];
      assert s == before + [c];
      SqueezeForm(before);
      hide InForm, InWord;
      if !IsAlnum(c) {
        GapForm(before, c);
      } else if InWord(before) {
        ExtendForm(before, c);
      } else {
        StartForm(before, c);
      }
    }
  }

  lemma {:induction false} JoinEnds(words: seq<string>)
    requires AreWords(words) && words != []
    ensures var j := Join(words, '-'); j != "" && IsAlnum(j[0]) && IsAlnum(j[|j| - 1])
  {
    if |words| > 1 {
      JoinEnds(words[1..]);
    }
  }

  lemma {:induction false} TrimSqueeze(s: string)
    ensures TrimDashes(Squeeze(s)) == Join(Words(s), '-')
  {
    SqueezeForm(s);
    WordsAreWords(s);
    var words := Words(s);
    var j := Join(words, '-');
    if words == [] {
      assert Squeeze(s) == Lead(s);
      assert TrimDashLeft("-") == TrimDashLeft("");
    } else {
      JoinEnds(words);
      TrimAround(Lead(s), j, Tail(s));
    }
  }

  lemma {:induction false} TrimAround(lead: string, j: string, tail: string)
    requires (lead == "" || lead == "-") && (tail == "" || tail == "-")
    requires j != "" && IsAlnum(j[0]) && IsAlnum(j[|j| - 1])
    ensures TrimDashes(lead + j + tail) == j
  {
    assert TrimDashLeft(j + tail) == j + tail;
    if lead == "-" {
      assert (lead + j + tail)[1..] == j + tail;
    } else {
      assert lead + j + tail == j + tail;
    }
    assert TrimDashRight(j) == j;
    if tail == "-" {
      assert (j + tail)[..|j + tail| - 1] == j;
    } else {
      assert j + tail == j;
    }
  }

  // ---------------------------------------------------------------- slugs are valid keys

  /** The registry's key pattern: `^[a-z0-9]+(?:[-_][a-z0-9]+)*$`. */
  predicate KeyPattern(s: string)
    decreases |s|
  {
    exists i | 0 < i <= |s| ::
      AllAlnum(s[..i]) && (i == |s| || ((s[i] == '-' || s[i] == '_') && KeyPattern(s[i + 1..])))
  }

  predicate ValidateKey(key: string) {
    TrimSpace(key) != "" && key == TrimSpace(key) && KeyPattern(key)
  }

  lemma {:induction false} JoinMatches(words: seq<string>)
    requires AreWords(words) && words != []
    ensures KeyPattern(Join(words, '-'))
  {
    var j, first := Join(words, '-'), words[0];
    assert j[..|first|] == first;
    if |words| > 1 {
      JoinMatches(words[1..]);
      assert j[|first| + 1..] == Join(words[1..], '-');
    }
  }

  /** A slug is a valid registry key, unless the text holds no letter or digit; then it is empty. */
  lemma {:induction false} SlugIsKey(lower: char -> char, value: string)
    ensures var slug := Slug(lower, value);
            && (ValidateKey(slug) <==> slug != "")
            && (slug != "" <==> exists c | c in MapChars(lower, TrimSpace(value)) :: IsAlnum(c))
  {
    var text := MapChars(lower, TrimSpace(value));
    var words := Words(text);
    WordsAreWords(text);
    if words != [] {
      JoinEnds(words);
      JoinMatches(words);
      TrimSpaceFixes(Join(words, '-'));
      hide Words, MapChars;
      var i :| 0 <= i < |text| && IsAlnum(text[i]);
      assert text[i] in text;
    } else {
      assert Join(words, '-') == "";
    }
  }

  // ---------------------------------------------------------------- slugs are fixed points

  predicate FixesSlugChars(lower: char -> char) {
    forall c | IsAlnum(c) || c == '-' :: lower(c) == c
  }

  lemma {:induction false} WordsOfWord(w: string)
    requires w != "" && AllAlnum(w)
    ensures Words(w) == [w]
  {
    var before := w[..|w| - 1];
    if before == "" {
      assert w == [w[0]] && Words(before) == [];
    } else {
      WordsOfWord(before);
      assert before + [w[|w| - 1]] == w;
    }
  }

  lemma {:induction false} WordsSnoc(s: string, c: char)
    ensures Words(s + [c]) == Grown(Words(s), InWord(s), c)
  {
    assert (s + [c])[..|s|] == s;
  }

  lemma {:induction false} DashEndsWord(a: string, b: string)
    ensures InWord(a + "-" + b) == InWord(b)
  {
    var s := a + "-" + b;
    assert s[|s| - 1] == if b == "" then '-' else b[|b| - 1];
  }

  lemma {:induction false} OneMore(a: seq<string>, before: string, b: string, c: char)
    requires Words(before) == a + Words(b) && InWord(before) == InWord(b)
    ensures Words(before + [c]) == a + Words(b + [c])
  {
    WordsSnoc(before, c);
    WordsSnoc(b, c);
    WordsAreWords(b);
    hide Words, Grown;
    assert InWord(b) ==> Words(b) != [];
    GrownAppend(a, Words(b), InWord(b), c);
  }

  lemma {:induction false} WordsAroundDash(a: string, b: string)
    ensures Words(a + "-" + b) == Words(a) + Words(b)
  {
    if b == "" {
      WordsSnoc(a, '-');
      EmptyWords();
      assert a + "-" + b == a + ['-'];
    } else {
      hide Words, InWord;
      var front, c := b[..|b| - 1], b[|b| - 1];
      WordsAroundDash(a, front);
      DashEndsWord(a, front);
      OneMore(Words(a), a + "-" + front, front, c);
      assert a + "-" + b == a + "-" + front + [c] && b == front + [c];
    }
  }

  lemma {:induction false} GrownAppend(a: seq<string>, b: seq<string>, inWord: bool, c: char)
    requires inWord ==> b != []
    ensures Grown(a + b, inWord, c) == a + Grown(b, inWord, c)
  {
  }

  lemma {:induction false} WordsOfJoin(words: seq<string>)
    requires AreWords(words)
    ensures Words(Join(words, '-')) == words
  {
    if words != [] {
      WordsOfWord(words[0]);
      if |words| > 1 {
        WordsOfJoin(words[1..]);
        WordsAroundDash(words[0], Join(words[1..], '-'));
      }
    }
  }

  lemma {:induction false} JoinChars(words: seq<string>)
    requires AreWords(words)
    ensures forall i | 0 <= i < |Join(words, '-')| :: IsAlnum(Join(words, '-')[i]) || Join(words, '-')[i] == '-'
  {
    if |words| > 1 {
      JoinChars(words[1..]);
    }
  }

  /** Making a slug of a slug changes nothing. */
  lemma {:induction false} SlugIdempotent(lower: char -> char, value: string)
    requires FixesSlugChars(lower)
    ensures Slug(lower, Slug(lower, value)) == Slug(lower, value)
  {
    var words := Words(MapChars(lower, TrimSpace(value)));
    WordsAreWords(MapChars(lower, TrimSpace(value)));
    var j := Join(words, '-');
    if words != [] {
      JoinEnds(words);
    }
    TrimSpaceFixes(j);
    JoinChars(words);
    assert MapChars(lower, j) == j;
    WordsOfJoin(words);
  }
}

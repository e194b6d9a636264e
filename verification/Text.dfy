/** Strings as the source's `strings` and `strconv` packages treat them. */
module Text {

  /** Unicode white space, as `strings.TrimSpace` removes it. */
  predicate IsSpace(c: char) {
    || '\t' <= c <= '\r' || c == ' ' || c == '\U{0085}' || c == '\U{00A0}' || c == '\U{1680}'
    || '\U{2000}' <= c <= '\U{200A}' || c == '\U{2028}' || c == '\U{2029}' || c == '\U{202F}'
    || c == '\U{205F}' || c == '\U{3000}'
  }

  function TrimLeft(s: string): (r: string)
    ensures r != "" ==> !IsSpace(r[0])
  {
    if s != "" && IsSpace(s[0]) then TrimLeft(s[1..]) else s
  }

  function TrimRight(s: string): (r: string)
    ensures r <= s
    ensures r != "" ==> !IsSpace(r[|r| - 1])
  {
    if s != "" && IsSpace(s[|s| - 1]) then TrimRight(s[..|s| - 1]) else s
  }

  function TrimSpace(s: string): string { TrimRight(TrimLeft(s)) }

  predicate Trimmed(s: string) {
    s != "" ==> !IsSpace(s[0]) && !IsSpace(s[|s| - 1])
  }

  lemma {:induction false} TrimSpaceTrimmed(s: string)
    ensures Trimmed(TrimSpace(s))
  {
    var l := TrimLeft(s);
    assert TrimRight(l) <= l;
  }

  lemma {:induction false} TrimSpaceFixes(s: string)
    requires Trimmed(s)
    ensures TrimSpace(s) == s
  {
  }

  lemma {:induction false} TrimTwice(s: string)
    ensures TrimSpace(TrimSpace(s)) == TrimSpace(s)
  {
    TrimSpaceTrimmed(s);
    TrimSpaceFixes(TrimSpace(s));
  }

  /** `strings.ToLower` and `strings.ToUpper`, given the case mapping of single characters. */
  function MapChars(f: char -> char, s: string): string {
    seq(|s|, i requires 0 <= i < |s| => f(s[i]))
  }

  // Names that the program itself writes: lower-case words joined by `-` or `_`.

  predicate IsNameChar(c: char) { 'a' <= c <= 'z' || c == '-' || c == '_' }

  predicate PlainName(s: string) { s != "" && forall i | 0 <= i < |s| :: IsNameChar(s[i]) }

  predicate FixesNames(lower: char -> char) { forall c | IsNameChar(c) :: lower(c) == c }

  lemma {:induction false} PlainNameFixed(lower: char -> char, s: string)
    requires FixesNames(lower) && PlainName(s)
    ensures TrimSpace(s) == s && MapChars(lower, s) == s && ':' !in s
  {
    TrimSpaceFixes(s);
  }

  predicate HasPrefix(s: string, p: string) { p <= s }

  function TrimPrefix(s: string, p: string): string {
    if p <= s then s[|p|..] else s
  }

  // ---------------------------------------------------------------- splitting and joining

  /** `strings.Split` at a one-character separator. */
  function Split(s: string, sep: char): (parts: seq<string>)
    ensures |parts| > 0
  {
    if s == "" then [""]
    else if s[0] == sep then [""] + Split(s[1..], sep)
    else var rest := Split(s[1..], sep); [[s[0]] + rest[0]] + rest[1..]
  }

  /** `strings.Join` with a one-character separator. */
  function Join(parts: seq<string>, sep: char): string {
    if parts == [] then ""
    else if |parts| == 1 then parts[0]
    else parts[0] + [sep] + Join(parts[1..], sep)
  }

  predicate Without(parts: seq<string>, sep: char) {
    forall i | 0 <= i < |parts| :: sep !in parts[i]
  }

  lemma {:induction false} SplitWithout(s: string, sep: char)
    ensures Without(Split(s, sep), sep)
  {
    if s != "" {
      SplitWithout(s[1..], sep);
    }
  }

  lemma {:induction false} SplitSimple(s: string, sep: char)
    requires sep !in s
    ensures Split(s, sep) == [s]
  {
    if s != "" {
      SplitSimple(s[1..], sep);
      assert [s[0]] + s[1..] == s;
    }
  }

  /** A separator in the text is a boundary in the split. */
  lemma {:induction false} SplitAppend(a: string, b: string, sep: char)
    ensures Split(a + [sep] + b, sep) == Split(a, sep) + Split(b, sep)
  {
    if a == "" {
      assert (a + [sep] + b)[1..] == b;
    } else {
      assert (a + [sep] + b)[1..] == a[1..] + [sep] + b;
      SplitAppend(a[1..], b, sep);
    }
  }

  lemma {:induction false} SplitJoin(parts: seq<string>, sep: char)
    requires parts != [] && Without(parts, sep)
    ensures Split(Join(parts, sep), sep) == parts
  {
    SplitSimple(parts[0], sep);
    if |parts| > 1 {
      SplitJoin(parts[1..], sep);
      SplitAppend(parts[0], Join(parts[1..], sep), sep);
    }
  }

  lemma {:induction false} JoinSplit(s: string, sep: char)
    ensures Join(Split(s, sep), sep) == s
  {
    if s != "" {
      JoinSplit(s[1..], sep);
      var rest := Split(s[1..], sep);
      if s[0] != sep && |rest| > 1 {
        assert Split(s, sep)[1..] == rest[1..];
      }
    }
  }

  lemma {:induction false} JoinAppend(a: seq<string>, b: seq<string>, sep: char)
    requires a != [] && b != []
    ensures Join(a + b, sep) == Join(a, sep) + [sep] + Join(b, sep)
  {
    if |a| == 1 {
      assert (a + b)[1..] == b;
    } else {
      assert (a + b)[1..] == a[1..] + b;
      JoinAppend(a[1..], b, sep);
    }
  }

  /** On separator-free parts, a string prefix ending at a separator is a prefix of parts. */
  lemma {:induction false} JoinPrefix(a: seq<string>, b: seq<string>, sep: char)
    requires a != [] && b != [] && Without(a, sep) && Without(b, sep)
    ensures Join(a, sep) + [sep] <= Join(b, sep) <==> a < b
  {
    var p, t := Join(a, sep), Join(b, sep);
    if p + [sep] <= t {
      var w := t[|p| + 1..];
      assert t == p + [sep] + w;
      SplitAppend(p, w, sep);
      SplitJoin(a, sep);
      SplitJoin(b, sep);
      assert b == a + Split(w, sep);
    }
    if a < b {
      JoinAppend(a, b[|a|..], sep);
      assert b == a + b[|a|..];
    }
  }
}

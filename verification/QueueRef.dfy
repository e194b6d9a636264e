/** The ids of the unified review queue: how they are written and how they are read. */
module QueueRef {
  import opened Wrappers
  import opened Text
  import Decimal

  /** The supported kinds, each with the object-key prefix its ids may carry. */
  const PREFIXES: map<string, string> := map[
    "intake-goal" := "intake-", "intake-review" := "intake-", "intake-approval" := "intake-",
    "goal" := "goal-", "goal-approval" := "goal-", "goal-blocker" := "goal-blocker-",
    "approval" := "approval-", "browser-evidence" := "browser-evidence-",
    "design-artifact" := "design-artifact-", "skill-artifact" := "skill-artifact-",
    "context-pack" := "context-pack-", "failed-work" := "task-",
    "memory-proposal" := "memory-proposal-", "recovery" := "incident-"]

  datatype Ref = Ref(kind: string, id: int)

  function FormatRef(r: Ref): string
    requires r.id >= 0
  {
    r.kind + ":" + Decimal.Format(r.id)
  }

  /** The text before and after the first colon. */
  function Cut(s: string): Option<(string, string)> {
    if s == "" then None
    else if s[0] == ':' then Some(("", s[1..]))
    else match Cut(s[1..])
      case None => None
      case Some((a, b)) => Some(([s[0]] + a, b))
  }

  /** `parseReviewQueueRef`.  `strings.ToLower` maps characters one by one. */
  function ParseRef(lower: char -> char, queueID: string): Option<Ref> {
    match Cut(TrimSpace(queueID))
    case None => None
    case Some((first, second)) =>
      var kind := MapChars(lower, TrimSpace(first));
      if kind !in PREFIXES then None
      else
        match RowID(PREFIXES[kind], TrimSpace(second))
        case None => None
        case Some(id) => Some(Ref(kind, id))
  }

  /** The row id: a positive integer, with or without the object-key prefix. */
  function RowID(prefix: string, text: string): Option<int> {
    match Decimal.ParseInt(TrimPrefix(text, prefix))
    case None => None
    case Some(id) => if id <= 0 then None else Some(id)
  }

  lemma {:induction false} KindsPlain(kind: string)
    requires kind in PREFIXES
    ensures PlainName(kind)
  {
  }

  lemma {:induction false} PrefixesStartWithAName(kind: string)
    requires kind in PREFIXES
    ensures PREFIXES[kind] != "" && IsNameChar(PREFIXES[kind][0])
  {
  }

  /** The ids that occur: a supported kind with a positive 64-bit row id. */
  predicate Proper(r: Ref) { r.kind in PREFIXES && 1 <= r.id <= Decimal.MAX_INT64 }

  lemma {:induction false} CutAt(a: string, b: string)
    requires ':' !in a
    ensures Cut(a + ":" + b) == Some((a, b))
  {
    var s := a + ":" + b;
    if a == "" {
      assert s[1..] == b;
    } else {
      assert s[1..] == a[1..] + ":" + b;
      CutAt(a[1..], b);
      assert [a[0]] + a[1..] == a;
    }
  }

  lemma {:induction false} NotAPrefix(p: string, s: string)
    requires p != "" && s != "" && p[0] != s[0]
    ensures TrimPrefix(s, p) == s
  {
  }

  lemma {:induction false} TrimmedEnds(a: string, b: string)
    requires b != "" && !IsSpace((a + b)[0]) && !IsSpace(b[|b| - 1])
    ensures Trimmed(a + b)
  {
    assert (a + b)[|a + b| - 1] == b[|b| - 1];
  }

  lemma {:induction false} RowIDReads(prefix: string, shown: string, id: nat)
    requires prefix != "" && IsNameChar(prefix[0]) && (shown == "" || shown == prefix)
    requires 1 <= id <= Decimal.MAX_INT64
    ensures RowID(prefix, shown + Decimal.Format(id)) == Some(id)
    ensures Trimmed(shown + Decimal.Format(id))
  {
    var digits := Decimal.Format(id);
    assert Decimal.IsDigit(digits[0]) && Decimal.IsDigit(digits[|digits| - 1]);
    Decimal.ParseFormat(id);
    hide Decimal.ParseInt, Decimal.Format;
    TrimmedEnds(shown, digits);
    hide Trimmed;
    if shown == "" {
      assert shown + digits == digits;
      NotAPrefix(prefix, digits);
    } else {
      assert (shown + digits)[|prefix|..] == digits;
    }
  }

  lemma {:induction false} NameStarts(kind: string)
    requires PlainName(kind)
    ensures kind != "" && !IsSpace(kind[0])
  {
  }

  /** The reader, on a kind and an id text separated by a colon. */
  lemma {:induction false} ParsePieces(lower: char -> char, kind: string, text: string)
    requires FixesNames(lower) && kind in PREFIXES
    requires text != "" && Trimmed(text) && RowID(PREFIXES[kind], text).Some?
    ensures ParseRef(lower, kind + ":" + text) == Some(Ref(kind, RowID(PREFIXES[kind], text).value))
  {
    hide PREFIXES, FixesNames, RowID, Cut, PlainName, MapChars, TrimSpace;
    KindsPlain(kind);
    PlainNameFixed(lower, kind);
    assert kind != "" && !IsSpace(kind[0]) by { NameStarts(kind); }
    var s := kind + ":" + text;
    assert s[|s| - 1] == text[|text| - 1] && s[0] == kind[0];
    TrimSpaceFixes(s);
    TrimSpaceFixes(text);
    CutAt(kind, text);
  }

  /** A kind that is not supported is refused, whatever follows. */
  lemma {:induction false} UnknownKindRefused(lower: char -> char, kind: string, text: string)
    requires FixesNames(lower) && PlainName(kind) && kind !in PREFIXES && text != "" && Trimmed(text)
    ensures ParseRef(lower, kind + ":" + text) == None
  {
    hide PREFIXES, FixesNames, RowID, Cut, PlainName, MapChars, TrimSpace;
    PlainNameFixed(lower, kind);
    assert kind != "" && !IsSpace(kind[0]) by { NameStarts(kind); }
    var s := kind + ":" + text;
    assert s[|s| - 1] == text[|text| - 1] && s[0] == kind[0];
    TrimSpaceFixes(s);
    CutAt(kind, text);
  }

  /** Reading a written id gives back the kind and the row id. */
  lemma {:induction false} ParseInvertsFormat(lower: char -> char, r: Ref)
    requires FixesNames(lower) && Proper(r)
    ensures ParseRef(lower, FormatRef(r)) == Some(r)
  {
    hide PREFIXES;
    PrefixesStartWithAName(r.kind);
    RowIDReads(PREFIXES[r.kind], "", r.id);
    assert "" + Decimal.Format(r.id) == Decimal.Format(r.id);
    hide RowID, ParseRef, Trimmed;
    ParsePieces(lower, r.kind, Decimal.Format(r.id));
  }

  /** An id whose row part carries the object-key prefix reads as the plain one does. */
  lemma {:induction false} AliasReadsTheSame(lower: char -> char, r: Ref)
    requires FixesNames(lower) && Proper(r)
    ensures ParseRef(lower, r.kind + ":" + (PREFIXES[r.kind] + Decimal.Format(r.id))) == Some(r)
  {
    hide PREFIXES;
    PrefixesStartWithAName(r.kind);
    RowIDReads(PREFIXES[r.kind], PREFIXES[r.kind], r.id);
    hide RowID, ParseRef, Trimmed;
    ParsePieces(lower, r.kind, PREFIXES[r.kind] + Decimal.Format(r.id));
  }

  lemma {:induction false} ParsedProper(lower: char -> char, queueID: string)
    requires ParseRef(lower, queueID).Some?
    ensures Proper(ParseRef(lower, queueID).value)
  {
    hide PREFIXES;
  }

  /** Whatever text was read, writing the result gives an id that reads the same and is unchanged
    * by reading and writing again: it is the canonical spelling of the item. */
  lemma {:induction false} ReformattingIsCanonical(lower: char -> char, queueID: string)
    requires FixesNames(lower) && ParseRef(lower, queueID).Some?
    ensures var r := ParseRef(lower, queueID).value;
            ParseRef(lower, FormatRef(r)) == Some(r)
  {
    hide PREFIXES;
    ParsedProper(lower, queueID);
    ParseInvertsFormat(lower, ParseRef(lower, queueID).value);
  }

  /** Distinct items have distinct ids. */
  lemma {:induction false} FormatRefInjective(a: Ref, b: Ref)
    requires Proper(a) && Proper(b) && FormatRef(a) == FormatRef(b)
    ensures a == b
  {
    hide PREFIXES;
    var lower := (c: char) => c;
    ParseInvertsFormat(lower, a);
    ParseInvertsFormat(lower, b);
  }
}

/** From a line of an email to the request that its link makes when it is followed. */
module EmailLinks {
  import opened Text
  import Decimal
  import M = MobileQueue
  import T = EmailToken
  import A = EmailActions

  const VERB_NAMES: map<M.Verb, string> := map[
    M.Approve := "approve", M.Deny := "deny", M.Clarify := "clarify",
    M.Reject := "reject", M.Archive := "archive", M.OpenReview := "open-review"]

  function VerbNamed(name: string): M.Verb {
    if name == "approve" then M.Approve
    else if name == "deny" then M.Deny
    else if name == "clarify" then M.Clarify
    else if name == "reject" then M.Reject
    else if name == "archive" then M.Archive
    else if name == "open-review" then M.OpenReview
    else M.OtherVerb
  }

  /** The source type of an item, as the queue and the email write it. */
  function SourceType(kind: M.Kind): string {
    match kind
    case IntakeReview => "intake_review"
    case ApprovalRequest => "approval"
    case BrowserEvidence => "browser_evidence"
    case BrowserRunFailed => "browser_run_failed"
    case FailedWork => "failed_work"
    case BrowserLogin => "browser_attended_login"
  }

  /** The claims that a line of the email signs. */
  function ClaimsFor(kind: M.Kind, req: A.Request, recipient: string): T.Claims
    requires req.verb in VERB_NAMES && req.target.id >= 0
  {
    T.Claims(0, recipient, M.QueueID(kind, req.target.id), SourceType(kind), req.target.id, VERB_NAMES[req.verb],
      "email action from " + recipient, req.policyHash, req.runtimeHash, 0, 0)
  }

  function Link(lib: T.Library, secret: string, kind: M.Kind, req: A.Request, recipient: string, now: int): T.Result<string>
    requires req.verb in VERB_NAMES && req.target.id >= 0
  {
    T.Sign(lib, secret, ClaimsFor(kind, req, recipient), now, now + T.LIFETIME)
  }

  /** `applyEmailAction`: the source type picks the branch, the action is trimmed and lowered again. */
  function RequestOf(lib: T.Library, c: T.Claims): A.Request {
    var target :=
      if c.sourceType == "approval" then A.ApprovalTarget(c.objectID)
      else if c.sourceType == "intake_review" then A.IntakeTarget(c.objectID)
      else A.OtherTarget(c.objectID);
    A.Request(target, VerbNamed(MapChars(lib.lower, TrimSpace(c.action))), c.policyHash, c.runtimeHash)
  }

  lemma {:induction false} VerbNames(v: M.Verb)
    requires v in VERB_NAMES
    ensures PlainName(VERB_NAMES[v])
    ensures VerbNamed(VERB_NAMES[v]) == v
  {
  }

  lemma {:induction false} SourceTypes(kind: M.Kind)
    ensures PlainName(SourceType(kind))
    ensures SourceType(kind) == SourceType(M.ApprovalRequest) <==> kind.ApprovalRequest?
    ensures SourceType(kind) == SourceType(M.IntakeReview) <==> kind.IntakeReview?
  {
    assert SourceType(kind)[0] == SourceType(M.IntakeReview)[0] <==> kind.IntakeReview?;
    assert SourceType(kind)[0] == SourceType(M.ApprovalRequest)[0] <==> kind.ApprovalRequest?;
  }

  lemma {:induction false} QueueIDTrimmed(kind: M.Kind, id: int)
    requires id >= 0
    ensures M.QueueID(kind, id) != "" && TrimSpace(M.QueueID(kind, id)) == M.QueueID(kind, id)
  {
    var name, digits := M.Name(kind), Decimal.Format(id);
    assert name != "" && !IsSpace(name[0]);
    hide M.Name;
    assert Decimal.IsDigit(digits[|digits| - 1]);
    var q := M.QueueID(kind, id);
    assert q[0] == name[0] && q[|q| - 1] == digits[|digits| - 1];
    TrimSpaceFixes(q);
  }

  /** Up to its expiry a link verifies, and what it verifies to is the request and the queue id of its
    * line: the same row, the same action, the same snapshot hashes.  After it, the link is refused as
    * expired. */
  lemma {:induction false} LinkCarriesRequest(
    lib: T.Library, secret: string, kind: M.Kind, req: A.Request, recipient: string, sent: int, now: int)
    requires T.Faithful(lib) && FixesNames(lib.lower)
    requires req.target.id > 0 && req.target == A.TargetOf(kind, req.target.id) && req.verb in VERB_NAMES
    requires TrimSpace(secret) != "" && TrimSpace(recipient) != ""
    ensures Link(lib, secret, kind, req, recipient, sent).Ok?
    ensures var result := T.Verify(lib, Link(lib, secret, kind, req, recipient, sent).value, secret, now);
            if T.Unix(now) <= T.Unix(sent + T.LIFETIME)
            then result.Ok? && RequestOf(lib, result.value) == req && result.value.queueID == M.QueueID(kind, req.target.id)
            else result == T.Err(T.Expired)
  {
    var c := ClaimsFor(kind, req, recipient);
    VerbNames(req.verb);
    SourceTypes(kind);
    QueueIDTrimmed(kind, req.target.id);
    PlainNameFixed(lib.lower, VERB_NAMES[req.verb]);
    PlainNameFixed(lib.lower, SourceType(kind));
    var n := T.Normalised(lib, c, sent, sent + T.LIFETIME);
    assert n.action == VERB_NAMES[req.verb] && n.sourceType == SourceType(kind) && n.queueID == M.QueueID(kind, req.target.id);
    hide VERB_NAMES, VerbNamed, SourceType, M.QueueID, TrimSpace, PlainName, MapChars, T.Signature, T.Faithful;
    assert T.Complete(n);
    T.VerifyInvertsSign(lib, secret, c, sent, sent + T.LIFETIME, now);
  }

  predicate Positive(items: seq<A.Item>) { forall i | 0 <= i < |items| :: items[i].id > 0 }

  /** Every link that an email carries, whatever its item: it is signed, and within a day it is read as
    * the request of its line. */
  lemma {:induction false} EveryLinkHeld(
    lib: T.Library, secret: string, approvals: seq<A.ApprovalView>, reviews: seq<M.Entry>, i: nat, k: nat,
    recipient: string, sent: int, now: int)
    requires T.Faithful(lib) && FixesNames(lib.lower) && A.DistinctApprovals(approvals)
    requires TrimSpace(secret) != "" && TrimSpace(recipient) != "" && sent <= now <= sent + T.LIFETIME
    requires var items := A.Emitted(approvals, reviews);
             Positive(items) && i < |items| && k < |items[i].links|
    ensures var x := A.Emitted(approvals, reviews)[i];
            var req := x.links[k];
            && req.verb in VERB_NAMES && req.target.id == x.id && Link(lib, secret, x.kind, req, recipient, sent).Ok?
            && var result := T.Verify(lib, Link(lib, secret, x.kind, req, recipient, sent).value, secret, now);
               result.Ok? && RequestOf(lib, result.value) == req && result.value.queueID == M.QueueID(x.kind, x.id)
  {
    A.EmittedLinksFit(approvals, reviews);
    var x := A.Emitted(approvals, reviews)[i];
    assert x in A.Emitted(approvals, reviews) && A.LinksFit(x) && x.id > 0;
    hide A.Emitted, T.Verify, T.Sign, T.Faithful, RequestOf, M.QueueID, TrimSpace;
    var req := x.links[k];
    assert req.target == A.TargetOf(x.kind, x.id) && req.verb in VERB_NAMES;
    LinkCarriesRequest(lib, secret, x.kind, req, recipient, sent, now);
    UnixGrows(now, sent + T.LIFETIME);
  }

  lemma {:induction false} UnixGrows(a: int, b: int)
    requires a <= b
    ensures T.Unix(a) <= T.Unix(b)
  {
  }
}

/** Folding a skill's permission list into one invocation policy. */
module PermissionFold {

  datatype Kind = RepoRead | RuntimeRead | Isolated | Full | Governance | Destructive | Unsupported

  datatype Permission = Permission(kind: Kind, actionKey: string)

  datatype ActionClass = ReadOnly | IsolatedMutation | FullMutation | GovernanceMutation | DestructiveMutation

  datatype Policy = Policy(readOnly: bool, mutating: bool, actionClass: ActionClass, limitedActionKey: string)

  datatype Error = UnsupportedKind | Conflict | EmptySet

  datatype Result<T> = Ok(value: T) | Err(error: Error)

  // ---------------------------------------------------------------- the fold

  predicate Supported(p: Permission) { !p.kind.Unsupported? }

  function Rank(p: Permission): (r: nat)
    requires Supported(p)
    ensures r <= 4
  {
    match p.kind
    case RepoRead => 0
    case RuntimeRead => 0
    case Isolated => 1
    case Full => 2
    case Governance => 3
    case Destructive => 4
  }

  /** Only an isolated permission is limited to an action key. */
  function KeyOf(p: Permission): string {
    if p.kind.Isolated? then p.actionKey else ""
  }

  function ClassOf(rank: nat): ActionClass
    requires rank <= 4
  {
    if rank == 0 then ReadOnly else if rank == 1 then IsolatedMutation else if rank == 2 then FullMutation
    else if rank == 3 then GovernanceMutation else DestructiveMutation
  }

  function PolicyOf(rank: nat, key: string): Policy
    requires rank <= 4
  {
    Policy(rank == 0, rank > 0, ClassOf(rank), key)
  }

  /** The best permission so far: its rank (-1 for none) and its action key. */
  datatype Best = Best(rank: int, key: string)

  /** What the loop holds after a list of permissions, or the error that stopped it. */
  function Fold(ps: seq<Permission>): (r: Result<Best>)
    ensures r.Ok? ==> -1 <= r.value.rank <= 4
  {
    if ps == [] then Ok(Best(-1, ""))
    else
      var front := Fold(ps[..|ps| - 1]);
      if front.Err? then front
      else
        var best, p := front.value, ps[|ps| - 1];
        if !Supported(p) then Err(UnsupportedKind)
        else if Rank(p) > best.rank then Ok(Best(Rank(p), KeyOf(p)))
        else if Rank(p) < best.rank then Ok(best)
        else if best.key != "" && KeyOf(p) != "" && best.key != KeyOf(p) then Err(Conflict)
        else Ok(Best(best.rank, if best.key == "" then KeyOf(p) else best.key))
  }

  function Resolve(ps: seq<Permission>): Result<Policy> {
    match Fold(ps)
    case Err(e) => Err(e)
    case Ok(best) => if best.rank == -1 then Err(EmptySet) else Ok(PolicyOf(best.rank, best.key))
  }

  /** `resolveInvocationPolicyFromPermissions`, as the loop it is. */
  method ResolveFromPermissions(permissions: seq<Permission>) returns (r: Result<Policy>)
    ensures r == Resolve(permissions)
  {
    var rank: int, key := -1, "";
    for i := 0 to |permissions|
      invariant Fold(permissions[..i]) == Ok(Best(rank, key))
    {
      var p := permissions[i];
      ghost var seen := permissions[..i + 1];
      assert seen[..i] == permissions[..i] && seen[i] == p;
      if !Supported(p) {
        StopsEarly(seen, permissions);
        return Err(UnsupportedKind);
      }
      if Rank(p) > rank {
        rank, key := Rank(p), KeyOf(p);
        continue;
      }
      if Rank(p) == rank {
        if key != "" && KeyOf(p) != "" && key != KeyOf(p) {
          StopsEarly(seen, permissions);
          return Err(Conflict);
        }
        if key == "" {
          key := KeyOf(p);
        }
      }
    }
    assert permissions[..|permissions|] == permissions;
    if rank == -1 {
      return Err(EmptySet);
    }
    return Ok(PolicyOf(rank, key));
  }

  /** An error met on the way is the final answer. */
  lemma {:induction false} StopsEarly(a: seq<Permission>, ps: seq<Permission>)
    requires a <= ps && Fold(a).Err?
    ensures Fold(ps) == Fold(a)
    decreases |ps|
  {
    if |a| < |ps| {
      StopsEarly(a, ps[..|ps| - 1]);
    } else {
      assert a == ps;
    }
  }

  // ---------------------------------------------------------------- what it computes

  predicate AllSupported(ps: seq<Permission>) { forall i | 0 <= i < |ps| :: Supported(ps[i]) }

  /** The greatest rank in the list, -1 for an empty one. */
  function MaxRank(ps: seq<Permission>): (m: int)
    requires AllSupported(ps)
    ensures forall i | 0 <= i < |ps| :: Rank(ps[i]) <= m
    ensures if ps == [] then m == -1 else exists i | 0 <= i < |ps| :: Rank(ps[i]) == m
  {
    if ps == [] then -1
    else
      var front, last := MaxRank(ps[..|ps| - 1]), Rank(ps[|ps| - 1]);
      if last > front then assert ps[|ps| - 1] in ps; last else front
  }

  /** Entry j clashes with an earlier entry: two isolated permissions with different keys, and
      nothing of rank 2 or more before j. */
  predicate ClashAt(ps: seq<Permission>, i: nat, j: nat) {
    && i < j < |ps| && KeyOf(ps[i]) != "" && KeyOf(ps[j]) != "" && KeyOf(ps[i]) != KeyOf(ps[j])
    && forall k | 0 <= k < j && Supported(ps[k]) :: Rank(ps[k]) < 2
  }

  ghost predicate Clash(ps: seq<Permission>) { exists i: nat, j: nat :: ClashAt(ps, i, j) }

  /** The action key the policy keeps: the first one, unless something ranks above isolation. */
  function FirstKey(ps: seq<Permission>): string {
    if ps == [] then ""
    else
      var front := FirstKey(ps[..|ps| - 1]);
      if front != "" then front else KeyOf(ps[|ps| - 1])
  }

  lemma {:induction false} FirstKeyIsOne(ps: seq<Permission>)
    ensures FirstKey(ps) != "" ==> exists i | 0 <= i < |ps| :: KeyOf(ps[i]) == FirstKey(ps)
    ensures FirstKey(ps) == "" ==> forall i | 0 <= i < |ps| :: KeyOf(ps[i]) == ""
  {
    if ps != [] {
      FirstKeyIsOne(ps[..|ps| - 1]);
    }
  }

  /** Without a clash and below rank 2 there is only one key. */
  lemma {:induction false} OneKey(ps: seq<Permission>, i: nat)
    requires AllSupported(ps) && MaxRank(ps) < 2 && !Clash(ps) && i < |ps| && KeyOf(ps[i]) != ""
    ensures KeyOf(ps[i]) == FirstKey(ps)
  {
    FirstKeyIsOne(ps);
    var k :| 0 <= k < |ps| && KeyOf(ps[k]) == FirstKey(ps);
    if KeyOf(ps[i]) != FirstKey(ps) {
      assert ClashAt(ps, if k < i then k else i, if k < i then i else k);
    }
  }

  lemma {:induction false} ClashInFront(ps: seq<Permission>, i: nat, j: nat)
    requires ps != [] && AllSupported(ps)
    ensures j < |ps| - 1 ==> (ClashAt(ps[..|ps| - 1], i, j) <==> ClashAt(ps, i, j))
  {
    var front := ps[..|ps| - 1];
    assert forall k | 0 <= k < |front| :: front[k] == ps[k];
  }

  /** The last entry is the second of a clash exactly when the loop, at isolation, meets a key
      other than its first. */
  predicate ClashesLast(ps: seq<Permission>)
    requires ps != [] && AllSupported(ps)
  {
    var front, key := ps[..|ps| - 1], KeyOf(ps[|ps| - 1]);
    MaxRank(front) == 1 && FirstKey(front) != "" && key != "" && FirstKey(front) != key
  }

  lemma {:induction false} ClashStep(ps: seq<Permission>)
    requires ps != [] && AllSupported(ps)
    ensures Clash(ps) <==> Clash(ps[..|ps| - 1]) || ClashesLast(ps)
  {
    var n := |ps| - 1;
    var front := ps[..n];
    FirstKeyIsOne(front);
    if Clash(front) {
      var i: nat, j: nat :| ClashAt(front, i, j);
      ClashInFront(ps, i, j);
    } else if ClashesLast(ps) {
      var k :| 0 <= k < |front| && KeyOf(front[k]) == FirstKey(front);
      assert ClashAt(ps, k, n);
    }
    if Clash(ps) && !Clash(front) {
      var i: nat, j: nat :| ClashAt(ps, i, j);
      ClashInFront(ps, i, j);
      assert j == n && front[i] == ps[i];
      assert forall k | 0 <= k < |front| :: front[k] == ps[k];
      OneKey(front, i);
    }
  }

  /** Without a clash the loop holds the greatest rank and, at isolation, the first key; a clash
      stops it. */
  lemma {:induction false} FoldExact(ps: seq<Permission>)
    requires AllSupported(ps)
    ensures Clash(ps) ==> Fold(ps) == Err(Conflict)
    ensures !Clash(ps) ==> Fold(ps) == Ok(Best(MaxRank(ps), if MaxRank(ps) == 1 then FirstKey(ps) else ""))
  {
    if ps != [] {
      var front := ps[..|ps| - 1];
      FoldExact(front);
      ClashStep(ps);
      FirstKeyIsOne(front);
    }
  }

  /** The fold reports a conflict exactly when two isolated permissions with different keys both
      come before the first permission of rank 2 or more. */
  lemma {:induction false} ConflictExact(ps: seq<Permission>)
    requires AllSupported(ps)
    ensures Resolve(ps) == Err(Conflict) <==> Clash(ps)
  {
    FoldExact(ps);
  }

  /** Otherwise a non-empty list succeeds, with the class of its greatest rank. */
  lemma {:induction false} ClassIsMaximum(ps: seq<Permission>)
    requires AllSupported(ps) && ps != [] && !Clash(ps)
    ensures 0 <= MaxRank(ps) <= 4
    ensures Resolve(ps) == Ok(PolicyOf(MaxRank(ps), if MaxRank(ps) == 1 then FirstKey(ps) else ""))
  {
    FoldExact(ps);
  }

  /** An unsupported kind is an error wherever it stands, unless a conflict came first. */
  lemma {:induction false} UnsupportedExact(ps: seq<Permission>, u: nat)
    requires u < |ps| && AllSupported(ps[..u]) && !Supported(ps[u])
    ensures Resolve(ps) == Err(if Clash(ps[..u]) then Conflict else UnsupportedKind)
  {
    FoldExact(ps[..u]);
    var seen := ps[..u + 1];
    assert seen[..u] == ps[..u];
    StopsEarly(seen, ps);
  }

  predicate Has(ps: seq<Permission>, kind: Kind) { exists i | 0 <= i < |ps| :: ps[i].kind == kind }

  /** The class, kind by kind: the gravest permission in the list decides it. */
  lemma {:induction false} ClassByKind(ps: seq<Permission>)
    requires Resolve(ps).Ok?
    ensures var c := Resolve(ps).value.actionClass;
            && (c == DestructiveMutation <==> Has(ps, Destructive))
            && (c == GovernanceMutation <==> Has(ps, Governance) && !Has(ps, Destructive))
            && (c == FullMutation <==> Has(ps, Full) && !Has(ps, Governance) && !Has(ps, Destructive))
            && (c == IsolatedMutation <==>
                  Has(ps, Isolated) && !Has(ps, Full) && !Has(ps, Governance) && !Has(ps, Destructive))
            && (c == ReadOnly <==> forall i | 0 <= i < |ps| :: ps[i].kind == RepoRead || ps[i].kind == RuntimeRead)
    ensures var policy := Resolve(ps).value;
            policy.readOnly == (policy.actionClass == ReadOnly) && policy.mutating == !policy.readOnly
  {
    OkSupported(ps);
    FoldExact(ps);
    ConflictExact(ps);
    hide Fold, Clash, FirstKey;
    var i :| 0 <= i < |ps| && Rank(ps[i]) == MaxRank(ps);
    KindsBounded(ps, MaxRank(ps), i);
    hide MaxRank, Has;
  }

  /** The greatest rank tells which kinds are there. */
  lemma {:induction false} KindsBounded(ps: seq<Permission>, m: nat, i: nat)
    requires AllSupported(ps) && i < |ps| && Rank(ps[i]) == m && forall k | 0 <= k < |ps| :: Rank(ps[k]) <= m
    ensures m == 4 <==> Has(ps, Destructive)
    ensures m >= 3 <==> Has(ps, Governance) || Has(ps, Destructive)
    ensures m >= 2 <==> Has(ps, Full) || Has(ps, Governance) || Has(ps, Destructive)
    ensures m >= 1 <==> Has(ps, Isolated) || Has(ps, Full) || Has(ps, Governance) || Has(ps, Destructive)
    ensures m == 3 ==> Has(ps, Governance)
    ensures m == 2 ==> Has(ps, Full)
    ensures m == 1 ==> Has(ps, Isolated)
    ensures m == 0 <==> forall k | 0 <= k < |ps| :: ps[k].kind == RepoRead || ps[k].kind == RuntimeRead
  {
    assert Has(ps, ps[i].kind);
  }

  /** The action key: none unless the class is isolated mutation; then the key of every isolated permission
    * that has one. */
  lemma {:induction false} LimitedKeyExact(ps: seq<Permission>)
    requires Resolve(ps).Ok?
    ensures var policy := Resolve(ps).value;
            && (policy.actionClass != IsolatedMutation ==> policy.limitedActionKey == "")
            && (policy.actionClass == IsolatedMutation ==>
                  && (forall i | 0 <= i < |ps| && ps[i].kind == Isolated && ps[i].actionKey != "" ::
                        ps[i].actionKey == policy.limitedActionKey)
                  && (policy.limitedActionKey != "" ==>
                        exists i | 0 <= i < |ps| :: ps[i] == Permission(Isolated, policy.limitedActionKey)))
  {
    OkSupported(ps);
    FoldExact(ps);
    ConflictExact(ps);
    FirstKeyIsOne(ps);
    hide Fold;
    if MaxRank(ps) == 1 {
      forall i | 0 <= i < |ps| && KeyOf(ps[i]) != "" ensures KeyOf(ps[i]) == FirstKey(ps) {
        OneKey(ps, i);
      }
    }
    hide FirstKey, MaxRank, Clash;
  }

  /** Only an empty list is an empty set, and only a list with a kind unknown to the rules is unsupported. */
  lemma {:induction false} ErrorsExact(ps: seq<Permission>)
    ensures Resolve(ps) == Err(EmptySet) <==> ps == []
    ensures Resolve(ps) == Err(UnsupportedKind) ==> Has(ps, Unsupported)
  {
    if AllSupported(ps) {
      FoldExact(ps);
    } else if ps != [] {
      var i :| 0 <= i < |ps| && !Supported(ps[i]);
      FoldOfSome(ps);
    }
  }

  lemma {:induction false} FoldOfSome(ps: seq<Permission>)
    requires ps != []
    ensures Fold(ps).Ok? ==> Fold(ps).value.rank >= 0
    ensures Fold(ps) != Err(EmptySet)
  {
    if |ps| > 1 { FoldOfSome(ps[..|ps| - 1]); }
  }

  // ---------------------------------------------------------------- order does not matter

  lemma {:induction false} SameElements(ps: seq<Permission>, qs: seq<Permission>, i: nat) returns (j: nat)
    requires multiset(ps) == multiset(qs) && i < |ps|
    ensures j < |qs| && qs[j] == ps[i]
  {
    assert ps[i] in multiset(ps);
    assert ps[i] in qs;
    j :| j < |qs| && qs[j] == ps[i];
  }

  lemma {:induction false} PermutationSupported(ps: seq<Permission>, qs: seq<Permission>)
    requires multiset(ps) == multiset(qs) && AllSupported(ps)
    ensures AllSupported(qs)
  {
    forall i | 0 <= i < |qs|
      ensures Supported(qs[i])
    {
      var j := SameElements(qs, ps, i);
    }
  }

  lemma {:induction false} MaxRankAtMost(ps: seq<Permission>, qs: seq<Permission>)
    requires multiset(ps) == multiset(qs) && AllSupported(ps) && AllSupported(qs)
    ensures MaxRank(ps) <= MaxRank(qs)
  {
    if ps != [] {
      var i :| 0 <= i < |ps| && Rank(ps[i]) == MaxRank(ps);
      var j := SameElements(ps, qs, i);
    }
  }

  lemma {:induction false} SameKey(ps: seq<Permission>, qs: seq<Permission>)
    requires multiset(ps) == multiset(qs) && AllSupported(ps) && AllSupported(qs)
    requires MaxRank(qs) < 2 && !Clash(qs)
    ensures FirstKey(ps) != "" ==> FirstKey(qs) == FirstKey(ps)
  {
    FirstKeyIsOne(ps);
    if FirstKey(ps) != "" {
      var i :| 0 <= i < |ps| && KeyOf(ps[i]) == FirstKey(ps);
      var j := SameElements(ps, qs, i);
      OneKey(qs, j);
    }
  }

  /** Any two orderings of the same permissions that both succeed give the same policy. */
  lemma {:induction false} OrderIrrelevant(ps: seq<Permission>, qs: seq<Permission>)
    requires multiset(ps) == multiset(qs) && Resolve(ps).Ok? && Resolve(qs).Ok?
    ensures Resolve(ps) == Resolve(qs)
  {
    OkSupported(ps);
    PermutationSupported(ps, qs);
    ConflictExact(ps);
    ConflictExact(qs);
    FoldExact(ps);
    FoldExact(qs);
    MaxRankAtMost(ps, qs);
    MaxRankAtMost(qs, ps);
    if MaxRank(ps) == 1 {
      SameKey(ps, qs);
      SameKey(qs, ps);
    }
  }

  lemma {:induction false} OkSupported(ps: seq<Permission>)
    requires Fold(ps).Ok?
    ensures AllSupported(ps)
  {
    if ps != [] {
      OkSupported(ps[..|ps| - 1]);
    }
  }

  /** But one ordering may succeed where another conflicts: only the part before the first full
      mutation is checked. */
  lemma {:induction false} OrderDecidesConflict()
    ensures var a, b, c := Permission(Isolated, "a"), Permission(Isolated, "b"), Permission(Full, "");
            Resolve([a, b, c]) == Err(Conflict) && Resolve([c, a, b]).Ok?
  {
    var a, b, c := Permission(Isolated, "a"), Permission(Isolated, "b"), Permission(Full, "");
    var ps, qs := [a, b, c], [c, a, b];
    assert ClashAt(ps, 0, 1);
    ConflictExact(ps);
    FoldExact(qs);
    ConflictExact(qs);
    forall i: nat, j: nat
      ensures !ClashAt(qs, i, j)
    {
      assert qs[0] == c && Rank(c) == 2;
    }
    assert !Clash(qs);
  }

  // ---------------------------------------------------------------- adding a permission

  lemma {:induction false} MaxRankGrows(ps: seq<Permission>, i: nat, p: Permission)
    requires i <= |ps| && AllSupported(ps) && AllSupported(ps[..i] + [p] + ps[i..])
    ensures MaxRank(ps) <= MaxRank(ps[..i] + [p] + ps[i..])
  {
    var more := ps[..i] + [p] + ps[i..];
    if ps != [] {
      var k :| 0 <= k < |ps| && Rank(ps[k]) == MaxRank(ps);
      assert more[if k < i then k else k + 1] == ps[k];
    }
  }

  function RankOf(c: ActionClass): nat {
    match c case ReadOnly => 0 case IsolatedMutation => 1 case FullMutation => 2
            case GovernanceMutation => 3 case DestructiveMutation => 4
  }

  /** Adding a permission anywhere never lowers the class, and never makes a mutating skill
      read-only. */
  lemma {:induction false} AddingNeverLowers(ps: seq<Permission>, i: nat, p: Permission)
    requires i <= |ps| && Resolve(ps).Ok? && Resolve(ps[..i] + [p] + ps[i..]).Ok?
    ensures RankOf(Resolve(ps).value.actionClass) <= RankOf(Resolve(ps[..i] + [p] + ps[i..]).value.actionClass)
    ensures Resolve(ps).value.mutating ==> Resolve(ps[..i] + [p] + ps[i..]).value.mutating
  {
    var more := ps[..i] + [p] + ps[i..];
    OkSupported(ps);
    OkSupported(more);
    FoldExact(ps);
    FoldExact(more);
    ConflictExact(ps);
    ConflictExact(more);
    MaxRankGrows(ps, i, p);
  }
}

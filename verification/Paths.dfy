/** Lexical path containment: the string-prefix guard of the backup restore and the `Rel` guards
    of the skill handlers and the end-to-end runner, against one theory of cleaned paths.
    Separators are `/`; symbolic links and volumes play no part. */
module Paths {
  import opened Wrappers
  import opened Text

  /** A path as the list of its elements. */
  datatype Path = Path(rooted: bool, segs: seq<string>)

  predicate IsName(s: string) { s != "" && s != "." && '/' !in s }

  /** What `filepath.Clean` leaves: names, with `..` only in front and never below the root. */
  predicate Canonical(p: Path) {
    && (forall i | 0 <= i < |p.segs| :: IsName(p.segs[i]))
    && (forall i, j | 0 <= i < j < |p.segs| && p.segs[j] == ".." :: p.segs[i] == "..")
    && (p.rooted ==> ".." !in p.segs)
  }

  function Push(rooted: bool, out: seq<string>, s: string): seq<string> {
    if s == "" || s == "." then out
    else if s != ".." then out + [s]
    else if out != [] && out[|out| - 1] != ".." then out[..|out| - 1]
    else if rooted then out
    else out + [s]
  }

  function Resolve(rooted: bool, out: seq<string>, parts: seq<string>): seq<string>
    decreases parts
  {
    if parts == [] then out else Resolve(rooted, Push(rooted, out, parts[0]), parts[1..])
  }

  function Parse(s: string): Path {
    var rooted := s != "" && s[0] == '/';
    Path(rooted, Resolve(rooted, [], Split(s, '/')))
  }

  function Render(p: Path): string {
    if p.rooted then "/" + Join(p.segs, '/')
    else if p.segs == [] then "."
    else Join(p.segs, '/')
  }

  /** `filepath.Clean`. */
  function Clean(s: string): string { Render(Parse(s)) }

  /** `filepath.Join` of two elements. */
  function JoinPath(a: string, b: string): string {
    if a != "" then Clean(a + "/" + b) else if b != "" then Clean(b) else ""
  }

  // ---------------------------------------------------------------- cleaning

  lemma {:induction false} ResolveCanonical(rooted: bool, out: seq<string>, parts: seq<string>)
    requires Canonical(Path(rooted, out)) && Without(parts, '/')
    ensures Canonical(Path(rooted, Resolve(rooted, out, parts)))
    decreases parts
  {
    if parts != [] {
      ResolveCanonical(rooted, Push(rooted, out, parts[0]), parts[1..]);
    }
  }

  lemma {:induction false} ParseCanonical(s: string)
    ensures Canonical(Parse(s))
  {
    SplitWithout(s, '/');
    ResolveCanonical(Parse(s).rooted, [], Split(s, '/'));
  }

  lemma {:induction false} ResolveAppend(rooted: bool, out: seq<string>, a: seq<string>, b: seq<string>)
    ensures Resolve(rooted, out, a + b) == Resolve(rooted, Resolve(rooted, out, a), b)
    decreases a
  {
    if a == [] {
      assert a + b == b;
    } else {
      assert (a + b)[1..] == a[1..] + b;
      ResolveAppend(rooted, Push(rooted, out, a[0]), a[1..], b);
    }
  }

  lemma {:induction false} ResolveOne(rooted: bool, out: seq<string>, s: string)
    ensures Resolve(rooted, out, [s]) == Push(rooted, out, s)
  {
    assert [s][1..] == [];
  }

  /** Appending canonical elements to canonical ones resolves nothing. */
  lemma {:induction false} ResolveFixes(rooted: bool, out: seq<string>, parts: seq<string>)
    requires Canonical(Path(rooted, out + parts))
    ensures Resolve(rooted, out, parts) == out + parts
    decreases parts
  {
    if parts != [] {
      var s := parts[0];
      assert (out + parts)[|out|] == s;
      assert out != [] ==> (out + parts)[|out| - 1] == out[|out| - 1];
      assert out + [s] + parts[1..] == out + parts;
      ResolveFixes(rooted, out + [s], parts[1..]);
    }
  }

  /** Reading a rendered path back, as elements to be resolved onto any path. */
  lemma {:induction false} ResolveRendered(rooted: bool, out: seq<string>, p: Path)
    requires Canonical(p)
    ensures Resolve(rooted, out, Split(Render(p), '/')) == Resolve(rooted, out, p.segs)
  {
    var body := Join(p.segs, '/');
    ResolveOne(rooted, out, "");
    ResolveOne(rooted, out, ".");
    if p.segs == [] {
      SplitSimple(body, '/');
    } else {
      assert Without(p.segs, '/');
      SplitJoin(p.segs, '/');
    }
    if p.rooted {
      assert ("/" + body)[1..] == body;
      assert Split("/" + body, '/')[1..] == Split(body, '/');
    } else if p.segs == [] {
      SplitSimple(".", '/');
    }
  }

  /** Cleaning reads back what it wrote, so cleaning twice is cleaning once. */
  lemma {:induction false} ParseRender(p: Path)
    requires Canonical(p)
    ensures Parse(Render(p)) == p
  {
    ResolveRendered(p.rooted, [], p);
    ResolveFixes(p.rooted, [], p.segs);
    if !p.rooted && p.segs != [] {
      assert Render(p)[0] == p.segs[0][0];
    }
  }

  lemma {:induction false} CleanIdempotent(s: string)
    ensures Clean(Clean(s)) == Clean(s)
  {
    ParseCanonical(s);
    ParseRender(Parse(s));
  }

  lemma {:induction false} RenderInjective(p: Path, q: Path)
    requires Canonical(p) && Canonical(q)
    ensures Render(p) == Render(q) <==> p == q
  {
    ParseRender(p);
    ParseRender(q);
  }

  /** Joining is resolving the second path's elements on top of the first path. */
  lemma {:induction false} JoinResolves(a: string, b: string)
    requires a != ""
    ensures Parse(a + "/" + b) == Path(Parse(a).rooted, Resolve(Parse(a).rooted, Parse(a).segs, Split(b, '/')))
  {
    SplitAppend(a, b, '/');
    assert a + ['/'] + b == a + "/" + b;
    ResolveAppend(Parse(a).rooted, [], Split(a, '/'), Split(b, '/'));
  }

  // ---------------------------------------------------------------- what a path means

  predicate IsElement(s: string) { IsName(s) && s != ".." }

  predicate IsAbsolute(s: string) { s != "" && s[0] == '/' }

  /** Where one element leads from a directory, given as the names on the way from the root: no links, and
    * the root is its own parent. */
  function Go(dir: seq<string>, s: string): seq<string> {
    if s == "" || s == "." then dir
    else if s == ".." then (if dir == [] then [] else dir[..|dir| - 1])
    else dir + [s]
  }

  function Walk(dir: seq<string>, parts: seq<string>): seq<string> {
    if parts == [] then dir else Go(Walk(dir, parts[..|parts| - 1]), parts[|parts| - 1])
  }

  /** The directory that a path names, seen from a working directory. */
  function Meaning(cwd: seq<string>, s: string): seq<string> {
    Walk(if IsAbsolute(s) then [] else cwd, Split(s, '/'))
  }

  lemma {:induction false} WalkAppend(dir: seq<string>, a: seq<string>, b: seq<string>)
    ensures Walk(dir, a + b) == Walk(Walk(dir, a), b)
  {
    if b == [] {
      assert a + b == a;
    } else {
      assert (a + b)[..|a + b| - 1] == a + b[..|b| - 1];
      WalkAppend(dir, a, b[..|b| - 1]);
    }
  }

  lemma {:induction false} WalkOne(dir: seq<string>, s: string)
    ensures Walk(dir, [s]) == Go(dir, s)
  {
    assert [s][..0] == [];
  }

  /** Resolving one element and then walking is walking it as well; below the root only from the root. */
  lemma {:induction false} WalkPush(rooted: bool, dir: seq<string>, out: seq<string>, s: string)
    requires Canonical(Path(rooted, out)) && (rooted ==> dir == [])
    ensures Walk(dir, Push(rooted, out, s)) == Go(Walk(dir, out), s)
  {
    WalkAppend(dir, out, [s]);
    WalkOne(Walk(dir, out), s);
    assert out != [] ==> out[|out| - 1] in out;
    if s == ".." && out != [] && out[|out| - 1] != ".." {
      assert IsElement(out[|out| - 1]);
    }
  }

  lemma {:induction false} WalkResolve(rooted: bool, dir: seq<string>, out: seq<string>, parts: seq<string>)
    requires Canonical(Path(rooted, out)) && Without(parts, '/') && (rooted ==> dir == [])
    ensures Walk(dir, Resolve(rooted, out, parts)) == Walk(Walk(dir, out), parts)
    decreases parts
  {
    if parts != [] {
      var s := parts[0];
      WalkPush(rooted, dir, out, s);
      ResolveCanonical(rooted, out, [s]);
      ResolveOne(rooted, out, s);
      hide Push, Go;
      WalkResolve(rooted, dir, Push(rooted, out, s), parts[1..]);
      assert [s] + parts[1..] == parts;
      WalkAppend(Walk(dir, out), [s], parts[1..]);
      WalkOne(Walk(dir, out), s);
    }
  }

  lemma {:induction false} MeaningOfSegs(cwd: seq<string>, s: string)
    ensures Meaning(cwd, s) == Walk(if IsAbsolute(s) then [] else cwd, Parse(s).segs)
  {
    SplitWithout(s, '/');
    WalkResolve(IsAbsolute(s), if IsAbsolute(s) then [] else cwd, [], Split(s, '/'));
  }

  /** Cleaning a path leaves it absolute or relative as it was, and never changes the directory it names. */
  lemma {:induction false} CleanKeepsMeaning(cwd: seq<string>, s: string)
    ensures IsAbsolute(Clean(s)) == IsAbsolute(s)
    ensures Meaning(cwd, Clean(s)) == Meaning(cwd, s)
  {
    ParseCanonical(s);
    ParseRender(Parse(s));
    MeaningOfSegs(cwd, s);
    MeaningOfSegs(cwd, Clean(s));
  }

  /** How often `x` stands in front. */
  function Leading(segs: seq<string>, x: string): (n: nat)
    ensures n <= |segs| && (forall i | 0 <= i < n :: segs[i] == x) && (n < |segs| ==> segs[n] != x)
  {
    if segs == [] || segs[0] != x then 0 else 1 + Leading(segs[1..], x)
  }

  lemma {:induction false} LeadingIs(segs: seq<string>, x: string, n: nat)
    requires n <= |segs| && (forall i | 0 <= i < n :: segs[i] == x) && (n < |segs| ==> segs[n] != x)
    ensures Leading(segs, x) == n
  {
    if n > 0 { LeadingIs(segs[1..], x, n - 1); }
  }

  function Climbs(segs: seq<string>): (n: nat)
    ensures n <= |segs|
  {
    Leading(segs, "..")
  }

  /** As many names dropped as the path climbs, and its other elements added. */
  function Landing(dir: seq<string>, segs: seq<string>): seq<string>
    requires Climbs(segs) <= |dir|
  {
    dir[..|dir| - Climbs(segs)] + segs[Climbs(segs)..]
  }

  /** That is where a canonical path leads from a directory deep enough. */
  lemma {:induction false} WalkCanonical(rooted: bool, dir: seq<string>, segs: seq<string>)
    requires Canonical(Path(rooted, segs)) && Climbs(segs) <= |dir|
    ensures Walk(dir, segs) == Landing(dir, segs)
  {
    if segs == [] {
      assert dir[..|dir|] + [] == dir;
    } else {
      var before, last := segs[..|segs| - 1], segs[|segs| - 1];
      hide Canonical, Climbs, Walk, Go, Landing;
      assert segs == before + [last];
      ClimbsSnoc(rooted, before, last);
      WalkCanonical(rooted, dir, before);
      WalkSnoc(dir, before, last);
      LandingSnoc(rooted, dir, before, last);
    }
  }

  lemma {:induction false} ClimbsSnoc(rooted: bool, before: seq<string>, last: string)
    requires Canonical(Path(rooted, before + [last]))
    ensures Canonical(Path(rooted, before))
    ensures if last == ".." then Climbs(before) == |before| && Climbs(before + [last]) == |before| + 1
            else IsElement(last) && Climbs(before + [last]) == Climbs(before)
  {
    var segs := before + [last];
    assert segs[|before|] == last && forall i | 0 <= i < |before| :: segs[i] == before[i];
    if last == ".." {
      LeadingIs(segs, "..", |segs|);
      LeadingIs(before, "..", |before|);
    } else {
      LeadingIs(segs, "..", Climbs(before));
    }
  }

  lemma {:induction false} WalkSnoc(dir: seq<string>, before: seq<string>, last: string)
    ensures Walk(dir, before + [last]) == Go(Walk(dir, before), last)
  {
    assert (before + [last])[..|before|] == before;
  }

  lemma {:induction false} LandingSnoc(rooted: bool, dir: seq<string>, before: seq<string>, last: string)
    requires Canonical(Path(rooted, before + [last])) && Climbs(before + [last]) <= |dir|
    ensures Climbs(before) <= Climbs(before + [last])
    ensures Landing(dir, before + [last]) == Go(Landing(dir, before), last)
  {
    ClimbsSnoc(rooted, before, last);
    hide Canonical, Climbs;
    var n := Climbs(before);
    if last == ".." {
      assert before[n..] == [] && dir[..|dir| - n] + [] == dir[..|dir| - n];
      assert (before + [last])[n + 1..] == [];
    } else {
      assert (before + [last])[n..] == before[n..] + [last];
    }
  }

  /** No element is called this. */
  const STRANGE := "/"

  lemma {:induction false} SegsFromMeaning(p: Path, q: Path)
    requires Canonical(p) && Canonical(q) && p.rooted == q.rooted
    requires forall dir | p.rooted ==> dir == [] :: Walk(dir, p.segs) == Walk(dir, q.segs)
    ensures p == q
  {
    var k, n := Climbs(p.segs), Climbs(q.segs);
    if p.rooted {
      RootedDoesNotClimb(p);
      RootedDoesNotClimb(q);
    }
    hide Canonical, Climbs, Walk;
    var dir := Strange(k + n);
    assert p.rooted ==> dir == [];
    StrangeWalk(p, dir);
    StrangeWalk(q, dir);
    SameEnds(p.segs, q.segs, dir, k);
  }

  lemma {:induction false} RootedDoesNotClimb(p: Path)
    requires Canonical(p) && p.rooted
    ensures Climbs(p.segs) == 0
  {
    assert p.segs != [] ==> p.segs[0] in p.segs;
  }

  function Strange(n: nat): (dir: seq<string>)
    ensures |dir| == n && forall i | 0 <= i < n :: dir[i] == STRANGE
  {
    seq(n, _ => STRANGE)
  }

  /** From directories with strange names one can see how far a path climbs. */
  lemma {:induction false} StrangeWalk(p: Path, dir: seq<string>)
    requires Canonical(p) && Climbs(p.segs) <= |dir| && forall i | 0 <= i < |dir| :: dir[i] == STRANGE
    ensures Walk(dir, p.segs) == Landing(dir, p.segs)
    ensures Leading(Walk(dir, p.segs), STRANGE) == |dir| - Climbs(p.segs)
  {
    WalkCanonical(p.rooted, dir, p.segs);
    StrangeEnds(p, dir[..|dir| - Climbs(p.segs)]);
  }

  lemma {:induction false} SameEnds(a: seq<string>, b: seq<string>, dir: seq<string>, k: nat)
    requires Climbs(a) == Climbs(b) == k && |dir| == k + k
    requires dir[..k] + a[k..] == dir[..k] + b[k..]
    ensures a == b
  {
    assert a[k..] == (dir[..k] + a[k..])[k..] == (dir[..k] + b[k..])[k..] == b[k..];
    assert a[..k] == b[..k];
    assert a == a[..k] + a[k..] && b == b[..k] + b[k..];
  }

  lemma {:induction false} StrangeEnds(p: Path, up: seq<string>)
    requires Canonical(p) && forall i | 0 <= i < |up| :: up[i] == STRANGE
    ensures Leading(up + p.segs[Climbs(p.segs)..], STRANGE) == |up|
  {
    LeadingIs(up + p.segs[Climbs(p.segs)..], STRANGE, |up|);
  }

  /** Two paths clean to the same text exactly when both are absolute or both relative and they name the same
    * directory from everywhere. */
  lemma {:induction false} CleanExact(s: string, t: string)
    ensures Clean(s) == Clean(t)
       <==> IsAbsolute(s) == IsAbsolute(t) && forall cwd :: Meaning(cwd, s) == Meaning(cwd, t)
  {
    ParseCanonical(s);
    ParseCanonical(t);
    RenderInjective(Parse(s), Parse(t));
    forall cwd ensures Meaning(cwd, s) == Walk(if IsAbsolute(s) then [] else cwd, Parse(s).segs) {
      MeaningOfSegs(cwd, s);
    }
    forall cwd ensures Meaning(cwd, t) == Walk(if IsAbsolute(t) then [] else cwd, Parse(t).segs) {
      MeaningOfSegs(cwd, t);
    }
    hide Meaning, Walk, Canonical;
    if IsAbsolute(s) == IsAbsolute(t) && forall cwd :: Meaning(cwd, s) == Meaning(cwd, t) {
      forall dir | Parse(s).rooted ==> dir == [] ensures Walk(dir, Parse(s).segs) == Walk(dir, Parse(t).segs) {
        assert Meaning(dir, s) == Meaning(dir, t);
      }
      SegsFromMeaning(Parse(s), Parse(t));
    }
  }

  /** An element is added, and `..` after it takes it away again, whatever follows. */
  lemma {:induction false} ElementThenParent(a: string, n: string, rest: string)
    requires a != "" && IsElement(n)
    ensures Parse(a + "/" + n).segs == Parse(a).segs + [n]
    ensures Clean(a + "/" + n + "/..") == Clean(a)
    ensures Clean(a + "/" + n + "/../" + rest) == Clean(a + "/" + rest)
  {
    var r, segs := Parse(a).rooted, Parse(a).segs;
    assert a + "/" + n + "/.." == (a + "/" + n) + "/" + "..";
    assert a + "/" + n + "/../" + rest == (a + "/" + n + "/..") + "/" + rest;
    SplitSimple(n, '/');
    SplitSimple("..", '/');
    ResolveOne(r, segs, n);
    ResolveOne(r, segs + [n], "..");
    JoinResolves(a, n);
    JoinResolves(a + "/" + n, "..");
    hide Resolve, Push;
    assert Parse(a + "/" + n + "/..") == Path(r, segs);
    JoinResolves(a + "/" + n + "/..", rest);
    JoinResolves(a, rest);
  }

  /** `.` and doubled or trailing separators say nothing. */
  lemma {:induction false} DotSaysNothing(a: string, rest: string)
    requires a != ""
    ensures Clean(a + "/.") == Clean(a + "/") == Clean(a)
    ensures Clean(a + "/./" + rest) == Clean(a + "//" + rest) == Clean(a + "/" + rest)
  {
    var r, segs := Parse(a).rooted, Parse(a).segs;
    assert a + "/." == a + "/" + "." && a + "/" == a + "/" + "";
    assert a + "/./" + rest == (a + "/.") + "/" + rest && a + "//" + rest == (a + "/") + "/" + rest;
    SplitSimple(".", '/');
    SplitSimple("", '/');
    ResolveOne(r, segs, ".");
    ResolveOne(r, segs, "");
    JoinResolves(a, ".");
    JoinResolves(a, "");
    JoinResolves(a + "/.", rest);
    JoinResolves(a + "/", rest);
    JoinResolves(a, rest);
  }

  /** `..` with nothing to take away: the root is its own parent, and a relative path climbs on. */
  lemma {:induction false} ParentOfNothing(a: string)
    requires a != ""
    ensures Parse(a).rooted && Parse(a).segs == [] ==> Clean(a + "/..") == "/"
    ensures !Parse(a).rooted && (Parse(a).segs == [] || Parse(a).segs[|Parse(a).segs| - 1] == "..") ==>
              Parse(a + "/..") == Path(false, Parse(a).segs + [".."])
  {
    assert a + "/.." == a + "/" + "..";
    SplitSimple("..", '/');
    ResolveOne(Parse(a).rooted, Parse(a).segs, "..");
    JoinResolves(a, "..");
    assert Join([], '/') == "" && "/" + "" == "/";
  }

  // ---------------------------------------------------------------- the restore guard

  /** Where a backup member is restored, or nothing when the guard refuses it. */
  function ArchiveTarget(root: string, name: string): Option<string> {
    var target, rootClean := JoinPath(root, Clean(name)), Clean(root);
    if target != rootClean && !HasPrefix(target, rootClean + "/") then None else Some(target)
  }

  /** The target's elements: the member's elements resolved on top of the root's. */
  function TargetPath(root: string, name: string): Path {
    if root == "" then Parse(name)
    else Path(Parse(root).rooted, Resolve(Parse(root).rooted, Parse(root).segs, Parse(name).segs))
  }

  lemma {:induction false} TargetRendered(root: string, name: string)
    ensures Canonical(TargetPath(root, name))
    ensures JoinPath(root, Clean(name)) == Render(TargetPath(root, name))
  {
    ParseCanonical(root);
    ParseCanonical(name);
    if root == "" {
      CleanIdempotent(name);
    } else {
      JoinResolves(root, Clean(name));
      ResolveRendered(Parse(root).rooted, Parse(root).segs, Parse(name));
      assert Without(Parse(name).segs, '/');
      ResolveCanonical(Parse(root).rooted, Parse(root).segs, Parse(name).segs);
    }
  }

  /** The guard's string-prefix test is an element-prefix test, except that a root cleaned
      to "/" or "." admits nothing but itself. */
  lemma {:induction false} PrefixTest(r: Path, t: Path)
    requires Canonical(r) && Canonical(t)
    ensures HasPrefix(Render(t), Render(r) + "/") <==> r.rooted == t.rooted && r.segs != [] && r.segs < t.segs
  {
    assert Without(r.segs, '/') && Without(t.segs, '/');
    if r.rooted != t.rooted {
      FirstChar(r);
      FirstChar(t);
    } else if r.rooted {
      RootedPrefix(r.segs, t.segs);
    } else {
      RelativePrefix(if r.segs == [] then ["."] else r.segs, if t.segs == [] then ["."] else t.segs);
    }
  }

  lemma {:induction false} FirstChar(p: Path)
    requires Canonical(p)
    ensures Render(p) != "" && (Render(p)[0] == '/' <==> p.rooted)
  {
    if !p.rooted && p.segs != [] {
      assert IsName(p.segs[0]);
      assert Render(p)[0] == p.segs[0][0];
    }
  }

  lemma {:induction false} RootedPrefix(r: seq<string>, t: seq<string>)
    requires Without(r, '/') && Without(t, '/') && forall i | 0 <= i < |t| :: t[i] != ""
    ensures "/" + Join(r, '/') + "/" <= "/" + Join(t, '/') <==> r != [] && r < t
  {
    var a, b := Join(r, '/') + "/", Join(t, '/');
    assert "/" + Join(r, '/') + "/" == "/" + a;
    ConsPrefix('/', a, b);
    if r == [] {
      assert t != [] ==> b[0] == t[0][0];
    } else if t != [] {
      JoinPrefix(r, t, '/');
    }
  }

  lemma {:induction false} RelativePrefix(r: seq<string>, t: seq<string>)
    requires Without(r, '/') && Without(t, '/') && r != [] && t != []
    ensures Join(r, '/') + "/" <= Join(t, '/') <==> r < t
  {
    JoinPrefix(r, t, '/');
  }

  lemma {:induction false} ConsPrefix(c: char, p: string, s: string)
    ensures [c] + p <= [c] + s <==> p <= s
  {
    assert ([c] + p)[1..] == p && ([c] + s)[1..] == s;
    if [c] + p <= [c] + s {
      assert forall i | 0 <= i < |p| :: p[i] == ([c] + p)[i + 1] == ([c] + s)[i + 1] == s[i];
    }
  }

  /** Exactly which members the guard admits. */
  lemma {:induction false} GuardAdmits(root: string, name: string)
    ensures var r, t := Parse(root), TargetPath(root, name);
            ArchiveTarget(root, name)
            == if t == r || (r.rooted == t.rooted && r.segs != [] && r.segs < t.segs) then Some(Render(t)) else None
  {
    ParseCanonical(root);
    TargetRendered(root, name);
    RenderInjective(TargetPath(root, name), Parse(root));
    PrefixTest(Parse(root), TargetPath(root, name));
  }

  /** The parent of an absolute root is refused. */
  lemma {:induction false} ParentRefused(root: string)
    requires Parse(root).rooted && Parse(root).segs != []
    ensures ArchiveTarget(root, "..") == None
  {
    var r := Parse(root);
    ParseCanonical(root);
    assert r.segs[|r.segs| - 1] in r.segs;
    ParentParsed();
    ResolveOne(true, r.segs, "..");
    hide Parse, Resolve;
    GuardAdmits(root, "..");
  }

  /** A relative name of plain elements is restored below the root, under that name. */
  lemma {:induction false} PlainNameRestored(root: string, name: string)
    requires Parse(root).segs != [] && Plain(Split(name, '/'))
    ensures ArchiveTarget(root, name) == Some(Clean(root) + "/" + name)
  {
    var r, names := Parse(root), Split(name, '/');
    ParseCanonical(root);
    ParsePlain(name);
    AppendNames(r.rooted, r.segs, names);
    hide Canonical, Resolve, Split;
    GuardAdmits(root, name);
    JoinSplit(name, '/');
    RenderAppend(r, names);
  }

  lemma {:induction false} ParsePlain(name: string)
    requires Plain(Split(name, '/'))
    ensures Parse(name) == Path(false, Split(name, '/'))
  {
    var names := Split(name, '/');
    AppendNames(false, [], names);
    assert [] + names == names;
    assert !IsAbsolute(name) by { assert names[0] != ""; }
  }

  lemma {:induction false} RenderAppend(r: Path, names: seq<string>)
    requires r.segs != [] && names != []
    ensures Render(Path(r.rooted, r.segs + names)) == Render(r) + "/" + Join(names, '/')
  {
    JoinAppend(r.segs, names, '/');
    hide Join;
    assert "/" + (Join(r.segs, '/') + ['/'] + Join(names, '/')) == "/" + Join(r.segs, '/') + "/" + Join(names, '/');
  }

  /** `t` lies under `r`: the root's elements come first and nothing after them climbs. */
  predicate Contained(r: Path, t: Path) {
    r.rooted == t.rooted && r.segs <= t.segs && ".." !in t.segs[|r.segs|..]
  }

  /** The roots from which nothing can escape. */
  predicate SafeRoot(r: Path) {
    r.rooted || r.segs == [] || r.segs[|r.segs| - 1] != ".."
  }

  lemma {:induction false} SafeRootContains(root: string, name: string)
    requires SafeRoot(Parse(root)) && ArchiveTarget(root, name).Some?
    ensures Contained(Parse(root), TargetPath(root, name))
  {
    GuardAdmits(root, name);
    TargetRendered(root, name);
    ParseCanonical(root);
    var r, t := Parse(root), TargetPath(root, name);
    if r.segs != [] && !r.rooted {
      assert t.segs[|r.segs| - 1] == r.segs[|r.segs| - 1];
    }
  }

  lemma {:induction false} ParentParsed()
    ensures Parse("..") == Path(false, [".."])
  {
    SplitSimple("..", '/');
    ResolveOne(false, [], "..");
  }

  /** From a relative root ending in "..", the member ".." climbs out and is still admitted. */
  lemma {:induction false} ClimbingRootEscapes(root: string)
    requires !SafeRoot(Parse(root))
    ensures ArchiveTarget(root, "..").Some?
    ensures !Contained(Parse(root), TargetPath(root, ".."))
  {
    var r := Parse(root);
    ParentParsed();
    ResolveOne(r.rooted, r.segs, "..");
    var t := TargetPath(root, "..");
    assert t.segs == r.segs + [".."];
    GuardAdmits(root, "..");
    assert t.segs[|r.segs|..] == [".."];
  }

  /** The restore guard contains every member it admits exactly when the root is absolute or its
      cleaned form does not end in "..". */
  lemma {:induction false} RestoreContained(root: string)
    ensures SafeRoot(Parse(root))
        <==> (forall name :: ArchiveTarget(root, name).Some? ==> Contained(Parse(root), TargetPath(root, name)))
  {
    if SafeRoot(Parse(root)) {
      forall name | ArchiveTarget(root, name).Some?
        ensures Contained(Parse(root), TargetPath(root, name))
      {
        SafeRootContains(root, name);
      }
    } else {
      ClimbingRootEscapes(root);
    }
  }

  /** From an absolute root, whatever is restored lies in the directory that the root names, or below it. */
  lemma {:induction false} RestoredBelow(root: string, name: string, cwd: seq<string>)
    requires IsAbsolute(root) && ArchiveTarget(root, name).Some?
    ensures var target := ArchiveTarget(root, name).value;
            IsAbsolute(target) && Meaning(cwd, root) <= Meaning(cwd, target)
  {
    var r, t := Parse(root), TargetPath(root, name);
    GuardAdmits(root, name);
    ParseCanonical(root);
    TargetRendered(root, name);
    ParseRender(t);
    FirstChar(t);
    hide ArchiveTarget;
    RootedMeaning(cwd, root);
    RootedMeaning(cwd, Render(t));
  }

  /** An absolute path names the directory that its elements spell. */
  lemma {:induction false} RootedMeaning(cwd: seq<string>, s: string)
    requires IsAbsolute(s)
    ensures Meaning(cwd, s) == Parse(s).segs
  {
    ParseCanonical(s);
    MeaningOfSegs(cwd, s);
    RootedDoesNotClimb(Parse(s));
    WalkCanonical(true, [], Parse(s).segs);
  }

  // ---------------------------------------------------------------- the Rel guards

  function Common(a: seq<string>, b: seq<string>): (n: nat)
    ensures n <= |a| && n <= |b| && a[..n] == b[..n]
    ensures n < |a| && n < |b| ==> a[n] != b[n]
  {
    if a == [] || b == [] || a[0] != b[0] then 0 else 1 + Common(a[1..], b[1..])
  }

  lemma {:induction false} CommonFull(a: seq<string>, b: seq<string>)
    ensures Common(a, b) == |a| <==> a <= b
  {
    if a != [] && b != [] && a[0] == b[0] {
      CommonFull(a[1..], b[1..]);
      assert a <= b <==> a[1..] <= b[1..] by {
        assert a == [a[0]] + a[1..] && b == [b[0]] + b[1..];
      }
    }
  }

  function Ups(n: nat): seq<string> { seq(n, _ => "..") }

  /** `filepath.Rel` from an absolute base: up past what is not shared, then down. */
  function Rel(base: string, target: string): Option<string>
    requires Parse(base).rooted
  {
    var b, t := Parse(base), Parse(target);
    if b == t then Some(".")
    else if !t.rooted then None
    else var n := Common(b.segs, t.segs); Some(Join(Ups(|b.segs| - n) + t.segs[n..], '/'))
  }

  /** The shared test of `ensureRepoRelativePath` and `ensureAllowedSkillHandlerRoot`. */
  predicate RelGuard(root: string, path: string)
    requires Parse(root).rooted
  {
    var rel := Rel(root, path);
    rel.Some? && !(rel.value == ".." || HasPrefix(rel.value, "../"))
  }

  /** `isInside`, on paths already made absolute. */
  predicate IsInside(root: string, path: string)
    requires Parse(root).rooted
  {
    var rel := Rel(root, path);
    rel.Some? && rel.value != "." && rel.value != ".." && !HasPrefix(rel.value, "../")
  }

  lemma {:induction false} StartsWithUp(parts: seq<string>)
    requires parts != [] && Without(parts, '/')
    ensures parts[0] == ".." <==> Join(parts, '/') == ".." || HasPrefix(Join(parts, '/'), "../")
  {
    var up := [".."];
    assert Join(up, '/') == "..";
    JoinPrefix(up, parts, '/');
    assert Join(up, '/') + ['/'] == "../";
    if Join(parts, '/') == ".." {
      SplitJoin(parts, '/');
      SplitJoin(up, '/');
    }
    if parts[0] == ".." && |parts| > 1 {
      assert up < parts;
    }
  }

  /** The Rel guard admits exactly the paths whose elements extend the root's. */
  lemma {:induction false} RelGuardExact(root: string, path: string)
    requires Parse(root).rooted
    ensures RelGuard(root, path) <==> Parse(path).rooted && Parse(root).segs <= Parse(path).segs
  {
    var b, t := Parse(root), Parse(path);
    ParseCanonical(root);
    ParseCanonical(path);
    CommonFull(b.segs, t.segs);
    if b != t && t.rooted {
      var n := Common(b.segs, t.segs);
      var parts := Ups(|b.segs| - n) + t.segs[n..];
      assert Without(parts, '/');
      StartsWithUp(parts);
      if n < |b.segs| {
        assert parts[0] == "..";
      } else {
        assert parts[0] == t.segs[n];
        assert parts[0] in t.segs;
      }
    }
  }

  lemma {:induction false} NotDot(parts: seq<string>)
    requires parts != [] && Without(parts, '/') && parts[0] != "."
    ensures Join(parts, '/') != "."
  {
    SplitJoin(parts, '/');
    SplitSimple(".", '/');
  }

  lemma {:induction false} RelDot(root: string, path: string)
    requires Parse(root).rooted && Parse(path).rooted
    ensures Rel(root, path).Some? && (Rel(root, path).value == "." <==> Parse(root) == Parse(path))
  {
    var b, t := Parse(root), Parse(path);
    ParseCanonical(path);
    if b != t {
      var n := Common(b.segs, t.segs);
      NotDot(Ups(|b.segs| - n) + t.segs[n..]);
    }
  }

  /** `isInside` admits exactly the proper extensions. */
  lemma {:induction false} IsInsideExact(root: string, path: string)
    requires Parse(root).rooted
    ensures IsInside(root, path) <==> Parse(path).rooted && Parse(root).segs < Parse(path).segs
  {
    RelGuardExact(root, path);
    if Parse(path).rooted {
      RelDot(root, path);
    }
  }

  /** For an absolute root other than "/", the restore guard's string test and the Rel test
      admit the same targets. */
  lemma {:induction false} PrefixGuardIsRelGuard(root: string, name: string)
    requires Parse(root).rooted && Parse(root).segs != []
    ensures ArchiveTarget(root, name).Some? <==> RelGuard(root, JoinPath(root, Clean(name)))
  {
    GuardAdmits(root, name);
    TargetRendered(root, name);
    ParseRender(TargetPath(root, name));
    RelGuardExact(root, JoinPath(root, Clean(name)));
  }

  /** At "/" and at "." the string test admits only the root itself. */
  lemma {:induction false} BareRootRefusesAll(root: string, name: string)
    requires Parse(root).segs == []
    ensures ArchiveTarget(root, name).Some? <==> TargetPath(root, name) == Parse(root)
  {
    GuardAdmits(root, name);
  }

  /** There the two tests differ: the Rel guard admits everything absolute. */
  lemma {:induction false} FilesystemRootRefusesAll(root: string, name: string)
    requires Parse(root).rooted && Parse(root).segs == []
    ensures RelGuard(root, JoinPath(root, Clean(name)))
    ensures ArchiveTarget(root, name).Some? <==> TargetPath(root, name).segs == []
  {
    GuardAdmits(root, name);
    TargetRendered(root, name);
    ParseRender(TargetPath(root, name));
    RelGuardExact(root, JoinPath(root, Clean(name)));
  }

  // ---------------------------------------------------------------- skill handlers

  /** Names resolve onto a canonical path by plain appending. */
  lemma {:induction false} AppendNames(rooted: bool, out: seq<string>, names: seq<string>)
    requires Canonical(Path(rooted, out))
    requires Plain(names)
    ensures Canonical(Path(rooted, out + names))
    ensures Resolve(rooted, out, names) == out + names
  {
    ResolveFixes(rooted, out, names);
  }

  predicate Plain(names: seq<string>) {
    forall i | 0 <= i < |names| :: IsName(names[i]) && names[i] != ".."
  }

  lemma {:induction false} JoinNames(repo: string, sub: string)
    requires Parse(repo).rooted && Plain(Split(sub, '/'))
    ensures Parse(JoinPath(repo, sub)) == Path(true, Parse(repo).segs + Split(sub, '/'))
  {
    ParseCanonical(repo);
    JoinResolves(repo, sub);
    AppendNames(true, Parse(repo).segs, Split(sub, '/'));
    ParseRender(Path(true, Parse(repo).segs + Split(sub, '/')));
  }

  /** A path under a plain subdirectory of the repository passes the repository check as well. */
  lemma {:induction false} SubdirectoryWithinRepo(repo: string, sub: string, path: string)
    requires Parse(repo).rooted && Plain(Split(sub, '/'))
    ensures Parse(JoinPath(repo, sub)).rooted
    ensures RelGuard(JoinPath(repo, sub), path) ==> RelGuard(repo, path)
  {
    JoinNames(repo, sub);
    RelGuardExact(JoinPath(repo, sub), path);
    RelGuardExact(repo, path);
  }

  const SKILL_HANDLER_ROOT := "scripts" + "/" + "skills"

  lemma {:induction false} HandlerRootPlain()
    ensures Plain(Split(SKILL_HANDLER_ROOT, '/'))
  {
    TwoNamesPlain("scripts", "skills");
  }

  lemma {:induction false} TwoNamesPlain(a: string, b: string)
    requires Plain([a, b])
    ensures Plain(Split(a + "/" + b, '/'))
  {
    assert [a, b][0] == a && [a, b][1] == b;
    SplitSimple(a, '/');
    SplitSimple(b, '/');
    SplitAppend(a, b, '/');
    assert a + ['/'] + b == a + "/" + b;
  }

  /** So a handler allowed by the handler-root check always passes the repository check. */
  lemma {:induction false} HandlerRootWithinRepo(repo: string, path: string)
    requires Parse(repo).rooted
    ensures Parse(JoinPath(repo, SKILL_HANDLER_ROOT)).rooted
    ensures RelGuard(JoinPath(repo, SKILL_HANDLER_ROOT), path) ==> RelGuard(repo, path)
  {
    HandlerRootPlain();
    SubdirectoryWithinRepo(repo, SKILL_HANDLER_ROOT, path);
  }

  /** The test on the reference itself: relative, and not climbing out. */
  predicate RefAccepted(ref: string) {
    var cleaned := Clean(ref);
    !(cleaned != "" && cleaned[0] == '/') && cleaned != ".." && !HasPrefix(cleaned, "../")
  }

  lemma {:induction false} RefAcceptedSegs(ref: string)
    ensures RefAccepted(ref) <==> !IsAbsolute(ref) && Climbs(Parse(ref).segs) == 0
  {
    var p := Parse(ref);
    ParseCanonical(ref);
    FirstChar(p);
    if !p.rooted && p.segs != [] {
      assert Without(p.segs, '/');
      StartsWithUp(p.segs);
    }
  }

  /** A reference is accepted if and only if it is relative and leads to the directory it is seen from, or below
    * it, wherever that is. */
  lemma {:induction false} RefAcceptedExact(ref: string)
    ensures RefAccepted(ref) <==> !IsAbsolute(ref) && forall dir :: dir <= Meaning(dir, ref)
  {
    var p := Parse(ref);
    RefAcceptedSegs(ref);
    ParseCanonical(ref);
    if !IsAbsolute(ref) {
      var n := Climbs(p.segs);
      forall dir ensures Meaning(dir, ref) == Walk(dir, p.segs) { MeaningOfSegs(dir, ref); }
      if n == 0 {
        forall dir ensures dir <= Meaning(dir, ref) { WalkCanonical(false, dir, p.segs); }
      } else {
        ClimbingLeaves(p, Strange(n));
        assert !(Strange(n) <= Meaning(Strange(n), ref));
      }
    }
  }

  lemma {:induction false} ClimbingLeaves(p: Path, dir: seq<string>)
    requires Canonical(p) && Climbs(p.segs) == |dir| > 0 && forall i | 0 <= i < |dir| :: dir[i] == STRANGE
    ensures !(dir <= Walk(dir, p.segs))
  {
    StrangeWalk(p, dir);
    hide Walk, Canonical, Climbs;
    assert Walk(dir, p.segs) != [] ==> Walk(dir, p.segs)[0] != STRANGE;
  }

  /** Without symbolic links an accepted reference always lands inside the repository. */
  lemma {:induction false} AcceptedRefStaysInRepo(repo: string, ref: string)
    requires Parse(repo).rooted && RefAccepted(ref)
    ensures RelGuard(repo, JoinPath(repo, Clean(ref)))
  {
    var r, n := Parse(repo), Parse(ref);
    ParseCanonical(repo);
    ParseCanonical(ref);
    TargetRendered(repo, ref);
    ParseRender(TargetPath(repo, ref));
    RelGuardExact(repo, JoinPath(repo, Clean(ref)));
    if n.segs != [] {
      assert Without(n.segs, '/');
      StartsWithUp(n.segs);
    }
    assert ".." !in n.segs;
    AppendNames(true, r.segs, n.segs);
  }
}

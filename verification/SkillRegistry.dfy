/** The skill registry shared by many processes: every operation is a critical section under a
    shared or exclusive file lock.  The interleaved system is a state machine over the steps the
    processes take; it is compared with a plain map operated on one request at a time. */
module SkillRegistry {
  import opened Text

  type Key = string

  datatype Item = Skill(text: string) | Agent(tools: seq<Key>) | Workflow(composes: seq<Key>) | OtherItem

  /** What a successful load of the registry directory yields, by key. */
  type Registry = map<Key, Item>

  // ---------------------------------------------------------------- references

  predicate Refers(item: Item, key: Key) {
    match item
    case Agent(tools) => key in tools
    case Workflow(composes) => key in composes
    case _ => false
  }

  /** `a` refers to `key`, and `key` is a skill of the registry. */
  predicate Satisfied(reg: Registry, a: Key, key: Key) {
    a in reg && Refers(reg[a], key) && key in reg && reg[key].Skill?
  }

  predicate Referenced(reg: Registry, key: Key) {
    exists a :: a in reg && Refers(reg[a], key)
  }

  datatype Entry = Entry(key: Key, item: Item)

  /** The items of a snapshot that refer to `key`, each once, in order. */
  function Referrers(items: seq<Entry>, key: Key): seq<Key> {
    if items == [] then []
    else
      var front, last := Referrers(items[..|items| - 1], key), items[|items| - 1];
      if Refers(last.item, key) then front + [last.key] else front
  }

  /** Exactly the keys of the items that refer to it. */
  lemma {:induction false} ReferrersExact(items: seq<Entry>, key: Key, k: Key)
    ensures k in Referrers(items, key) <==> exists i | 0 <= i < |items| :: items[i].key == k && Refers(items[i].item, key)
  {
    if items != [] {
      var before := items[..|items| - 1];
      ReferrersExact(before, key, k);
      if i :| 0 <= i < |before| && before[i].key == k && Refers(before[i].item, key) {
        assert items[i].key == k;
      }
    }
  }

  method SkillReferences(items: seq<Entry>, key: Key) returns (references: seq<Key>)
    ensures references == Referrers(items, key)
    ensures references == [] <==> forall i | 0 <= i < |items| :: !Refers(items[i].item, key)
  {
    references := [];
    for i := 0 to |items|
      invariant references == Referrers(items[..i], key)
      invariant references == [] <==> forall j | 0 <= j < i :: !Refers(items[j].item, key)
    {
      var names: seq<Key> := match items[i].item case Agent(tools) => tools case Workflow(composes) => composes case _ => [];
      var found := false;
      for j := 0 to |names|
        invariant found <==> key in names[..j]
      {
        if names[j] == key {
          found := true;
          assert key in names;
          break;
        }
      }
      assert names[..|names|] == names;
      assert found <==> Refers(items[i].item, key);
      assert items[..i + 1][..i] == items[..i];
      if found {
        references := references + [items[i].key];
      }
    }
    assert items[..|items|] == items;
  }

  // ---------------------------------------------------------------- one request at a time

  /** A request.  `valid` says whether the specification passes rendering, parsing, validation and
      the handler check; `allowed` whether policy, authoriser and handler resolution agree. */
  datatype Request =
    | List
    | Get(key: Key)
    | Create(key: Key, text: string, valid: bool)
    | Update(target: Key, key: Key, text: string, valid: bool)
    | Delete(key: Key)
    | Invoke(key: Key, allowed: bool)

  /** The file operation of a request that fails, if any. */
  datatype Fault = NoFault | LoadFault | StoreFault | ReloadFault

  datatype Answer =
    | Skills(skills: Registry) | Found(item: Item) | Deleted | Ready(item: Item)
    | NotFound | Exists | InUse | Invalid | Mismatch | Denied | Failed | Cancelled

  datatype Mode = Shared | Exclusive

  function ModeOf(req: Request): Mode {
    if req.Create? || req.Update? || req.Delete? then Exclusive else Shared
  }

  function AllSkills(reg: Registry): Registry {
    map k | k in reg && reg[k].Skill? :: reg[k]
  }

  function Lookup(reg: Registry, key: Key): Answer {
    var k := TrimSpace(key);
    if k in reg && reg[k].Skill? then Found(reg[k]) else NotFound
  }

  /** The checks a mutating request makes against its snapshot; nothing means "go ahead". */
  datatype Verdict = Refuse(answer: Answer) | Proceed

  function Check(snap: Registry, req: Request): Verdict
    requires ModeOf(req).Exclusive?
  {
    match req
    case Create(key, _, valid) =>
      if !valid then Refuse(Invalid) else if key in snap then Refuse(Exists) else Proceed
    case Update(target, _, _, valid) =>
      if Lookup(snap, target).NotFound? then Refuse(NotFound) else if !valid then Refuse(Invalid) else Proceed
    case Delete(key) =>
      if Lookup(snap, key).NotFound? then Refuse(NotFound)
      else if Referenced(snap, TrimSpace(key)) then Refuse(InUse)
      else Proceed
  }

  /** The file write, rename or removal itself. */
  function Mutate(reg: Registry, req: Request): Registry
    requires ModeOf(req).Exclusive?
  {
    match req
    case Create(key, text, _) => reg[key := Skill(text)]
    case Update(target, _, text, _) => reg[TrimSpace(target) := Skill(text)]
    case Delete(key) => reg - {TrimSpace(key)}
  }

  function Reading(reg: Registry, req: Request): Answer
    requires ModeOf(req).Shared?
  {
    match req
    case List => Skills(AllSkills(reg))
    case Get(key) => Lookup(reg, key)
    case Invoke(key, allowed) =>
      match Lookup(reg, key)
      case Found(item) => if allowed then Ready(item) else Denied
      case _ => NotFound
  }

  /** What a mutating request reports from the reloaded registry. */
  function Report(reg: Registry, req: Request): Answer
    requires ModeOf(req).Exclusive?
  {
    match req
    case Create(key, _, _) => Lookup(reg, key)
    case Update(target, _, _, _) => Lookup(reg, target)
    case Delete(_) => Deleted
  }

  datatype Outcome = Outcome(registry: Registry, answer: Answer)

  /** The reference: the whole request against a map nobody else touches. */
  function Apply(reg: Registry, req: Request, fault: Fault): Outcome {
    if fault.LoadFault? then Outcome(reg, Failed)
    else if ModeOf(req).Shared? then Outcome(reg, Reading(reg, req))
    else match Check(reg, req)
      case Refuse(answer) => Outcome(reg, answer)
      case Proceed =>
        if fault.StoreFault? then Outcome(reg, Failed)
        else
          var after := Mutate(reg, req);
          Outcome(after, if fault.ReloadFault? && !req.Delete? then Failed else Report(after, req))
  }

  // ---------------------------------------------------------------- the interleaved system

  type Client = nat

  /** Where a client is in its operation; `n` is its place in the order of lock grants. */
  datatype Pc =
    | Waiting(req: Request, fault: Fault)
    | Granted(req: Request, fault: Fault, n: nat)
    | Loaded(req: Request, fault: Fault, n: nat, snap: Registry)
    | Stored(req: Request, fault: Fault, n: nat)
    | Answered(req: Request, fault: Fault, n: nat, answer: Answer)
    | Handler(n: nat, item: Item)
    | Done(answer: Answer)

  datatype Grant = Grant(client: Client, req: Request, fault: Fault)

  /** `history[k]` is the registry after the first k granted requests ran one at a time; `answers`
      and `releases` record what each grant returned and how often it released its lock. */
  datatype State = State(
    registry: Registry,
    clients: map<Client, Pc>,
    shared: set<Client>, exclusive: set<Client>,
    grants: seq<Grant>, history: seq<Registry>, answers: map<nat, Answer>, releases: seq<nat>)

  predicate Holds(pc: Pc) { pc.Granted? || pc.Loaded? || pc.Stored? || pc.Answered? }

  datatype Step =
    | Begin(client: Client, req: Request, fault: Fault)
    | Acquire(client: Client)
    | Cancel(client: Client)
    | Load(client: Client)
    | Decide(client: Client)
    | Reload(client: Client)
    | Release(client: Client)
    | Finish(client: Client)

  predicate Grantable(s: State, mode: Mode) {
    s.exclusive == {} && (mode.Exclusive? ==> s.shared == {})
  }

  function Goto(s: State, c: Client, pc: Pc): State { s.(clients := s.clients[c := pc]) }

  /** Update rejects an empty target or a mismatched key before it ever asks for the lock. */
  function Start(req: Request, fault: Fault): Pc {
    if req.Update? && TrimSpace(req.target) == "" then Done(NotFound)
    else if req.Update? && req.key != TrimSpace(req.target) then Done(Mismatch)
    else Waiting(req, fault)
  }

  function DoAcquire(s: State, c: Client, req: Request, fault: Fault): State
    requires |s.history| > 0
  {
    var last := s.history[|s.history| - 1];
    Goto(s, c, Granted(req, fault, |s.grants|)).(
      shared := if ModeOf(req).Shared? then s.shared + {c} else s.shared,
      exclusive := if ModeOf(req).Exclusive? then s.exclusive + {c} else s.exclusive,
      grants := s.grants + [Grant(c, req, fault)],
      history := s.history + [Apply(last, req, fault).registry],
      releases := s.releases + [0])
  }

  function DoDecide(s: State, c: Client, pc: Pc): State
    requires pc.Loaded?
  {
    if ModeOf(pc.req).Shared? then
      Goto(s, c, Answered(pc.req, pc.fault, pc.n, Reading(pc.snap, pc.req)))
    else match Check(pc.snap, pc.req)
      case Refuse(answer) => Goto(s, c, Answered(pc.req, pc.fault, pc.n, answer))
      case Proceed =>
        if pc.fault.StoreFault? then Goto(s, c, Answered(pc.req, pc.fault, pc.n, Failed))
        else Goto(s, c, Stored(pc.req, pc.fault, pc.n)).(registry := Mutate(s.registry, pc.req))
  }

  function DoReload(s: State, c: Client, pc: Pc): State
    requires pc.Stored? && ModeOf(pc.req).Exclusive?
  {
    Goto(s, c, Answered(pc.req, pc.fault, pc.n,
      if pc.fault.ReloadFault? && !pc.req.Delete? then Failed else Report(s.registry, pc.req)))
  }

  function DoRelease(s: State, c: Client, pc: Pc): State
    requires pc.Answered? && pc.n < |s.releases|
  {
    Goto(s, c, if pc.answer.Ready? then Handler(pc.n, pc.answer.item) else Done(pc.answer)).(
      shared := s.shared - {c},
      exclusive := s.exclusive - {c},
      answers := s.answers[pc.n := pc.answer],
      releases := s.releases[pc.n := s.releases[pc.n] + 1])
  }

  /** One step of the system; a step that is not enabled changes nothing (a blocked poll, say). */
  function Do(s: State, step: Step): State {
    var c := step.client;
    if step.Begin? then
      if c in s.clients && !s.clients[c].Done? then s else Goto(s, c, Start(step.req, step.fault))
    else if c !in s.clients then s
    else
      var pc := s.clients[c];
      match step
      case Acquire(_) =>
        if pc.Waiting? && Grantable(s, ModeOf(pc.req)) && |s.history| > 0 then DoAcquire(s, c, pc.req, pc.fault) else s
      case Cancel(_) => if pc.Waiting? then Goto(s, c, Done(Cancelled)) else s
      case Load(_) =>
        if !pc.Granted? then s
        else if pc.fault.LoadFault? then Goto(s, c, Answered(pc.req, pc.fault, pc.n, Failed))
        else Goto(s, c, Loaded(pc.req, pc.fault, pc.n, s.registry))
      case Decide(_) => if pc.Loaded? then DoDecide(s, c, pc) else s
      case Reload(_) => if pc.Stored? && ModeOf(pc.req).Exclusive? then DoReload(s, c, pc) else s
      case Release(_) => if pc.Answered? && pc.n < |s.releases| then DoRelease(s, c, pc) else s
      case Finish(_) => if pc.Handler? then Goto(s, c, Done(Ready(pc.item))) else s
      case _ => s
  }

  function Init(reg: Registry): State { State(reg, map[], {}, {}, [], [reg], map[], []) }

  /** Any interleaving is a sequence of steps. */
  function Exec(reg: Registry, steps: seq<Step>): State {
    if steps == [] then Init(reg) else Do(Exec(reg, steps[..|steps| - 1]), steps[|steps| - 1])
  }

  // ---------------------------------------------------------------- what every step keeps

  /** `history` is the sequential execution of `grants`. */
  predicate Sequential(grants: seq<Grant>, history: seq<Registry>) {
    && |history| == |grants| + 1
    && forall k | 0 <= k < |grants| :: history[k + 1] == Apply(history[k], grants[k].req, grants[k].fault).registry
  }

  predicate LockOk(s: State) {
    && (s.exclusive != {} ==> s.shared == {})
    && (forall c, d | c in s.exclusive && d in s.exclusive :: c == d)
    && (forall c | c in s.shared + s.exclusive :: c in s.clients && Holds(s.clients[c]))
    && (forall c | c in s.clients && Holds(s.clients[c]) ::
          if ModeOf(s.clients[c].req).Shared? then c in s.shared && c !in s.exclusive
          else c in s.exclusive && c !in s.shared)
  }

  /** A holder's place, and what it has seen and done so far, agree with the sequential run. */
  predicate HolderOk(s: State, c: Client, pc: Pc)
    requires Holds(pc) && |s.history| == |s.grants| + 1 == |s.releases| + 1
  {
    && pc.n < |s.grants| && s.grants[pc.n] == Grant(c, pc.req, pc.fault)
    && s.releases[pc.n] == 0 && pc.n !in s.answers
    && (pc.Stored? ==> ModeOf(pc.req).Exclusive?)
    && (ModeOf(pc.req).Exclusive? ==> pc.n == |s.grants| - 1)
    && (match pc
        case Granted(_, _, n) => s.registry == s.history[n]
        case Loaded(_, fault, n, snap) => s.registry == s.history[n] && snap == s.registry && !fault.LoadFault?
        case Stored(req, fault, n) =>
          && s.registry == s.history[n + 1] == Mutate(s.history[n], req)
          && Check(s.history[n], req).Proceed? && !fault.LoadFault? && !fault.StoreFault?
        case Answered(req, fault, n, answer) =>
          s.registry == s.history[n + 1] && answer == Apply(s.history[n], req, fault).answer)
  }

  predicate HandlerOk(s: State, pc: Pc)
    requires pc.Handler?
  {
    pc.n < |s.releases| && s.releases[pc.n] == 1
  }

  /** Every grant answers once, with the sequential answer, and is released when it does. */
  predicate BooksOk(s: State) {
    && |s.history| == |s.grants| + 1 == |s.releases| + 1
    && Sequential(s.grants, s.history)
    && (forall n | n in s.answers :: n < |s.grants|
          && s.answers[n] == Apply(s.history[n], s.grants[n].req, s.grants[n].fault).answer)
    && (forall n | 0 <= n < |s.grants| :: s.releases[n] == if n in s.answers then 1 else 0)
  }

  predicate HoldersOk(s: State)
    requires |s.history| == |s.grants| + 1 == |s.releases| + 1
  {
    && (forall c | c in s.clients && Holds(s.clients[c]) :: HolderOk(s, c, s.clients[c]))
    && (forall c | c in s.clients && s.clients[c].Handler? :: HandlerOk(s, s.clients[c]))
    && (s.exclusive == {} ==> s.registry == s.history[|s.grants|])
  }

  predicate Inv(s: State) { BooksOk(s) && LockOk(s) && HoldersOk(s) }

  predicate SameBooks(s: State, t: State) {
    t.grants == s.grants && t.history == s.history && t.answers == s.answers && t.releases == s.releases
  }

  lemma {:induction false} HolderFrame(s: State, t: State, c: Client, pc: Pc)
    requires BooksOk(s) && SameBooks(s, t) && t.registry == s.registry && Holds(pc) && HolderOk(s, c, pc)
    ensures HolderOk(t, c, pc)
  {
    hide BooksOk;
  }

  /** An exclusive holder is the only holder. */
  lemma {:induction false} WriterAlone(s: State, c: Client, d: Client)
    requires LockOk(s) && c in s.clients && Holds(s.clients[c]) && ModeOf(s.clients[c].req).Exclusive?
    requires d in s.clients && Holds(s.clients[d])
    ensures d == c
  {
  }

  lemma {:induction false} LockFrame(s: State, c: Client, pc: Pc, reg: Registry)
    requires LockOk(s) && c in s.clients && Holds(s.clients[c]) && Holds(pc) && pc.req == s.clients[c].req
    ensures LockOk(Goto(s, c, pc).(registry := reg))
  {
  }

  lemma {:induction false} BooksFrame(s: State, t: State)
    requires BooksOk(s) && SameBooks(s, t)
    ensures BooksOk(t)
  {
    hide Apply;
  }

  lemma {:induction false} OthersHold(s: State, c: Client, pc: Pc, reg: Registry, d: Client)
    requires Inv(s) && c in s.clients && Holds(s.clients[c]) && Holds(pc) && pc.req == s.clients[c].req
    requires reg == s.registry || ModeOf(pc.req).Exclusive?
    requires d != c && d in s.clients && Holds(s.clients[d])
    ensures HolderOk(Goto(s, c, pc).(registry := reg), d, s.clients[d])
  {
    hide HolderOk, Sequential, Apply;
    if ModeOf(pc.req).Exclusive? {
      WriterAlone(s, c, d);
    }
    HolderFrame(s, Goto(s, c, pc).(registry := reg), d, s.clients[d]);
  }

  /** A holder may move on, and change the registry if it holds the lock exclusively. */
  lemma {:induction false} HolderMoves(s: State, c: Client, pc: Pc, reg: Registry)
    requires Inv(s) && c in s.clients && Holds(s.clients[c]) && Holds(pc) && pc.req == s.clients[c].req
    requires reg == s.registry || ModeOf(pc.req).Exclusive?
    requires HolderOk(Goto(s, c, pc).(registry := reg), c, pc)
    ensures Inv(Goto(s, c, pc).(registry := reg))
  {
    var t := Goto(s, c, pc).(registry := reg);
    LockFrame(s, c, pc, reg);
    BooksFrame(s, t);
    assert ModeOf(pc.req).Exclusive? ==> c in s.exclusive;
    hide LockOk, BooksOk, HolderOk, Apply;
    forall d | d in t.clients && Holds(t.clients[d])
      ensures HolderOk(t, d, t.clients[d])
    {
      if d != c {
        OthersHold(s, c, pc, reg, d);
      }
    }
  }

  /** A client that holds no lock may move to any other place without one. */
  lemma {:induction false} OutsiderMoves(s: State, c: Client, pc: Pc)
    requires Inv(s) && (c in s.clients ==> !Holds(s.clients[c]))
    requires pc.Waiting? || pc.Done?
    ensures Inv(Goto(s, c, pc))
  {
    hide Sequential, Apply, HolderOk;
    var t := Goto(s, c, pc);
    forall d | d in t.clients && Holds(t.clients[d])
      ensures HolderOk(t, d, t.clients[d])
    {
      HolderFrame(s, t, d, s.clients[d]);
    }
  }

  lemma {:induction false} AcquireKeeps(s: State, c: Client)
    requires Inv(s) && c in s.clients && s.clients[c].Waiting? && Grantable(s, ModeOf(s.clients[c].req))
    ensures Inv(DoAcquire(s, c, s.clients[c].req, s.clients[c].fault))
  {
    var req, fault := s.clients[c].req, s.clients[c].fault;
    var t := DoAcquire(s, c, req, fault);
    SharedChangesNothing(s.registry, req, fault);
    AcquireBooks(s, c);
    hide Sequential, Apply, Check, Mutate;
    forall d | d in t.clients && Holds(t.clients[d])
      ensures HolderOk(t, d, t.clients[d])
    {
      if d != c {
        assert HolderOk(s, d, s.clients[d]);
      }
    }
  }

  lemma {:induction false} AcquireBooks(s: State, c: Client)
    requires BooksOk(s) && c in s.clients && s.clients[c].Waiting?
    ensures BooksOk(DoAcquire(s, c, s.clients[c].req, s.clients[c].fault))
  {
    hide Apply;
  }

  lemma {:induction false} SharedChangesNothing(reg: Registry, req: Request, fault: Fault)
    ensures ModeOf(req).Shared? ==> Apply(reg, req, fault).registry == reg
  {
  }

  lemma {:induction false} LoadKeeps(s: State, c: Client)
    requires Inv(s) && c in s.clients && s.clients[c].Granted?
    ensures Inv(Do(s, Load(c)))
  {
    var pc := s.clients[c];
    assert HolderOk(s, c, pc);
    hide Check, Mutate, Lookup;
    if pc.fault.LoadFault? {
      HolderMoves(s, c, Answered(pc.req, pc.fault, pc.n, Failed), s.registry);
    } else {
      HolderMoves(s, c, Loaded(pc.req, pc.fault, pc.n, s.registry), s.registry);
    }
  }

  lemma {:induction false} DecideKeeps(s: State, c: Client)
    requires Inv(s) && c in s.clients && s.clients[c].Loaded?
    ensures Inv(DoDecide(s, c, s.clients[c]))
  {
    hide Inv, HolderOk, Check, Mutate, Apply, Reading;
    var pc := s.clients[c];
    var t := DoDecide(s, c, pc);
    DecideMatches(s, c);
    assert t == Goto(s, c, t.clients[c]).(registry := t.registry);
    hide DoDecide, Goto;
    HolderMoves(s, c, t.clients[c], t.registry);
  }

  lemma {:induction false} ReaderMatches(s: State, c: Client, pc: Pc)
    requires Inv(s) && c in s.clients && s.clients[c] == pc && pc.Loaded? && HolderOk(s, c, pc) && ModeOf(pc.req).Shared?
    ensures HolderOk(DoDecide(s, c, pc), c, Answered(pc.req, pc.fault, pc.n, Reading(pc.snap, pc.req)))
  {
    assert s.history[pc.n + 1] == Apply(s.history[pc.n], pc.req, pc.fault).registry;
    hide BooksOk, LockOk, HoldersOk, Check, Mutate, Reading, Report;
  }

  lemma {:induction false} WriterMatches(s: State, c: Client, pc: Pc)
    requires Inv(s) && c in s.clients && s.clients[c] == pc && pc.Loaded? && HolderOk(s, c, pc) && ModeOf(pc.req).Exclusive?
    ensures var t := DoDecide(s, c, pc); Holds(t.clients[c]) && HolderOk(t, c, t.clients[c])
  {
    assert s.history[pc.n + 1] == Apply(s.history[pc.n], pc.req, pc.fault).registry;
    hide BooksOk, LockOk, HoldersOk, Check, Mutate, Reading, Report;
  }

  /** What a client decides from its snapshot is what the sequential run decides. */
  lemma {:induction false} DecideMatches(s: State, c: Client)
    requires Inv(s) && c in s.clients && s.clients[c].Loaded?
    ensures var t := DoDecide(s, c, s.clients[c]);
            Holds(t.clients[c]) && HolderOk(t, c, t.clients[c])
  {
    var pc := s.clients[c];
    assert HolderOk(s, c, pc);
    hide Inv, HolderOk, Check, Mutate, Reading;
    if ModeOf(pc.req).Shared? {
      ReaderMatches(s, c, pc);
    } else {
      WriterMatches(s, c, pc);
    }
  }

  lemma {:induction false} ReloadKeeps(s: State, c: Client)
    requires Inv(s) && c in s.clients && s.clients[c].Stored?
    ensures Inv(Do(s, Reload(c)))
  {
    var pc := s.clients[c];
    assert HolderOk(s, c, pc);
    hide Lookup, Mutate;
    HolderMoves(s, c, DoReload(s, c, pc).clients[c], s.registry);
  }

  lemma {:induction false} ReleaseKeeps(s: State, c: Client)
    requires Inv(s) && c in s.clients && s.clients[c].Answered?
    ensures Inv(Do(s, Release(c)))
  {
    assert HolderOk(s, c, s.clients[c]);
    ReleaseBooks(s, c);
    ReleaseUnlocks(s, c);
    hide Sequential, LockOk, Apply, Check, Mutate;
    var t := Do(s, Release(c));
    forall d | d in t.clients && Holds(t.clients[d])
      ensures HolderOk(t, d, t.clients[d])
    {
      assert HolderOk(s, d, s.clients[d]);
      assert s.clients[d].n != s.clients[c].n;
    }
  }

  lemma {:induction false} ReleaseBooks(s: State, c: Client)
    requires Inv(s) && c in s.clients && s.clients[c].Answered?
    ensures BooksOk(Do(s, Release(c)))
  {
    assert HolderOk(s, c, s.clients[c]);
    hide Sequential, LockOk, Check, Mutate, Reading, Report;
  }

  lemma {:induction false} ReleaseUnlocks(s: State, c: Client)
    requires Inv(s) && c in s.clients && s.clients[c].Answered?
    ensures var t := Do(s, Release(c));
            LockOk(t) && (t.exclusive == {} ==> t.registry == t.history[|t.grants|])
  {
    assert HolderOk(s, c, s.clients[c]);
    hide Sequential, Apply, Check, Mutate;
  }

  /** Every step, by every client, in every state. */
  lemma {:induction false} StepKeeps(s: State, step: Step)
    requires Inv(s)
    ensures Inv(Do(s, step))
  {
    hide Inv;
    var c := step.client;
    if Do(s, step) != s {
      match step
      case Begin(_, req, fault) => OutsiderMoves(s, c, Start(req, fault));
      case Acquire(_) => AcquireKeeps(s, c);
      case Cancel(_) => OutsiderMoves(s, c, Done(Cancelled));
      case Load(_) => LoadKeeps(s, c);
      case Decide(_) => DecideKeeps(s, c);
      case Reload(_) => ReloadKeeps(s, c);
      case Release(_) => ReleaseKeeps(s, c);
      case Finish(_) => OutsiderMoves(s, c, Done(Ready(s.clients[c].item)));
    }
  }

  lemma {:induction false} RunsKeep(reg: Registry, steps: seq<Step>)
    ensures Inv(Exec(reg, steps))
  {
    if steps != [] {
      RunsKeep(reg, steps[..|steps| - 1]);
      StepKeeps(Exec(reg, steps[..|steps| - 1]), steps[|steps| - 1]);
    }
  }

  // ---------------------------------------------------------------- the results over every run

  /** The granted requests, run one at a time from `reg`. */
  function Replay(reg: Registry, grants: seq<Grant>): Registry {
    if grants == [] then reg
    else
      var last := grants[|grants| - 1];
      Apply(Replay(reg, grants[..|grants| - 1]), last.req, last.fault).registry
  }

  lemma {:induction false} HistoryStarts(reg: Registry, steps: seq<Step>)
    ensures |Exec(reg, steps).history| > 0 && Exec(reg, steps).history[0] == reg
  {
    hide Apply, DoDecide;
    if steps != [] {
      HistoryStarts(reg, steps[..|steps| - 1]);
      DoHistory(Exec(reg, steps[..|steps| - 1]), steps[|steps| - 1]);
    }
  }

  lemma {:induction false} DoHistory(s: State, step: Step)
    ensures s.history <= Do(s, step).history && s.grants <= Do(s, step).grants
  {
    hide Apply, Check, Mutate, Reading, Report;
  }

  lemma {:induction false} HistoryReplays(reg: Registry, grants: seq<Grant>, history: seq<Registry>, n: nat)
    requires Sequential(grants, history) && history[0] == reg && n <= |grants|
    ensures history[n] == Replay(reg, grants[..n])
  {
    hide Apply;
    if n > 0 {
      HistoryReplays(reg, grants, history, n - 1);
      assert grants[..n][..n - 1] == grants[..n - 1];
      assert history[n - 1 + 1] == Apply(history[n - 1], grants[n - 1].req, grants[n - 1].fault).registry;
    }
  }

  /** Under every interleaving, each request answers what it would answer if the requests ran one
      at a time in the order of their lock grants, and whenever nobody holds the lock exclusively
      the registry is the one that sequential run leaves. */
  lemma {:induction false} Linearizable(reg: Registry, steps: seq<Step>)
    ensures var s := Exec(reg, steps);
      && (forall n | n in s.answers :: n < |s.grants|
            && s.answers[n] == Apply(Replay(reg, s.grants[..n]), s.grants[n].req, s.grants[n].fault).answer)
      && (s.exclusive == {} ==> s.registry == Replay(reg, s.grants))
  {
    RunsKeep(reg, steps);
    HistoryStarts(reg, steps);
    var s := Exec(reg, steps);
    hide Apply, Exec, Replay, LockOk, HolderOk, HandlerOk;
    forall n: nat | n <= |s.grants|
      ensures s.history[n] == Replay(reg, s.grants[..n])
    {
      HistoryReplays(reg, s.grants, s.history, n);
    }
    assert s.grants[..|s.grants|] == s.grants;
  }

  /** A writer is alone; every grant is released at most once, and released exactly when it has
      answered; a handler runs only after its lock has been released, once. */
  lemma {:induction false} LockDiscipline(reg: Registry, steps: seq<Step>, c: Client)
    ensures var s := Exec(reg, steps);
      && (c in s.exclusive ==> s.shared == {} && s.exclusive == {c})
      && |s.releases| == |s.grants|
      && (forall n | 0 <= n < |s.grants| :: s.releases[n] == if n in s.answers then 1 else 0)
      && (c in s.clients && s.clients[c].Handler? ==>
            && c !in s.shared && c !in s.exclusive
            && s.clients[c].n < |s.releases| && s.releases[s.clients[c].n] == 1)
  {
    RunsKeep(reg, steps);
    var s := Exec(reg, steps);
    hide Exec, Apply, HolderOk, Sequential;
    if c in s.exclusive {
      assert forall d | d in s.exclusive :: d == c;
    }
  }

  lemma {:induction false} MutateKeepsReferences(reg: Registry, req: Request, a: Key, key: Key)
    requires ModeOf(req).Exclusive? && Check(reg, req).Proceed? && Satisfied(reg, a, key)
    ensures Satisfied(Mutate(reg, req), a, key)
  {
    assert Referenced(reg, key);
  }

  lemma {:induction false} StepKeepsReferences(s: State, step: Step, a: Key, key: Key)
    requires Inv(s) && Satisfied(s.registry, a, key)
    ensures Satisfied(Do(s, step).registry, a, key)
  {
    var c := step.client;
    if step.Decide? && c in s.clients && s.clients[c].Loaded? {
      var pc := s.clients[c];
      assert HolderOk(s, c, pc);
      if ModeOf(pc.req).Exclusive? && Check(pc.snap, pc.req).Proceed? {
        MutateKeepsReferences(s.registry, pc.req, a, key);
      }
      hide Check, Mutate, Satisfied, Inv;
    } else {
      hide Inv, Satisfied, Apply, Check, Mutate;
    }
  }

  /** A reference that is satisfied at some moment stays satisfied in every continuation. */
  lemma {:induction false} ReferencesStay(reg: Registry, before: seq<Step>, after: seq<Step>, a: Key, key: Key)
    requires Satisfied(Exec(reg, before).registry, a, key)
    ensures Satisfied(Exec(reg, before + after).registry, a, key)
  {
    hide Satisfied, Do;
    if after == [] {
      assert before + after == before;
    } else {
      var front, last := after[..|after| - 1], after[|after| - 1];
      ReferencesStay(reg, before, front, a, key);
      RunsKeep(reg, before + front);
      StepKeepsReferences(Exec(reg, before + front), last, a, key);
      assert (before + after)[..|before + after| - 1] == before + front;
    }
  }

  // ---------------------------------------------------------------- what one request does

  /** The key whose skill a request may change. */
  predicate MayChange(req: Request, key: Key) {
    match req
    case Create(k, _, _) => k == key
    case Update(target, _, _, _) => TrimSpace(target) == key
    case Delete(k) => TrimSpace(k) == key
    case _ => false
  }

  predicate SameAt(a: Registry, b: Registry, key: Key) {
    (key in a <==> key in b) && (key in a && key in b ==> a[key] == b[key])
  }

  predicate HasSkill(reg: Registry, key: Key) { key in reg && reg[key].Skill? }

  /** The registry afterwards holds this skill, and otherwise what it held. */
  ghost predicate NowHolds(before: Registry, after: Registry, key: Key, text: string) {
    key in after && after[key] == Skill(text) && forall k | k != key :: SameAt(before, after, k)
  }

  ghost predicate NowWithout(before: Registry, after: Registry, key: Key) {
    key !in after && forall k | k != key :: SameAt(before, after, k)
  }

  /** `Create`: an invalid specification is refused, then a key in use by any kind of item; otherwise the new
    * skill is stored and returned, and nothing else changes. */
  lemma {:induction false} CreateOutcome(reg: Registry, key: Key, text: string, valid: bool, fault: Fault)
    requires TrimSpace(key) == key
    ensures var o := Apply(reg, Create(key, text, valid), fault);
            && o.answer in {Invalid, Exists, Failed, Found(Skill(text))}
            && (o.answer == Invalid <==> !fault.LoadFault? && !valid)
            && (o.answer == Exists <==> !fault.LoadFault? && valid && key in reg)
            && (o.answer == Found(Skill(text)) <==> fault.NoFault? && valid && key !in reg)
            && (if valid && key !in reg && !fault.LoadFault? && !fault.StoreFault?
                then NowHolds(reg, o.registry, key, text) else o.registry == reg)
  {
    hide TrimSpace;
  }

  /** `Update`: a key that is no skill is refused, then an invalid specification; otherwise the skill is
    * replaced and returned, and nothing else changes. */
  lemma {:induction false} UpdateOutcome(reg: Registry, target: Key, text: string, valid: bool, fault: Fault)
    ensures var key := TrimSpace(target);
            var o := Apply(reg, Update(target, key, text, valid), fault);
            && o.answer in {NotFound, Invalid, Failed, Found(Skill(text))}
            && (o.answer == NotFound <==> !fault.LoadFault? && !HasSkill(reg, key))
            && (o.answer == Invalid <==> !fault.LoadFault? && HasSkill(reg, key) && !valid)
            && (o.answer == Found(Skill(text)) <==> fault.NoFault? && HasSkill(reg, key) && valid)
            && (if HasSkill(reg, key) && valid && !fault.LoadFault? && !fault.StoreFault?
                then NowHolds(reg, o.registry, key, text) else o.registry == reg)
  {
    hide TrimSpace;
  }

  predicate UsedBySome(reg: Registry, key: Key) {
    exists a | a in reg :: (reg[a].Agent? && key in reg[a].tools) || (reg[a].Workflow? && key in reg[a].composes)
  }

  /** `Delete`: a key that is no skill is refused, then a skill that some agent or workflow names; otherwise it
    * is gone, and nothing else changes. */
  lemma {:induction false} DeleteOutcome(reg: Registry, name: Key, fault: Fault)
    ensures var key := TrimSpace(name);
            var o := Apply(reg, Delete(name), fault);
            && o.answer in {NotFound, InUse, Failed, Deleted}
            && (o.answer == NotFound <==> !fault.LoadFault? && !HasSkill(reg, key))
            && (o.answer == InUse <==> !fault.LoadFault? && HasSkill(reg, key) && UsedBySome(reg, key))
            && (o.answer == Deleted <==> !fault.LoadFault? && !fault.StoreFault? && HasSkill(reg, key) && !UsedBySome(reg, key))
            && (if o.answer == Deleted then NowWithout(reg, o.registry, key) else o.registry == reg)
  {
    hide TrimSpace;
    var key := TrimSpace(name);
    assert Referenced(reg, key) <==> UsedBySome(reg, key) by {
      if a :| a in reg && Refers(reg[a], key) {}
    }
    hide Referenced, UsedBySome;
  }

  /** The reading requests change nothing.  `Get` and `Invoke` find exactly the stored skill; `List` returns
    * every skill and nothing else. */
  lemma {:induction false} ReadingOutcome(reg: Registry, req: Request, fault: Fault)
    requires req.List? || req.Get? || req.Invoke?
    ensures var o := Apply(reg, req, fault);
            && o.registry == reg
            && (o.answer == Failed <==> fault.LoadFault?)
            && (!fault.LoadFault? ==>
                  match req
                  case List => o.answer.Skills? && (forall k :: k in o.answer.skills <==> HasSkill(reg, k))
                               && forall k | k in o.answer.skills :: o.answer.skills[k] == reg[k]
                  case Get(name) =>
                    o.answer == if HasSkill(reg, TrimSpace(name)) then Found(reg[TrimSpace(name)]) else NotFound
                  case Invoke(name, allowed) =>
                    o.answer == if !HasSkill(reg, TrimSpace(name)) then NotFound
                                else if allowed then Ready(reg[TrimSpace(name)]) else Denied)
  {
    hide TrimSpace;
  }

  lemma {:induction false} OtherKeysUnchanged(reg: Registry, req: Request, fault: Fault, key: Key)
    requires !MayChange(req, key)
    ensures SameAt(reg, Apply(reg, req, fault).registry, key)
  {
    hide TrimSpace;
  }

  predicate Untouched(grants: seq<Grant>, n: nat, m: nat, key: Key) {
    forall i | n < i < m && i < |grants| :: !MayChange(grants[i].req, key)
  }

  lemma {:induction false} ReplayKeeps(reg: Registry, grants: seq<Grant>, n: nat, m: nat, key: Key)
    requires n < m <= |grants| && Untouched(grants, n, m, key)
    ensures SameAt(Replay(reg, grants[..n + 1]), Replay(reg, grants[..m]), key)
  {
    if n + 1 < m {
      hide Apply, MayChange;
      ReplayKeeps(reg, grants, n, m - 1, key);
      assert grants[..m][..m - 1] == grants[..m - 1] && grants[..m][m - 1] == grants[m - 1];
      OtherKeysUnchanged(Replay(reg, grants[..m - 1]), grants[m - 1].req, grants[m - 1].fault, key);
    }
  }

  /** The request writes this text under the key. */
  predicate Writes(req: Request, key: Key, text: string) {
    || (req.Create? && req.key == key && req.text == text)
    || (req.Update? && TrimSpace(req.target) == key && req.key == key && req.text == text)
  }

  lemma {:induction false} AnswersReplay(reg: Registry, steps: seq<Step>, n: nat)
    requires n in Exec(reg, steps).answers
    ensures var s := Exec(reg, steps);
            && n < |s.grants|
            && var o := Apply(Replay(reg, s.grants[..n]), s.grants[n].req, s.grants[n].fault);
               s.answers[n] == o.answer && Replay(reg, s.grants[..n + 1]) == o.registry
  {
    Linearizable(reg, steps);
    var grants := Exec(reg, steps).grants;
    hide Apply, Exec;
    assert grants[..n + 1][..n] == grants[..n] && grants[..n + 1][n] == grants[n];
  }

  /** Under every interleaving: a `Get` answers with the text of the last successful `Create` or `Update` of its
    * key, as long as no request for that key has been granted in between. */
  lemma {:induction false} GetSeesLastWrite(reg: Registry, steps: seq<Step>, n: nat, m: nat, name: Key, text: string)
    requires var s := Exec(reg, steps);
             && n < m && n in s.answers && m in s.answers && m < |s.grants| && n < |s.grants|
             && Writes(s.grants[n].req, TrimSpace(name), text) && s.answers[n].Found?
             && s.grants[m].req == Get(name) && s.grants[m].fault.NoFault? && Untouched(s.grants, n, m, TrimSpace(name))
    ensures Exec(reg, steps).answers[m] == Found(Skill(text))
  {
    var s, key := Exec(reg, steps), TrimSpace(name);
    AnswersReplay(reg, steps, n);
    AnswersReplay(reg, steps, m);
    TrimTwice(name);
    hide Exec, Apply, TrimSpace, Replay;
    var req, before := s.grants[n].req, Replay(reg, s.grants[..n]);
    if req.Create? {
      CreateOutcome(before, key, text, req.valid, s.grants[n].fault);
    } else {
      UpdateOutcome(before, req.target, text, req.valid, s.grants[n].fault);
    }
    ReplayKeeps(reg, s.grants, n, m, key);
    ReadingOutcome(Replay(reg, s.grants[..m]), Get(name), NoFault);
  }

  /** And after a `Delete` that was answered with success it answers that there is no such skill. */
  lemma {:induction false} GetAfterDelete(reg: Registry, steps: seq<Step>, n: nat, m: nat, name: Key)
    requires var s := Exec(reg, steps);
             && n < m && n in s.answers && m in s.answers && m < |s.grants| && n < |s.grants|
             && s.grants[n].req.Delete? && TrimSpace(s.grants[n].req.key) == TrimSpace(name) && s.answers[n].Deleted?
             && s.grants[m].req == Get(name) && s.grants[m].fault.NoFault? && Untouched(s.grants, n, m, TrimSpace(name))
    ensures Exec(reg, steps).answers[m] == NotFound
  {
    var s, key := Exec(reg, steps), TrimSpace(name);
    AnswersReplay(reg, steps, n);
    AnswersReplay(reg, steps, m);
    hide Exec, Apply, TrimSpace, Replay, UsedBySome;
    DeleteOutcome(Replay(reg, s.grants[..n]), s.grants[n].req.key, s.grants[n].fault);
    ReplayKeeps(reg, s.grants, n, m, key);
    ReadingOutcome(Replay(reg, s.grants[..m]), Get(name), NoFault);
  }

  /** An `Update` without a target, or with another key than its target, is answered without the lock. */
  lemma {:induction false} UpdateNeedsItsTarget(s: State, c: Client, target: Key, key: Key, text: string, valid: bool, fault: Fault)
    requires c !in s.clients
    ensures var t := Do(s, Begin(c, Update(target, key, text, valid), fault));
            && t == s.(clients := t.clients) && t.clients.Keys == s.clients.Keys + {c}
            && (t.clients[c] == Done(NotFound) <==> TrimSpace(target) == "")
            && (t.clients[c] == Done(Mismatch) <==> TrimSpace(target) != "" && key != TrimSpace(target))
            && (t.clients[c].Done? || t.clients[c] == Waiting(Update(target, key, text, valid), fault))
  {
  }

  /** A permitted invocation goes on to its handler when it has released the lock, and whoever waits for the lock may
    * be cancelled at any time. */
  lemma {:induction false} HandlerFollowsRelease(s: State, c: Client, pc: Pc)
    requires c in s.clients && pc == s.clients[c]
    ensures pc.Answered? && pc.n < |s.releases| ==>
              Do(s, Release(c)).clients == s.clients[c := if pc.answer.Ready? then Handler(pc.n, pc.answer.item) else Done(pc.answer)]
    ensures pc.Waiting? ==> Do(s, Cancel(c)) == s.(clients := s.clients[c := Done(Cancelled)])
  {
  }

  /** One client's whole operation, with nothing in between. */
  function Alone(s: State, c: Client, req: Request, fault: Fault): State {
    Do(Do(Do(Do(Do(Do(Do(s, Begin(c, req, fault)), Acquire(c)), Load(c)), Decide(c)), Reload(c)), Release(c)), Finish(c))
  }

  /** When nobody holds the lock, an operation that is left alone is granted it, does what the sequential map
    * does, returns its answer and gives the lock back. */
  lemma {:induction false} AloneAnswers(s: State, c: Client, req: Request, fault: Fault)
    requires Inv(s) && s.shared == {} && s.exclusive == {} && c !in s.clients
    requires req.Update? ==> TrimSpace(req.target) != "" && req.key == TrimSpace(req.target)
    ensures var t, o := Alone(s, c, req, fault), Apply(s.registry, req, fault);
            && t.registry == o.registry && t.clients == s.clients[c := Done(o.answer)]
            && t.shared == {} && t.exclusive == {} && t.grants == s.grants + [Grant(c, req, fault)]
  {
    hide Apply, Inv, Do, Start;
    var n := |s.grants|;
    var s1 := AloneGranted(s, c, req, fault);
    var o := Apply(s.registry, req, fault);
    AloneDecides(s1, c, req, fault, n);
    var s2 := Goto(s1, c, Answered(req, fault, n, o.answer)).(registry := o.registry);
    AloneReleases(s2, c, s2.clients[c]);
    assert s2.clients == s.clients[c := Answered(req, fault, n, o.answer)];
  }

  lemma {:induction false} AloneGranted(s: State, c: Client, req: Request, fault: Fault) returns (t: State)
    requires Inv(s) && s.shared == {} && s.exclusive == {} && c !in s.clients
    requires req.Update? ==> TrimSpace(req.target) != "" && req.key == TrimSpace(req.target)
    ensures t == Do(Do(s, Begin(c, req, fault)), Acquire(c))
    ensures t.clients == s.clients[c := Granted(req, fault, |s.grants|)] && t.registry == s.registry
    ensures t.shared + t.exclusive == {c} && t.grants == s.grants + [Grant(c, req, fault)] && |t.releases| == |t.grants|
  {
    hide Apply;
    var s1 := Do(s, Begin(c, req, fault));
    assert s1 == Goto(s, c, Waiting(req, fault));
    t := Do(s1, Acquire(c));
  }

  lemma {:induction false} AloneReleases(s: State, c: Client, pc: Pc)
    requires c in s.clients && s.clients[c] == pc && pc.Answered? && pc.n < |s.releases| && s.shared + s.exclusive == {c}
    ensures var t := Do(Do(s, Release(c)), Finish(c));
            && t.clients == s.clients[c := Done(pc.answer)] && t.registry == s.registry && t.grants == s.grants
            && t.shared == {} && t.exclusive == {}
  {
    var s1 := Do(s, Release(c));
    assert s1.shared == s.shared - {c} && s1.exclusive == s.exclusive - {c};
  }

  lemma {:induction false} AloneDecides(s: State, c: Client, req: Request, fault: Fault, n: nat)
    requires c in s.clients && s.clients[c] == Granted(req, fault, n)
    ensures var t, o := Do(Do(Do(s, Load(c)), Decide(c)), Reload(c)), Apply(s.registry, req, fault);
            t == Goto(s, c, Answered(req, fault, n, o.answer)).(registry := o.registry)
  {
    var loaded := Do(s, Load(c));
    var o := Apply(s.registry, req, fault);
    if fault.LoadFault? {
      assert loaded == Goto(s, c, Answered(req, fault, n, Failed));
    } else {
      assert loaded == Goto(s, c, Loaded(req, fault, n, s.registry));
      DecidesThenReloads(s, loaded, c, req, fault, n);
    }
  }

  lemma {:induction false} DecidesThenReloads(s: State, loaded: State, c: Client, req: Request, fault: Fault, n: nat)
    requires c in s.clients && loaded == Goto(s, c, Loaded(req, fault, n, s.registry)) && !fault.LoadFault?
    ensures var t, o := Do(Do(loaded, Decide(c)), Reload(c)), Apply(s.registry, req, fault);
            t == Goto(s, c, Answered(req, fault, n, o.answer)).(registry := o.registry)
  {
    hide Check, Mutate, Report, Reading;
    var decided := DoDecide(loaded, c, Loaded(req, fault, n, s.registry));
    assert Do(loaded, Decide(c)) == decided;
    if decided.clients[c].Stored? {
      assert decided == Goto(s, c, Stored(req, fault, n)).(registry := Mutate(s.registry, req));
    }
  }

  // ---------------------------------------------------------------- the invocation sequence

  datatype Event = LockTaken | LockReleased | HandlerStarted

  datatype InvokeError = LockError | LoadError | SkillMissing | PolicyDenied | AuthorizerMissing
    | ProjectMissing | NotAuthorized | HandlerUnresolved | ReleaseError | PayloadError

  /** The outcomes of the calls `Invoke` makes, in the order it makes them. */
  datatype Calls = Calls(
    lock: bool, load: bool, find: bool, policy: bool, mutating: bool, authorizer: bool,
    project: bool, authorize: bool, resolve: bool, release: bool, payload: bool)

  class Invocation {
    var log: seq<Event>

    constructor ()
      ensures log == []
    {
      log := [];
    }

    method Release()
      modifies this
      ensures log == old(log) + [LockReleased]
    {
      log := log + [LockReleased];
    }

    /** On every path that took the lock it is released exactly once, and before the handler runs. */
    method Invoke(calls: Calls) returns (error: set<InvokeError>)
      modifies this
      ensures log == old(log)
                     + (if calls.lock then [LockTaken, LockReleased] else [])
                     + (if error == {} then [HandlerStarted] else [])
      ensures error == {} <==>
                && calls.lock && calls.load && calls.find && calls.policy
                && (calls.mutating ==> calls.authorizer && calls.project && calls.authorize)
                && calls.resolve && calls.release && calls.payload
    {
      if !calls.lock { return {LockError}; }
      log := log + [LockTaken];
      if !calls.load { Release(); return {LoadError}; }
      if !calls.find { Release(); return {SkillMissing}; }
      if !calls.policy { Release(); return {PolicyDenied}; }
      if calls.mutating {
        if !calls.authorizer { Release(); return {AuthorizerMissing}; }
        if !calls.project { Release(); return {ProjectMissing}; }
        if !calls.authorize { Release(); return {NotAuthorized}; }
      }
      if !calls.resolve { Release(); return {HandlerUnresolved}; }
      Release();
      if !calls.release { return {ReleaseError}; }
      if !calls.payload { return {PayloadError}; }
      log := log + [HandlerStarted];
      return {};
    }
  }
}

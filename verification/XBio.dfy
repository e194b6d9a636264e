/** Changing an X profile bio: the approved request, and its application through a browser session. */
module XBio {
  import opened Counting
  import opened Wrappers
  import opened Text

  // ---------------------------------------------------------------- rows

  datatype TaskStatus = Queued | BlockedForApproval | Running | Failed | Completed | OtherTaskStatus
  datatype ApprovalStatus = Pending | Approved | OtherApprovalStatus

  datatype Approval = Approval(task: int, status: ApprovalStatus)
  datatype Session = Session(verified: bool, domain: string, hasArtifact: bool)

  /** A stored mutation request; `forBio` says that its action kind is x_profile_bio. */
  datatype Mutation = Mutation(forBio: bool, session: Option<int>, startURL: string, payload: string)

  datatype Run = Run(task: int, attempt: int)

  /** What was handed to the driver, and what was completed. */
  datatype Event = Sent(approval: int, bio: string) | Done(task: int) | Reopened(task: int)

  datatype Db = Db(
    tasks: map<int, TaskStatus>, approvals: map<int, Approval>, sessions: map<int, Session>,
    mutations: map<int, Mutation>, runs: seq<Run>, nextTask: int, nextApproval: int, log: seq<Event>)

  /** What the source takes from its libraries: the host of an absolute URL, lower case, and the JSON
    * payload of a request. */
  datatype Library = Library(
    hostname: string -> Option<string>,
    lower: char -> char,
    encode: (string, int, string) -> string,
    decodeBio: string -> Option<string>)

  ghost predicate Faithful(lib: Library) {
    forall url, session, bio :: lib.decodeBio(lib.encode(url, session, bio)) == Some(bio)
  }

  function TrimDot(s: string): string { if s != "" && s[|s| - 1] == '.' then s[..|s| - 1] else s }

  function Domain(lib: Library, domain: string): string { MapChars(lib.lower, TrimDot(TrimSpace(domain))) }

  const X_DOMAINS: set<string> := {"x.com", "www.x.com", "twitter.com", "www.twitter.com"}

  predicate IsXDomain(lib: Library, domain: string) { Domain(lib, domain) in X_DOMAINS }

  predicate HasSuffix(s: string, suffix: string) { |suffix| <= |s| && s[|s| - |suffix|..] == suffix }

  predicate URLMatches(lib: Library, url: string, domain: string) {
    match lib.hostname(TrimSpace(url))
    case None => false
    case Some(h) =>
      var host := MapChars(lib.lower, TrimDot(h));
      h != "" && (host == Domain(lib, domain) || HasSuffix(host, "." + Domain(lib, domain)))
  }

  const DEFAULT_URL := "https://x.com/settings/profile"

  function TargetURL(url: string): string { if TrimSpace(url) == "" then DEFAULT_URL else TrimSpace(url) }

  predicate SessionReady(lib: Library, db: Db, session: int, url: string) {
    && session in db.sessions && db.sessions[session].verified
    && IsXDomain(lib, db.sessions[session].domain)
    && URLMatches(lib, TargetURL(url), db.sessions[session].domain)
  }

  // ---------------------------------------------------------------- requesting

  /** `odin x bio request`: the command parser refuses a blank bio; then `requestXBioChange` makes a task,
    * blocked on a new approval that carries the trimmed bio. */
  function Request(lib: Library, db: Db, session: int, projectKnown: bool, bio: string, url: string): Db {
    if TrimSpace(bio) == "" then db
    else if !SessionReady(lib, db, session, url) || !projectKnown then db
    else
      var target := TargetURL(url);
      db.(tasks := db.tasks[db.nextTask := BlockedForApproval], nextTask := db.nextTask + 1,
          approvals := db.approvals[db.nextApproval := Approval(db.nextTask, Pending)],
          mutations := db.mutations[db.nextApproval :=
            Mutation(true, Some(session), target, lib.encode(TrimSpace(target), session, TrimSpace(bio)))],
          nextApproval := db.nextApproval + 1)
  }

  // ---------------------------------------------------------------- applying

  /** `nextBrowserMutationAttempt`: one more than the greatest attempt of the task. */
  function MaxAttempt(runs: seq<Run>, task: int): (m: int)
    ensures m >= 0
    ensures forall i | 0 <= i < |runs| && runs[i].task == task :: runs[i].attempt <= m
  {
    if runs == [] then 0
    else
      var m := MaxAttempt(runs[..|runs| - 1], task);
      var last := runs[|runs| - 1];
      if last.task == task && last.attempt > m then last.attempt else m
  }

  datatype Command = Command(session: int, task: int, approval: int, bio: string, url: string)

  /** How far an application gets once its run has started. */
  datatype Outcome = Interrupted | NotMaterialized | SentThenInterrupted | DriverFailed | DriverCompleted

  /** Every condition that is checked before a run is started. */
  predicate MayApply(lib: Library, db: Db, c: Command) {
    && SessionReady(lib, db, c.session, c.url)
    && c.approval in db.approvals && db.approvals[c.approval] == Approval(c.task, Approved)
    && c.task in db.tasks && !db.tasks[c.task].Completed?
    && db.sessions[c.session].hasArtifact
  }

  function Apply(lib: Library, db: Db, c: Command, o: Outcome): Db {
    if !MayApply(lib, db, c) then db
    else
      var started := db.(
        runs := db.runs + [Run(c.task, MaxAttempt(db.runs, c.task) + 1)],
        tasks := db.tasks[c.task := Running]);
      match o
      case Interrupted => started
      case NotMaterialized => started.(tasks := started.tasks[c.task := Failed])
      case SentThenInterrupted => started.(log := started.log + [Sent(c.approval, TrimSpace(c.bio))])
      case DriverFailed =>
        started.(tasks := started.tasks[c.task := Failed], log := started.log + [Sent(c.approval, TrimSpace(c.bio))])
      case DriverCompleted =>
        started.(tasks := started.tasks[c.task := Completed],
                 log := started.log + [Sent(c.approval, TrimSpace(c.bio)), Done(c.task)])
  }

  /** `applyXBioFromApproval`: everything but the outcome comes from the stored request. */
  function CommandFor(lib: Library, db: Db, approval: int): Option<Command> {
    if approval !in db.approvals || !db.approvals[approval].status.Approved? then None
    else if approval !in db.mutations || !db.mutations[approval].forBio then None
    else
      var m := db.mutations[approval];
      if m.session.None? || m.session.value <= 0 then None
      else match lib.decodeBio(m.payload)
        case None => None
        case Some(bio) =>
          if TrimSpace(bio) == "" then None
          else Some(Command(m.session.value, db.approvals[approval].task, approval, TrimSpace(bio), m.startURL))
  }

  function ApplyApproval(lib: Library, db: Db, approval: int, o: Outcome): Db {
    match CommandFor(lib, db, approval)
    case None => db
    case Some(c) => Apply(lib, db, c, o)
  }

  class BioStore {
    var db: Db

    constructor (start: Db)
      ensures db == start
    {
      db := start;
    }

    method ApplyXBioChange(lib: Library, c: Command, o: Outcome) returns (ok: bool)
      modifies this
      ensures db == Apply(lib, old(db), c, o)
      ensures ok <==> MayApply(lib, old(db), c) && o.DriverCompleted?
    {
      hide TrimSpace, IsXDomain, URLMatches, TargetURL, MaxAttempt;
      if c.session !in db.sessions {
        return false;
      }
      var session := db.sessions[c.session];
      if !session.verified || !IsXDomain(lib, session.domain) || !URLMatches(lib, TargetURL(c.url), session.domain) {
        return false;
      }
      if c.approval !in db.approvals {
        return false;
      }
      var approval := db.approvals[c.approval];
      if approval.task != c.task || !approval.status.Approved? {
        return false;
      }
      if c.task !in db.tasks || db.tasks[c.task].Completed? || !session.hasArtifact {
        return false;
      }
      var attempt := MaxAttempt(db.runs, c.task) + 1;
      db := db.(runs := db.runs + [Run(c.task, attempt)], tasks := db.tasks[c.task := Running]);
      if o.Interrupted? {
        return false;
      }
      if o.NotMaterialized? {
        db := db.(tasks := db.tasks[c.task := Failed]);
        return false;
      }
      db := db.(log := db.log + [Sent(c.approval, TrimSpace(c.bio))]);
      if o.SentThenInterrupted? {
        return false;
      }
      if o.DriverFailed? {
        db := db.(tasks := db.tasks[c.task := Failed]);
        return false;
      }
      ghost var sent := db.log;
      db := db.(tasks := db.tasks[c.task := Completed], log := db.log + [Done(c.task)]);
      assert db.log == old(db).log + [Sent(c.approval, TrimSpace(c.bio)), Done(c.task)];
      return true;
    }
  }

  // ---------------------------------------------------------------- which hosts

  function Labels(host: string): seq<string> { Split(host, '.') }

  predicate EndsIn(a: seq<string>, b: seq<string>) { |b| <= |a| && a[|a| - |b|..] == b }

  lemma {:induction false} SuffixSplits(host: string, domain: string)
    requires HasSuffix(host, "." + domain)
    ensures EndsIn(Labels(host), Labels(domain))
  {
    var h, d := Labels(host), Labels(domain);
    var front := host[..|host| - |domain| - 1];
    assert host == front + ['.'] + domain;
    SplitAppend(front, domain, '.');
    assert h[|h| - |d|..] == d;
  }

  lemma {:induction false} LabelsJoin(host: string, domain: string)
    requires EndsIn(Labels(host), Labels(domain)) && host != domain
    ensures HasSuffix(host, "." + domain)
  {
    JoinSplit(host, '.');
    JoinSplit(domain, '.');
    hide Split, Join, HasSuffix;
    JoinedSuffix(Labels(host), Labels(domain));
  }

  lemma {:induction false} JoinedSuffix(h: seq<string>, d: seq<string>)
    requires EndsIn(h, d) && d != [] && Join(h, '.') != Join(d, '.')
    ensures HasSuffix(Join(h, '.'), "." + Join(d, '.'))
  {
    var front := h[..|h| - |d|];
    assert h == front + d;
    assert front == [] ==> h == d;
    JoinAppend(front, d, '.');
    hide Join, EndsIn;
    DottedSuffix(Join(front, '.'), Join(d, '.'));
  }

  lemma {:induction false} DottedSuffix(a: string, b: string)
    ensures HasSuffix(a + ['.'] + b, "." + b)
  {
    assert a + ['.'] + b == a + ("." + b);
  }

  /** Equal to a domain, or ending in a dot and the domain, means that its labels come last. */
  lemma {:induction false} SuffixIsLabels(host: string, domain: string)
    ensures host == domain || HasSuffix(host, "." + domain) <==> EndsIn(Labels(host), Labels(domain))
  {
    if HasSuffix(host, "." + domain) {
      SuffixSplits(host, domain);
    } else if EndsIn(Labels(host), Labels(domain)) && host != domain {
      LabelsJoin(host, domain);
    }
  }

  /** The host of a URL, as it is compared: without one last dot, in lower case. */
  function HostOf(lib: Library, url: string): string {
    match lib.hostname(TrimSpace(url)) case None => "" case Some(h) => MapChars(lib.lower, if h != "" && h[|h| - 1] == '.' then h[..|h| - 1] else h)
  }

  /** A URL is on a domain if and only if it has a host, whose last labels are the domain's. */
  lemma {:induction false} URLMatchesExact(lib: Library, url: string, domain: string)
    ensures URLMatches(lib, url, domain)
       <==> lib.hostname(TrimSpace(url)) !in {None, Some("")} && EndsIn(Labels(HostOf(lib, url)), Labels(Domain(lib, domain)))
  {
    SuffixIsLabels(HostOf(lib, url), Domain(lib, domain));
    hide Labels, EndsIn, HasSuffix, Domain, TrimSpace;
  }

  lemma {:induction false} DotCom(name: string)
    requires '.' !in name
    ensures Labels(name + ".com") == [name, "com"] && Labels("www." + (name + ".com")) == ["www", name, "com"]
  {
    SplitSimple(name, '.');
    SplitSimple("com", '.');
    SplitSimple("www", '.');
    SplitAppend(name, "com", '.');
    SplitAppend("www", name + ".com", '.');
    assert name + ['.'] + "com" == name + ".com";
    assert "www" + ['.'] + (name + ".com") == "www." + (name + ".com");
  }

  lemma {:induction false} UnderName(domain: string, name: string)
    requires '.' !in name && (domain == name + ".com" || domain == "www." + (name + ".com"))
    ensures EndsIn(Labels(domain), [name, "com"])
  {
    DotCom(name);
    hide Labels;
    assert ["www", name, "com"][1..] == [name, "com"];
  }

  lemma {:induction false} XLabels(domain: string)
    requires domain in X_DOMAINS
    ensures EndsIn(Labels(domain), ["x", "com"]) || EndsIn(Labels(domain), ["twitter", "com"])
  {
    hide Labels, EndsIn;
    if domain == "x.com" || domain == "www.x.com" {
      assert "x" + ".com" == "x.com" && "www." + "x.com" == "www.x.com";
      UnderName(domain, "x");
    } else {
      assert "twitter" + ".com" == "twitter.com" && "www." + "twitter.com" == "www.twitter.com";
      UnderName(domain, "twitter");
    }
  }

  /** A change is only ever taken to a host under `x.com` or `twitter.com`. */
  lemma {:induction false} OnlyToX(lib: Library, db: Db, c: Command)
    requires MayApply(lib, db, c)
    ensures var labels := Labels(HostOf(lib, TargetURL(c.url)));
            EndsIn(labels, ["x", "com"]) || EndsIn(labels, ["twitter", "com"])
  {
    var domain := db.sessions[c.session].domain;
    URLMatchesExact(lib, TargetURL(c.url), domain);
    XLabels(Domain(lib, domain));
    hide Labels, HostOf, Domain, TargetURL, MapChars, URLMatches;
    EndsTwice(Labels(HostOf(lib, TargetURL(c.url))), Labels(Domain(lib, domain)), ["x", "com"]);
    EndsTwice(Labels(HostOf(lib, TargetURL(c.url))), Labels(Domain(lib, domain)), ["twitter", "com"]);
  }

  lemma {:induction false} EndsTwice(a: seq<string>, b: seq<string>, c: seq<string>)
    ensures EndsIn(a, b) && EndsIn(b, c) ==> EndsIn(a, c)
  {
    if EndsIn(a, b) && EndsIn(b, c) {
      assert a[|a| - |c|..] == a[|a| - |b|..][|b| - |c|..];
    }
  }

  // ---------------------------------------------------------------- what one request does

  /** A request for a blank bio, an unknown project, or a session that is not a verified one of X on the URL's host
    * changes nothing; any other one adds a blocked task, its pending approval and the stored request. */
  lemma {:induction false} RequestLeaves(lib: Library, db: Db, session: int, projectKnown: bool, bio: string, url: string)
    ensures var target := if TrimSpace(url) == "" then "https://x.com/settings/profile" else TrimSpace(url);
            var accepted := && TrimSpace(bio) != "" && projectKnown && session in db.sessions && db.sessions[session].verified
                            && IsXDomain(lib, db.sessions[session].domain) && URLMatches(lib, target, db.sessions[session].domain);
            var d := Request(lib, db, session, projectKnown, bio, url);
            if !accepted then d == db
            else
              && d.tasks == db.tasks[db.nextTask := BlockedForApproval] && d.nextTask == db.nextTask + 1
              && d.approvals == db.approvals[db.nextApproval := Approval(db.nextTask, Pending)]
              && d.nextApproval == db.nextApproval + 1
              && d.mutations == db.mutations[db.nextApproval :=
                   Mutation(true, Some(session), target, lib.encode(TrimSpace(target), session, TrimSpace(bio)))]
              && d.sessions == db.sessions && d.runs == db.runs && d.log == db.log
  {
    hide TrimSpace, URLMatches, IsXDomain;
  }

  /** The next attempt of a task: above all earlier ones, and the very next number. */
  predicate IsNextAttempt(runs: seq<Run>, task: int, n: int) {
    && n >= 1
    && (forall i | 0 <= i < |runs| && runs[i].task == task :: runs[i].attempt < n)
    && (n > 1 ==> exists i | 0 <= i < |runs| :: runs[i] == Run(task, n - 1))
  }

  lemma {:induction false} MaxAttemptExact(runs: seq<Run>, task: int)
    ensures IsNextAttempt(runs, task, MaxAttempt(runs, task) + 1)
  {
    if runs != [] {
      var before, last := runs[..|runs| - 1], runs[|runs| - 1];
      MaxAttemptExact(before, task);
      if MaxAttempt(runs, task) > 0 && !(last.task == task && last.attempt > MaxAttempt(before, task)) {
        var i :| 0 <= i < |before| && before[i] == Run(task, MaxAttempt(before, task));
        assert runs[i] == before[i];
      }
    }
  }

  /** The status of the task and the record that each outcome of a started run leaves. */
  lemma {:induction false} ApplyLeaves(lib: Library, db: Db, c: Command, o: Outcome)
    ensures var d, bio := Apply(lib, db, c, o), TrimSpace(c.bio);
            if !MayApply(lib, db, c) then d == db
            else
              && |d.runs| == |db.runs| + 1 && d.runs[..|db.runs|] == db.runs
              && d.runs[|db.runs|].task == c.task && IsNextAttempt(db.runs, c.task, d.runs[|db.runs|].attempt)
              && c.task in d.tasks && d == db.(runs := d.runs, tasks := db.tasks[c.task := d.tasks[c.task]], log := d.log)
              && (o in {Interrupted, SentThenInterrupted} ==> d.tasks[c.task] == Running)
              && (o in {NotMaterialized, DriverFailed} ==> d.tasks[c.task] == Failed)
              && (o == DriverCompleted ==> d.tasks[c.task] == Completed)
              && (o in {Interrupted, NotMaterialized} ==> d.log == db.log)
              && (o in {SentThenInterrupted, DriverFailed} ==> d.log == db.log + [Sent(c.approval, bio)])
              && (o == DriverCompleted ==> d.log == db.log + [Sent(c.approval, bio), Done(c.task)])
  {
    MaxAttemptExact(db.runs, c.task);
    hide TrimSpace, MayApply, MaxAttempt, IsNextAttempt;
  }

  // ---------------------------------------------------------------- runs of the system

  /** Requests and applications, one at a time, among whatever else the system does: approvals are
    * resolved, sessions and tasks change, other executors start runs. */
  datatype Action =
    | DoRequest(session: int, projectKnown: bool, bio: string, url: string)
    | DoApplyApproval(approval: int, outcome: Outcome)
    | DoApply(command: Command, outcome: Outcome)
    | Resolve(approval: int, resolution: ApprovalStatus)
    | SetSession(session: int, row: Session)
    | SetTask(task: int, status: TaskStatus)
    | OtherRun(task: int)

  function Do(lib: Library, db: Db, a: Action): Db {
    match a
    case DoRequest(session, known, bio, url) => Request(lib, db, session, known, bio, url)
    case DoApplyApproval(approval, o) => ApplyApproval(lib, db, approval, o)
    case DoApply(c, o) => Apply(lib, db, c, o)
    case Resolve(approval, status) =>
      if approval in db.approvals
      then db.(approvals := db.approvals[approval := db.approvals[approval].(status := status)]) else db
    case SetSession(session, row) => if session > 0 then db.(sessions := db.sessions[session := row]) else db
    case SetTask(task, status) =>
      if task !in db.tasks then db
      else db.(tasks := db.tasks[task := status],
               log := if db.tasks[task].Completed? && !status.Completed? then db.log + [Reopened(task)] else db.log)
    case OtherRun(task) => db.(runs := db.runs + [Run(task, MaxAttempt(db.runs, task) + 1)])
  }

  datatype History = Start | Then(before: History, action: Action)

  function Exec(lib: Library, h: History): Db {
    match h
    case Start => Db(map[], map[], map[], map[], [], 1, 1, [])
    case Then(before, a) => Do(lib, Exec(lib, before), a)
  }

  /** Nothing is ruled out: approvals can be resolved, sessions replaced and tasks moved in any way, and other runs
    * be started; a task that leaves its completion is reopened. */
  lemma {:induction false} StepsArePossible(
    lib: Library, db: Db, approval: int, resolution: ApprovalStatus, session: int, row: Session, task: int, status: TaskStatus)
    ensures approval in db.approvals ==>
              var d := Do(lib, db, Resolve(approval, resolution));
              d == db.(approvals := db.approvals[approval := Approval(db.approvals[approval].task, resolution)])
    ensures session > 0 ==> Do(lib, db, SetSession(session, row)) == db.(sessions := db.sessions[session := row])
    ensures task in db.tasks ==>
              var d := Do(lib, db, SetTask(task, status));
              && d == db.(tasks := db.tasks[task := status], log := d.log)
              && d.log == db.log + (if db.tasks[task] == Completed && status != Completed then [Reopened(task)] else [])
    ensures var d := Do(lib, db, OtherRun(task));
            |d.runs| == |db.runs| + 1 && d.runs[..|db.runs|] == db.runs && IsNextAttempt(db.runs, task, d.runs[|db.runs|].attempt)
  {
    MaxAttemptExact(db.runs, task);
  }

  /** The whole way: a verified session of X, a request on its host, its approval, and a driver that succeeds.  The
    * trimmed bio is sent once, and the task is completed. */
  lemma {:induction false} RequestedApprovedDone(lib: Library, row: Session, bio: string, url: string)
    requires Faithful(lib) && row.verified && row.hasArtifact && TrimSpace(bio) != ""
    requires IsXDomain(lib, row.domain) && URLMatches(lib, TargetURL(url), row.domain)
    ensures var h := Then(Then(Then(Then(Start, SetSession(7, row)), DoRequest(7, true, bio, url)), Resolve(1, Approved)),
                       DoApplyApproval(1, DriverCompleted));
            Exec(lib, h).tasks == map[1 := Completed] && Exec(lib, h).log == [Sent(1, TrimSpace(bio)), Done(1)]
  {
    var target := TargetURL(url);
    TargetTrimmed(url);
    TrimTwice(bio);
    var m := Mutation(true, Some(7), target, lib.encode(TrimSpace(target), 7, TrimSpace(bio)));
    var h3 := RequestApproved(lib, row, bio, url, m);
    var d3 := Db(map[1 := BlockedForApproval], map[1 := Approval(1, Approved)], map[7 := row], map[1 := m], [], 2, 2, []);
    hide TrimSpace, IsXDomain, URLMatches, TargetURL, Exec;
    OneMore(lib, h3, DoApplyApproval(1, DriverCompleted));
    Applied(lib, d3, row, m, bio);
  }

  lemma {:induction false} Applied(lib: Library, db: Db, row: Session, m: Mutation, bio: string)
    requires db == Db(map[1 := BlockedForApproval], map[1 := Approval(1, Approved)], map[7 := row], map[1 := m], [], 2, 2, [])
    requires row.verified && row.hasArtifact && IsXDomain(lib, row.domain) && URLMatches(lib, TargetURL(m.startURL), row.domain)
    requires m.forBio && m.session == Some(7) && lib.decodeBio(m.payload) == Some(TrimSpace(bio)) && TrimSpace(bio) != ""
    ensures var d := ApplyApproval(lib, db, 1, DriverCompleted);
            d.tasks == map[1 := Completed] && d.log == [Sent(1, TrimSpace(bio)), Done(1)]
  {
    TrimTwice(bio);
    hide TrimSpace, IsXDomain, URLMatches, TargetURL;
    var c := Command(7, 1, 1, TrimSpace(bio), m.startURL);
    assert CommandFor(lib, db, 1) == Some(c);
    ApplyLeaves(lib, db, c, DriverCompleted);
    assert MayApply(lib, db, c);
    hide Apply, CommandFor, MayApply, IsNextAttempt;
    assert [] + [Sent(1, TrimSpace(bio)), Done(1)] == [Sent(1, TrimSpace(bio)), Done(1)];
  }

  lemma {:induction false} OneMore(lib: Library, h: History, a: Action)
    ensures Exec(lib, Then(h, a)) == Do(lib, Exec(lib, h), a)
  {
  }

  lemma {:induction false} TargetTrimmed(url: string)
    ensures TargetURL(TargetURL(url)) == TargetURL(url)
  {
    TrimTwice(url);
    TrimSpaceFixes(DEFAULT_URL);
  }

  lemma {:induction false} RequestApproved(lib: Library, row: Session, bio: string, url: string, m: Mutation) returns (h: History)
    requires row.verified && TrimSpace(bio) != "" && IsXDomain(lib, row.domain) && URLMatches(lib, TargetURL(url), row.domain)
    requires m == Mutation(true, Some(7), TargetURL(url), lib.encode(TrimSpace(TargetURL(url)), 7, TrimSpace(bio)))
    ensures h == Then(Then(Then(Start, SetSession(7, row)), DoRequest(7, true, bio, url)), Resolve(1, Approved))
    ensures Exec(lib, h)
         == Db(map[1 := BlockedForApproval], map[1 := Approval(1, Approved)], map[7 := row], map[1 := m], [], 2, 2, [])
  {
    hide TrimSpace, IsXDomain, URLMatches, TargetURL;
    var h1 := Then(Start, SetSession(7, row));
    assert Exec(lib, h1) == Db(map[], map[], map[7 := row], map[], [], 1, 1, []);
    var h2 := Then(h1, DoRequest(7, true, bio, url));
    assert Exec(lib, h2)
        == Db(map[1 := BlockedForApproval], map[1 := Approval(1, Pending)], map[7 := row], map[1 := m], [], 2, 2, []);
    h := Then(h2, Resolve(1, Approved));
  }

  // ---------------------------------------------------------------- completed once

  predicate IsCompleted(tasks: map<int, TaskStatus>, task: int) { task in tasks && tasks[task].Completed? }

  /** A task may be completed once, and once more for each time it is reopened. */
  predicate Balanced(db: Db, task: int) {
    Count(db.log, Done(task)) <= Count(db.log, Reopened(task)) + (if IsCompleted(db.tasks, task) then 1 else 0)
  }

  predicate Fresh(db: Db) { forall t | t in db.tasks :: t < db.nextTask }

  /** What was sent does not matter for the balance. */
  lemma {:induction false} SentBalanced(log: seq<Event>, sent: Event, task: int)
    requires sent.Sent?
    ensures Count(log + [sent], Done(task)) == Count(log, Done(task))
    ensures Count(log + [sent], Reopened(task)) == Count(log, Reopened(task))
  {
    CountSnoc(log, sent, Done(task));
    CountSnoc(log, sent, Reopened(task));
  }

  lemma {:induction false} DoneBalanced(log: seq<Event>, done: int, task: int)
    ensures Count(log + [Done(done)], Done(task)) == Count(log, Done(task)) + (if done == task then 1 else 0)
    ensures Count(log + [Done(done)], Reopened(task)) == Count(log, Reopened(task))
  {
    CountSnoc(log, Done(done), Done(task));
    CountSnoc(log, Done(done), Reopened(task));
  }

  lemma {:induction false} ApplyBalanced(lib: Library, db: Db, c: Command, o: Outcome, task: int)
    requires Fresh(db) && Balanced(db, task)
    ensures Fresh(Apply(lib, db, c, o)) && Balanced(Apply(lib, db, c, o), task)
  {
    hide Count, SessionReady, TrimSpace, MaxAttempt;
    var sent := Sent(c.approval, TrimSpace(c.bio));
    assert db.log + [sent, Done(c.task)] == db.log + [sent] + [Done(c.task)];
    SentBalanced(db.log, sent, task);
    DoneBalanced(db.log + [sent], c.task, task);
  }

  lemma {:induction false} SetTaskBalanced(lib: Library, db: Db, t: int, status: TaskStatus, task: int)
    requires Fresh(db) && Balanced(db, task)
    ensures Fresh(Do(lib, db, SetTask(t, status))) && Balanced(Do(lib, db, SetTask(t, status)), task)
  {
    hide Count;
    CountSnoc(db.log, Reopened(t), Done(task));
    CountSnoc(db.log, Reopened(t), Reopened(task));
  }

  lemma {:induction false} StepBalanced(lib: Library, db: Db, a: Action, task: int)
    requires Fresh(db) && Balanced(db, task)
    ensures Fresh(Do(lib, db, a)) && Balanced(Do(lib, db, a), task)
  {
    match a
    case DoApply(c, o) => ApplyBalanced(lib, db, c, o, task);
    case DoApplyApproval(approval, o) =>
      if CommandFor(lib, db, approval).Some? {
        hide Apply, Balanced, Fresh;
        ApplyBalanced(lib, db, CommandFor(lib, db, approval).value, o, task);
      }
    case SetTask(t, status) => SetTaskBalanced(lib, db, t, status, task);
    case _ => hide Count, SessionReady, TrimSpace;
  }

  lemma {:induction false} HistoryBalanced(lib: Library, h: History, task: int)
    ensures Fresh(Exec(lib, h)) && Balanced(Exec(lib, h), task)
  {
    if h.Then? {
      HistoryBalanced(lib, h.before, task);
      StepBalanced(lib, Exec(lib, h.before), h.action, task);
    }
  }

  /** Over every serial history a task that nobody reopens is completed at most once. */
  lemma {:induction false} CompletedOnce(lib: Library, h: History, task: int)
    ensures var log := Exec(lib, h).log; Count(log, Done(task)) <= 1 + Count(log, Reopened(task))
  {
    HistoryBalanced(lib, h, task);
  }

  // ---------------------------------------------------------------- completed only when everything was in order

  /** The step `a` was taken in the history, after its part `p`. */
  predicate TakenIn(h: History, p: History, a: Action) {
    h.Then? && ((h.before == p && h.action == a) || TakenIn(h.before, p, a))
  }

  /** The command that a step carries out, and how far it gets. */
  function CommandOf(lib: Library, db: Db, a: Action): Option<(Command, Outcome)> {
    match a
    case DoApply(c, o) => Some((c, o))
    case DoApplyApproval(approval, o) =>
      (match CommandFor(lib, db, approval) case None => None case Some(c) => Some((c, o)))
    case _ => None
  }

  /** The step applies a change for this task, at a moment when the session is verified and belongs to X,
    * the URL is on the session's host, the approval is approved and is the task's own, and the task is
    * not completed; and the driver succeeds. */
  predicate Completes(lib: Library, db: Db, a: Action, task: int) {
    match CommandOf(lib, db, a)
    case None => false
    case Some((c, o)) =>
      && o.DriverCompleted? && c.task == task
      && c.session in db.sessions && db.sessions[c.session].verified && db.sessions[c.session].hasArtifact
      && IsXDomain(lib, db.sessions[c.session].domain)
      && URLMatches(lib, TargetURL(c.url), db.sessions[c.session].domain)
      && c.approval in db.approvals && db.approvals[c.approval] == Approval(task, Approved)
      && task in db.tasks && !IsCompleted(db.tasks, task)
  }

  lemma {:induction false} ApplyDone(lib: Library, db: Db, c: Command, o: Outcome, i: nat)
    requires |db.log| <= i < |Apply(lib, db, c, o).log|
    ensures Apply(lib, db, c, o).log[i].Done? ==> MayApply(lib, db, c) && o.DriverCompleted? && Apply(lib, db, c, o).log[i] == Done(c.task)
  {
    hide SessionReady, TrimSpace, MaxAttempt;
  }

  lemma {:induction false} ApplyLog(lib: Library, db: Db, c: Command, o: Outcome)
    ensures db.log <= Apply(lib, db, c, o).log
  {
    hide SessionReady, TrimSpace, MaxAttempt;
  }

  /** A step only adds to the log, and a completion only if it completes that task. */
  lemma {:induction false} StepDone(lib: Library, db: Db, a: Action, i: nat)
    ensures var d := Do(lib, db, a);
            db.log <= d.log && (|db.log| <= i < |d.log| && d.log[i].Done? ==> Completes(lib, db, a, d.log[i].task))
  {
    match a
    case DoApply(c, o) =>
      ApplyLog(lib, db, c, o);
      if |db.log| <= i < |Apply(lib, db, c, o).log| { ApplyDone(lib, db, c, o, i); }
      hide Apply, IsXDomain, URLMatches, TargetURL;
    case DoApplyApproval(approval, o) =>
      if CommandFor(lib, db, approval).Some? {
        var c := CommandFor(lib, db, approval).value;
        ApplyLog(lib, db, c, o);
        if |db.log| <= i < |Apply(lib, db, c, o).log| { ApplyDone(lib, db, c, o, i); }
        hide Apply, IsXDomain, URLMatches, TargetURL, CommandFor;
      }
    case _ => hide SessionReady, TrimSpace;
  }

  lemma {:induction false} CompletesDone(lib: Library, db: Db, a: Action, task: int)
    requires Completes(lib, db, a, task)
    ensures var d := Do(lib, db, a); |d.log| == |db.log| + 2 && d.log[|db.log| + 1] == Done(task)
  {
    hide IsXDomain, URLMatches, TargetURL, CommandFor, TrimSpace, MaxAttempt;
  }

  lemma {:induction false} LogGrows(lib: Library, h: History, p: History, a: Action)
    requires TakenIn(h, p, a)
    ensures Do(lib, Exec(lib, p), a).log <= Exec(lib, h).log
  {
    if !(h.before == p && h.action == a) {
      LogGrows(lib, h.before, p, a);
      StepDone(lib, Exec(lib, h.before), h.action, 0);
      hide Do, Completes;
    }
  }

  /** Each recorded completion comes from one step of the history, at whose moment all of this held. */
  lemma {:induction false} CompletionHasStep(lib: Library, h: History, i: nat) returns (p: History, a: Action)
    requires i < |Exec(lib, h).log| && Exec(lib, h).log[i].Done?
    ensures TakenIn(h, p, a) && |Exec(lib, p).log| <= i < |Do(lib, Exec(lib, p), a).log|
    ensures Completes(lib, Exec(lib, p), a, Exec(lib, h).log[i].task)
  {
    var db := Exec(lib, h.before);
    StepDone(lib, db, h.action, i);
    hide Do, Completes;
    if i < |db.log| {
      p, a := CompletionHasStep(lib, h.before, i);
    } else {
      p, a := h.before, h.action;
    }
  }

  ghost predicate SomeStepCompletes(lib: Library, h: History, task: int) {
    exists p, a :: TakenIn(h, p, a) && Completes(lib, Exec(lib, p), a, task)
  }

  /** Over every history: a task has been completed by this path if and only if some step of the history
    * completed it with a verified X session, a URL on its host, the task's own approved approval and a
    * successful driver. */
  lemma {:induction false} CompletedExactly(lib: Library, h: History, task: int)
    ensures Done(task) in Exec(lib, h).log <==> SomeStepCompletes(lib, h, task)
  {
    var log := Exec(lib, h).log;
    hide Exec, Do, Completes;
    if Done(task) in log {
      var i :| 0 <= i < |log| && log[i] == Done(task);
      var p, a := CompletionHasStep(lib, h, i);
      assert Completes(lib, Exec(lib, p), a, task);
    }
    if SomeStepCompletes(lib, h, task) {
      var p, a :| TakenIn(h, p, a) && Completes(lib, Exec(lib, p), a, task);
      CompletesDone(lib, Exec(lib, p), a, task);
      LogGrows(lib, h, p, a);
      assert log[|Exec(lib, p).log| + 1] == Done(task);
    }
  }

  // ---------------------------------------------------------------- attempts

  predicate Increasing(runs: seq<Run>) {
    forall i, j | 0 <= i < j < |runs| && runs[i].task == runs[j].task :: runs[i].attempt < runs[j].attempt
  }

  function NextRun(runs: seq<Run>, task: int): Run { Run(task, MaxAttempt(runs, task) + 1) }

  lemma {:induction false} IncreasingSnoc(runs: seq<Run>, task: int)
    requires Increasing(runs)
    ensures Increasing(runs + [NextRun(runs, task)])
  {
    hide MaxAttempt;
  }

  lemma {:induction false} ApplyRuns(lib: Library, db: Db, c: Command, o: Outcome)
    ensures Apply(lib, db, c, o).runs == db.runs || Apply(lib, db, c, o).runs == db.runs + [NextRun(db.runs, c.task)]
  {
    hide SessionReady, MaxAttempt, TrimSpace;
  }

  /** The attempts of a task strictly increase, whoever starts them. */
  lemma {:induction false} AttemptsIncrease(lib: Library, h: History)
    ensures Increasing(Exec(lib, h).runs)
  {
    if h.Then? {
      AttemptsIncrease(lib, h.before);
      var db := Exec(lib, h.before);
      hide SessionReady, Increasing, Apply, NextRun;
      match h.action {
        case DoApply(c, o) =>
          ApplyRuns(lib, db, c, o);
          IncreasingSnoc(db.runs, c.task);
        case DoApplyApproval(approval, o) =>
          if CommandFor(lib, db, approval).Some? {
            var c := CommandFor(lib, db, approval).value;
            ApplyRuns(lib, db, c, o);
            IncreasingSnoc(db.runs, c.task);
          }
        case OtherRun(task) =>
          IncreasingSnoc(db.runs, task);
          NextRunIs(db.runs, task);
        case _ =>
      }
    }
  }

  lemma {:induction false} NextRunIs(runs: seq<Run>, task: int)
    ensures NextRun(runs, task) == Run(task, MaxAttempt(runs, task) + 1)
  {
  }

  // ---------------------------------------------------------------- what is sent is what was approved

  /** The request that an approval was created for. */
  function RequestBehind(lib: Library, h: History, approval: int): Option<Action> {
    match h
    case Start => None
    case Then(before, a) =>
      var db := Exec(lib, before);
      if a.DoRequest? && db.nextApproval == approval && Do(lib, db, a) != db then Some(a)
      else RequestBehind(lib, before, approval)
  }

  /** The stored mutation is what the request said. */
  predicate Carries(lib: Library, m: Mutation, request: Option<Action>) {
    && request.Some? && request.value.DoRequest?
    && m.forBio && m.session == Some(request.value.session)
    && m.startURL == TargetURL(request.value.url)
    && lib.decodeBio(m.payload) == Some(TrimSpace(request.value.bio)) && TrimSpace(request.value.bio) != ""
  }

  predicate Numbered(db: Db) { forall a | a in db.mutations :: a < db.nextApproval }

  lemma {:induction false} ApplyKeepsRequests(lib: Library, db: Db, c: Command, o: Outcome)
    ensures var d := Apply(lib, db, c, o); d.mutations == db.mutations && d.nextApproval == db.nextApproval
  {
  }

  /** Only a request touches the stored mutations, and it adds one under a new number. */
  lemma {:induction false} StepRequests(lib: Library, db: Db, a: Action)
    ensures var d := Do(lib, db, a);
            !a.DoRequest? || d == db ==> d.mutations == db.mutations && d.nextApproval == db.nextApproval
  {
    match a
    case DoApply(c, o) => ApplyKeepsRequests(lib, db, c, o);
    case DoApplyApproval(approval, o) =>
      if CommandFor(lib, db, approval).Some? { ApplyKeepsRequests(lib, db, CommandFor(lib, db, approval).value, o); }
    case _ =>
  }

  lemma {:induction false} NewRequestCarries(lib: Library, db: Db, a: Action)
    requires Faithful(lib) && a.DoRequest? && Do(lib, db, a) != db
    ensures var d := Do(lib, db, a);
            && d.nextApproval == db.nextApproval + 1
            && d.mutations.Keys == db.mutations.Keys + {db.nextApproval}
            && (forall k | k in db.mutations && k != db.nextApproval :: d.mutations[k] == db.mutations[k])
            && Carries(lib, d.mutations[db.nextApproval], Some(a))
  {
    hide SessionReady, TrimSpace;
  }

  lemma {:induction false} MutationsCarry(lib: Library, h: History)
    requires Faithful(lib)
    ensures var db := Exec(lib, h);
            Numbered(db) && forall k | k in db.mutations :: Carries(lib, db.mutations[k], RequestBehind(lib, h, k))
  {
    if h.Then? {
      var db, d := Exec(lib, h.before), Exec(lib, h);
      MutationsCarry(lib, h.before);
      StepRequests(lib, db, h.action);
      if h.action.DoRequest? && d != db {
        NewRequestCarries(lib, db, h.action);
      }
      hide Carries, Do;
    }
  }

  /** `odin x bio apply` sends the trimmed bio of the request, through the session and to the URL of the
    * request, whatever has happened in between. */
  lemma {:induction false} AppliesStoredRequest(lib: Library, h: History, approval: int)
    requires Faithful(lib) && CommandFor(lib, Exec(lib, h), approval).Some?
    ensures var c := CommandFor(lib, Exec(lib, h), approval).value;
            var request := RequestBehind(lib, h, approval);
            && request.Some? && request.value.DoRequest?
            && c.approval == approval && c.session == request.value.session && c.url == TargetURL(request.value.url)
            && c.bio == TrimSpace(request.value.bio) && c.bio != ""
  {
    MutationsCarry(lib, h);
    var db := Exec(lib, h);
    assert Carries(lib, db.mutations[approval], RequestBehind(lib, h, approval));
    TrimTwice(RequestBehind(lib, h, approval).value.bio);
    hide TrimSpace, Exec, RequestBehind;
  }

  /** Requests are for stored sessions, whose ids are positive. */
  predicate Positive(db: Db) {
    && (forall k | k in db.sessions :: k > 0)
    && forall k | k in db.mutations :: db.mutations[k].session.Some? ==> db.mutations[k].session.value > 0
  }

  lemma {:induction false} ApplyKeepsSessions(lib: Library, db: Db, c: Command, o: Outcome)
    ensures var d := Apply(lib, db, c, o); d.mutations == db.mutations && d.sessions == db.sessions
  {
  }

  lemma {:induction false} AlwaysPositive(lib: Library, h: History)
    ensures Positive(Exec(lib, h))
  {
    if h.Then? {
      AlwaysPositive(lib, h.before);
      var db := Exec(lib, h.before);
      match h.action {
        case DoApply(c, o) => ApplyKeepsSessions(lib, db, c, o);
        case DoApplyApproval(approval, o) =>
          if CommandFor(lib, db, approval).Some? { ApplyKeepsSessions(lib, db, CommandFor(lib, db, approval).value, o); }
        case _ => hide IsXDomain, URLMatches, TargetURL, TrimSpace;
      }
    }
  }

  /** Over every history: whenever the approval of a stored request is approved, it can be turned into a
    * command, and the command carries the request's trimmed bio, which is not blank. */
  lemma {:induction false} ApprovedRequestApplies(lib: Library, h: History, approval: int)
    requires Faithful(lib)
    requires var db := Exec(lib, h);
             approval in db.mutations && approval in db.approvals && db.approvals[approval].status.Approved?
    ensures var command, request := CommandFor(lib, Exec(lib, h), approval), RequestBehind(lib, h, approval);
            && command.Some? && request.Some? && request.value.DoRequest?
            && command.value.bio == TrimSpace(request.value.bio) && command.value.bio != ""
  {
    MutationsCarry(lib, h);
    AlwaysPositive(lib, h);
    var db := Exec(lib, h);
    assert Carries(lib, db.mutations[approval], RequestBehind(lib, h, approval));
    TrimTwice(RequestBehind(lib, h, approval).value.bio);
    hide TrimSpace, Exec, RequestBehind;
  }

  lemma {:induction false} SendsTheCommandsBio(lib: Library, db: Db, c: Command, o: Outcome, i: nat)
    requires |db.log| <= i < |Apply(lib, db, c, o).log| && Apply(lib, db, c, o).log[i].Sent?
    ensures Apply(lib, db, c, o).log[i] == Sent(c.approval, TrimSpace(c.bio))
  {
    hide SessionReady, TrimSpace, MaxAttempt;
  }

  /** Whatever `odin x bio apply` hands to the driver is the trimmed bio of the approval's request. */
  lemma {:induction false} SendsApprovedBio(lib: Library, h: History, approval: int, o: Outcome, i: nat)
    requires Faithful(lib)
    requires var log := Exec(lib, Then(h, DoApplyApproval(approval, o))).log;
             |Exec(lib, h).log| <= i < |log| && log[i].Sent?
    ensures var request := RequestBehind(lib, h, approval);
            && request.Some? && request.value.DoRequest?
            && Exec(lib, Then(h, DoApplyApproval(approval, o))).log[i] == Sent(approval, TrimSpace(request.value.bio))
  {
    AppliesStoredRequest(lib, h, approval);
    var c := CommandFor(lib, Exec(lib, h), approval).value;
    SendsTheCommandsBio(lib, Exec(lib, h), c, o, i);
    TrimTwice(RequestBehind(lib, h, approval).value.bio);
  }
}

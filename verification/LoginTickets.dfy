/**
 The login ticket protocol: login workers, one chat content thread, and the key store they share.  The two scripts
 are single steps; every store command may fail, or run and lose its reply; tickets may expire, other instances may
 come and go, jobs may arrive in any order, and the chat server may stop or crash and start again at any time.
 */
module LoginTickets {
  import opened Options

  type Account = int
  type SessionId = nat
  type Key = seq<bv8>
  type Instance = string

  const CHAT: Instance := "chat"

  /** What happened to tickets and admissions; no branch reads it. */
  datatype Event =
    | Issued(account: Account, key: Key)
    | Expired(account: Account)
    | Claimed(account: Account, key: Key)
    | Admitted(account: Account, key: Key)

  datatype Player = Player(account: Account, loggedIn: bool)

  /** process_login, for one job: the registered instances are read before the account is looked up, and the ticket
      is issued after.  `snapshot` is what get_servers returned. */
  datatype Worker =
    | WIdle
    | WQuery(account: Account, key: Key, snapshot: seq<Instance>)
    | WIssue(account: Account, key: Key, snapshot: seq<Instance>)

  /** The content thread: not running, clearing leftovers at start, between jobs, inside claim_session, or inside
      clear_session_state after a logged-in player was erased. */
  datatype Content =
    | CDown
    | CKeys
    | CClear(left: seq<Account>)
    | CIdle
    | CClaim(id: SessionId, account: Account, key: Key)
    | CClaimed(id: SessionId, account: Account, key: Key, admitted: bool)
    | CForget(account: Account)

  datatype State = State(
    tickets: map<Account, Key>,
    sessions: set<(Instance, Account)>,
    registered: seq<Instance>,
    players: map<SessionId, Player>,
    playerCount: int,
    content: Content,
    workers: seq<Worker>,
    log: seq<Event>)

  /** A store command: not executed, executed, or executed with its reply lost. */
  datatype Reply = Failed | Answered | Lost

  datatype Job =
    | ClientJoin(id: SessionId)
    | ClientLeave(id: SessionId)
    | ReqLogin(id: SessionId, account: Account, key: Key)
    | KickAccount(account: Account)
    | OtherJob

  datatype Label =
    | StartLogin(w: nat, account: Account, key: Key)
    | QueryAccount(w: nat, found: bool)
    | IssueTicket(w: nat, reply: Reply)
    | Register(names: seq<Instance>)
    | Expire(account: Account)
    | OtherSession(name: Instance, account: Account, held: bool)
    | StartChat
    | ListKeys(reply: Reply, accounts: seq<Account>)
    | ClearOne(reply: Reply)
    | TakeJob(job: Job)
    | ClaimSession(reply: Reply)
    | FinishClaim
    | ForgetSession(reply: Reply)
    | EndChat

  /** ISSUE_TICKET_SCRIPT's test: some instance of the snapshot holds a session for the account. */
  predicate InSession(s: State, snapshot: seq<Instance>, account: Account) {
    exists k :: 0 <= k < |snapshot| && (snapshot[k], account) in s.sessions
  }

  function StepIssue(s: State, w: nat, reply: Reply): State
    requires w < |s.workers| && s.workers[w].WIssue?
  {
    var job := s.workers[w];
    var s' := s.(workers := s.workers[w := WIdle]);
    if reply.Failed? || InSession(s, job.snapshot, job.account) then s'
    else s'.(tickets := s.tickets[job.account := job.key], log := s.log + [Issued(job.account, job.key)])
  }

  /** CLAIM_SESSION_SCRIPT: refused while the session key exists, or without the presented ticket; otherwise the
      ticket becomes the session key. */
  predicate Claimable(s: State, account: Account, key: Key) {
    (CHAT, account) !in s.sessions && account in s.tickets && s.tickets[account] == key
  }

  function StepClaim(s: State, reply: Reply): State
    requires s.content.CClaim?
  {
    var c := s.content;
    if reply.Failed? || !Claimable(s, c.account, c.key) then s.(content := CClaimed(c.id, c.account, c.key, false))
    else s.(tickets := s.tickets - {c.account}, sessions := s.sessions + {(CHAT, c.account)},
            log := s.log + [Claimed(c.account, c.key)], content := CClaimed(c.id, c.account, c.key, reply.Answered?))
  }

  function StepFinish(s: State): State
    requires s.content.CClaimed?
  {
    var c := s.content;
    if c.admitted && c.id in s.players
    then s.(players := s.players[c.id := s.players[c.id].(loggedIn := true)], playerCount := s.playerCount + 1,
            log := s.log + [Admitted(c.account, c.key)], content := CIdle)
    else s.(content := CIdle)
  }

  function StepJob(s: State, job: Job): State
    requires s.content.CIdle?
  {
    match job
    case ClientJoin(id) => if id in s.players then s else s.(players := s.players[id := Player(0, false)])
    case ClientLeave(id) =>
      if id !in s.players then s
      else if s.players[id].loggedIn
      then s.(players := s.players - {id}, playerCount := s.playerCount - 1, content := CForget(s.players[id].account))
      else s.(players := s.players - {id})
    case ReqLogin(id, account, key) =>
      if id !in s.players || s.players[id].loggedIn then s
      else s.(players := s.players[id := s.players[id].(account := account)], content := CClaim(id, account, key))
    case KickAccount(_) => s
    case OtherJob => s
  }

  function Step(s: State, l: Label): State {
    match l
    case StartLogin(w, account, key) =>
      if w < |s.workers| && s.workers[w].WIdle?
      then s.(workers := s.workers[w := WQuery(account, key, s.registered)]) else s
    case QueryAccount(w, found) =>
      if w < |s.workers| && s.workers[w].WQuery?
      then
        var job := s.workers[w];
        s.(workers := s.workers[w := if found && CHAT in job.snapshot then WIssue(job.account, job.key, job.snapshot)
                                     else WIdle])
      else s
    case IssueTicket(w, reply) => if w < |s.workers| && s.workers[w].WIssue? then StepIssue(s, w, reply) else s
    case Register(names) => s.(registered := names)
    case Expire(account) =>
      if account in s.tickets then s.(tickets := s.tickets - {account}, log := s.log + [Expired(account)]) else s
    case OtherSession(name, account, held) =>
      if name == CHAT then s
      else s.(sessions := if held then s.sessions + {(name, account)} else s.sessions - {(name, account)})
    case StartChat => if s.content.CDown? then s.(content := CKeys) else s
    case ListKeys(reply, accounts) =>
      if s.content.CKeys? then s.(content := if reply.Answered? then CClear(accounts) else CIdle) else s
    case ClearOne(reply) =>
      if s.content.CClear? then
        if s.content.left == [] then s.(content := CIdle)
        else
          var key := (CHAT, s.content.left[0]);
          s.(sessions := if reply.Failed? then s.sessions else s.sessions - {key},
             content := if reply.Answered? then CClear(s.content.left[1..]) else CIdle)
      else s
    case TakeJob(job) => if s.content.CIdle? then StepJob(s, job) else s
    case ClaimSession(reply) => if s.content.CClaim? then StepClaim(s, reply) else s
    case FinishClaim => if s.content.CClaimed? then StepFinish(s) else s
    case ForgetSession(reply) =>
      if s.content.CForget?
      then s.(sessions := if reply.Failed? then s.sessions else s.sessions - {(CHAT, s.content.account)},
              content := CIdle)
      else s
    case EndChat => s.(players := map[], playerCount := 0, content := CDown)
  }

  function Exec(s: State, run: seq<Label>): State {
    if run == [] then s else Step(Exec(s, run[..|run| - 1]), run[|run| - 1])
  }

  function Init(workers: nat): State {
    State(map[], {}, [], map[], 0, CDown, seq(workers, (k: nat) => WIdle), [])
  }

  // ---------------------------------------------------------------- what the log says about a ticket

  /** The ticket that is good after a history: the latest issue, unless it expired or was claimed. */
  function Good(log: seq<Event>, account: Account): Option<Key> {
    if log == [] then None
    else
      match log[|log| - 1]
      case Issued(a, key) => if a == account then Some(key) else Good(log[..|log| - 1], account)
      case Expired(a) => if a == account then None else Good(log[..|log| - 1], account)
      case Claimed(a, _) => if a == account then None else Good(log[..|log| - 1], account)
      case Admitted(_, _) => Good(log[..|log| - 1], account)
  }

  function Issues(log: seq<Event>, account: Account): nat {
    if log == [] then 0
    else
      Issues(log[..|log| - 1], account)
      + (if log[|log| - 1].Issued? && log[|log| - 1].account == account then 1 else 0)
  }

  function Claims(log: seq<Event>, account: Account): nat {
    if log == [] then 0
    else
      Claims(log[..|log| - 1], account)
      + (if log[|log| - 1].Claimed? && log[|log| - 1].account == account then 1 else 0)
  }

  function Admissions(log: seq<Event>, account: Account): nat {
    if log == [] then 0
    else
      Admissions(log[..|log| - 1], account)
      + (if log[|log| - 1].Admitted? && log[|log| - 1].account == account then 1 else 0)
  }

  /** Every claim in a history consumed the ticket that was good at that moment. */
  ghost predicate ClaimsGood(log: seq<Event>) {
    forall k :: 0 <= k < |log| && log[k].Claimed? ==> Good(log[..k], log[k].account) == Some(log[k].key)
  }

  /** Claim j is the one that admission k comes from: it presented the same key for the same account, and no other claim
      or admission stands between them. */
  ghost predicate ComesFrom(log: seq<Event>, k: nat, j: nat) {
    && j < k < |log| && log[k].Admitted? && log[j] == Claimed(log[k].account, log[k].key)
    && forall m :: j < m < k ==> !log[m].Claimed? && !log[m].Admitted?
  }

  ghost predicate AllClaimed(log: seq<Event>) {
    forall k: nat :: k < |log| && log[k].Admitted? ==> exists j: nat :: ComesFrom(log, k, j)
  }

  /** The latest claim is this one, and nobody has been admitted since. */
  ghost predicate JustClaimed(log: seq<Event>, account: Account, key: Key) {
    exists j :: 0 <= j < |log| && log[j] == Claimed(account, key)
                && forall m :: j < m < |log| ==> !log[m].Claimed? && !log[m].Admitted?
  }

  // ---------------------------------------------------------------- invariants

  /** Logged-in players of an account. */
  predicate LoggedIn(s: State, id: SessionId, account: Account) {
    id in s.players && s.players[id].loggedIn && s.players[id].account == account
  }

  ghost predicate NobodyLoggedIn(s: State, account: Account) {
    forall id :: id in s.players ==> !LoggedIn(s, id, account)
  }

  /** A ticket and a chat session key of one account never exist together. */
  ghost predicate Disjoint(s: State) {
    forall a :: a in s.tickets ==> (CHAT, a) !in s.sessions
  }

  /** At most one player is logged in per account, and the session key of each is in the store. */
  ghost predicate Exclusive(s: State) {
    && (forall id :: id in s.players && s.players[id].loggedIn ==> (CHAT, s.players[id].account) in s.sessions)
    && (forall i, j :: i in s.players && j in s.players ==>
          s.players[i].loggedIn && s.players[j].loggedIn && s.players[i].account == s.players[j].account ==> i == j)
  }

  /** What the content thread knows at each point. */
  ghost predicate ContentOk(s: State) {
    match s.content
    case CDown => s.players == map[]
    case CKeys => s.players == map[]
    case CClear(_) => s.players == map[]
    case CIdle => true
    case CClaim(id, account, _) => id in s.players && s.players[id] == Player(account, false)
    case CClaimed(id, account, _, admitted) =>
      && id in s.players && s.players[id] == Player(account, false)
      && (admitted ==> (CHAT, account) in s.sessions && NobodyLoggedIn(s, account))
    case CForget(account) => NobodyLoggedIn(s, account)
  }

  /** A worker about to issue has seen the chat instance registered, so its script checks the chat session key. */
  ghost predicate WorkersOk(s: State) {
    forall w :: 0 <= w < |s.workers| && s.workers[w].WIssue? ==> CHAT in s.workers[w].snapshot
  }

  /** The store's tickets are exactly what the log says is good; claims and admissions never exceed what came before. */
  ghost predicate LoggedFor(s: State, a: Account) {
    && Good(s.log, a) == (if a in s.tickets then Some(s.tickets[a]) else None)
    && Claims(s.log, a) + (if a in s.tickets then 1 else 0) <= Issues(s.log, a)
    && Admissions(s.log, a) + (if s.content.CClaimed? && s.content.admitted && s.content.account == a then 1 else 0)
       <= Claims(s.log, a)
  }

  ghost predicate Logged(s: State) {
    (forall a :: LoggedFor(s, a)) && ClaimsGood(s.log)
  }

  /** Who has been or is about to be admitted has a claim. */
  ghost predicate Traced(s: State) {
    && AllClaimed(s.log)
    && (s.content.CClaimed? && s.content.admitted ==> JustClaimed(s.log, s.content.account, s.content.key))
  }

  ghost predicate Inv(s: State) {
    Disjoint(s) && Exclusive(s) && ContentOk(s) && WorkersOk(s) && Logged(s) && Traced(s)
  }

  lemma Appended(log: seq<Event>, e: Event)
    ensures (log + [e])[..|log + [e]| - 1] == log
  {
  }

  lemma ClaimsAppend(log: seq<Event>, e: Event)
    requires ClaimsGood(log) && (e.Claimed? ==> Good(log, e.account) == Some(e.key))
    ensures ClaimsGood(log + [e])
  {
    forall k | 0 <= k < |log + [e]| && (log + [e])[k].Claimed?
      ensures Good((log + [e])[..k], (log + [e])[k].account) == Some((log + [e])[k].key)
    {
      assert (log + [e])[..k] == if k < |log| then log[..k] else log;
    }
  }

  lemma ClaimedAppend(log: seq<Event>, e: Event)
    requires AllClaimed(log) && (e.Admitted? ==> JustClaimed(log, e.account, e.key))
    ensures AllClaimed(log + [e])
  {
    var after := log + [e];
    forall k: nat | k < |after| && after[k].Admitted? ensures exists j: nat :: ComesFrom(after, k, j) {
      if k < |log| {
        var j: nat :| ComesFrom(log, k, j);
        assert ComesFrom(after, k, j);
      } else {
        var j :| 0 <= j < |log| && log[j] == Claimed(e.account, e.key)
                 && forall m :: j < m < |log| ==> !log[m].Claimed? && !log[m].Admitted?;
        assert ComesFrom(after, k, j);
      }
    }
  }

  lemma JustClaimedAppend(log: seq<Event>, e: Event, account: Account, key: Key)
    requires JustClaimed(log, account, key) && !e.Claimed? && !e.Admitted?
    ensures JustClaimed(log + [e], account, key)
  {
    var j :| 0 <= j < |log| && log[j] == Claimed(account, key)
             && forall m :: j < m < |log| ==> !log[m].Claimed? && !log[m].Admitted?;
    assert (log + [e])[j] == log[j];
  }

  /** A ticket event that is neither a claim nor an admission leaves every claim what it was. */
  lemma TracedAppend(s: State, s': State, e: Event)
    requires Traced(s) && s'.log == s.log + [e] && s'.content == s.content && !e.Claimed? && !e.Admitted?
    ensures Traced(s')
  {
    ClaimedAppend(s.log, e);
    if s.content.CClaimed? && s.content.admitted {
      JustClaimedAppend(s.log, e, s.content.account, s.content.key);
    }
  }

  lemma IssueLogged(s: State, w: nat, reply: Reply)
    requires Inv(s) && w < |s.workers| && s.workers[w].WIssue?
    ensures Logged(StepIssue(s, w, reply)) && Traced(StepIssue(s, w, reply))
  {
    var e, s' := Issued(s.workers[w].account, s.workers[w].key), StepIssue(s, w, reply);
    if s'.log != s.log {
      Appended(s.log, e);
      ClaimsAppend(s.log, e);
      TracedAppend(s, s', e);
    }
    forall a ensures LoggedFor(s', a) {
      assert LoggedFor(s, a);
    }
  }

  lemma IssueKeeps(s: State, w: nat, reply: Reply)
    requires Inv(s) && w < |s.workers| && s.workers[w].WIssue?
    ensures Inv(StepIssue(s, w, reply))
  {
    var job, s' := s.workers[w], StepIssue(s, w, reply);
    IssueLogged(s, w, reply);
    if s'.log != s.log {
      var k :| 0 <= k < |job.snapshot| && job.snapshot[k] == CHAT;
      assert (job.snapshot[k], job.account) !in s.sessions;
    }
  }

  lemma ExpireKeeps(s: State, account: Account)
    requires Inv(s)
    ensures Inv(Step(s, Expire(account)))
  {
    var s' := Step(s, Expire(account));
    if s'.log != s.log {
      Appended(s.log, Expired(account));
      ClaimsAppend(s.log, Expired(account));
      TracedAppend(s, s', Expired(account));
    }
    forall a ensures LoggedFor(s', a) {
      assert LoggedFor(s, a);
    }
  }

  lemma ClaimLogged(s: State, reply: Reply)
    requires Logged(s) && Traced(s) && s.content.CClaim?
    ensures Logged(StepClaim(s, reply)) && Traced(StepClaim(s, reply))
  {
    var c, s' := s.content, StepClaim(s, reply);
    if s'.log != s.log {
      var e := Claimed(c.account, c.key);
      assert LoggedFor(s, c.account);
      Appended(s.log, e);
      ClaimsAppend(s.log, e);
      ClaimedAppend(s.log, e);
      assert s'.log[|s.log|] == e;
    }
    forall a ensures LoggedFor(s', a) {
      assert LoggedFor(s, a);
    }
  }

  lemma ClaimKeeps(s: State, reply: Reply)
    requires Inv(s) && s.content.CClaim?
    ensures Inv(StepClaim(s, reply))
  {
    ClaimLogged(s, reply);
  }

  lemma FinishLogged(s: State)
    requires Logged(s) && Traced(s) && s.content.CClaimed?
    ensures Logged(StepFinish(s)) && Traced(StepFinish(s))
  {
    var c, s' := s.content, StepFinish(s);
    if s'.log != s.log {
      Appended(s.log, Admitted(c.account, c.key));
      ClaimsAppend(s.log, Admitted(c.account, c.key));
      ClaimedAppend(s.log, Admitted(c.account, c.key));
    }
    forall a ensures LoggedFor(s', a) {
      assert LoggedFor(s, a);
    }
  }

  lemma FinishKeeps(s: State)
    requires Inv(s) && s.content.CClaimed?
    ensures Inv(StepFinish(s))
  {
    FinishLogged(s);
  }

  /** Steps that log nothing. */
  lemma StaysLogged(s: State, s': State)
    requires Logged(s) && Traced(s) && s'.log == s.log && s'.tickets == s.tickets
    requires s'.content == s.content || !s'.content.CClaimed?
    ensures Logged(s') && Traced(s')
  {
    forall a ensures LoggedFor(s', a) {
      assert LoggedFor(s, a);
    }
  }

  lemma JobKeeps(s: State, job: Job)
    requires Inv(s) && s.content.CIdle?
    ensures Inv(StepJob(s, job))
  {
    StaysLogged(s, StepJob(s, job));
    match job
    case ClientJoin(_) => return;
    case ClientLeave(_) => return;
    case ReqLogin(_, _, _) => return;
    case KickAccount(_) => return;
    case OtherJob => return;
  }

  lemma ContentKeeps(s: State, l: Label)
    requires Inv(s) && (l.StartChat? || l.ListKeys? || l.ClearOne? || l.ForgetSession? || l.EndChat?)
    ensures Inv(Step(s, l))
  {
    StaysLogged(s, Step(s, l));
    match l
    case StartChat => return;
    case ListKeys(_, _) => return;
    case ClearOne(_) => return;
    case ForgetSession(_) => return;
    case EndChat => return;
  }

  lemma EnvironmentKeeps(s: State, l: Label)
    requires Inv(s) && (l.StartLogin? || l.QueryAccount? || l.Register? || l.OtherSession?)
    ensures Inv(Step(s, l))
  {
    StaysLogged(s, Step(s, l));
    match l
    case StartLogin(_, _, _) => return;
    case QueryAccount(_, _) => return;
    case Register(_) => return;
    case OtherSession(_, _, _) => return;
  }

  lemma StepKeeps(s: State, l: Label)
    requires Inv(s)
    ensures Inv(Step(s, l))
  {
    match l
    case IssueTicket(w, reply) => if w < |s.workers| && s.workers[w].WIssue? { IssueKeeps(s, w, reply); }
    case Expire(account) => ExpireKeeps(s, account);
    case TakeJob(job) => if s.content.CIdle? { JobKeeps(s, job); }
    case ClaimSession(reply) => if s.content.CClaim? { ClaimKeeps(s, reply); }
    case FinishClaim => if s.content.CClaimed? { FinishKeeps(s); }
    case StartLogin(_, _, _) => EnvironmentKeeps(s, l);
    case QueryAccount(_, _) => EnvironmentKeeps(s, l);
    case Register(_) => EnvironmentKeeps(s, l);
    case OtherSession(_, _, _) => EnvironmentKeeps(s, l);
    case _ => ContentKeeps(s, l);
  }

  lemma {:induction false} Reachable(workers: nat, run: seq<Label>)
    ensures Inv(Exec(Init(workers), run))
  {
    if run != [] {
      Reachable(workers, run[..|run| - 1]);
      StepKeeps(Exec(Init(workers), run[..|run| - 1]), run[|run| - 1]);
    }
  }

  // ---------------------------------------------------------------- for every run

  /** Login exclusivity: at most one player is logged in per account, its session key is in the store even if replies
      are lost, and a ticket and a session key of one account never coexist. */
  lemma LoginExclusive(workers: nat, run: seq<Label>, account: Account, i: SessionId, j: SessionId)
    ensures var s := Exec(Init(workers), run);
      && (LoggedIn(s, i, account) && LoggedIn(s, j, account) ==> i == j)
      && (LoggedIn(s, i, account) ==> (CHAT, account) in s.sessions)
      && !(account in s.tickets && (CHAT, account) in s.sessions)
  {
    Reachable(workers, run);
  }

  /** Ticket single use: per account, admissions and the ticket still there never exceed the issues, and a ticket is in
      the store exactly while the latest issue has neither expired nor been claimed. */
  lemma TicketSingleUse(workers: nat, run: seq<Label>, account: Account)
    ensures var s := Exec(Init(workers), run);
      && Admissions(s.log, account) + (if account in s.tickets then 1 else 0) <= Issues(s.log, account)
      && Good(s.log, account) == (if account in s.tickets then Some(s.tickets[account]) else None)
  {
    Reachable(workers, run);
    assert LoggedFor(Exec(Init(workers), run), account);
  }

  /** Every admission presented exactly the key of the latest issue that had neither expired nor been consumed: it comes
      from a claim with that key, which found that ticket good, and which no other admission comes from. */
  lemma AdmissionsPresentTheTicket(workers: nat, run: seq<Label>, k: nat)
    ensures var log := Exec(Init(workers), run).log;
      k < |log| && log[k].Admitted? ==>
        exists j: nat :: ComesFrom(log, k, j) && Good(log[..j], log[k].account) == Some(log[k].key)
                         && forall i: nat :: ComesFrom(log, i, j) ==> i == k
  {
    Reachable(workers, run);
    var log := Exec(Init(workers), run).log;
    if k < |log| && log[k].Admitted? {
      var j: nat :| ComesFrom(log, k, j);
      assert Good(log[..j], log[j].account) == Some(log[j].key);
      forall i: nat | ComesFrom(log, i, j) ensures i == k {
        OwnClaim(log, i, k, j);
      }
    }
  }

  lemma OwnClaim(log: seq<Event>, i: nat, k: nat, j: nat)
    requires ComesFrom(log, i, j) && ComesFrom(log, k, j)
    ensures i == k
  {
    assert !(j < i < k) && !(j < k < i);
  }

  /** A ticket disappears only by expiring or by a claim that presents it - never by a leave, a lost reply or a
      restart - and is replaced only by a newer issue. */
  lemma TicketsOnlyClaimedOrExpired(s: State, l: Label, account: Account)
    requires account in s.tickets
    ensures
      || (account in Step(s, l).tickets && Step(s, l).tickets[account] == s.tickets[account])
      || l == Expire(account)
      || (l.ClaimSession? && s.content.CClaim? && s.content.account == account && s.content.key == s.tickets[account])
      || (l.IssueTicket? && l.w < |s.workers| && s.workers[l.w].WIssue? && s.workers[l.w].account == account
          && account in Step(s, l).tickets && Step(s, l).tickets[account] == s.workers[l.w].key)
  {
    match l
    case TakeJob(job) => if s.content.CIdle? { return; }
    case _ => return;
  }

  /** handle_kick_account: the first logged-in player of the account, in whatever order the map is walked, or none
      exactly if nobody is. */
  method FindToKick(s: State, order: seq<SessionId>, account: Account) returns (kicked: Option<SessionId>)
    requires forall id :: id in order <==> id in s.players
    ensures kicked.Some? ==> LoggedIn(s, kicked.value, account)
    ensures kicked.None? <==> NobodyLoggedIn(s, account)
  {
    for k := 0 to |order|
      invariant forall i :: 0 <= i < k ==> !LoggedIn(s, order[i], account)
    {
      assert order[k] in s.players;
      if !s.players[order[k]].loggedIn || s.players[order[k]].account != account {
        continue;
      }
      return Some(order[k]);
    }
    kicked := None;
  }

  /** Stopping at the first match misses nobody. */
  lemma KickIsComplete(workers: nat, run: seq<Label>, account: Account, kicked: SessionId, other: SessionId)
    requires LoggedIn(Exec(Init(workers), run), kicked, account)
    ensures LoggedIn(Exec(Init(workers), run), other, account) ==> other == kicked
  {
    Reachable(workers, run);
  }
}

/** The credential calls await by await: refreshes, logins and revocations read the clock, ask the stores and sign at
    instants of their own, and any number of them interleave with each other and with every other call. */
module CredentialRuns {
  import opened Wrappers
  import opened Credentials

  /** The stores and the clock, with three histories: the ids used so far, those that a rotation or
      revocation spent, and the pair that each refresh token descends from. */
  datatype World = World(
    now: Micros, signed: set<Claims>, deadlines: Deadlines, users: map<UserId, User>,
    minted: set<Jti>, spent: set<Jti>, root: map<Jti, Jti>)

  const EMPTY := World(0, {}, map[], map[], {}, {}, map[])

  type CallId = nat

  /** What a refresh asked the denylist about: at `at`, when the log was `since` long, the token was not listed. */
  datatype Check = Check(token: Claims, since: nat, at: Micros)

  /** The next thing that an open call does. A refresh is Verified, Unlisted, Allowed, Rotating and Answering in turn, a
      revocation Revoking and Listing, an authenticated request Resolving; `activeAt` is when the user was looked up,
      `ttlAt` when the TTL was computed. */
  datatype Call =
    | Verified(token: Claims)
    | Unlisted(check: Check)
    | Allowed(check: Check, activeAt: Micros)
    | Rotating(check: Check, activeAt: Micros, ttlAt: Micros)
    | Answering(check: Check, activeAt: Micros)
    | Revoking(token: Claims)
    | Listing(token: Claims, ttlAt: Micros)
    | LoggingIn(id: UserId, role: Role, activeAt: Micros)
    | Resolving(token: Claims)

  datatype Cause = ByRole(role: Role) | ByLogin(id: UserId) | ByRefresh(check: Check)

  /** A pair was signed, and why; a revocation of a token took effect; or a token resolved to its principal. */
  datatype Event =
    | Signed(cause: Cause, activeAt: Micros, pair: TokenPair)
    | Revoked(token: Claims)
    | Resolved(check: Check, principal: Principal)
  {
    /** The event is the exchange of this token for a new pair. */
    predicate Exchanges(t: Claims) {
      Signed? && cause.ByRefresh? && cause.check.token == t
    }
  }

  datatype Auth = Auth(w: World, calls: map<CallId, Call>, log: seq<Event>)

  const INITIAL := Auth(EMPTY, map[], [])

  datatype Step =
    | Tick(d: nat)
    | Issue(role: Role, a: Jti, r: Jti)
    | Register(id: UserId, role: Role)
    | Deactivate(id: UserId)
    | LookUp(call: CallId, id: UserId, reply: Reply)
    | SignIn(call: CallId, passwordOk: bool, a: Jti, r: Jti)
    | Verify(call: CallId, token: Claims)
    | AskDenylist(call: CallId, reply: Reply)
    | AskActive(call: CallId, reply: Reply)
    | VerifyRevoked(call: CallId, token: Claims)
    | VerifyAccess(call: CallId, token: Claims)
    | ReadTtl(call: CallId)
    | Write(call: CallId, reply: Reply)
    | Answer(call: CallId, a: Jti, r: Jti)
    | Crash(call: CallId)

  /** Two ids that no signed token carries (uuid4). */
  predicate FreshIds(w: World, a: Jti, r: Jti) {
    a != r && a !in w.minted && r !in w.minted
  }

  function Sign(w: World, pair: Option<TokenPair>, root: Jti): World {
    match pair
    case None => w
    case Some(p) => w.(signed := w.signed + {p.access, p.refresh}, minted := w.minted + {p.access.jti, p.refresh.jti},
                       root := w.root[p.refresh.jti := root])
  }

  /** The denylist write of a rotation or revocation, computed at `ttlAt` and made at `issue`. */
  function Spend(w: World, token: Claims, ttlAt: Micros, issue: Micros): World {
    w.(now := issue, spent := w.spent + {token.jti},
       deadlines := Deny(w.deadlines, token.jti, RemainingTtl(token, ttlAt), issue))
  }

  function RootOf(w: World, token: Claims): Jti {
    if token.jti in w.root then w.root[token.jti] else token.jti
  }

  /** A refresh from its denylist write on. */
  function Rotated(
      cfg: Config, w: World, token: Claims, ttlAt: Micros, issue: Micros, a: Jti, r: Jti, reply: Reply): World {
    var written := RemainingTtl(token, ttlAt) > 0;
    if written && reply == Refused then w.(now := issue)
    else if written && reply == Lost then Spend(w, token, ttlAt, issue)
    else Sign(Spend(w, token, ttlAt, issue), IssuePair(cfg, token.role, issue, token.subject, a, r), RootOf(w, token))
  }

  function Refresh(
      cfg: Config, w: World, token: Claims, ttlAt: Micros, issue: Micros, a: Jti, r: Jti, reply: Reply): World {
    if !FreshIds(w, a, r) || !CanRefresh(cfg, w.signed, w.deadlines, w.users, token, w.now) then w
    else Rotated(cfg, w, token, ttlAt, issue, a, r, reply)
  }

  function Revoke(cfg: Config, w: World, token: Claims, ttlAt: Micros, issue: Micros, reply: Reply): World {
    if !Verifies(cfg, w.signed, token, None, w.now) then w
    else if RemainingTtl(token, ttlAt) > 0 && reply == Refused then w.(now := issue)
    else Spend(w, token, ttlAt, issue)
  }

  function Put(s: Auth, call: CallId, x: Call): Auth {
    s.(calls := s.calls[call := x])
  }

  /** The call is over. */
  function Drop(s: Auth, call: CallId): Auth {
    s.(calls := s.calls - {call})
  }

  function Pair(cfg: Config, role: Role, subject: Option<UserId>, now: Micros, a: Jti, r: Jti): TokenPair {
    TokenPair(Mint(cfg, role, ACCESS, now, subject, a), Mint(cfg, role, REFRESH, now, subject, r), cfg.accessTtl)
  }

  /** issue_pair, which reads the clock. */
  function SignPair(s: Auth, cause: Cause, activeAt: Micros, pair: TokenPair, root: Jti): Auth {
    s.(w := Sign(s.w, Some(pair), root), log := s.log + [Signed(cause, activeAt, pair)])
  }

  // Each of these is no step unless the call is where it starts from.

  function IssueOne(cfg: Config, s: Auth, role: Role, a: Jti, r: Jti): Auth {
    if !cfg.enabled || !FreshIds(s.w, a, r) then s
    else SignPair(s, ByRole(role), s.w.now, Pair(cfg, role, None, s.w.now, a, r), r)
  }

  /** find_credentials_by_email, which finds active users only. */
  function LookUpOne(s: Auth, call: CallId, id: UserId, reply: Reply): Auth {
    if call in s.calls || reply.Raised() || !Active(s.w.users, id) then s
    else Put(s, call, LoggingIn(id, s.w.users[id].role, s.w.now))
  }

  /** The password is verified and the pair signed. */
  function SignInOne(cfg: Config, s: Auth, call: CallId, passwordOk: bool, a: Jti, r: Jti): Auth {
    if call !in s.calls || !s.calls[call].LoggingIn? || !FreshIds(s.w, a, r) then s
    else if !passwordOk || !cfg.enabled then Drop(s, call)
    else
      var x := s.calls[call];
      SignPair(Drop(s, call), ByLogin(x.id), x.activeAt, Pair(cfg, x.role, Some(x.id), s.w.now, a, r), r)
  }

  function VerifyOne(cfg: Config, s: Auth, call: CallId, token: Claims): Auth {
    if call in s.calls || !Verifies(cfg, s.w.signed, token, Some(REFRESH), s.w.now) then s
    else Put(s, call, Verified(token))
  }

  function AskDenylistOne(s: Auth, call: CallId, reply: Reply): Auth {
    if call !in s.calls || !(s.calls[call].Verified? || s.calls[call].Resolving?) then s
    else
      var check := Check(s.calls[call].token, |s.log|, s.w.now);
      if reply.Raised() || Denied(s.w.deadlines, check.token.jti, s.w.now) then Drop(s, call)
      else if s.calls[call].Verified? then Put(s, call, Unlisted(check))
      else Log(Drop(s, call), Resolved(check, PrincipalOf(check.token)))
  }

  function Log(s: Auth, e: Event): Auth {
    s.(log := s.log + [e])
  }

  function VerifyAccessOne(cfg: Config, s: Auth, call: CallId, token: Claims): Auth {
    if call in s.calls || !Verifies(cfg, s.w.signed, token, Some(ACCESS), s.w.now) then s
    else Put(s, call, Resolving(token))
  }

  /** A token of no user is not looked up. */
  function AskActiveOne(s: Auth, call: CallId, reply: Reply): Auth {
    if call !in s.calls || !s.calls[call].Unlisted? then s
    else
      var check := s.calls[call].check;
      var user := check.token.subject;
      if user.Some? && (reply.Raised() || !Active(s.w.users, user.value)) then Drop(s, call)
      else Put(s, call, Allowed(check, s.w.now))
  }

  function VerifyRevokedOne(cfg: Config, s: Auth, call: CallId, token: Claims): Auth {
    if call in s.calls || !Verifies(cfg, s.w.signed, token, None, s.w.now) then s else Put(s, call, Revoking(token))
  }

  function ReadTtlOne(s: Auth, call: CallId): Auth {
    if call !in s.calls then s
    else if s.calls[call].Allowed? then
      Put(s, call, Rotating(s.calls[call].check, s.calls[call].activeAt, s.w.now))
    else if s.calls[call].Revoking? then Put(s, call, Listing(s.calls[call].token, s.w.now))
    else s
  }

  /** The denylist entry is written, or a TTL that is not positive needs none. */
  predicate Lists(token: Claims, ttlAt: Micros, reply: Reply) {
    RemainingTtl(token, ttlAt) <= 0 || reply.TookEffect()
  }

  /** The write raises: there was one, and its reply did not come. */
  predicate Fails(token: Claims, ttlAt: Micros, reply: Reply) {
    RemainingTtl(token, ttlAt) > 0 && reply.Raised()
  }

  function Spent(s: Auth, token: Claims, ttlAt: Micros, reply: Reply): Auth {
    if Lists(token, ttlAt, reply) then s.(w := Spend(s.w, token, ttlAt, s.w.now)) else s
  }

  function RotateOne(s: Auth, call: CallId, reply: Reply): Auth
    requires call in s.calls && s.calls[call].Rotating?
  {
    var x := s.calls[call];
    var s' := Spent(s, x.check.token, x.ttlAt, reply);
    if Fails(x.check.token, x.ttlAt, reply) then Drop(s', call) else Put(s', call, Answering(x.check, x.activeAt))
  }

  function ListOne(s: Auth, call: CallId, reply: Reply): Auth
    requires call in s.calls && s.calls[call].Listing?
  {
    var x := s.calls[call];
    var s' := Drop(Spent(s, x.token, x.ttlAt, reply), call);
    if Lists(x.token, x.ttlAt, reply) then Log(s', Revoked(x.token)) else s'
  }

  function WriteOne(s: Auth, call: CallId, reply: Reply): Auth {
    if call in s.calls && s.calls[call].Rotating? then RotateOne(s, call, reply)
    else if call in s.calls && s.calls[call].Listing? then ListOne(s, call, reply)
    else s
  }

  function AnswerOne(cfg: Config, s: Auth, call: CallId, a: Jti, r: Jti): Auth {
    if call !in s.calls || !s.calls[call].Answering? || !FreshIds(s.w, a, r) then s
    else
      var x := s.calls[call];
      var t := x.check.token;
      SignPair(Drop(s, call), ByRefresh(x.check), x.activeAt, Pair(cfg, t.role, t.subject, s.w.now, a, r),
               RootOf(s.w, t))
  }

  function Next(cfg: Config, s: Auth, step: Step): Auth {
    match step
    case Tick(d) => s.(w := s.w.(now := s.w.now + d))
    case Issue(role, a, r) => IssueOne(cfg, s, role, a, r)
    case Register(id, role) => s.(w := s.w.(users := Registered(s.w.users, id, role)))
    case Deactivate(id) => s.(w := s.w.(users := Deactivated(s.w.users, id, s.w.now)))
    case LookUp(call, id, reply) => LookUpOne(s, call, id, reply)
    case SignIn(call, passwordOk, a, r) => SignInOne(cfg, s, call, passwordOk, a, r)
    case Verify(call, token) => VerifyOne(cfg, s, call, token)
    case AskDenylist(call, reply) => AskDenylistOne(s, call, reply)
    case AskActive(call, reply) => AskActiveOne(s, call, reply)
    case VerifyRevoked(call, token) => VerifyRevokedOne(cfg, s, call, token)
    case VerifyAccess(call, token) => VerifyAccessOne(cfg, s, call, token)
    case ReadTtl(call) => ReadTtlOne(s, call)
    case Write(call, reply) => WriteOne(s, call, reply)
    case Answer(call, a, r) => AnswerOne(cfg, s, call, a, r)
    case Crash(call) => Drop(s, call)
  }

  function Run(cfg: Config, steps: seq<Step>): Auth {
    if steps == [] then INITIAL else Next(cfg, Run(cfg, steps[..|steps| - 1]), steps[|steps| - 1])
  }

  // ---- what a log says ----

  /** No refresh token is ever exchanged for two pairs. */
  predicate OnePairEach(log: seq<Event>) {
    forall i, j | 0 <= i < j < |log| && log[j].Signed? && log[j].cause.ByRefresh? ::
      !log[i].Exchanges(log[j].cause.check.token)
  }

  /** From where on in the log a refresh can miss what became of its token: from its denylist check on; from the start,
      if it asked after the token had expired, when the denylist need not remember it any more. */
  function From(check: Check): nat {
    if Expired(check.token, check.at) then 0 else check.since
  }

  /** A refresh that misses no exchange of its token. */
  predicate Alone(log: seq<Event>, check: Check, to: nat)
    requires to <= |log|
  {
    forall m | From(check) <= m < to :: !log[m].Exchanges(check.token)
  }

  /** No refresh of a token answers between the denylist check and the answer of another, or before a check made after
      the token had expired. */
  predicate Undisturbed(log: seq<Event>) {
    forall i | 0 <= i < |log| && log[i].Signed? && log[i].cause.ByRefresh? :: Alone(log, log[i].cause.check, i)
  }

  predicate IsExchanged(log: seq<Event>, t: Claims) {
    exists i :: 0 <= i < |log| && log[i].Exchanges(t)
  }

  predicate SameChain(w: World, c: Claims, d: Claims) {
    c.jti in w.root && d.jti in w.root && w.root[c.jti] == w.root[d.jti]
  }

  /** Of the refresh tokens that descend from one pair, at most one is not exchanged yet. */
  predicate OneLeafPerChain(w: World, log: seq<Event>) {
    forall c, d | c in w.signed && d in w.signed && c.tokenType == REFRESH && d.tokenType == REFRESH
                  && SameChain(w, c, d) && c != d :: IsExchanged(log, c) || IsExchanged(log, d)
  }

  /** The user of a token, if any, was deactivated at an instant of this interval. */
  predicate DeactivatedIn(w: World, c: Claims, from: Micros, to: Micros) {
    && c.subject.Some? && c.subject.value in w.users && w.users[c.subject.value].deletedAt.Some?
    && from <= w.users[c.subject.value].deletedAt.value < to
  }

  /** A refresh or a login that found its user active, and signed the pair after that user's deactivation. */
  predicate Straddles(w: World, e: Event) {
    e.Signed? && DeactivatedIn(w, e.pair.refresh, e.activeAt, e.pair.refresh.iat)
  }

  // ---- invariant ----

  predicate UniqueIds(w: World) {
    forall c, d | c in w.signed && d in w.signed && c.jti == d.jti :: c == d
  }

  predicate Dated(cfg: Config, w: World) {
    forall c | c in w.signed :: c.iat <= w.now && c.exp == c.iat / SECOND + Ttl(cfg, c.tokenType)
  }

  /** A spent token stays on the denylist until it expires. */
  predicate SpentIsDenied(w: World) {
    forall c | c in w.signed && c.jti in w.spent ::
      Expired(c, w.now) || (c.jti in w.deadlines && c.exp * SECOND <= w.deadlines[c.jti])
  }

  /** What a spent token cannot do any more: verify while off the denylist. */
  lemma SpentIsUseless(w: World, c: Claims)
    requires SpentIsDenied(w) && c in w.signed && c.jti in w.spent
    ensures Expired(c, w.now) || Denied(w.deadlines, c.jti, w.now)
  {
  }

  /** Tokens have their own ids and dates, and the spent ones are denied until they expire. */
  predicate StoresInv(cfg: Config, w: World) {
    && UniqueIds(w) && Dated(cfg, w) && SpentIsDenied(w)
    && w.spent <= w.minted && (forall c | c in w.signed :: c.jti in w.minted)
    && (forall j | j in w.root :: j in w.minted && w.root[j] in w.minted)
    && (forall c | c in w.signed && c.tokenType == REFRESH :: c.jti in w.root)
    && (w.signed != {} ==> cfg.enabled)
  }

  /** The role is the one that the user table has for the user. */
  predicate RoleOk(w: World, user: Option<UserId>, role: Role) {
    user.Some? ==> user.value in w.users && w.users[user.value].role == role
  }

  predicate UsersInv(w: World) {
    && (forall c | c in w.signed :: RoleOk(w, c.subject, c.role))
    && (forall u | u in w.users && w.users[u].deletedAt.Some? :: w.users[u].deletedAt.value <= w.now)
  }

  /** Neither an exchange nor a revocation of the token is in the log up to here. */
  predicate Clear(log: seq<Event>, token: Claims, to: nat)
    requires to <= |log|
  {
    forall m | 0 <= m < to :: !log[m].Exchanges(token) && log[m] != Revoked(token)
  }

  /** The denylist answered rightly for a token that had not expired. */
  predicate CheckOk(w: World, log: seq<Event>, check: Check) {
    && check.token in w.signed && check.since <= |log| && check.at <= w.now
    && (Expired(check.token, check.at) || Clear(log, check.token, check.since))
  }

  predicate RefreshOk(w: World, log: seq<Event>, check: Check) {
    CheckOk(w, log, check) && check.token.tokenType == REFRESH
  }

  /** The user had not been deactivated when looked up. */
  predicate WasActive(w: World, user: Option<UserId>, activeAt: Micros) {
    && activeAt <= w.now
    && (user.Some? ==>
          && user.value in w.users
          && (w.users[user.value].deletedAt.Some? ==> activeAt <= w.users[user.value].deletedAt.value))
  }

  predicate CallOk(w: World, log: seq<Event>, x: Call) {
    match x
    case Verified(token) => token in w.signed && token.tokenType == REFRESH
    case Unlisted(check) => RefreshOk(w, log, check)
    case Allowed(check, activeAt) => RefreshOk(w, log, check) && WasActive(w, check.token.subject, activeAt)
    case Rotating(check, activeAt, ttlAt) =>
      RefreshOk(w, log, check) && WasActive(w, check.token.subject, activeAt) && ttlAt <= w.now
    case Answering(check, activeAt) =>
      RefreshOk(w, log, check) && WasActive(w, check.token.subject, activeAt) && check.token.jti in w.spent
    case Revoking(token) => token in w.signed
    case Listing(token, ttlAt) => token in w.signed && ttlAt <= w.now
    case LoggingIn(id, role, activeAt) => WasActive(w, Some(id), activeAt) && RoleOk(w, Some(id), role)
    case Resolving(token) => token in w.signed && token.tokenType == ACCESS
  }

  predicate CallsInv(s: Auth) {
    forall c | c in s.calls :: CallOk(s.w, s.log, s.calls[c])
  }

  /** The two tokens of a pair, one of each type, agree on whose they are. */
  predicate SamePair(pair: TokenPair) {
    && pair.access.tokenType == ACCESS && pair.refresh.tokenType == REFRESH
    && pair.access.subject == pair.refresh.subject && pair.access.role == pair.refresh.role
    && pair.access.iat == pair.refresh.iat
  }

  /** A pair is for the role that was asked for, for the user who logged in, or as the exchanged token was. */
  predicate CauseOk(cause: Cause, pair: TokenPair) {
    match cause
    case ByRole(role) => pair.refresh.subject == None && pair.refresh.role == role
    case ByLogin(id) => pair.refresh.subject == Some(id)
    case ByRefresh(check) => pair.refresh.subject == check.token.subject && pair.refresh.role == check.token.role
  }

  predicate EventOk(w: World, log: seq<Event>, i: nat)
    requires i < |log|
  {
    match log[i]
    case Revoked(token) => token in w.signed && token.jti in w.spent
    case Resolved(check, principal) =>
      && CheckOk(w, log, check) && check.since == i
      && check.token.tokenType == ACCESS && principal == PrincipalOf(check.token)
    case Signed(cause, activeAt, pair) =>
      && SamePair(pair) && CauseOk(cause, pair)
      && pair.refresh in w.signed && pair.access in w.signed && WasActive(w, pair.refresh.subject, activeAt)
      && (cause.ByRefresh? ==>
            RefreshOk(w, log, cause.check) && cause.check.since <= i && cause.check.token.jti in w.spent)
  }

  predicate EventsInv(s: Auth) {
    forall i | 0 <= i < |s.log| :: EventOk(s.w, s.log, i)
  }

  predicate Signs(e: Event, c: Claims) {
    e.Signed? && (c == e.pair.access || c == e.pair.refresh)
  }

  /** Every token was signed for a reason that the log knows. */
  predicate AllLogged(w: World, log: seq<Event>) {
    forall c {:trigger IsLogged(log, c)} | c in w.signed :: IsLogged(log, c)
  }

  predicate IsLogged(log: seq<Event>, c: Claims) {
    exists i :: 0 <= i < |log| && Signs(log[i], c)
  }

  /** Some refresh token of the chain of `c` is still to be exchanged. */
  predicate HasLeaf(w: World, log: seq<Event>, c: Claims) {
    exists d :: d in w.signed && d.tokenType == REFRESH && SameChain(w, c, d) && !IsExchanged(log, d)
  }

  predicate LeafPerChain(w: World, log: seq<Event>) {
    forall c {:trigger HasLeaf(w, log, c)} | c in w.signed && c.tokenType == REFRESH :: HasLeaf(w, log, c)
  }

  /** Chains branch exactly when a token is exchanged twice. */
  predicate ChainsInv(w: World, log: seq<Event>) {
    LeafPerChain(w, log) && (OnePairEach(log) <==> OneLeafPerChain(w, log))
  }

  predicate Inv(cfg: Config, s: Auth) {
    && StoresInv(cfg, s.w) && UsersInv(s.w) && CallsInv(s) && EventsInv(s) && AllLogged(s.w, s.log)
    && ChainsInv(s.w, s.log)
  }

  // ---- what stays true of open calls and of the log ----

  /** Time passes, tokens and spent ids are added, users registered or deactivated at this instant or later. */
  predicate Evolves(w: World, w': World) {
    && w.now <= w'.now && w.signed <= w'.signed && w.spent <= w'.spent
    && (forall u | u in w.users :: u in w'.users && w'.users[u].role == w.users[u].role)
    && (forall u | u in w.users && w.users[u].deletedAt.Some? :: w'.users[u] == w.users[u])
    && (forall u | u in w.users && w.users[u].deletedAt.None? && w'.users[u].deletedAt.Some? ::
          w.now <= w'.users[u].deletedAt.value)
  }

  lemma CheckStays(w: World, w': World, log: seq<Event>, log': seq<Event>, check: Check)
    requires Evolves(w, w') && log <= log' && CheckOk(w, log, check)
    ensures CheckOk(w', log', check)
  {
  }

  lemma CallStays(w: World, w': World, log: seq<Event>, log': seq<Event>, x: Call)
    requires Evolves(w, w') && log <= log' && CallOk(w, log, x)
    ensures CallOk(w', log', x)
  {
    if x.Unlisted? || x.Allowed? || x.Rotating? || x.Answering? {
      CheckStays(w, w', log, log', x.check);
    }
  }

  lemma EventStays(w: World, w': World, log: seq<Event>, log': seq<Event>, i: nat)
    requires Evolves(w, w') && log <= log' && i < |log| && EventOk(w, log, i)
    ensures EventOk(w', log', i)
  {
    assert log'[i] == log[i];
    if log[i].Signed? && log[i].cause.ByRefresh? {
      CheckStays(w, w', log, log', log[i].cause.check);
    } else if log[i].Resolved? {
      CheckStays(w, w', log, log', log[i].check);
    }
  }

  lemma CallsStay(s: Auth, s': Auth)
    requires CallsInv(s) && Evolves(s.w, s'.w) && s.log <= s'.log
    requires forall c | c in s'.calls :: c in s.calls && s'.calls[c] == s.calls[c]
    ensures CallsInv(s')
  {
    forall c | c in s'.calls ensures CallOk(s'.w, s'.log, s'.calls[c]) {
      CallStays(s.w, s'.w, s.log, s'.log, s.calls[c]);
    }
  }

  lemma EventsStay(s: Auth, s': Auth)
    requires EventsInv(s) && Evolves(s.w, s'.w) && s.log <= s'.log
    ensures forall i | 0 <= i < |s.log| :: EventOk(s'.w, s'.log, i)
  {
    forall i | 0 <= i < |s.log| ensures EventOk(s'.w, s'.log, i) {
      EventStays(s.w, s'.w, s.log, s'.log, i);
    }
  }

  // ---- the parts of a step ----

  lemma PutKeepsInv(cfg: Config, s: Auth, call: CallId, x: Call)
    requires Inv(cfg, s) && CallOk(s.w, s.log, x)
    ensures Inv(cfg, Put(s, call, x))
  {
    EventsStay(s, Put(s, call, x));
  }

  lemma DropKeepsInv(cfg: Config, s: Auth, call: CallId)
    requires Inv(cfg, s)
    ensures Inv(cfg, Drop(s, call))
  {
    EventsStay(s, Drop(s, call));
  }

  /** Nothing is signed. */
  predicate SameTokens(w: World, w': World) {
    w'.signed == w.signed && w'.root == w.root
  }

  lemma WorldKeepsInv(cfg: Config, s: Auth, w': World)
    requires Inv(cfg, s) && SameTokens(s.w, w') && Evolves(s.w, w') && StoresInv(cfg, w') && UsersInv(w')
    ensures Inv(cfg, s.(w := w'))
  {
    var s' := s.(w := w');
    CallsStay(s, s');
    EventsStay(s, s');
    SameTokensSameChains(s.w, w', s.log);
  }

  lemma SameTokensSameChains(w: World, w': World, log: seq<Event>)
    requires SameTokens(w, w') && AllLogged(w, log) && ChainsInv(w, log)
    ensures AllLogged(w', log) && ChainsInv(w', log)
  {
    forall c | c in w'.signed && c.tokenType == REFRESH
      ensures HasLeaf(w', log, c)
    {
      assert HasLeaf(w, log, c);
      var d :| d in w.signed && d.tokenType == REFRESH && SameChain(w, c, d) && !IsExchanged(log, d);
      assert SameChain(w', c, d);
    }
    assert forall c, d :: SameChain(w, c, d) <==> SameChain(w', c, d);
  }

  lemma SpendKeepsStores(cfg: Config, w: World, token: Claims, ttlAt: Micros)
    requires StoresInv(cfg, w) && token in w.signed && ttlAt <= w.now
    ensures StoresInv(cfg, Spend(w, token, ttlAt, w.now))
  {
    RoundedTtlCoversToken(token, ttlAt, w.now);
  }

  lemma SpentKeepsInv(cfg: Config, s: Auth, token: Claims, ttlAt: Micros, reply: Reply)
    requires Inv(cfg, s) && token in s.w.signed && ttlAt <= s.w.now
    ensures Inv(cfg, Spent(s, token, ttlAt, reply))
  {
    if Lists(token, ttlAt, reply) {
      SpendKeepsStores(cfg, s.w, token, ttlAt);
      WorldKeepsInv(cfg, s, Spend(s.w, token, ttlAt, s.w.now));
    }
  }

  // ---- events ----

  lemma ExchangedAppend(log: seq<Event>, e: Event, t: Claims)
    ensures IsExchanged(log + [e], t) <==> IsExchanged(log, t) || e.Exchanges(t)
  {
    var log' := log + [e];
    if i :| 0 <= i < |log| && log[i].Exchanges(t) {
      assert log'[i].Exchanges(t);
    }
    if e.Exchanges(t) {
      assert log'[|log|].Exchanges(t);
    }
  }

  lemma OnePairAppend(log: seq<Event>, e: Event)
    ensures OnePairEach(log + [e])
            <==> OnePairEach(log) && (e.Signed? && e.cause.ByRefresh? ==> !IsExchanged(log, e.cause.check.token))
  {
    var log' := log + [e];
    assert log'[|log|] == e && forall i | 0 <= i < |log| :: log'[i] == log[i];
    if OnePairEach(log') {
      assert forall i, j | 0 <= i < j < |log| && log[j].Signed? && log[j].cause.ByRefresh? ::
          !log'[i].Exchanges(log'[j].cause.check.token);
    }
  }

  lemma LoggedAppend(w: World, log: seq<Event>, e: Event)
    requires AllLogged(w, log)
    ensures AllLogged(w, log + [e])
  {
    forall c | c in w.signed ensures IsLogged(log + [e], c) {
      assert IsLogged(log, c);
      var i :| 0 <= i < |log| && Signs(log[i], c);
      assert (log + [e])[i] == log[i];
    }
  }

  /** An event that exchanges nothing. */
  lemma OtherEventsKeepChains(w: World, log: seq<Event>, e: Event)
    requires LeafPerChain(w, log) && !(e.Signed? && e.cause.ByRefresh?)
    ensures LeafPerChain(w, log + [e]) && (OneLeafPerChain(w, log + [e]) <==> OneLeafPerChain(w, log))
  {
    forall t ensures IsExchanged(log + [e], t) <==> IsExchanged(log, t) {
      ExchangedAppend(log, e, t);
    }
    forall c | c in w.signed && c.tokenType == REFRESH ensures HasLeaf(w, log + [e], c) {
      assert HasLeaf(w, log, c);
    }
  }

  lemma LogKeepsInv(cfg: Config, s: Auth, e: Event)
    requires Inv(cfg, s) && !e.Signed? && EventOk(s.w, s.log + [e], |s.log|)
    ensures Inv(cfg, Log(s, e))
  {
    CallsStay(s, Log(s, e));
    EventsStay(s, Log(s, e));
    LoggedAppend(s.w, s.log, e);
    OnePairAppend(s.log, e);
    OtherEventsKeepChains(s.w, s.log, e);
  }

  // ---- signing ----

  /** The pair is new, and of one user or of none. */
  predicate IsNewPair(cfg: Config, w: World, pair: TokenPair) {
    && cfg.enabled && FreshIds(w, pair.access.jti, pair.refresh.jti)
    && pair == Pair(cfg, pair.refresh.role, pair.refresh.subject, w.now, pair.access.jti, pair.refresh.jti)
  }

  /** The root of a new pair: its own refresh token, or that of the token it is exchanged for. */
  predicate RootOk(w: World, log: seq<Event>, cause: Cause, pair: TokenPair, root: Jti) {
    if cause.ByRefresh? then
      && RefreshOk(w, log, cause.check) && cause.check.token.jti in w.spent
      && cause.check.token.jti in w.root && root == w.root[cause.check.token.jti]
    else root == pair.refresh.jti
  }

  lemma SignKeepsStores(cfg: Config, w: World, pair: TokenPair, root: Jti)
    requires StoresInv(cfg, w) && IsNewPair(cfg, w, pair) && (root == pair.refresh.jti || root in w.minted)
    ensures StoresInv(cfg, Sign(w, Some(pair), root))
  {
  }

  lemma SignKeepsLogged(w: World, log: seq<Event>, cause: Cause, activeAt: Micros, pair: TokenPair, root: Jti)
    requires AllLogged(w, log)
    ensures AllLogged(Sign(w, Some(pair), root), log + [Signed(cause, activeAt, pair)])
  {
    var e := Signed(cause, activeAt, pair);
    LoggedAppend(w, log, e);
    assert (log + [e])[|log|] == e && Signs(e, pair.access) && Signs(e, pair.refresh);
  }

  lemma NewChainHasLeaf(cfg: Config, w: World, log: seq<Event>, pair: TokenPair)
    requires StoresInv(cfg, w) && IsNewPair(cfg, w, pair) && LeafPerChain(w, log) && ExchangedAreMinted(w, log)
    ensures LeafPerChain(Sign(w, Some(pair), pair.refresh.jti), log)
  {
    var w' := Sign(w, Some(pair), pair.refresh.jti);
    OldChainsStay(w, pair, pair.refresh.jti);
    forall c | c in w'.signed && c.tokenType == REFRESH ensures HasLeaf(w', log, c) {
      if c == pair.refresh {
        assert SameChain(w', c, c) && !IsExchanged(log, c);
      } else {
        assert HasLeaf(w, log, c);
        var d :| d in w.signed && d.tokenType == REFRESH && SameChain(w, c, d) && !IsExchanged(log, d);
        assert SameChain(w', c, d);
      }
    }
  }

  lemma NewChainIsAlone(cfg: Config, w: World, log: seq<Event>, pair: TokenPair)
    requires StoresInv(cfg, w) && IsNewPair(cfg, w, pair)
    ensures OneLeafPerChain(Sign(w, Some(pair), pair.refresh.jti), log) <==> OneLeafPerChain(w, log)
  {
    var w' := Sign(w, Some(pair), pair.refresh.jti);
    OldChainsStay(w, pair, pair.refresh.jti);
    assert forall c | c in w'.signed && c.tokenType == REFRESH && SameChain(w', c, pair.refresh) :: c == pair.refresh;
    assert forall c | c in w'.signed && c.tokenType == REFRESH && SameChain(w', pair.refresh, c) :: c == pair.refresh;
  }

  /** A pair of a chain of its own. */
  lemma NewChainKeepsChains(
      cfg: Config, w: World, log: seq<Event>, cause: Cause, activeAt: Micros, pair: TokenPair)
    requires StoresInv(cfg, w) && IsNewPair(cfg, w, pair) && !cause.ByRefresh? && ChainsInv(w, log)
    requires ExchangedAreMinted(w, log)
    ensures ChainsInv(Sign(w, Some(pair), pair.refresh.jti), log + [Signed(cause, activeAt, pair)])
  {
    var e := Signed(cause, activeAt, pair);
    var w' := Sign(w, Some(pair), pair.refresh.jti);
    NewChainHasLeaf(cfg, w, log, pair);
    NewChainIsAlone(cfg, w, log, pair);
    OtherEventsKeepChains(w', log, e);
    OnePairAppend(log, e);
  }

  predicate ExchangedAreMinted(w: World, log: seq<Event>) {
    forall i | 0 <= i < |log| && log[i].Signed? && log[i].cause.ByRefresh? :: log[i].cause.check.token.jti in w.minted
  }

  /** Signing leaves the chains of the tokens there are. */
  lemma OldChainsStay(w: World, pair: TokenPair, root: Jti)
    requires forall c | c in w.signed :: c.jti in w.minted
    requires pair.refresh.jti !in w.minted
    ensures var w' := Sign(w, Some(pair), root);
            forall c, d | c in w.signed && d in w.signed :: SameChain(w', c, d) <==> SameChain(w, c, d)
  {
  }

  /** A pair in the chain of the token it is exchanged for: the leaf it takes the place of, or one leaf more. */
  lemma ExchangeKeepsLeaf(
      cfg: Config, w: World, log: seq<Event>, check: Check, activeAt: Micros, pair: TokenPair, root: Jti)
    requires StoresInv(cfg, w) && IsNewPair(cfg, w, pair) && LeafPerChain(w, log) && ExchangedAreMinted(w, log)
    requires RootOk(w, log, ByRefresh(check), pair, root)
    ensures LeafPerChain(Sign(w, Some(pair), root), log + [Signed(ByRefresh(check), activeAt, pair)])
  {
    var e := Signed(ByRefresh(check), activeAt, pair);
    var log', w' := log + [e], Sign(w, Some(pair), root);
    OldChainsStay(w, pair, root);
    assert !IsExchanged(log', pair.refresh) by {
      ExchangedAppend(log, e, pair.refresh);
    }
    forall c | c in w'.signed && c.tokenType == REFRESH
      ensures HasLeaf(w', log', c)
    {
      if c == pair.refresh || w.root[c.jti] == root {
        assert SameChain(w', c, pair.refresh);
      } else {
        assert HasLeaf(w, log, c);
        var d :| d in w.signed && d.tokenType == REFRESH && SameChain(w, c, d) && !IsExchanged(log, d);
        ExchangedAppend(log, e, d);
        assert SameChain(w', c, d);
      }
    }
  }

  /** A first exchange: the token was the leaf of its chain. */
  lemma FirstExchange(
      cfg: Config, w: World, log: seq<Event>, check: Check, activeAt: Micros, pair: TokenPair, root: Jti)
    requires StoresInv(cfg, w) && IsNewPair(cfg, w, pair) && OneLeafPerChain(w, log)
    requires RootOk(w, log, ByRefresh(check), pair, root) && !IsExchanged(log, check.token)
    ensures OneLeafPerChain(Sign(w, Some(pair), root), log + [Signed(ByRefresh(check), activeAt, pair)])
  {
    var e := Signed(ByRefresh(check), activeAt, pair);
    var log', w' := log + [e], Sign(w, Some(pair), root);
    OldChainsStay(w, pair, root);
    forall c, d | c in w'.signed && d in w'.signed && c.tokenType == REFRESH && d.tokenType == REFRESH
                  && SameChain(w', c, d) && c != d
      ensures IsExchanged(log', c) || IsExchanged(log', d)
    {
      ExchangedAppend(log, e, c);
      ExchangedAppend(log, e, d);
      var other := if c == pair.refresh then d else c;
      if c == pair.refresh || d == pair.refresh {
        assert other == check.token || SameChain(w, check.token, other);
      }
    }
  }

  /** The chain of an exchange keeps two leaves if it had two, or gets a second if the token was exchanged before. */
  lemma AnotherExchange(
      cfg: Config, w: World, log: seq<Event>, check: Check, activeAt: Micros, pair: TokenPair, root: Jti)
    requires StoresInv(cfg, w) && IsNewPair(cfg, w, pair) && LeafPerChain(w, log) && ExchangedAreMinted(w, log)
    requires RootOk(w, log, ByRefresh(check), pair, root) && (!OneLeafPerChain(w, log) || IsExchanged(log, check.token))
    ensures !OneLeafPerChain(Sign(w, Some(pair), root), log + [Signed(ByRefresh(check), activeAt, pair)])
  {
    var e := Signed(ByRefresh(check), activeAt, pair);
    var log', w' := log + [e], Sign(w, Some(pair), root);
    OldChainsStay(w, pair, root);
    assert !IsExchanged(log', pair.refresh) by {
      ExchangedAppend(log, e, pair.refresh);
    }
    var t := check.token;
    if IsExchanged(log, t) {
      assert HasLeaf(w, log, t);
      var d :| d in w.signed && d.tokenType == REFRESH && SameChain(w, t, d) && !IsExchanged(log, d);
      ExchangedAppend(log, e, d);
      assert SameChain(w', d, pair.refresh);
    } else {
      var c, d :| c in w.signed && d in w.signed && c.tokenType == REFRESH && d.tokenType == REFRESH
                  && SameChain(w, c, d) && c != d && !IsExchanged(log, c) && !IsExchanged(log, d);
      ExchangedAppend(log, e, c);
      ExchangedAppend(log, e, d);
      assert SameChain(w', c, d);
      if c == t {
        assert SameChain(w', d, pair.refresh);
      } else if d == t {
        assert SameChain(w', c, pair.refresh);
      }
    }
  }

  lemma SignKeepsChains(
      cfg: Config, w: World, log: seq<Event>, cause: Cause, activeAt: Micros, pair: TokenPair, root: Jti)
    requires StoresInv(cfg, w) && IsNewPair(cfg, w, pair) && ChainsInv(w, log) && ExchangedAreMinted(w, log)
    requires RootOk(w, log, cause, pair, root)
    ensures ChainsInv(Sign(w, Some(pair), root), log + [Signed(cause, activeAt, pair)])
  {
    if cause.ByRefresh? {
      ExchangeKeepsLeaf(cfg, w, log, cause.check, activeAt, pair, root);
      OnePairAppend(log, Signed(cause, activeAt, pair));
      if OneLeafPerChain(w, log) && !IsExchanged(log, cause.check.token) {
        FirstExchange(cfg, w, log, cause.check, activeAt, pair, root);
      } else {
        AnotherExchange(cfg, w, log, cause.check, activeAt, pair, root);
      }
    } else {
      NewChainKeepsChains(cfg, w, log, cause, activeAt, pair);
    }
  }

  lemma SignKeepsEvents(s: Auth, cause: Cause, activeAt: Micros, pair: TokenPair, root: Jti)
    requires CallsInv(s) && EventsInv(s) && UsersInv(s.w) && SamePair(pair) && CauseOk(cause, pair)
    requires WasActive(s.w, pair.refresh.subject, activeAt) && RoleOk(s.w, pair.refresh.subject, pair.refresh.role)
    requires cause.ByRefresh? ==> RefreshOk(s.w, s.log, cause.check) && cause.check.token.jti in s.w.spent
    ensures var s' := SignPair(s, cause, activeAt, pair, root); CallsInv(s') && EventsInv(s') && UsersInv(s'.w)
  {
    var s' := SignPair(s, cause, activeAt, pair, root);
    CallsStay(s, s');
    EventsStay(s, s');
    if cause.ByRefresh? {
      CheckStays(s.w, s'.w, s.log, s'.log, cause.check);
    }
    assert EventOk(s'.w, s'.log, |s.log|);
  }

  lemma SignKeepsInv(cfg: Config, s: Auth, cause: Cause, activeAt: Micros, pair: TokenPair, root: Jti)
    requires Inv(cfg, s) && IsNewPair(cfg, s.w, pair) && RootOk(s.w, s.log, cause, pair, root) && CauseOk(cause, pair)
    requires WasActive(s.w, pair.refresh.subject, activeAt) && RoleOk(s.w, pair.refresh.subject, pair.refresh.role)
    ensures Inv(cfg, SignPair(s, cause, activeAt, pair, root))
  {
    MintedExchanges(cfg, s);
    SignKeepsStores(cfg, s.w, pair, root);
    SignKeepsLogged(s.w, s.log, cause, activeAt, pair, root);
    SignKeepsChains(cfg, s.w, s.log, cause, activeAt, pair, root);
    SignKeepsEvents(s, cause, activeAt, pair, root);
  }

  lemma MintedExchanges(cfg: Config, s: Auth)
    requires StoresInv(cfg, s.w) && EventsInv(s)
    ensures ExchangedAreMinted(s.w, s.log)
  {
    forall i | 0 <= i < |s.log| && s.log[i].Signed? && s.log[i].cause.ByRefresh?
      ensures s.log[i].cause.check.token.jti in s.w.minted
    {
      assert EventOk(s.w, s.log, i);
    }
  }

  // ---- every step keeps the invariant ----

  lemma IssueKeepsInv(cfg: Config, s: Auth, role: Role, a: Jti, r: Jti)
    requires Inv(cfg, s)
    ensures Inv(cfg, IssueOne(cfg, s, role, a, r))
  {
    if cfg.enabled && FreshIds(s.w, a, r) {
      SignKeepsInv(cfg, s, ByRole(role), s.w.now, Pair(cfg, role, None, s.w.now, a, r), r);
    }
  }

  lemma SignInKeepsInv(cfg: Config, s: Auth, call: CallId, passwordOk: bool, a: Jti, r: Jti)
    requires Inv(cfg, s)
    ensures Inv(cfg, SignInOne(cfg, s, call, passwordOk, a, r))
  {
    DropKeepsInv(cfg, s, call);
    if call in s.calls && s.calls[call].LoggingIn? && FreshIds(s.w, a, r) && passwordOk && cfg.enabled {
      var x := s.calls[call];
      assert CallOk(s.w, s.log, x);
      SignKeepsInv(cfg, Drop(s, call), ByLogin(x.id), x.activeAt, Pair(cfg, x.role, Some(x.id), s.w.now, a, r), r);
    }
  }

  lemma AnswerKeepsInv(cfg: Config, s: Auth, call: CallId, a: Jti, r: Jti)
    requires Inv(cfg, s)
    ensures Inv(cfg, AnswerOne(cfg, s, call, a, r))
  {
    if call in s.calls && s.calls[call].Answering? && FreshIds(s.w, a, r) {
      var x := s.calls[call];
      var t := x.check.token;
      assert CallOk(s.w, s.log, x);
      DropKeepsInv(cfg, s, call);
      SignKeepsInv(cfg, Drop(s, call), ByRefresh(x.check), x.activeAt,
                   Pair(cfg, t.role, t.subject, s.w.now, a, r), RootOf(s.w, t));
    }
  }

  /** A token that the denylist does not list has not been spent, unless it has expired. */
  lemma UnlistedIsClear(cfg: Config, s: Auth, token: Claims)
    requires StoresInv(cfg, s.w) && EventsInv(s) && token in s.w.signed && !Denied(s.w.deadlines, token.jti, s.w.now)
    ensures Expired(token, s.w.now) || (token.jti !in s.w.spent && Clear(s.log, token, |s.log|))
  {
    if token.jti in s.w.spent {
      SpentIsUseless(s.w, token);
    } else {
      forall m | 0 <= m < |s.log| ensures !s.log[m].Exchanges(token) && s.log[m] != Revoked(token) {
        assert EventOk(s.w, s.log, m);
      }
    }
  }

  lemma CheckedIsOk(cfg: Config, s: Auth, token: Claims)
    requires StoresInv(cfg, s.w) && EventsInv(s) && token in s.w.signed && !Denied(s.w.deadlines, token.jti, s.w.now)
    ensures CheckOk(s.w, s.log, Check(token, |s.log|, s.w.now))
  {
    UnlistedIsClear(cfg, s, token);
  }

  lemma ResolvedKeepsInv(cfg: Config, s: Auth, call: CallId, check: Check)
    requires Inv(cfg, s) && CheckOk(s.w, s.log, check) && check.since == |s.log| && check.token.tokenType == ACCESS
    ensures Inv(cfg, Log(Drop(s, call), Resolved(check, PrincipalOf(check.token))))
  {
    var e := Resolved(check, PrincipalOf(check.token));
    DropKeepsInv(cfg, s, call);
    CheckStays(s.w, s.w, s.log, s.log + [e], check);
    LogKeepsInv(cfg, Drop(s, call), e);
  }

  lemma AskDenylistKeepsInv(cfg: Config, s: Auth, call: CallId, reply: Reply)
    requires Inv(cfg, s)
    ensures Inv(cfg, AskDenylistOne(s, call, reply))
  {
    if call in s.calls && (s.calls[call].Verified? || s.calls[call].Resolving?) {
      var check := Check(s.calls[call].token, |s.log|, s.w.now);
      assert CallOk(s.w, s.log, s.calls[call]);
      if reply.Raised() || Denied(s.w.deadlines, check.token.jti, s.w.now) {
        DropKeepsInv(cfg, s, call);
      } else {
        CheckedIsOk(cfg, s, check.token);
        if s.calls[call].Verified? {
          PutKeepsInv(cfg, s, call, Unlisted(check));
        } else {
          ResolvedKeepsInv(cfg, s, call, check);
        }
      }
    }
  }

  lemma AskActiveKeepsInv(cfg: Config, s: Auth, call: CallId, reply: Reply)
    requires Inv(cfg, s)
    ensures Inv(cfg, AskActiveOne(s, call, reply))
  {
    if call in s.calls && s.calls[call].Unlisted? {
      var check := s.calls[call].check;
      var user := check.token.subject;
      assert CallOk(s.w, s.log, s.calls[call]);
      if user.Some? && (reply.Raised() || !Active(s.w.users, user.value)) {
        DropKeepsInv(cfg, s, call);
      } else {
        PutKeepsInv(cfg, s, call, Allowed(check, s.w.now));
      }
    }
  }

  lemma ReadTtlKeepsInv(cfg: Config, s: Auth, call: CallId)
    requires Inv(cfg, s)
    ensures Inv(cfg, ReadTtlOne(s, call))
  {
    if call in s.calls {
      var x := s.calls[call];
      assert CallOk(s.w, s.log, x);
      if x.Allowed? {
        PutKeepsInv(cfg, s, call, Rotating(x.check, x.activeAt, s.w.now));
      } else if x.Revoking? {
        PutKeepsInv(cfg, s, call, Listing(x.token, s.w.now));
      }
    }
  }

  lemma RotateKeepsInv(cfg: Config, s: Auth, call: CallId, reply: Reply)
    requires Inv(cfg, s) && call in s.calls && s.calls[call].Rotating?
    ensures Inv(cfg, RotateOne(s, call, reply))
  {
    var x := s.calls[call];
    assert CallOk(s.w, s.log, x);
    var s' := Spent(s, x.check.token, x.ttlAt, reply);
    SpentKeepsInv(cfg, s, x.check.token, x.ttlAt, reply);
    if Fails(x.check.token, x.ttlAt, reply) {
      DropKeepsInv(cfg, s', call);
    } else {
      assert CallOk(s'.w, s'.log, x);
      PutKeepsInv(cfg, s', call, Answering(x.check, x.activeAt));
    }
  }

  lemma ListKeepsInv(cfg: Config, s: Auth, call: CallId, reply: Reply)
    requires Inv(cfg, s) && call in s.calls && s.calls[call].Listing?
    ensures Inv(cfg, ListOne(s, call, reply))
  {
    var x := s.calls[call];
    assert CallOk(s.w, s.log, x);
    var s' := Spent(s, x.token, x.ttlAt, reply);
    SpentKeepsInv(cfg, s, x.token, x.ttlAt, reply);
    DropKeepsInv(cfg, s', call);
    if Lists(x.token, x.ttlAt, reply) {
      LogKeepsInv(cfg, Drop(s', call), Revoked(x.token));
    }
  }

  lemma StartKeepsInv(cfg: Config, s: Auth, step: Step)
    requires Inv(cfg, s) && (step.LookUp? || step.Verify? || step.VerifyRevoked? || step.VerifyAccess?)
    ensures Inv(cfg, Next(cfg, s, step))
  {
    var s' := Next(cfg, s, step);
    if s' != s {
      PutKeepsInv(cfg, s, step.call, s'.calls[step.call]);
      assert s' == Put(s, step.call, s'.calls[step.call]);
    }
  }

  lemma OutsideKeepsStores(cfg: Config, w: World, now: Micros, users: map<UserId, User>)
    requires StoresInv(cfg, w) && w.now <= now
    ensures StoresInv(cfg, w.(now := now, users := users))
  {
  }

  lemma OutsideEvolves(w: World, now: Micros, id: UserId, role: Role)
    requires UsersInv(w) && w.now <= now
    ensures Evolves(w, w.(now := now)) && UsersInv(w.(now := now))
    ensures var w' := w.(users := Registered(w.users, id, role)); Evolves(w, w') && UsersInv(w')
    ensures var w' := w.(users := Deactivated(w.users, id, w.now)); Evolves(w, w') && UsersInv(w')
  {
  }

  lemma OutsideKeepsInv(cfg: Config, s: Auth, step: Step)
    requires Inv(cfg, s) && (step.Tick? || step.Register? || step.Deactivate?)
    ensures Inv(cfg, Next(cfg, s, step))
  {
    var now := if step.Tick? then s.w.now + step.d else s.w.now;
    var users := if step.Register? then Registered(s.w.users, step.id, step.role)
                 else if step.Deactivate? then Deactivated(s.w.users, step.id, s.w.now)
                 else s.w.users;
    OutsideKeepsStores(cfg, s.w, now, users);
    OutsideEvolves(s.w, now, if step.Tick? then 0 else step.id, if step.Register? then step.role else USER);
    var w' := s.w.(now := now, users := users);
    assert step.Tick? ==> w' == s.w.(now := now);
    assert !step.Tick? ==> w' == s.w.(users := users);
    WorldKeepsInv(cfg, s, w');
    assert Next(cfg, s, step) == s.(w := w');
  }

  lemma CallStepKeepsInv(cfg: Config, s: Auth, step: Step)
    requires Inv(cfg, s) && (step.AskDenylist? || step.AskActive? || step.ReadTtl? || step.Write? || step.Crash?)
    ensures Inv(cfg, Next(cfg, s, step))
  {
    match step {
      case AskDenylist(call, reply) => AskDenylistKeepsInv(cfg, s, call, reply);
      case AskActive(call, reply) => AskActiveKeepsInv(cfg, s, call, reply);
      case ReadTtl(call) => ReadTtlKeepsInv(cfg, s, call);
      case Write(call, reply) => WriteKeepsInv(cfg, s, call, reply);
      case Crash(call) => DropKeepsInv(cfg, s, call);
    }
  }

  lemma SigningStepKeepsInv(cfg: Config, s: Auth, step: Step)
    requires Inv(cfg, s) && (step.Issue? || step.SignIn? || step.Answer?)
    ensures Inv(cfg, Next(cfg, s, step))
  {
    match step {
      case Issue(role, a, r) => IssueKeepsInv(cfg, s, role, a, r);
      case SignIn(call, passwordOk, a, r) => SignInKeepsInv(cfg, s, call, passwordOk, a, r);
      case Answer(call, a, r) => AnswerKeepsInv(cfg, s, call, a, r);
    }
  }

  lemma StepKeepsInv(cfg: Config, s: Auth, step: Step)
    requires Inv(cfg, s)
    ensures Inv(cfg, Next(cfg, s, step))
  {
    if step.Tick? || step.Register? || step.Deactivate? {
      OutsideKeepsInv(cfg, s, step);
    } else if step.LookUp? || step.Verify? || step.VerifyRevoked? || step.VerifyAccess? {
      StartKeepsInv(cfg, s, step);
    } else if step.Issue? || step.SignIn? || step.Answer? {
      SigningStepKeepsInv(cfg, s, step);
    } else {
      CallStepKeepsInv(cfg, s, step);
    }
  }

  lemma WriteKeepsInv(cfg: Config, s: Auth, call: CallId, reply: Reply)
    requires Inv(cfg, s)
    ensures Inv(cfg, WriteOne(s, call, reply))
  {
    if call in s.calls && s.calls[call].Rotating? {
      RotateKeepsInv(cfg, s, call, reply);
    } else if call in s.calls && s.calls[call].Listing? {
      ListKeepsInv(cfg, s, call, reply);
    }
  }

  lemma {:induction false} RunKeepsInv(cfg: Config, steps: seq<Step>)
    ensures Inv(cfg, Run(cfg, steps))
  {
    if steps != [] {
      RunKeepsInv(cfg, steps[..|steps| - 1]);
      StepKeepsInv(cfg, Run(cfg, steps[..|steps| - 1]), steps[|steps| - 1]);
    }
  }

  // ---- main results ----

  /** In every run, each refresh token is exchanged for at most one pair exactly when no refresh of it answers between
      the denylist check and the answer of another, or before one that made the check after the token had expired. */
  lemma OnePairEachIff(cfg: Config, steps: seq<Step>)
    ensures OnePairEach(Run(cfg, steps).log) <==> Undisturbed(Run(cfg, steps).log)
  {
    RunKeepsInv(cfg, steps);
    var s := Run(cfg, steps);
    if Undisturbed(s.log) {
      forall i, j | 0 <= i < j < |s.log| && s.log[j].Signed? && s.log[j].cause.ByRefresh?
        ensures !s.log[i].Exchanges(s.log[j].cause.check.token)
      {
        assert EventOk(s.w, s.log, j) && Alone(s.log, s.log[j].cause.check, j);
      }
    }
  }

  /** Exactly on those runs, of the refresh tokens that descend from one pair at most one is not exchanged yet. */
  lemma OneLeafIff(cfg: Config, steps: seq<Step>)
    ensures var s := Run(cfg, steps); OneLeafPerChain(s.w, s.log) <==> Undisturbed(s.log)
  {
    RunKeepsInv(cfg, steps);
    OnePairEachIff(cfg, steps);
  }

  /** And then at most one of them works. */
  lemma UndisturbedChains(cfg: Config, steps: seq<Step>, c: Claims, d: Claims)
    requires var s := Run(cfg, steps);
             && Undisturbed(s.log) && SameChain(s.w, c, d)
             && CanRefresh(cfg, s.w.signed, s.w.deadlines, s.w.users, c, s.w.now)
             && CanRefresh(cfg, s.w.signed, s.w.deadlines, s.w.users, d, s.w.now)
    ensures c == d
  {
    RunKeepsInv(cfg, steps);
    OneLeafIff(cfg, steps);
    var s := Run(cfg, steps);
    UnlistedIsClear(cfg, s, c);
    UnlistedIsClear(cfg, s, d);
  }

  /** A revocation of the token that the call's denylist check could not tell it of. */
  predicate MissesRevocation(log: seq<Event>, check: Check, to: nat)
    requires to <= |log|
  {
    exists m :: From(check) <= m < to && log[m] == Revoked(check.token)
  }

  predicate ComesAfterRevocation(log: seq<Event>, t: Claims, to: nat)
    requires to <= |log|
  {
    exists m :: 0 <= m < to && log[m] == Revoked(t)
  }

  /** What a call that asked the denylist got: a refresh its new pair, an authenticated request its principal. */
  function Answered(e: Event): Option<Check> {
    match e
    case Signed(cause, _, _) => if cause.ByRefresh? then Some(cause.check) else None
    case Revoked(_) => None
    case Resolved(check, _) => Some(check)
  }

  /** In every run, a refresh is answered, or a token resolves, after the token was revoked exactly when the revocation
      falls between the call's denylist check and its answer, or before a check made after the token had expired. */
  lemma RevokedIsMissedIff(cfg: Config, steps: seq<Step>, i: nat)
    requires i < |Run(cfg, steps).log| && Answered(Run(cfg, steps).log[i]).Some?
    ensures var log := Run(cfg, steps).log;
            var check := Answered(log[i]).value;
            ComesAfterRevocation(log, check.token, i) <==> MissesRevocation(log, check, i)
  {
    RunKeepsInv(cfg, steps);
    var s := Run(cfg, steps);
    assert EventOk(s.w, s.log, i);
  }

  /** A pair is an access and a refresh token for one subject and role: those asked for, those of the user who logged
      in, or those of the exchanged token. */
  lemma SignedAsCaused(cfg: Config, steps: seq<Step>, i: nat)
    requires i < |Run(cfg, steps).log| && Run(cfg, steps).log[i].Signed?
    ensures var s := Run(cfg, steps);
            var access, refresh := s.log[i].pair.access, s.log[i].pair.refresh;
            && access in s.w.signed && refresh in s.w.signed
            && access.tokenType == ACCESS && refresh.tokenType == REFRESH
            && access.subject == refresh.subject && access.role == refresh.role && access.iat == refresh.iat
            && match s.log[i].cause {
                 case ByRole(role) => refresh.subject == None && refresh.role == role
                 case ByLogin(id) =>
                   refresh.subject == Some(id) && id in s.w.users && refresh.role == s.w.users[id].role
                 case ByRefresh(check) =>
                   && check.token in s.w.signed && check.token.tokenType == REFRESH
                   && refresh.subject == check.token.subject && refresh.role == check.token.role
               }
  {
    RunKeepsInv(cfg, steps);
    var s := Run(cfg, steps);
    assert EventOk(s.w, s.log, i);
    assert RoleOk(s.w, s.log[i].pair.refresh.subject, s.log[i].pair.refresh.role);
  }

  /** A request is answered with the role, id and subject of a signed access token. */
  lemma ResolvedAsSigned(cfg: Config, steps: seq<Step>, i: nat)
    requires i < |Run(cfg, steps).log| && Run(cfg, steps).log[i].Resolved?
    ensures var s := Run(cfg, steps);
            var token, p := s.log[i].check.token, s.log[i].principal;
            && token in s.w.signed && token.tokenType == ACCESS
            && p.role == token.role && p.tokenId == token.jti && p.subject == token.subject
  {
    RunKeepsInv(cfg, steps);
    var s := Run(cfg, steps);
    assert EventOk(s.w, s.log, i);
  }

  /** Every token of a user, and so every principal who is one, has the role that the user table has for that user. */
  lemma RolesAreRight(cfg: Config, steps: seq<Step>)
    ensures var s := Run(cfg, steps);
            && (forall c | c in s.w.signed && c.subject.Some? ::
                  c.subject.value in s.w.users && c.role == s.w.users[c.subject.value].role)
            && (forall i | 0 <= i < |s.log| && s.log[i].Resolved? && s.log[i].principal.subject.Some? ::
                  var p := s.log[i].principal;
                  p.subject.value in s.w.users && p.role == s.w.users[p.subject.value].role)
  {
    RunKeepsInv(cfg, steps);
    var s := Run(cfg, steps);
    assert forall c | c in s.w.signed :: RoleOk(s.w, c.subject, c.role);
    forall i | 0 <= i < |s.log| && s.log[i].Resolved? && s.log[i].principal.subject.Some?
      ensures var p := s.log[i].principal; RoleOk(s.w, p.subject, p.role)
    {
      ResolvedAsSigned(cfg, steps, i);
    }
  }

  /** A pair of a call that straddles a deactivation is signed after it. */
  lemma StraddlerSignsLate(s: Auth, i: nat)
    requires EventsInv(s) && i < |s.log| && Straddles(s.w, s.log[i])
    ensures var c := s.log[i].pair.refresh; c in s.w.signed && DeactivatedIn(s.w, c, 0, c.iat)
  {
    assert EventOk(s.w, s.log, i);
  }

  /** A token that is signed after the deactivation is of a call that straddles it. */
  lemma LateSignerStraddles(s: Auth, i: nat, c: Claims)
    requires EventsInv(s) && i < |s.log| && Signs(s.log[i], c) && DeactivatedIn(s.w, c, 0, c.iat)
    ensures Straddles(s.w, s.log[i])
  {
    assert EventOk(s.w, s.log, i);
  }

  /** In every run, no token is signed for a user after that user's deactivation exactly when no refresh and no login
      straddles one: finds the user active no later than the deactivation, and signs after it. */
  lemma NothingSignedLateIff(cfg: Config, steps: seq<Step>)
    ensures var s := Run(cfg, steps);
            (forall c | c in s.w.signed :: !DeactivatedIn(s.w, c, 0, c.iat))
            <==> (forall i | 0 <= i < |s.log| :: !Straddles(s.w, s.log[i]))
  {
    RunKeepsInv(cfg, steps);
    LateIff(Run(cfg, steps));
  }

  lemma LateIff(s: Auth)
    requires EventsInv(s) && AllLogged(s.w, s.log)
    ensures (forall c | c in s.w.signed :: !DeactivatedIn(s.w, c, 0, c.iat))
            <==> (forall i | 0 <= i < |s.log| :: !Straddles(s.w, s.log[i]))
  {
    if i :| 0 <= i < |s.log| && Straddles(s.w, s.log[i]) {
      StraddlerSignsLate(s, i);
    }
    if c :| c in s.w.signed && DeactivatedIn(s.w, c, 0, c.iat) {
      assert IsLogged(s.log, c);
      var i :| 0 <= i < |s.log| && Signs(s.log[i], c);
      LateSignerStraddles(s, i, c);
    }
  }

  /** In a run without such a call, a deactivated user's tokens verify no more, and resolve to nobody, once the access
      TTL has passed. */
  lemma DeactivationBoundUnlessStraddled(cfg: Config, steps: seq<Step>, c: Claims)
    requires var s := Run(cfg, steps);
             && (forall i | 0 <= i < |s.log| :: !Straddles(s.w, s.log[i]))
             && c.subject.Some? && c.subject.value in s.w.users && s.w.users[c.subject.value].deletedAt.Some?
             && s.w.users[c.subject.value].deletedAt.value + cfg.accessTtl * SECOND <= s.w.now
    ensures var s := Run(cfg, steps);
            && !Verifies(cfg, s.w.signed, c, Some(ACCESS), s.w.now)
            && Resolve(cfg, s.w.signed, s.w.deadlines, c, s.w.now) == None
  {
    RunKeepsInv(cfg, steps);
    NothingSignedLateIff(cfg, steps);
    var s := Run(cfg, steps);
    if c in s.w.signed {
      assert !DeactivatedIn(s.w, c, 0, c.iat);
    }
  }

  // ---- what a deactivation cuts off, and what a spent token cannot do ----

  lemma WriteEvolves(s: Auth, call: CallId, reply: Reply)
    ensures Evolves(s.w, WriteOne(s, call, reply).w)
  {
  }

  lemma SigningEvolves(cfg: Config, s: Auth, step: Step)
    requires step.Issue? || step.SignIn? || step.Answer?
    ensures Evolves(s.w, Next(cfg, s, step).w)
  {
  }

  /** Every other step of a call leaves the stores. */
  lemma CallLeavesWorld(cfg: Config, s: Auth, step: Step)
    requires !step.Tick? && !step.Register? && !step.Deactivate? && !step.Write?
    requires !step.Issue? && !step.SignIn? && !step.Answer?
    ensures Next(cfg, s, step).w == s.w
  {
  }

  lemma StepEvolves(cfg: Config, s: Auth, step: Step)
    ensures Evolves(s.w, Next(cfg, s, step).w)
  {
    match step {
      case Tick(_) =>
      case Register(_, _) =>
      case Deactivate(_) =>
      case Write(call, reply) => WriteEvolves(s, call, reply);
      case Issue(_, _, _) => SigningEvolves(cfg, s, step);
      case SignIn(_, _, _, _) => SigningEvolves(cfg, s, step);
      case Answer(_, _, _) => SigningEvolves(cfg, s, step);
      case _ => CallLeavesWorld(cfg, s, step);
    }
  }

  lemma {:induction false} RunEvolves(cfg: Config, before: seq<Step>, after: seq<Step>)
    ensures Evolves(Run(cfg, before).w, Run(cfg, before + after).w)
    decreases |after|
  {
    if after == [] {
      assert before + after == before;
    } else {
      var init := after[..|after| - 1];
      RunEvolves(cfg, before, init);
      assert (before + after)[..|before + after| - 1] == before + init;
      StepEvolves(cfg, Run(cfg, before + init), after[|after| - 1]);
    }
  }

  /** At every instant from then on, a token that was exchanged or revoked is expired or on the denylist: asked then, it
      neither resolves nor refreshes. */
  lemma SpentForEver(cfg: Config, before: seq<Step>, after: seq<Step>, c: Claims)
    requires var w := Run(cfg, before).w; c in w.signed && c.jti in w.spent
    ensures var w := Run(cfg, before + after).w;
            && Resolve(cfg, w.signed, w.deadlines, c, w.now) == None
            && !CanRefresh(cfg, w.signed, w.deadlines, w.users, c, w.now)
  {
    RunEvolves(cfg, before, after);
    RunKeepsInv(cfg, before + after);
    SpentIsUseless(Run(cfg, before + after).w, c);
  }

  /** Every exchanged and every revoked token is spent, and an exchange signed a refresh token for the same user. */
  lemma CallsSpend(cfg: Config, steps: seq<Step>, i: nat)
    requires i < |Run(cfg, steps).log|
    ensures var s := Run(cfg, steps);
            && (s.log[i].Revoked? ==> s.log[i].token.jti in s.w.spent)
            && (s.log[i].Signed? && s.log[i].cause.ByRefresh? ==>
                  && s.log[i].cause.check.token.jti in s.w.spent
                  && s.log[i].pair.refresh in s.w.signed && s.log[i].pair.refresh.tokenType == REFRESH
                  && s.log[i].pair.refresh.subject == s.log[i].cause.check.token.subject)
  {
    RunKeepsInv(cfg, steps);
    var s := Run(cfg, steps);
    assert EventOk(s.w, s.log, i);
  }

  /** The user whom an open call has found active. */
  function FoundActive(x: Call): Option<UserId> {
    if x.LoggingIn? then Some(x.id)
    else if x.Allowed? || x.Rotating? || x.Answering? then x.check.token.subject
    else None
  }

  predicate NoneUnderWay(s: Auth, u: UserId) {
    forall c | c in s.calls :: FoundActive(s.calls[c]) != Some(u)
  }

  predicate CutOff(s: Auth, u: UserId, signed: set<Claims>) {
    && u in s.w.users && s.w.users[u].deletedAt.Some? && NoneUnderWay(s, u)
    && forall c | c in s.w.signed && c.subject == Some(u) :: c in signed
  }

  lemma StepKeepsCutOff(cfg: Config, s: Auth, step: Step, u: UserId, signed: set<Claims>)
    requires CutOff(s, u, signed)
    ensures CutOff(Next(cfg, s, step), u, signed)
  {
  }

  lemma {:induction false} RunKeepsCutOff(
      cfg: Config, before: seq<Step>, after: seq<Step>, u: UserId, signed: set<Claims>)
    requires CutOff(Run(cfg, before), u, signed)
    ensures CutOff(Run(cfg, before + after), u, signed)
    decreases |after|
  {
    if after == [] {
      assert before + after == before;
    } else {
      var init := after[..|after| - 1];
      RunKeepsCutOff(cfg, before, init, u, signed);
      assert (before + after)[..|before + after| - 1] == before + init;
      StepKeepsCutOff(cfg, Run(cfg, before + init), after[|after| - 1], u, signed);
    }
  }

  /** A user is deactivated while no call that found the user active is under way: from then on no call signs a token
      for the user, and from the access TTL later on no token resolves to that user. */
  lemma DeactivationBound(cfg: Config, before: seq<Step>, u: UserId, after: seq<Step>)
    requires Active(Run(cfg, before).w.users, u) && NoneUnderWay(Run(cfg, before), u)
    ensures var w := Run(cfg, before).w;
            var w' := Run(cfg, before + [Deactivate(u)] + after).w;
            && (forall c | c in w'.signed && c.subject == Some(u) :: c in w.signed)
            && (w.now + cfg.accessTtl * SECOND <= w'.now ==>
                  forall c: Claims | c.subject == Some(u) :: Resolve(cfg, w'.signed, w'.deadlines, c, w'.now) == None)
  {
    RunKeepsInv(cfg, before);
    var steps := before + [Deactivate(u)];
    assert steps[..|steps| - 1] == before;
    RunKeepsCutOff(cfg, steps, after, u, Run(cfg, before).w.signed);
    RunKeepsInv(cfg, steps + after);
  }

  // ---- without interleaving these are the calls of the use cases ----

  /** A refresh up to its denylist write, with the clock read for the TTL at `ttlAt` and the write made at `issue`. */
  function ChecksOf(cfg: Config, s: Auth, call: CallId, token: Claims, ttlAt: Micros, issue: Micros): Auth
    requires s.w.now <= ttlAt <= issue
  {
    var s1 := Next(cfg, s, Verify(call, token));
    var s2 := Next(cfg, s1, AskDenylist(call, Reply.Done));
    var s3 := At(Next(cfg, s2, AskActive(call, Reply.Done)), ttlAt);
    At(Next(cfg, s3, ReadTtl(call)), issue)
  }

  function RefreshSteps(
      cfg: Config, s: Auth, call: CallId, token: Claims, ttlAt: Micros, issue: Micros, a: Jti, r: Jti, reply: Reply)
    : Auth
    requires s.w.now <= ttlAt <= issue
  {
    Next(cfg, Next(cfg, ChecksOf(cfg, s, call, token, ttlAt, issue), Write(call, reply)), Answer(call, a, r))
  }

  /** The state once the clock shows this. */
  function At(s: Auth, now: Micros): Auth {
    s.(w := s.w.(now := now))
  }

  lemma WaitIsTick(cfg: Config, s: Auth, now: Micros)
    requires s.w.now <= now
    ensures At(s, now) == Next(cfg, s, Tick(now - s.w.now))
  {
  }

  lemma ChecksPass(cfg: Config, s: Auth, call: CallId, token: Claims, ttlAt: Micros, issue: Micros)
    requires call !in s.calls && s.w.now <= ttlAt <= issue
    requires CanRefresh(cfg, s.w.signed, s.w.deadlines, s.w.users, token, s.w.now)
    ensures var check := Check(token, |s.log|, s.w.now);
            ChecksOf(cfg, s, call, token, ttlAt, issue) == At(Put(s, call, Rotating(check, s.w.now, ttlAt)), issue)
  {
  }

  lemma RotationEnds(cfg: Config, s: Auth, call: CallId, x: Call, a: Jti, r: Jti, reply: Reply)
    requires x.Rotating? && FreshIds(s.w, a, r) && call !in s.calls && cfg.enabled
    ensures var s' := Next(cfg, Next(cfg, Put(s, call, x), Write(call, reply)), Answer(call, a, r));
            && s'.w == Rotated(cfg, s.w, x.check.token, x.ttlAt, s.w.now, a, r, reply)
            && s'.calls == s.calls
  {
    assert Next(cfg, Put(s, call, x), Write(call, reply)) == RotateOne(Put(s, call, x), call, reply);
  }

  lemma UninterruptedRefresh(
      cfg: Config, s: Auth, call: CallId, token: Claims, ttlAt: Micros, issue: Micros, a: Jti, r: Jti, reply: Reply)
    requires call !in s.calls && FreshIds(s.w, a, r) && s.w.now <= ttlAt <= issue
    requires CanRefresh(cfg, s.w.signed, s.w.deadlines, s.w.users, token, s.w.now)
    ensures var s' := RefreshSteps(cfg, s, call, token, ttlAt, issue, a, r, reply);
            s'.w == Refresh(cfg, s.w, token, ttlAt, issue, a, r, reply) && s'.calls == s.calls
  {
    ChecksPass(cfg, s, call, token, ttlAt, issue);
    RotationEnds(cfg, At(s, issue), call, Rotating(Check(token, |s.log|, s.w.now), s.w.now, ttlAt), a, r, reply);
    RotatedAt(cfg, s.w, token, ttlAt, issue, a, r, reply);
  }

  lemma RotatedAt(
      cfg: Config, w: World, token: Claims, ttlAt: Micros, issue: Micros, a: Jti, r: Jti, reply: Reply)
    ensures Rotated(cfg, w.(now := issue), token, ttlAt, issue, a, r, reply)
            == Rotated(cfg, w, token, ttlAt, issue, a, r, reply)
  {
  }

  lemma UninterruptedRefusal(
      cfg: Config, s: Auth, call: CallId, token: Claims, ttlAt: Micros, issue: Micros, a: Jti, r: Jti, reply: Reply)
    requires call !in s.calls && s.w.now <= ttlAt <= issue
    requires !CanRefresh(cfg, s.w.signed, s.w.deadlines, s.w.users, token, s.w.now)
    ensures RefreshSteps(cfg, s, call, token, ttlAt, issue, a, r, reply) == At(s, issue)
  {
    ChecksRefuse(cfg, s, call, token, ttlAt, issue);
  }

  lemma ChecksRefuse(cfg: Config, s: Auth, call: CallId, token: Claims, ttlAt: Micros, issue: Micros)
    requires call !in s.calls && s.w.now <= ttlAt <= issue
    requires !CanRefresh(cfg, s.w.signed, s.w.deadlines, s.w.users, token, s.w.now)
    ensures ChecksOf(cfg, s, call, token, ttlAt, issue) == At(s, issue)
  {
  }

  lemma UninterruptedLogin(cfg: Config, s: Auth, call: CallId, id: UserId, passwordOk: bool, a: Jti, r: Jti)
    requires call !in s.calls && FreshIds(s.w, a, r)
    ensures var s' := Next(cfg, Next(cfg, s, LookUp(call, id, Reply.Done)), SignIn(call, passwordOk, a, r));
            && s'.calls == s.calls
            && s'.w == match Login(cfg, s.w.users, id, passwordOk, s.w.now, a, r)
                       case Ok(pair) => Sign(s.w, pair, r)
                       case Err(_) => s.w
  {
  }

  /** An authenticated request is logged with its principal exactly when the token resolves. */
  lemma UninterruptedResolve(cfg: Config, s: Auth, call: CallId, token: Claims)
    requires call !in s.calls
    ensures var s' := Next(cfg, Next(cfg, s, VerifyAccess(call, token)), AskDenylist(call, Reply.Done));
            && s'.w == s.w && s'.calls == s.calls
            && s'.log == match Resolve(cfg, s.w.signed, s.w.deadlines, token, s.w.now)
                         case Some(p) => s.log + [Resolved(Check(token, |s.log|, s.w.now), p)]
                         case None => s.log
  {
  }

  lemma UninterruptedRevocation(
      cfg: Config, s: Auth, call: CallId, token: Claims, ttlAt: Micros, issue: Micros, reply: Reply)
    requires call !in s.calls && s.w.now <= ttlAt <= issue && Verifies(cfg, s.w.signed, token, None, s.w.now)
    ensures var s1 := At(Next(cfg, s, VerifyRevoked(call, token)), ttlAt);
            var s2 := Next(cfg, At(Next(cfg, s1, ReadTtl(call)), issue), Write(call, reply));
            s2.w == Revoke(cfg, s.w, token, ttlAt, issue, reply) && s2.calls == s.calls
  {
  }

  /** What the one-step refresh changes is what RefreshTokensUC changes. */
  lemma RefreshIsTheCall(
      cfg: Config, w: World, token: Claims, ttlAt: Micros, issue: Micros, a: Jti, r: Jti, reply: Reply)
    requires FreshIds(w, a, r)
    ensures var w' := Refresh(cfg, w, token, ttlAt, issue, a, r, reply);
            var ttl := RemainingTtl(token, ttlAt);
            var allowed := CanRefresh(cfg, w.signed, w.deadlines, w.users, token, w.now);
            && w'.deadlines
               == (if allowed && reply.TookEffect() then Deny(w.deadlines, token.jti, ttl, issue) else w.deadlines)
            && w'.signed == (if allowed && (ttl <= 0 || reply == Reply.Done) then
                               match IssuePair(cfg, token.role, issue, token.subject, a, r)
                               case None => w.signed
                               case Some(p) => w.signed + {p.access, p.refresh}
                             else w.signed)
  {
  }

  // ---- runs on which it goes wrong, with no failure anywhere ----

  function Token(cfg: Config): Claims {
    Mint(cfg, USER, REFRESH, 0, None, 1)
  }

  function Issued(cfg: Config): Auth {
    Next(cfg, INITIAL, Issue(USER, 0, 1))
  }

  /** A refresh of the token that has asked the denylist. */
  function Asked(cfg: Config, s: Auth, call: CallId): Auth {
    Next(cfg, Next(cfg, s, Verify(call, Token(cfg))), AskDenylist(call, Reply.Done))
  }

  /** The rest of it. */
  function Rest(cfg: Config, s: Auth, call: CallId, a: Jti, r: Jti): Auth {
    var s1 := Next(cfg, Next(cfg, s, AskActive(call, Reply.Done)), ReadTtl(call));
    Next(cfg, Next(cfg, s1, Write(call, Reply.Done)), Answer(call, a, r))
  }

  lemma IssuedToken(cfg: Config)
    requires cfg.enabled
    ensures var s := Issued(cfg);
            && s.w.now == 0 && s.calls == map[] && |s.log| == 1 && !s.log[0].Exchanges(Token(cfg))
            && Token(cfg) in s.w.signed && s.w.deadlines == map[] && s.w.minted == {0, 1} && s.w.users == map[]
  {
  }

  lemma RestReadsTtl(cfg: Config, s: Auth, call: CallId, check: Check)
    requires call in s.calls && s.calls[call] == Unlisted(check) && check.token == Token(cfg)
    ensures Next(cfg, Next(cfg, s, AskActive(call, Reply.Done)), ReadTtl(call))
            == Put(s, call, Rotating(check, s.w.now, s.w.now))
  {
  }

  lemma RestWrites(cfg: Config, s: Auth, call: CallId, check: Check)
    requires check.token == Token(cfg)
    ensures var s' := Next(cfg, Put(s, call, Rotating(check, s.w.now, s.w.now)), Write(call, Reply.Done));
            s' == Put(s.(w := Spend(s.w, Token(cfg), s.w.now, s.w.now)), call, Answering(check, s.w.now))
  {
  }

  /** An asked refresh of the token, finished without interruption. */
  lemma RestAnswers(cfg: Config, s: Auth, call: CallId, check: Check, a: Jti, r: Jti)
    requires call in s.calls && s.calls[call] == Unlisted(check) && check.token == Token(cfg)
    requires FreshIds(s.w, a, r)
    ensures var s' := Rest(cfg, s, call, a, r);
            && s'.calls == s.calls - {call} && s'.w.now == s.w.now && s'.w.minted == s.w.minted + {a, r}
            && |s'.log| == |s.log| + 1 && s.log <= s'.log
            && s'.log[|s.log|].Signed? && s'.log[|s.log|].cause == ByRefresh(check)
            && s.w.signed <= s'.w.signed
            && s'.w.deadlines == Deny(s.w.deadlines, 1, RemainingTtl(Token(cfg), s.w.now), s.w.now)
  {
    RestReadsTtl(cfg, s, call, check);
    RestWrites(cfg, s, call, check);
    var answering := Put(s.(w := Spend(s.w, Token(cfg), s.w.now, s.w.now)), call, Answering(check, s.w.now));
    assert Rest(cfg, s, call, a, r) == AnswerOne(cfg, answering, call, a, r);
  }

  /** Two refreshes of one token interleave, and both answer with a pair. */
  lemma RacedTwice(cfg: Config)
    requires cfg.enabled
    ensures var s := Rest(cfg, Rest(cfg, Asked(cfg, Asked(cfg, Issued(cfg), 0), 1), 0, 2, 3), 1, 4, 5);
            |s.log| == 3 && s.log[1].Exchanges(Token(cfg)) && s.log[2].Exchanges(Token(cfg)) && !Undisturbed(s.log)
  {
    IssuedToken(cfg);
    var check := Check(Token(cfg), 1, 0);
    var s := Asked(cfg, Asked(cfg, Issued(cfg), 0), 1);
    assert s.calls == map[0 := Unlisted(check), 1 := Unlisted(check)];
    assert s.w == Issued(cfg).w && s.log == Issued(cfg).log;
    RestAnswers(cfg, s, 0, check, 2, 3);
    var s1 := Rest(cfg, s, 0, 2, 3);
    RestAnswers(cfg, s1, 1, check, 4, 5);
    var s2 := Rest(cfg, s1, 1, 4, 5);
    assert s2.log[1] == s1.log[1];
    assert !Alone(s2.log, check, 2);
  }

  /** The instant at which the token expires. */
  function Expiry(cfg: Config): Micros {
    cfg.refreshTtl * SECOND
  }

  /** A second refresh verifies the token just before it expires, and asks the denylist when its entry has expired. */
  function AskedTooLate(cfg: Config, s: Auth): Auth {
    var verified := Next(cfg, At(s, Expiry(cfg) - 1), Verify(1, Token(cfg)));
    Next(cfg, At(verified, Expiry(cfg)), AskDenylist(1, Reply.Done))
  }

  lemma TooLatePasses(cfg: Config, s: Auth)
    requires cfg.enabled && Token(cfg) in s.w.signed && s.calls == map[] && s.w.deadlines == map[1 := Expiry(cfg)]
    ensures AskedTooLate(cfg, s)
            == Put(At(s, Expiry(cfg)), 1, Unlisted(Check(Token(cfg), |s.log|, Expiry(cfg))))
  {
  }

  /** One refresh after the other exchanges the same token, if the second one stalls while the token expires. */
  lemma ExpiredTwice(cfg: Config)
    requires cfg.enabled
    ensures var first := Rest(cfg, Asked(cfg, Issued(cfg), 0), 0, 2, 3);
            var s := Rest(cfg, AskedTooLate(cfg, first), 1, 4, 5);
            |s.log| == 3 && s.log[1].Exchanges(Token(cfg)) && s.log[2].Exchanges(Token(cfg)) && !Undisturbed(s.log)
  {
    IssuedToken(cfg);
    var check := Check(Token(cfg), 1, 0);
    var s := Asked(cfg, Issued(cfg), 0);
    assert s == Put(Issued(cfg), 0, Unlisted(check));
    RestAnswers(cfg, s, 0, check, 2, 3);
    var first := Rest(cfg, s, 0, 2, 3);
    assert RemainingTtl(Token(cfg), 0) == cfg.refreshTtl;
    TooLatePasses(cfg, first);
    var late := Check(Token(cfg), 2, Expiry(cfg));
    RestAnswers(cfg, AskedTooLate(cfg, first), 1, late, 4, 5);
    var s2 := Rest(cfg, AskedTooLate(cfg, first), 1, 4, 5);
    assert s2.log[1] == first.log[1];
    assert !Alone(s2.log, late, 2);
  }

  /** A login that looked its user up before the deactivation and signs two seconds after it. */
  function LateLogin(cfg: Config): Auth {
    var s1 := Next(cfg, Next(cfg, INITIAL, Register(0, USER)), LookUp(0, 0, Reply.Done));
    Next(cfg, At(Next(cfg, s1, Deactivate(0)), 2 * SECOND), SignIn(0, true, 0, 1))
  }

  /** Its token still resolves when the access TTL has passed since the deactivation. */
  lemma LateLoginResolves(cfg: Config)
    requires cfg.enabled
    ensures var s := At(LateLogin(cfg), (cfg.accessTtl + 1) * SECOND);
            && s.w.users[0].deletedAt == Some(0) && |s.log| == 1 && Straddles(s.w, s.log[0])
            && Resolve(cfg, s.w.signed, s.w.deadlines, s.log[0].pair.access, s.w.now).Some?
  {
  }
}

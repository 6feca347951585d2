/** JWT credentials over time: minting, verification, one-time refresh, revocation and deactivation. */
module Credentials {
  import opened Wrappers

  /** Microseconds on the one clock that the service and Valkey share. */
  type Micros = nat
  type Jti = nat
  type UserId = nat

  const SECOND: nat := 1_000_000

  datatype Role = UNKNOWN | USER | ADMIN

  datatype TokenType = ACCESS | REFRESH

  /** The claims of a signed token. A signature cannot be forged, so a token decodes exactly when
      these claims were signed; `exp` is in whole seconds. `subject` is the stored user, if any. */
  datatype Claims = Claims(
    iss: string, subject: Option<UserId>, role: Role, tokenType: TokenType, jti: Jti, iat: Micros, exp: int)

  datatype Config = Config(enabled: bool, issuer: string, accessTtl: Positive, refreshTtl: Positive)

  datatype TokenPair = TokenPair(access: Claims, refresh: Claims, expiresIn: nat)

  datatype Principal = Principal(role: Role, tokenId: Jti, subject: Option<UserId>)

  datatype User = User(role: Role, deletedAt: Option<Micros>)

  datatype AuthError = PortError | JwtDisabled | UserNotFound

  // ---- JwtService ----

  function Ttl(cfg: Config, t: TokenType): Positive {
    if t == ACCESS then cfg.accessTtl else cfg.refreshTtl
  }

  /** _claims, with the expiry converted to whole seconds as the codec does. */
  function Mint(cfg: Config, role: Role, t: TokenType, now: Micros, subject: Option<UserId>, jti: Jti): Claims {
    Claims(cfg.issuer, subject, role, t, jti, now, now / SECOND + Ttl(cfg, t))
  }

  function IssuePair(cfg: Config, role: Role, now: Micros, subject: Option<UserId>, accessJti: Jti, refreshJti: Jti)
    : Option<TokenPair>
  {
    if !cfg.enabled then None
    else Some(TokenPair(Mint(cfg, role, ACCESS, now, subject, accessJti),
                        Mint(cfg, role, REFRESH, now, subject, refreshJti), cfg.accessTtl))
  }

  predicate Expired(c: Claims, now: Micros) {
    c.exp * SECOND <= now
  }

  /** verify: signature, issuer, type when one is expected, and expiry. */
  predicate Verifies(cfg: Config, signed: set<Claims>, c: Claims, expected: Option<TokenType>, now: Micros) {
    && cfg.enabled && c in signed
    && c.iss == cfg.issuer
    && (expected.Some? ==> c.tokenType == expected.value)
    && !Expired(c, now)
  }

  // ---- the denylist ----

  /** When each denylist key expires. */
  type Deadlines = map<Jti, Micros>

  /** SET key 1 EX ttl; nothing at all when the ttl is not positive. */
  function Deny(deadlines: Deadlines, jti: Jti, ttl: int, now: Micros): Deadlines {
    if ttl <= 0 then deadlines else deadlines[jti := now + ttl * SECOND]
  }

  predicate Denied(deadlines: Deadlines, jti: Jti, now: Micros) {
    jti in deadlines && now < deadlines[jti]
  }

  /** math.ceil of a duration in seconds. */
  function CeilSeconds(micros: int): int {
    (micros + SECOND - 1) / SECOND
  }

  function RemainingTtl(c: Claims, now: Micros): int {
    CeilSeconds(c.exp * SECOND - now)
  }

  /** A token that still verifies gets at least one second, and the entry lasts to its expiry or past it, by less than
      a second more than the write came late. */
  lemma RoundedTtlCoversToken(c: Claims, now: Micros, later: Micros)
    requires now <= later
    ensures !Expired(c, now) <==> RemainingTtl(c, now) >= 1
    ensures later + RemainingTtl(c, now) * SECOND >= c.exp * SECOND
    ensures later + RemainingTtl(c, now) * SECOND < c.exp * SECOND + SECOND + (later - now)
  {
  }

  /** An entry denies its own token until its time has passed, and no other token; a ttl that is not positive denies
      nothing. */
  lemma DeniesFor(deadlines: Deadlines, jti: Jti, ttl: int, now: Micros, j: Jti, later: Micros)
    ensures Denied(Deny(deadlines, jti, ttl, now), j, later)
            <==> if j == jti && ttl > 0 then later < now + ttl * SECOND else j in deadlines && later < deadlines[j]
  {
  }

  /** A token listed while it has not expired is denied at least until it expires. */
  lemma ListedIsDeniedToExpiry(deadlines: Deadlines, c: Claims, ttlAt: Micros, issue: Micros, later: Micros)
    requires ttlAt <= issue && ttlAt < c.exp * SECOND && later < c.exp * SECOND
    ensures Denied(Deny(deadlines, c.jti, RemainingTtl(c, ttlAt), issue), c.jti, later)
  {
    RoundedTtlCoversToken(c, ttlAt, issue);
  }

  class ValkeyDenylist {
    var deadlines: Deadlines

    constructor ()
      ensures deadlines == map[]
    {
      deadlines := map[];
    }

    method Add(jti: Jti, ttlSeconds: int, now: Micros, reply: Reply) returns (r: Result<(), AuthError>)
      modifies this
      ensures r == (if ttlSeconds <= 0 || reply == Reply.Done then Ok(()) else Err(PortError))
      ensures deadlines == if reply.TookEffect() then Deny(old(deadlines), jti, ttlSeconds, now) else old(deadlines)
    {
      if ttlSeconds <= 0 {
        return Ok(());
      }
      if reply.TookEffect() {
        deadlines := deadlines[jti := now + ttlSeconds * SECOND];
      }
      r := if reply.Raised() then Err(PortError) else Ok(());
    }

    method Contains(jti: Jti, now: Micros, reply: Reply) returns (r: Result<bool, AuthError>)
      ensures r == if reply.Raised() then Err(PortError) else Ok(Denied(deadlines, jti, now))
    {
      r := if reply.Raised() then Err(PortError) else Ok(jti in deadlines && now < deadlines[jti]);
    }
  }

  class SqlUserRepo {
    var users: map<UserId, User>

    constructor ()
      ensures users == map[]
    {
      users := map[];
    }

    /** The id is a fresh uuid4. */
    method Register(id: UserId, role: Role)
      requires id !in users
      modifies this
      ensures users == Registered(old(users), id, role)
      ensures id in users && users[id] == User(role, None) && users - {id} == old(users)
    {
      users := users[id := User(role, None)];
    }

    method IsActive(id: UserId, reply: Reply) returns (r: Result<bool, AuthError>)
      ensures r == if reply.Raised() then Err(PortError) else Ok(Active(users, id))
    {
      r := if reply.Raised() then Err(PortError) else Ok(id in users && users[id].deletedAt.None?);
    }

    method SoftDelete(id: UserId, now: Micros) returns (deleted: bool)
      modifies this
      ensures deleted <==> Active(old(users), id)
      ensures users == Deactivated(old(users), id, now)
      ensures deleted ==> users[id].deletedAt == Some(now) && users - {id} == old(users) - {id}
      ensures !deleted ==> users == old(users)
    {
      deleted := id in users && users[id].deletedAt.None?;
      if deleted {
        users := users[id := users[id].(deletedAt := Some(now))];
      }
    }
  }

  predicate Active(users: map<UserId, User>, id: UserId) {
    id in users && users[id].deletedAt.None?
  }

  /** A new user is active; an id that is taken keeps its user. */
  function Registered(users: map<UserId, User>, id: UserId, role: Role): map<UserId, User> {
    if id in users then users else users[id := User(role, None)]
  }

  function Deactivated(users: map<UserId, User>, id: UserId, now: Micros): map<UserId, User> {
    if Active(users, id) then users[id := users[id].(deletedAt := Some(now))] else users
  }

  // ---- the use cases ----

  /** The instants at which one call reads the clock: verification and the denylist check, the
      remaining ttl, and the denylist write with the new pair. */
  datatype Clock = Clock(verify: Micros, ttl: Micros, issue: Micros) {
    predicate Monotone() {
      verify <= ttl <= issue
    }
  }

  predicate CanRefresh(
      cfg: Config, signed: set<Claims>, deadlines: Deadlines, users: map<UserId, User>, c: Claims, now: Micros) {
    && Verifies(cfg, signed, c, Some(REFRESH), now)
    && !Denied(deadlines, c.jti, now)
    && (c.subject.Some? ==> Active(users, c.subject.value))
  }

  /** How the three store calls of a refresh end. */
  datatype RefreshReplies = RefreshReplies(check: Reply, active: Reply, add: Reply)

  class RefreshTokensUC {
    const cfg: Config
    const denylist: ValkeyDenylist
    const users: SqlUserRepo

    constructor (cfg: Config, denylist: ValkeyDenylist, users: SqlUserRepo)
      ensures this.cfg == cfg && this.denylist == denylist && this.users == users
    {
      this.cfg, this.denylist, this.users := cfg, denylist, users;
    }

    /** A lookup that fails ends the call with nothing spent and nothing issued. */
    method Call(signed: set<Claims>, token: Claims, clock: Clock, accessJti: Jti, refreshJti: Jti, rs: RefreshReplies)
      returns (r: Result<Option<TokenPair>, AuthError>)
      requires clock.Monotone()
      modifies denylist
      ensures var lookupFails := Verifies(cfg, signed, token, Some(REFRESH), clock.verify)
                && (rs.check.Raised()
                    || (!Denied(old(denylist.deadlines), token.jti, clock.verify) && token.subject.Some?
                       && rs.active.Raised()));
              var allowed := CanRefresh(cfg, signed, old(denylist.deadlines), users.users, token, clock.verify);
              var ttl := RemainingTtl(token, clock.ttl);
              && (lookupFails ==> r == Err(PortError) && denylist.deadlines == old(denylist.deadlines))
              && (!lookupFails && !allowed ==> r == Ok(None) && denylist.deadlines == old(denylist.deadlines))
              && (!lookupFails && allowed ==>
                    && denylist.deadlines == (if rs.add.TookEffect() then
                       Deny(old(denylist.deadlines), token.jti, ttl, clock.issue)
                                              else old(denylist.deadlines))
                    && r == if ttl > 0 && rs.add.Raised() then Err(PortError)
                            else Ok(IssuePair(cfg, token.role, clock.issue, token.subject, accessJti, refreshJti)))
      ensures r.Ok? && r.value.Some? ==>
                && token in signed && token.tokenType == REFRESH && clock.verify < token.exp * SECOND
                && forall c | c in {r.value.value.access, r.value.value.refresh} ::
                  c.role == token.role && c.subject == token.subject && c.iat == clock.issue
    {
      if !Verifies(cfg, signed, token, Some(REFRESH), clock.verify) {
        return Ok(None);
      }
      var reused := denylist.Contains(token.jti, clock.verify, rs.check);
      if reused.Err? {
        return Err(PortError);
      }
      if reused.value {
        return Ok(None);
      }
      if token.subject.Some? {
        var active := users.IsActive(token.subject.value, rs.active);
        if active.Err? {
          return Err(PortError);
        }
        if !active.value {
          return Ok(None);
        }
      }
      var ttl := CeilSeconds(token.exp * SECOND - clock.ttl);
      var added := denylist.Add(token.jti, ttl, clock.issue, rs.add);
      if added.Err? {
        return Err(PortError);
      }
      r := Ok(IssuePair(cfg, token.role, clock.issue, token.subject, accessJti, refreshJti));
    }
  }

  class RevokeTokenUC {
    const cfg: Config
    const denylist: ValkeyDenylist

    constructor (cfg: Config, denylist: ValkeyDenylist)
      ensures this.cfg == cfg && this.denylist == denylist
    {
      this.cfg, this.denylist := cfg, denylist;
    }

    /** A token that does not verify is a silent no-op. */
    method Call(signed: set<Claims>, token: Claims, clock: Clock, reply: Reply) returns (r: Result<(), AuthError>)
      requires clock.Monotone()
      modifies denylist
      ensures var verified := Verifies(cfg, signed, token, None, clock.verify);
              var ttl := RemainingTtl(token, clock.ttl);
              && denylist.deadlines == (if verified && reply.TookEffect() then
                 Deny(old(denylist.deadlines), token.jti, ttl, clock.issue)
                                        else old(denylist.deadlines))
              && (r.Err? <==> verified && ttl > 0 && reply.Raised())
    {
      if !Verifies(cfg, signed, token, None, clock.verify) {
        return Ok(());
      }
      var ttl := CeilSeconds(token.exp * SECOND - clock.ttl);
      r := denylist.Add(token.jti, ttl, clock.issue, reply);
    }
  }

  /** LoginUserUC once the e-mail is looked up and the password verified or not. */
  function Login(
      cfg: Config, users: map<UserId, User>, id: UserId, passwordOk: bool, now: Micros, accessJti: Jti, refreshJti: Jti)
    : Result<Option<TokenPair>, AuthError>
  {
    if !Active(users, id) || !passwordOk then Ok(None)
    else
      match IssuePair(cfg, users[id].role, now, Some(id), accessJti, refreshJti)
      case None => Err(JwtDisabled)
      case Some(pair) => Ok(Some(pair))
  }

  /** JwtTokenResolver.resolve on a token that has the shape of a JWT. */
  function Resolve(cfg: Config, signed: set<Claims>, deadlines: Deadlines, c: Claims, now: Micros): Option<Principal> {
    if !Verifies(cfg, signed, c, Some(ACCESS), now) || Denied(deadlines, c.jti, now) then None
    else Some(PrincipalOf(c))
  }

  function PrincipalOf(c: Claims): Principal {
    Principal(c.role, c.jti, c.subject)
  }

  // ---- what a caller gets ----

  /** An issued pair: an access and a refresh token of the asked role and subject, under the given ids, from this
      instant to the whole second that its TTL ends in; and the TTL of the access token. */
  lemma PairIsAsAsked(cfg: Config, role: Role, now: Micros, subject: Option<UserId>, accessJti: Jti, refreshJti: Jti)
    ensures match IssuePair(cfg, role, now, subject, accessJti, refreshJti)
            case None => !cfg.enabled
            case Some(p) =>
              && cfg.enabled && p.expiresIn == cfg.accessTtl
              && p.access.tokenType == ACCESS && p.access.jti == accessJti
              && p.refresh.tokenType == REFRESH && p.refresh.jti == refreshJti
              && (forall c | c in {p.access, p.refresh} ::
                    c.iss == cfg.issuer && c.role == role && c.subject == subject && c.iat == now)
              && p.access.exp * SECOND <= now + cfg.accessTtl * SECOND < p.access.exp * SECOND + SECOND
              && p.refresh.exp * SECOND <= now + cfg.refreshTtl * SECOND < p.refresh.exp * SECOND + SECOND
  {
  }

  /** A pair verifies exactly until it expires, each token for its own use or for a revocation. */
  lemma PairWorks(cfg: Config, signed: set<Claims>, p: TokenPair, now: Micros, later: Micros)
    requires p.access in signed && p.refresh in signed
    requires IssuePair(cfg, p.access.role, now, p.access.subject, p.access.jti, p.refresh.jti) == Some(p)
    ensures Verifies(cfg, signed, p.access, Some(ACCESS), later) <==> later < p.access.exp * SECOND
    ensures Verifies(cfg, signed, p.refresh, Some(REFRESH), later) <==> later < p.refresh.exp * SECOND
    ensures Verifies(cfg, signed, p.access, None, later) <==> later < p.access.exp * SECOND
    ensures Verifies(cfg, signed, p.refresh, None, later) <==> later < p.refresh.exp * SECOND
    ensures !Verifies(cfg, signed, p.access, Some(REFRESH), later)
    ensures !Verifies(cfg, signed, p.refresh, Some(ACCESS), later)
  {
  }

  /** A token resolves exactly while it is a signed access token of this issuer that has neither expired nor been
      listed, and then to the role, id and subject that it carries. */
  lemma ResolvesToItsToken(cfg: Config, signed: set<Claims>, deadlines: Deadlines, c: Claims, now: Micros)
    ensures Resolve(cfg, signed, deadlines, c, now).Some?
            <==> cfg.enabled && c in signed && c.iss == cfg.issuer && c.tokenType == ACCESS && now < c.exp * SECOND
                 && !(c.jti in deadlines && now < deadlines[c.jti])
    ensures match Resolve(cfg, signed, deadlines, c, now)
            case None => true
            case Some(p) => p.role == c.role && p.tokenId == c.jti && p.subject == c.subject
  {
  }

  /** A refresh goes ahead exactly for a signed refresh token of this issuer that has neither expired nor been listed,
      of no user or of an active one. */
  lemma RefreshesWhen(
      cfg: Config, signed: set<Claims>, deadlines: Deadlines, users: map<UserId, User>, c: Claims, now: Micros)
    ensures CanRefresh(cfg, signed, deadlines, users, c, now)
            <==> cfg.enabled && c in signed && c.iss == cfg.issuer && c.tokenType == REFRESH && now < c.exp * SECOND
                 && !(c.jti in deadlines && now < deadlines[c.jti])
                 && (c.subject == None || (c.subject.value in users && users[c.subject.value].deletedAt == None))
  {
  }

  /** A login answers with a pair exactly for an active user with the right password, for that user and role. */
  lemma LoginIsForTheUser(
      cfg: Config, users: map<UserId, User>, id: UserId, ok: bool, now: Micros, accessJti: Jti, refreshJti: Jti)
    ensures match Login(cfg, users, id, ok, now, accessJti, refreshJti)
            case Ok(None) => !(id in users && users[id].deletedAt == None && ok)
            case Ok(Some(p)) =>
              && id in users && users[id].deletedAt == None && ok && cfg.enabled
              && (forall c | c in {p.access, p.refresh} :: c.subject == Some(id) && c.role == users[id].role)
            case Err(e) => id in users && users[id].deletedAt == None && ok && !cfg.enabled && e == JwtDisabled
  {
  }
}

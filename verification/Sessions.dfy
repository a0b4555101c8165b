/** Access and refresh tokens: login, rotation with a retry window, logout, device revocation and
    expiry. */
module Sessions {
  import opened Common

  /** A token stands for its hash and for its row's identifier. */
  type Token = nat

  const SECOND: Time := 1_000_000_000
  const REFRESH_TOKEN_TTL: Time := 30 * 24 * 3600 * SECOND
  const REFRESH_RETRY_GRACE: Time := 60 * SECOND

  datatype Device = Device(user: Id, key: Bytes, keyVersion: int, revokedAt: Option<Time>)

  datatype RefreshRow = RefreshRow(user: Id, device: Id, expiresAt: Time, revokedAt: Option<Time>,
        rotatedTo: Option<Token>)

  datatype AccessRow = AccessRow(user: Id, device: Id, expiresAt: Time)

  /** `users` maps an account to whether its status is ACTIVE. */
  datatype Auth = Auth(users: map<Id, bool>, devices: map<Id, Device>, refresh: map<Token, RefreshRow>,
        access: map<Token, AccessRow>)

  /** The tokens handed to the client; both are drawn at random before the transaction. */
  datatype Pair = Pair(access: Token, refresh: Token)

  /** Some calls change the tables and still fail. */
  datatype Called<+T> = Called(auth: Auth, result: Result<T>)

  // ---------------------------------------------------------------- what the calls compute

  predicate Unused(s: Auth, p: Pair) {
    p.access !in s.access && p.refresh !in s.refresh
  }

  function Issued(s: Auth, user: Id, device: Id, p: Pair, now: Time, ttl: Time): Auth {
    s.(access := s.access[p.access := AccessRow(user, device, now + ttl)],
       refresh := s.refresh[p.refresh := RefreshRow(user, device, now + REFRESH_TOKEN_TTL, None, None)])
  }

  /** Every live refresh token of the device is revoked now. */
  function AllRevoked(refresh: map<Token, RefreshRow>, device: Id, now: Time): map<Token, RefreshRow> {
    map r | r in refresh ::
      if refresh[r].device == device && refresh[r].revokedAt.None?
      then refresh[r].(revokedAt := Some(now)) else refresh[r]
  }

  function WithoutAccess(access: map<Token, AccessRow>, device: Id): map<Token, AccessRow> {
    map a | a in access && access[a].device != device :: access[a]
  }

  /** The live tokens of the device other than the new one are revoked in its favour. */
  function Rotated(refresh: map<Token, RefreshRow>, device: Id, newest: Token, now: Time): map<Token, RefreshRow> {
    map r | r in refresh ::
      if refresh[r].device == device && refresh[r].revokedAt.None? && r != newest
      then refresh[r].(revokedAt := Some(now), rotatedTo := Some(newest)) else refresh[r]
  }

  /** Older access tokens of the device end at `until` at the latest. */
  function CutShort(access: map<Token, AccessRow>, device: Id, newest: Token, until: Time): map<Token, AccessRow> {
    map a | a in access ::
      if access[a].device == device && a != newest && access[a].expiresAt > until
      then access[a].(expiresAt := until) else access[a]
  }

  /** The presented token may be exchanged, as far as its own row says. */
  function TokenUsable(row: RefreshRow, now: Time): Check {
    if now >= row.expiresAt then Fail(TokenInvalid)
    else if row.revokedAt.None? then Pass
    else Need(row.rotatedTo.Some? && now - row.revokedAt.value <= REFRESH_RETRY_GRACE, TokenInvalid)
  }

  /** A rotated token presented after the retry window: two parties hold the chain. */
  predicate Reused(row: RefreshRow, now: Time) {
    now < row.expiresAt && row.revokedAt.Some? && row.rotatedTo.Some? && now - row.revokedAt.value > REFRESH_RETRY_GRACE
  }

  /** The account is active and the device is the account's and not revoked. */
  function Holder(s: Auth, user: Id, device: Id): Check {
    if user !in s.users then Fail(TokenInvalid)
    else if !s.users[user] then Fail(AccountDisabled)
    else if device !in s.devices || s.devices[device].user != user then Fail(TokenInvalid)
    else Need(s.devices[device].revokedAt.None?, DeviceRevoked)
  }

  function Exchange(s: Auth, row: RefreshRow, p: Pair, now: Time, ttl: Time): Result<Auth> {
    var i := Issued(s, row.user, row.device, p, now, ttl);
    :- Holder(s, row.user, row.device);
    :- Need(Unused(s, p), IdTaken);
    Ok(i.(refresh := Rotated(i.refresh, row.device, p.refresh, now),
          access := CutShort(i.access, row.device, p.access, now + REFRESH_RETRY_GRACE)))
  }

  function RefreshCall(s: Auth, token: Token, p: Pair, now: Time, ttl: Time): Called<Pair> {
    if token !in s.refresh then Called(s, Err(TokenInvalid))
    else
      var row := s.refresh[token];
      if Reused(row, now)
      then Called(s.(refresh := AllRevoked(s.refresh, row.device, now), access := WithoutAccess(s.access, row.device)),
                  Err(TokenInvalid))
      else match TokenUsable(row, now)
        case Fail(e) => Called(s, Err(e))
        case Pass =>
          match Exchange(s, row, p, now, ttl)
          case Err(e) => Called(s, Err(e))
          case Ok(s') => Called(s', Ok(p))
  }

  /** A returning device must present its own account and key; a new one is registered. */
  function Registered(s: Auth, user: Id, device: Id, key: Bytes, keyVersion: int): Result<Auth> {
    if device !in s.devices then Ok(s.(devices := s.devices[device := Device(user, key, keyVersion, None)]))
    else if s.devices[device].user != user then Err(IdTaken)
    else if s.devices[device].revokedAt.Some? then Err(DeviceRevoked)
    else if s.devices[device].key != key || s.devices[device].keyVersion != keyVersion then Err(IdTaken)
    else Ok(s)
  }

  /** The transaction of a login whose password has been verified. */
  function LoginCall(s: Auth, user: Id, device: Id, key: Bytes, keyVersion: int, p: Pair, now: Time,
        ttl: Time): Called<Pair>
  {
    if user !in s.users then Called(s, Err(NotFound))
    else if !s.users[user] then Called(s, Err(AccountDisabled))
    else match Registered(s, user, device, key, keyVersion)
      case Err(e) => Called(s, Err(e))
      case Ok(d) => if Unused(s, p) then Called(Issued(d, user, device, p, now, ttl), Ok(p))
        else Called(s, Err(IdTaken))
  }

  function LogoutCall(s: Auth, token: Token, now: Time): Auth {
    if token !in s.refresh || s.refresh[token].revokedAt.Some? then s
    else s.(refresh := s.refresh[token := s.refresh[token].(revokedAt := Some(now))],
            access := WithoutAccess(s.access, s.refresh[token].device))
  }

  function Authenticated(s: Auth, token: Token, now: Time): Result<(Id, Id)> {
    if token !in s.access then Err(TokenInvalid) else
    var a := s.access[token];
    :- Need(a.user in s.users && a.device in s.devices, TokenInvalid);
    :- Need(now < a.expiresAt && s.users[a.user], TokenInvalid);
    :- Need(s.devices[a.device].revokedAt.None?, DeviceRevoked);
    Ok((a.user, a.device))
  }

  function RevokeDeviceCall(s: Auth, user: Id, device: Id, now: Time): Called<()> {
    if device !in s.devices || s.devices[device].user != user || s.devices[device].revokedAt.Some?
    then Called(s, Err(NotFound))
    else
      Called(s.(devices := s.devices[device := s.devices[device].(revokedAt := Some(now))],
                refresh := AllRevoked(s.refresh, device, now)), Ok(()))
  }

  function Expired(s: Auth, now: Time): Auth {
    s.(access := map a | a in s.access && now < s.access[a].expiresAt :: s.access[a],
       refresh := map r | r in s.refresh && now < s.refresh[r].expiresAt :: s.refresh[r])
  }

  // ---------------------------------------------------------------- the service

  class TokenService {
    var users: map<Id, bool>
    var devices: map<Id, Device>
    var refresh: map<Token, RefreshRow>
    var access: map<Token, AccessRow>

    function Contents(): Auth
      reads this
    {
      Auth(users, devices, refresh, access)
    }

    constructor (s: Auth)
      ensures Contents() == s
    {
      users, devices, refresh, access := s.users, s.devices, s.refresh, s.access;
    }

    method IssueTokens(user: Id, device: Id, p: Pair, now: Time, ttl: Time) returns (ok: bool)
      modifies this`access, this`refresh
      ensures ok <==> Unused(old(Contents()), p)
      ensures Contents() == if ok then Issued(old(Contents()), user, device, p, now, ttl) else old(Contents())
    {
      if p.access in access || p.refresh in refresh {
        return false;
      }
      access := access[p.access := AccessRow(user, device, now + ttl)];
      refresh := refresh[p.refresh := RefreshRow(user, device, now + REFRESH_TOKEN_TTL, None, None)];
      ok := true;
    }

    method UpsertDevice(user: Id, device: Id, key: Bytes, keyVersion: int) returns (r: Result<()>)
      modifies this`devices
      ensures match Registered(old(Contents()), user, device, key, keyVersion)
              case Ok(s) => r == Ok(()) && Contents() == s
              case Err(e) => r == Err(e) && Contents() == old(Contents())
    {
      if device !in devices {
        devices := devices[device := Device(user, key, keyVersion, None)];
        return Ok(());
      }
      if devices[device].user != user {
        return Err(IdTaken);
      }
      if devices[device].revokedAt.Some? {
        return Err(DeviceRevoked);
      }
      if devices[device].key != key || devices[device].keyVersion != keyVersion {
        return Err(IdTaken);
      }
      r := Ok(());
    }

    method Login(user: Id, device: Id, key: Bytes, keyVersion: int, p: Pair, now: Time,
          ttl: Time) returns (r: Result<Pair>)
      modifies this
      ensures Called(Contents(), r) == LoginCall(old(Contents()), user, device, key, keyVersion, p, now, ttl)
    {
      if user !in users {
        return Err(NotFound);
      }
      if !users[user] {
        return Err(AccountDisabled);
      }
      var before := devices;
      var _ :- UpsertDevice(user, device, key, keyVersion);
      var ok := IssueTokens(user, device, p, now, ttl);
      if !ok {
        devices := before;
        return Err(IdTaken);
      }
      r := Ok(p);
    }

    method Refresh(token: Token, p: Pair, now: Time, ttl: Time) returns (r: Result<Pair>)
      modifies this
      ensures Called(Contents(), r) == RefreshCall(old(Contents()), token, p, now, ttl)
    {
      if token !in refresh {
        return Err(TokenInvalid);
      }
      var row := refresh[token];
      if now >= row.expiresAt {
        return Err(TokenInvalid);
      }
      if row.revokedAt.Some? {
        if row.rotatedTo.None? {
          return Err(TokenInvalid);
        }
        if now - row.revokedAt.value > REFRESH_RETRY_GRACE {
          refresh := AllRevoked(refresh, row.device, now);
          access := WithoutAccess(access, row.device);
          return Err(TokenInvalid);
        }
      }
      :- Holder(Contents(), row.user, row.device);
      var ok := IssueTokens(row.user, row.device, p, now, ttl);
      if !ok {
        return Err(IdTaken);
      }
      refresh := Rotated(refresh, row.device, p.refresh, now);
      access := CutShort(access, row.device, p.access, now + REFRESH_RETRY_GRACE);
      r := Ok(p);
    }

    method Logout(token: Token, now: Time)
      modifies this`refresh, this`access
      ensures Contents() == LogoutCall(old(Contents()), token, now)
    {
      if token in refresh && refresh[token].revokedAt.None? {
        var device := refresh[token].device;
        refresh := refresh[token := refresh[token].(revokedAt := Some(now))];
        access := WithoutAccess(access, device);
      }
    }

    method RevokeDevice(user: Id, device: Id, now: Time) returns (r: Result<()>)
      modifies this`devices, this`refresh
      ensures Called(Contents(), r) == RevokeDeviceCall(old(Contents()), user, device, now)
    {
      if device !in devices || devices[device].user != user || devices[device].revokedAt.Some? {
        return Err(NotFound);
      }
      devices := devices[device := devices[device].(revokedAt := Some(now))];
      refresh := AllRevoked(refresh, device, now);
      r := Ok(());
    }
  }

  // ---------------------------------------------------------------- runs

  datatype Call =
    | Login(user: Id, device: Id, key: Bytes, keyVersion: int, pair: Pair)
    | Rotate(token: Token, pair: Pair)
    | Logout(token: Token)
    | RevokeDevice(user: Id, device: Id)
    | CleanUp
    | SetAccounts(users: map<Id, bool>)

  datatype Event = Event(now: Time, call: Call)

  function Step(s: Auth, e: Event, ttl: Time): Auth {
    match e.call
    case Login(user, device, key, keyVersion, p) => LoginCall(s, user, device, key, keyVersion, p, e.now, ttl).auth
    case Rotate(token, p) => RefreshCall(s, token, p, e.now, ttl).auth
    case Logout(token) => LogoutCall(s, token, e.now)
    case RevokeDevice(user, device) => RevokeDeviceCall(s, user, device, e.now).auth
    case CleanUp => Expired(s, e.now)
    case SetAccounts(users) => s.(users := users)
  }

  function Run(s: Auth, es: seq<Event>, ttl: Time): Auth
    decreases |es|
  {
    if es == [] then s else Step(Run(s, es[..|es| - 1], ttl), es[|es| - 1], ttl)
  }

  /** The pair that a call hands out, if it succeeds. */
  function Granted(s: Auth, e: Event, ttl: Time): set<Pair> {
    match e.call
    case Login(user, device, key, keyVersion, p) =>
      if LoginCall(s, user, device, key, keyVersion, p, e.now, ttl).result.Ok? then {p} else {}
    case Rotate(token, p) => if RefreshCall(s, token, p, e.now, ttl).result.Ok? then {p} else {}
    case _ => {}
  }

  /** All pairs handed out during a run. */
  function GrantedBy(s: Auth, es: seq<Event>, ttl: Time): set<Pair>
    decreases |es|
  {
    if es == [] then {} else GrantedBy(s, es[..|es| - 1], ttl) + Granted(Run(s, es[..|es| - 1], ttl), es[|es| - 1], ttl)
  }

  // ---------------------------------------------------------------- one-minute takeover

  predicate RefreshOf(pairs: set<Pair>, r: Token) {
    exists p | p in pairs :: p.refresh == r
  }

  predicate AccessOf(pairs: set<Pair>, a: Token) {
    exists p | p in pairs :: p.access == a
  }

  /** Every other refresh token of the device was revoked by time t, and every other access token
      ends a retry window after t. */
  ghost predicate Superseded(s: Auth, device: Id, t: Time, pairs: set<Pair>) {
    && (forall r ::
          r in s.refresh && s.refresh[r].device == device && !RefreshOf(pairs, r) ==>
            s.refresh[r].revokedAt.Some? && s.refresh[r].revokedAt.value <= t)
    && (forall a ::
          a in s.access && s.access[a].device == device && !AccessOf(pairs, a) ==>
            s.access[a].expiresAt <= t + REFRESH_RETRY_GRACE)
  }

  /** No token was revoked in the future. */
  ghost predicate RevokedBy(s: Auth, now: Time) {
    forall r :: r in s.refresh && s.refresh[r].revokedAt.Some? ==> s.refresh[r].revokedAt.value <= now
  }

  lemma StepRevokedBy(s: Auth, e: Event, ttl: Time, before: Time)
    requires RevokedBy(s, before) && before <= e.now
    ensures RevokedBy(Step(s, e, ttl), e.now)
  {
  }

  /** A successful rotation supersedes everything older. */
  lemma RotationSupersedes(s: Auth, token: Token, p: Pair, now: Time, ttl: Time)
    requires RevokedBy(s, now) && RefreshCall(s, token, p, now, ttl).result.Ok?
    ensures Superseded(RefreshCall(s, token, p, now, ttl).auth, s.refresh[token].device, now, {p})
  {
    assert RefreshOf({p}, p.refresh) && AccessOf({p}, p.access);
  }

  lemma MorePairs(pairs: set<Pair>, more: set<Pair>)
    ensures forall r :: RefreshOf(pairs, r) || RefreshOf(more, r) <==> RefreshOf(pairs + more, r)
    ensures forall a :: AccessOf(pairs, a) || AccessOf(more, a) <==> AccessOf(pairs + more, a)
  {
    forall p, q | p in pairs || q in more
      ensures (p in pairs ==> p in pairs + more) && (q in more ==> q in pairs + more)
    {
    }
  }

  lemma IssuedStaysSuperseded(s: Auth, user: Id, d: Id, p: Pair, now: Time, ttl: Time, device: Id, t: Time,
        pairs: set<Pair>)
    requires Superseded(s, device, t, pairs)
    ensures Superseded(Issued(s, user, d, p, now, ttl), device, t, pairs + {p})
  {
    MorePairs(pairs, {p});
    assert RefreshOf({p}, p.refresh) && AccessOf({p}, p.access);
  }

  lemma RotatedStaysSuperseded(s: Auth, d: Id, p: Pair, now: Time, device: Id, t: Time, pairs: set<Pair>)
    requires Superseded(s, device, t, pairs)
    ensures Superseded(s.(refresh := Rotated(s.refresh, d, p.refresh, now),
                          access := CutShort(s.access, d, p.access, now + REFRESH_RETRY_GRACE)), device, t, pairs)
  {
  }

  lemma RefreshStaysSuperseded(s: Auth, token: Token, p: Pair, now: Time, ttl: Time, device: Id, t: Time,
        pairs: set<Pair>)
    requires Superseded(s, device, t, pairs)
    ensures var c := RefreshCall(s, token, p, now, ttl);
            Superseded(c.auth, device, t, if c.result.Ok? then pairs + {p} else pairs)
  {
    if RefreshCall(s, token, p, now, ttl).result.Ok? {
      var row := s.refresh[token];
      IssuedStaysSuperseded(s, row.user, row.device, p, now, ttl, device, t, pairs);
      RotatedStaysSuperseded(Issued(s, row.user, row.device, p, now, ttl), row.device, p, now, device, t, pairs + {p});
    }
  }

  lemma LoginStaysSuperseded(s: Auth, user: Id, d: Id, key: Bytes, keyVersion: int, p: Pair, now: Time, ttl: Time,
        device: Id, t: Time, pairs: set<Pair>)
    requires Superseded(s, device, t, pairs)
    ensures var c := LoginCall(s, user, d, key, keyVersion, p, now, ttl);
            Superseded(c.auth, device, t, if c.result.Ok? then pairs + {p} else pairs)
  {
    match Registered(s, user, d, key, keyVersion) {
      case Ok(r) => IssuedStaysSuperseded(r, user, d, p, now, ttl, device, t, pairs);
      case Err(_) =>
    }
  }

  /** Revocation is written once and access expiry never grows, so nothing comes back. */
  lemma StaysSuperseded(s: Auth, e: Event, ttl: Time, device: Id, t: Time, pairs: set<Pair>)
    requires Superseded(s, device, t, pairs)
    ensures Superseded(Step(s, e, ttl), device, t, pairs + Granted(s, e, ttl))
  {
    assert pairs + {} == pairs;
    match e.call {
      case Login(user, d, key, keyVersion, p) =>
        LoginStaysSuperseded(s, user, d, key, keyVersion, p, e.now, ttl, device, t, pairs);
      case Rotate(token, p) => RefreshStaysSuperseded(s, token, p, e.now, ttl, device, t, pairs);
      case _ =>
    }
  }

  lemma {:induction false} RunStaysSuperseded(s: Auth, es: seq<Event>, ttl: Time, device: Id, t: Time, pairs: set<Pair>)
    requires Superseded(s, device, t, pairs)
    ensures Superseded(Run(s, es, ttl), device, t, pairs + GrantedBy(s, es, ttl))
    decreases |es|
  {
    if es == [] {
      assert pairs + GrantedBy(s, es, ttl) == pairs;
    } else {
      var before := es[..|es| - 1];
      RunStaysSuperseded(s, before, ttl, device, t, pairs);
      StaysSuperseded(Run(s, before, ttl), es[|es| - 1], ttl, device, t, pairs + GrantedBy(s, before, ttl));
      assert pairs + GrantedBy(s, before, ttl) + Granted(Run(s, before, ttl), es[|es| - 1], ttl)
             == pairs + GrantedBy(s, es, ttl);
    }
  }

  lemma TakeoverFrom(s: Auth, token: Token, p: Pair, t: Time, ttl: Time, es: seq<Event>, now: Time, x: Token, q: Pair)
    requires RevokedBy(s, t) && RefreshCall(s, token, p, t, ttl).result.Ok? && now > t + REFRESH_RETRY_GRACE
    ensures OnlySince(Run(RefreshCall(s, token, p, t, ttl).auth, es, ttl), s.refresh[token].device,
                      {p} + GrantedBy(RefreshCall(s, token, p, t, ttl).auth, es, ttl), now, ttl, x, q)
  {
    RotationSupersedes(s, token, p, t, ttl);
    RunStaysSuperseded(RefreshCall(s, token, p, t, ttl).auth, es, ttl, s.refresh[token].device, t, {p});
  }

  /** The credential x is accepted for the device only if it belongs to one of the pairs. */
  ghost predicate OnlySince(s: Auth, device: Id, pairs: set<Pair>, now: Time, ttl: Time, x: Token, q: Pair) {
    && (Authenticated(s, x, now).Ok? && Authenticated(s, x, now).value.1 == device ==> AccessOf(pairs, x))
    && (RefreshCall(s, x, q, now, ttl).result.Ok? && s.refresh[x].device == device ==> RefreshOf(pairs, x))
  }

  /** A server on which nobody has logged in. */
  function NoSessions(): Auth {
    Auth(map[], map[], map[], map[])
  }

  /** The clock never goes back, and has not passed `now`. */
  ghost predicate Ordered(es: seq<Event>, now: Time) {
    && (forall i, j :: 0 <= i < j < |es| ==> es[i].now <= es[j].now)
    && (forall i :: 0 <= i < |es| ==> es[i].now <= now)
  }

  lemma {:induction false} RunRevokedBy(es: seq<Event>, ttl: Time, now: Time)
    requires Ordered(es, now)
    ensures RevokedBy(Run(NoSessions(), es, ttl), now)
    decreases |es|
  {
    if es != [] {
      var before, e := es[..|es| - 1], es[|es| - 1];
      RunRevokedBy(before, ttl, e.now);
      StepRevokedBy(Run(NoSessions(), before, ttl), e, ttl, e.now);
    }
  }

  /** At any point of any run, strictly more than the retry window after a successful rotation of a
      device, whatever calls were made before and since, only credentials issued by that rotation or
      a later call are accepted for the device. */
  lemma OneMinuteTakeover(before: seq<Event>, s: Auth, token: Token, p: Pair, t: Time, ttl: Time, es: seq<Event>,
        now: Time, x: Token, q: Pair)
    requires Ordered(before, t) && s == Run(NoSessions(), before, ttl)
    requires RefreshCall(s, token, p, t, ttl).result.Ok? && now > t + REFRESH_RETRY_GRACE
    ensures OnlySince(Run(RefreshCall(s, token, p, t, ttl).auth, es, ttl), s.refresh[token].device,
                      {p} + GrantedBy(RefreshCall(s, token, p, t, ttl).auth, es, ttl), now, ttl, x, q)
  {
    RunRevokedBy(before, ttl, t);
    TakeoverFrom(s, token, p, t, ttl, es, now, x, q);
  }

  // ---------------------------------------------------------------- live tokens

  /** The device's refresh tokens that are not revoked. */
  function Live(s: Auth, device: Id): set<Token> {
    set r | r in s.refresh && s.refresh[r].device == device && s.refresh[r].revokedAt.None?
  }

  function Logins(es: seq<Event>, device: Id): nat
    decreases |es|
  {
    if es == [] then 0
    else
      var call := es[|es| - 1].call;
      Logins(es[..|es| - 1], device) + if call.Login? && call.device == device then 1 else 0
  }

  lemma SubsetSize(a: set<Token>, b: set<Token>)
    requires a <= b
    ensures |a| <= |b|
  {
    assert b == a + (b - a);
  }

  /** Only a login adds a live token; a rotation leaves the new one alone. */
  lemma StepLive(s: Auth, e: Event, ttl: Time, device: Id)
    ensures |Live(Step(s, e, ttl), device)| <=
              if e.call.Login? && e.call.device == device then |Live(s, device)| + 1
              else if |Live(s, device)| > 1 then |Live(s, device)| else 1
  {
    var before, after := Live(s, device), Live(Step(s, e, ttl), device);
    match e.call {
      case Login(user, d, key, keyVersion, p) =>
        SubsetSize(after, if d == device then before + {p.refresh} else before);
      case Rotate(token, p) =>
        if RefreshCall(s, token, p, e.now, ttl).result.Ok? && s.refresh[token].device == device {
          SubsetSize(after, {p.refresh});
        } else {
          SubsetSize(after, before);
        }
      case _ => SubsetSize(after, before);
    }
  }

  /** From a rotation on, in any run, the device has at most one live refresh token for the rotation
      and one more for each login since. */
  lemma {:induction false} LiveTokensBounded(s: Auth, token: Token, p: Pair, t: Time, ttl: Time, es: seq<Event>)
    requires RefreshCall(s, token, p, t, ttl).result.Ok?
    ensures var device := s.refresh[token].device;
            |Live(Run(RefreshCall(s, token, p, t, ttl).auth, es, ttl), device)| <= 1 + Logins(es, device)
    decreases |es|
  {
    var s1, device := RefreshCall(s, token, p, t, ttl).auth, s.refresh[token].device;
    if es == [] {
      SubsetSize(Live(s1, device), {p.refresh});
    } else {
      LiveTokensBounded(s, token, p, t, ttl, es[..|es| - 1]);
      StepLive(Run(s1, es[..|es| - 1], ttl), es[|es| - 1], ttl, device);
    }
  }

  /** A lost response costs nothing: within the retry window after its rotation the same token
      still works, and retires the successor the client never received. */
  lemma RetryWithinWindow(s: Auth, token: Token, p: Pair, t: Time, ttl: Time, q: Pair, now: Time)
    requires RefreshCall(s, token, p, t, ttl).result.Ok? && s.refresh[token].revokedAt.None?
    requires t <= now <= t + REFRESH_RETRY_GRACE
    requires now < s.refresh[token].expiresAt && Unused(RefreshCall(s, token, p, t, ttl).auth, q) && token != p.refresh
    ensures var s1 := RefreshCall(s, token, p, t, ttl).auth;
            var again := RefreshCall(s1, token, q, now, ttl);
            && again.result == Ok(q) && p.refresh in again.auth.refresh
            && again.auth.refresh[p.refresh].revokedAt == Some(now)
            && again.auth.refresh[p.refresh].rotatedTo == Some(q.refresh)
  {
  }

  // ---------------------------------------------------------------- reuse of a rotated token

  /** The device has no access token, and each of its refresh tokens is revoked and past its retry
      window, if it ever had one. */
  ghost predicate Ended(s: Auth, device: Id, now: Time) {
    && (forall r :: r in s.refresh && s.refresh[r].device == device ==>
          s.refresh[r].revokedAt.Some? && TokenUsable(s.refresh[r], now).Fail?)
    && (forall a :: a in s.access ==> s.access[a].device != device)
  }

  /** A token of the device that was rotated within the window can still be retried. */
  predicate RecentlyRotated(s: Auth, device: Id, now: Time) {
    exists r | r in s.refresh.Keys ::
      s.refresh[r].device == device && s.refresh[r].revokedAt.Some? && TokenUsable(s.refresh[r], now).Pass?
  }

  ghost predicate LoginFree(es: seq<Event>, device: Id) {
    forall e :: e in es ==> !(e.call.Login? && e.call.device == device)
  }

  lemma LoginElsewhere(s: Auth, user: Id, d: Id, key: Bytes, keyVersion: int, p: Pair, now: Time, ttl: Time, device: Id,
        t: Time)
    requires Ended(s, device, t) && d != device
    ensures Ended(LoginCall(s, user, d, key, keyVersion, p, now, ttl).auth, device, t)
  {
  }

  lemma RotateElsewhere(s: Auth, token: Token, p: Pair, now: Time, ttl: Time, device: Id, t: Time)
    requires Ended(s, device, t) && t <= now
    ensures Ended(RefreshCall(s, token, p, now, ttl).auth, device, t)
  {
    if token in s.refresh && s.refresh[token].device == device {
      assert TokenUsable(s.refresh[token], now).Fail?;
    }
  }

  lemma StaysEnded(s: Auth, e: Event, ttl: Time, device: Id, t: Time)
    requires Ended(s, device, t) && t <= e.now && !(e.call.Login? && e.call.device == device)
    ensures Ended(Step(s, e, ttl), device, t)
  {
    match e.call {
      case Login(user, d, key, keyVersion, p) =>
        LoginElsewhere(s, user, d, key, keyVersion, p, e.now, ttl, device, t);
      case Rotate(token, p) => RotateElsewhere(s, token, p, e.now, ttl, device, t);
      case _ =>
    }
  }

  lemma {:induction false} RunStaysEnded(s: Auth, es: seq<Event>, ttl: Time, device: Id, t: Time)
    requires Ended(s, device, t) && LoginFree(es, device) && forall e :: e in es ==> t <= e.now
    ensures Ended(Run(s, es, ttl), device, t)
    decreases |es|
  {
    if es != [] {
      assert es[|es| - 1] in es;
      RunStaysEnded(s, es[..|es| - 1], ttl, device, t);
      StaysEnded(Run(s, es[..|es| - 1], ttl), es[|es| - 1], ttl, device, t);
    }
  }

  /** A token is marked as rotated only together with its revocation. */
  ghost predicate LiveUnrotated(s: Auth) {
    forall r :: r in s.refresh && s.refresh[r].revokedAt.None? ==> s.refresh[r].rotatedTo.None?
  }

  lemma StepLiveUnrotated(s: Auth, e: Event, ttl: Time)
    requires LiveUnrotated(s)
    ensures LiveUnrotated(Step(s, e, ttl))
  {
  }

  lemma {:induction false} RunLiveUnrotated(es: seq<Event>, ttl: Time)
    ensures LiveUnrotated(Run(NoSessions(), es, ttl))
    decreases |es|
  {
    if es != [] {
      RunLiveUnrotated(es[..|es| - 1], ttl);
      StepLiveUnrotated(Run(NoSessions(), es[..|es| - 1], ttl), es[|es| - 1], ttl);
    }
  }

  lemma ReuseEnds(s: Auth, token: Token, p: Pair, t: Time, ttl: Time)
    requires LiveUnrotated(s) && token in s.refresh && Reused(s.refresh[token], t)
    requires !RecentlyRotated(s, s.refresh[token].device, t)
    ensures Ended(RefreshCall(s, token, p, t, ttl).auth, s.refresh[token].device, t)
  {
    var s1, device := RefreshCall(s, token, p, t, ttl).auth, s.refresh[token].device;
    forall r | r in s1.refresh && s1.refresh[r].device == device
      ensures s1.refresh[r].revokedAt.Some? && TokenUsable(s1.refresh[r], t).Fail?
    {
      assert r in s.refresh.Keys;
    }
  }

  /** At any point of any run, a rotated token presented after its window is refused, and from then
      on every credential of its device is refused until the next login, whatever else is called,
      provided that no other token of the device was rotated within the window. */
  lemma ReuseEndsSessions(before: seq<Event>, s: Auth, token: Token, p: Pair, t: Time, ttl: Time, es: seq<Event>,
        now: Time, x: Token, q: Pair)
    requires s == Run(NoSessions(), before, ttl)
    requires token in s.refresh && Reused(s.refresh[token], t) && !RecentlyRotated(s, s.refresh[token].device, t)
    requires LoginFree(es, s.refresh[token].device) && (forall e :: e in es ==> t <= e.now) && t <= now
    ensures var c, device := RefreshCall(s, token, p, t, ttl), s.refresh[token].device;
            var s' := Run(c.auth, es, ttl);
            && c.result == Err(TokenInvalid)
            && (Authenticated(s', x, now).Ok? ==> Authenticated(s', x, now).value.1 != device)
            && (RefreshCall(s', x, q, now, ttl).result.Ok? ==> s'.refresh[x].device != device)
  {
    RunLiveUnrotated(before, ttl);
    ReuseEnds(s, token, p, t, ttl);
    RunStaysEnded(RefreshCall(s, token, p, t, ttl).auth, es, ttl, s.refresh[token].device, t);
  }

  /** The proviso is needed: the revocation does not touch tokens that are revoked already, so one
      that was rotated within the window is still exchanged after it. */
  lemma RecentRotationSurvives(s: Auth, token: Token, p: Pair, t: Time, ttl: Time, r: Token, q: Pair)
    requires token in s.refresh && Reused(s.refresh[token], t)
    requires r in s.refresh && s.refresh[r].device == s.refresh[token].device && s.refresh[r].revokedAt.Some?
    requires TokenUsable(s.refresh[r], t).Pass? && Holder(s, s.refresh[r].user, s.refresh[r].device).Pass?
    requires Unused(s, q)
    ensures RefreshCall(RefreshCall(s, token, p, t, ttl).auth, r, q, t, ttl).result == Ok(q)
  {
    assert Unused(RefreshCall(s, token, p, t, ttl).auth, q);
  }

  // ---------------------------------------------------------------- revoked for good

  ghost predicate Dead(s: Auth, device: Id) {
    device in s.devices && s.devices[device].revokedAt.Some?
  }

  lemma StaysDead(s: Auth, e: Event, ttl: Time, device: Id)
    requires Dead(s, device)
    ensures Dead(Step(s, e, ttl), device)
  {
  }

  lemma {:induction false} RunStaysDead(s: Auth, es: seq<Event>, ttl: Time, device: Id)
    requires Dead(s, device)
    ensures Dead(Run(s, es, ttl), device)
    decreases |es|
  {
    if es != [] {
      RunStaysDead(s, es[..|es| - 1], ttl, device);
      StaysDead(Run(s, es[..|es| - 1], ttl), es[|es| - 1], ttl, device);
    }
  }

  /** Once a device is revoked nothing is ever accepted for it again, not even a new login. */
  lemma RevocationIsFinal(s: Auth, user: Id, device: Id, t: Time, es: seq<Event>, ttl: Time, now: Time, x: Token,
        q: Pair, key: Bytes, keyVersion: int)
    requires RevokeDeviceCall(s, user, device, t).result.Ok?
    ensures var s' := Run(RevokeDeviceCall(s, user, device, t).auth, es, ttl);
            && (Authenticated(s', x, now).Ok? ==> Authenticated(s', x, now).value.1 != device)
            && (RefreshCall(s', x, q, now, ttl).result.Ok? ==> s'.refresh[x].device != device)
            && (forall u :: LoginCall(s', u, device, key, keyVersion, q, now, ttl).result.Err?)
  {
    RunStaysDead(RevokeDeviceCall(s, user, device, t).auth, es, ttl, device);
  }

  /** A token that logout retired was not rotated, so it has no retry window. */
  ghost predicate Retired(s: Auth, r: Token) {
    r in s.refresh ==> s.refresh[r].revokedAt.Some? && s.refresh[r].rotatedTo.None?
  }

  lemma StaysRetired(s: Auth, e: Event, ttl: Time, r: Token)
    requires Retired(s, r) && !RefreshOf(Granted(s, e, ttl), r)
    ensures Retired(Step(s, e, ttl), r)
  {
    match e.call {
      case Login(user, d, key, keyVersion, p) => assert RefreshOf({p}, p.refresh);
      case Rotate(token, p) => assert RefreshOf({p}, p.refresh);
      case _ =>
    }
  }

  lemma {:induction false} RunStaysRetired(s: Auth, es: seq<Event>, ttl: Time, r: Token)
    requires Retired(s, r) && !RefreshOf(GrantedBy(s, es, ttl), r)
    ensures Retired(Run(s, es, ttl), r)
    decreases |es|
  {
    if es != [] {
      MorePairs(GrantedBy(s, es[..|es| - 1], ttl), Granted(Run(s, es[..|es| - 1], ttl), es[|es| - 1], ttl));
      RunStaysRetired(s, es[..|es| - 1], ttl, r);
      StaysRetired(Run(s, es[..|es| - 1], ttl), es[|es| - 1], ttl, r);
    }
  }

  /** A live token that is logged out is never exchanged again, and the access tokens its device
      had at that moment are gone. */
  lemma LogoutIsFinal(before: seq<Event>, s: Auth, token: Token, t: Time, es: seq<Event>, ttl: Time, now: Time,
        q: Pair)
    requires s == Run(NoSessions(), before, ttl) && token in s.refresh && s.refresh[token].revokedAt.None?
    requires !RefreshOf(GrantedBy(LogoutCall(s, token, t), es, ttl), token)
    ensures var s1 := LogoutCall(s, token, t);
            && RefreshCall(Run(s1, es, ttl), token, q, now, ttl).result.Err?
            && forall a :: a in s1.access ==> s1.access[a].device != s.refresh[token].device
  {
    RunLiveUnrotated(before, ttl);
    RunStaysRetired(LogoutCall(s, token, t), es, ttl, token);
  }
}

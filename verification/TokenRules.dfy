/** Exactly when each token call is accepted, which rows it changes, that it leaves the tokens of other
    devices alone, and that a pair is accepted until it expires. */
module TokenRules {
  import opened Common
  import opened Sessions

  // ---------------------------------------------------------------- conditions

  predicate ActiveUser(s: Auth, user: Id) {
    user in s.users && s.users[user]
  }

  predicate OwnDevice(s: Auth, user: Id, device: Id) {
    device in s.devices && s.devices[device].user == user && s.devices[device].revokedAt.None?
  }

  predicate FreshPair(s: Auth, p: Pair) {
    p.access !in s.access && p.refresh !in s.refresh
  }

  /** The device is new, or the account's own under the same key. */
  predicate MayRegister(s: Auth, user: Id, device: Id, key: Bytes, keyVersion: int) {
    device in s.devices ==> s.devices[device] == Sessions.Device.Device(user, key, keyVersion, None)
  }

  predicate MayLogin(s: Auth, user: Id, device: Id, key: Bytes, keyVersion: int, p: Pair) {
    ActiveUser(s, user) && MayRegister(s, user, device, key, keyVersion) && FreshPair(s, p)
  }

  function LoginRefusal(s: Auth, user: Id, device: Id): Error {
    if user !in s.users then NotFound
    else if !s.users[user] then AccountDisabled
    else if device in s.devices && s.devices[device].user == user && s.devices[device].revokedAt.Some?
    then DeviceRevoked
    else IdTaken
  }

  /** The presented token is live, or was rotated at most a minute ago, and its holder is in order. */
  predicate MayRefresh(s: Auth, token: Token, p: Pair, now: Time) {
    && token in s.refresh
    && var r := s.refresh[token];
       && now < r.expiresAt
       && (r.revokedAt.Some? ==> r.rotatedTo.Some? && now - r.revokedAt.value <= 60_000_000_000)
       && ActiveUser(s, r.user) && OwnDevice(s, r.user, r.device) && FreshPair(s, p)
  }

  /** A rotated token comes back more than a minute later. */
  predicate ReuseSeen(s: Auth, token: Token, now: Time) {
    && token in s.refresh
    && var r := s.refresh[token];
       now < r.expiresAt && r.rotatedTo.Some? && r.revokedAt.Some? && now - r.revokedAt.value > 60_000_000_000
  }

  function RefreshRefusal(s: Auth, token: Token, now: Time): Error {
    if token !in s.refresh then TokenInvalid
    else
      var r := s.refresh[token];
      if now >= r.expiresAt || (r.revokedAt.Some? && (r.rotatedTo.None? || now - r.revokedAt.value > 60_000_000_000))
      then TokenInvalid
      else if r.user !in s.users then TokenInvalid
      else if !s.users[r.user] then AccountDisabled
      else if r.device !in s.devices || s.devices[r.device].user != r.user then TokenInvalid
      else if s.devices[r.device].revokedAt.Some? then DeviceRevoked
      else IdTaken
  }

  // ---------------------------------------------------------------- effects

  /** One new access row and one new refresh row, live for ttl and thirty days. */
  ghost predicate PairAdded(s: Auth, s': Auth, user: Id, device: Id, p: Pair, now: Time, ttl: Time) {
    && p.access in s'.access && s'.access[p.access] == AccessRow(user, device, now + ttl)
    && p.refresh in s'.refresh
    && s'.refresh[p.refresh] == RefreshRow(user, device, now + 2_592_000_000_000_000, None, None)
    && s'.access.Keys == s.access.Keys + {p.access} && s'.refresh.Keys == s.refresh.Keys + {p.refresh}
  }

  /** The rows of all other devices are as they were, and none is added for them. */
  ghost predicate OthersUntouched(s: Auth, s': Auth, device: Id) {
    && s'.users == s.users
    && (forall d :: d != device ==> (d in s'.devices <==> d in s.devices))
    && (forall d :: d != device && d in s.devices ==> s'.devices[d] == s.devices[d])
    && (forall r :: r in s.refresh && s.refresh[r].device != device ==>
          r in s'.refresh && s'.refresh[r] == s.refresh[r])
    && (forall r :: r in s'.refresh && s'.refresh[r].device != device ==> r in s.refresh)
    && (forall a :: a in s.access && s.access[a].device != device ==> a in s'.access && s'.access[a] == s.access[a])
    && (forall a :: a in s'.access && s'.access[a].device != device ==> a in s.access)
  }

  /** Each live refresh token of the device is revoked now and no other row changes. */
  ghost predicate LiveRevoked(rows: map<Token, RefreshRow>, rows': map<Token, RefreshRow>, device: Id, now: Time) {
    && rows'.Keys == rows.Keys
    && forall r :: r in rows ==>
         rows'[r] == if rows[r].device == device && rows[r].revokedAt.None? then rows[r].(revokedAt := Some(now))
                     else rows[r]
  }

  /** Exactly the device's access tokens are gone. */
  ghost predicate AccessDropped(rows: map<Token, AccessRow>, rows': map<Token, AccessRow>, device: Id) {
    && (forall a :: a in rows' <==> a in rows && rows[a].device != device)
    && (forall a :: a in rows' ==> rows'[a] == rows[a])
  }

  // ---------------------------------------------------------------- login

  lemma LoginDecides(s: Auth, user: Id, device: Id, key: Bytes, keyVersion: int, p: Pair, now: Time, ttl: Time)
    ensures var c := LoginCall(s, user, device, key, keyVersion, p, now, ttl);
            && (c.result == Ok(p) <==> MayLogin(s, user, device, key, keyVersion, p))
            && (!MayLogin(s, user, device, key, keyVersion, p) ==>
                  c.auth == s && c.result == Err(LoginRefusal(s, user, device)))
  {
  }

  /** A login registers the device and adds one pair; every other token stays as it is. */
  lemma LoginEffect(s: Auth, user: Id, device: Id, key: Bytes, keyVersion: int, p: Pair, now: Time, ttl: Time)
    requires MayLogin(s, user, device, key, keyVersion, p)
    ensures var s' := LoginCall(s, user, device, key, keyVersion, p, now, ttl).auth;
            && s'.users == s.users
            && s'.devices == s.devices[device := Sessions.Device.Device(user, key, keyVersion, None)]
            && PairAdded(s, s', user, device, p, now, ttl) && OthersUntouched(s, s', device)
            && (forall r :: r in s.refresh ==> s'.refresh[r] == s.refresh[r])
            && (forall a :: a in s.access ==> s'.access[a] == s.access[a])
  {
    if device in s.devices { assert s.devices == s.devices[device := s.devices[device]]; }
  }

  // ---------------------------------------------------------------- refresh

  /** A refresh succeeds exactly under these conditions, ends the device's sessions exactly when reuse
      is seen, and otherwise changes nothing. */
  lemma RefreshDecides(s: Auth, token: Token, p: Pair, now: Time, ttl: Time)
    ensures var c := RefreshCall(s, token, p, now, ttl);
            && (c.result == Ok(p) <==> MayRefresh(s, token, p, now))
            && (!MayRefresh(s, token, p, now) ==> c.result == Err(RefreshRefusal(s, token, now)))
            && (!MayRefresh(s, token, p, now) && !ReuseSeen(s, token, now) ==> c.auth == s)
  {
  }

  /** The new pair takes over: every other live refresh token of the device is rotated to it, every
      other access token of the device ends within a minute, and no other row changes. */
  lemma RefreshEffect(s: Auth, token: Token, p: Pair, now: Time, ttl: Time)
    requires MayRefresh(s, token, p, now)
    ensures var s', user, device := RefreshCall(s, token, p, now, ttl).auth, s.refresh[token].user,
            s.refresh[token].device;
            && s'.devices == s.devices && PairAdded(s, s', user, device, p, now, ttl)
            && OthersUntouched(s, s', device)
            && (forall r :: r in s.refresh && s.refresh[r].device == device ==>
                  s'.refresh[r] == if s.refresh[r].revokedAt.Some? then s.refresh[r]
                                   else s.refresh[r].(revokedAt := Some(now), rotatedTo := Some(p.refresh)))
            && (forall a :: a in s.access && s.access[a].device == device ==>
                  s'.access[a] == if s.access[a].expiresAt <= now + 60_000_000_000 then s.access[a]
                                  else s.access[a].(expiresAt := now + 60_000_000_000))
  {
  }

  /** A token that comes back after its minute ends the sessions of its device and of no other. */
  lemma ReuseEffect(s: Auth, token: Token, p: Pair, now: Time, ttl: Time)
    requires ReuseSeen(s, token, now)
    ensures var c, device := RefreshCall(s, token, p, now, ttl), s.refresh[token].device;
            && c.result == Err(TokenInvalid) && c.auth == s.(refresh := c.auth.refresh, access := c.auth.access)
            && LiveRevoked(s.refresh, c.auth.refresh, device, now)
            && AccessDropped(s.access, c.auth.access, device) && OthersUntouched(s, c.auth, device)
  {
  }

  // ---------------------------------------------------------------- logout, revocation, expiry

  /** Logout retires the token and drops the access tokens of its device, of no other; a token that is
      unknown or revoked changes nothing. */
  lemma LogoutEffect(s: Auth, token: Token, now: Time)
    ensures var s' := LogoutCall(s, token, now);
            if token !in s.refresh || s.refresh[token].revokedAt.Some? then s' == s
            else
              && s' == s.(refresh := s.refresh[token := s.refresh[token].(revokedAt := Some(now))],
                          access := s'.access)
              && AccessDropped(s.access, s'.access, s.refresh[token].device)
              && OthersUntouched(s, s', s.refresh[token].device)
  {
  }

  /** Revocation marks the device and retires its live refresh tokens, and touches no other device. */
  lemma RevokeEffect(s: Auth, user: Id, device: Id, now: Time)
    ensures var c := RevokeDeviceCall(s, user, device, now);
            if !OwnDevice(s, user, device) then c == Called(s, Err(NotFound))
            else
              && c.result == Ok(()) && c.auth == s.(devices := c.auth.devices, refresh := c.auth.refresh)
              && c.auth.devices == s.devices[device := s.devices[device].(revokedAt := Some(now))]
              && LiveRevoked(s.refresh, c.auth.refresh, device, now) && OthersUntouched(s, c.auth, device)
  {
  }

  lemma CleanupEffect(s: Auth, now: Time)
    ensures var s' := Expired(s, now);
            && s' == s.(access := s'.access, refresh := s'.refresh)
            && (forall a :: a in s'.access <==> a in s.access && now < s.access[a].expiresAt)
            && (forall a :: a in s'.access ==> s'.access[a] == s.access[a])
            && (forall r :: r in s'.refresh <==> r in s.refresh && now < s.refresh[r].expiresAt)
            && (forall r :: r in s'.refresh ==> s'.refresh[r] == s.refresh[r])
  {
  }

  /** An access token is accepted exactly while its row, account and device are in order. */
  lemma AuthenticatedExactly(s: Auth, token: Token, now: Time, user: Id, device: Id)
    ensures Authenticated(s, token, now) == Ok((user, device)) <==>
              && token in s.access && s.access[token].user == user && s.access[token].device == device
              && now < s.access[token].expiresAt && ActiveUser(s, user)
              && device in s.devices && s.devices[device].revokedAt.None?
    ensures Authenticated(s, token, now).Err? ==>
              (Authenticated(s, token, now).error == DeviceRevoked <==>
                 && token in s.access && now < s.access[token].expiresAt && ActiveUser(s, s.access[token].user)
                 && s.access[token].device in s.devices && s.devices[s.access[token].device].revokedAt.Some?)
    ensures Authenticated(s, token, now).Err? ==>
              Authenticated(s, token, now).error in {TokenInvalid, DeviceRevoked}
  {
  }

  // ---------------------------------------------------------------- calls are steps

  /** A call served by its method is a step of the runs. */
  method Serve(service: TokenService, e: Event, ttl: Time)
    requires e.call.Login? || e.call.Rotate? || e.call.Logout? || e.call.RevokeDevice?
    modifies service
    ensures service.Contents() == Step(old(service.Contents()), e, ttl)
  {
    match e.call {
      case Login(user, device, key, keyVersion, p) =>
        var _ := service.Login(user, device, key, keyVersion, p, e.now, ttl);
      case Rotate(token, p) => var _ := service.Refresh(token, p, e.now, ttl);
      case Logout(token) => service.Logout(token, e.now);
      case RevokeDevice(user, device) => var _ := service.RevokeDevice(user, device, e.now);
    }
  }

  lemma OtherSteps(s: Auth, now: Time, users: map<Id, bool>, ttl: Time)
    ensures var s' := Step(s, Event(now, CleanUp), ttl);
            && s' == s.(access := s'.access, refresh := s'.refresh)
            && (forall a :: a in s'.access <==> a in s.access && now < s.access[a].expiresAt)
            && (forall r :: r in s'.refresh <==> r in s.refresh && now < s.refresh[r].expiresAt)
    ensures Step(s, Event(now, SetAccounts(users)), ttl) == s.(users := users)
  {
  }

  // ---------------------------------------------------------------- accepted until it expires

  /** The pair's rows are as they were issued. */
  ghost predicate Holds(s: Auth, user: Id, device: Id, p: Pair, access: Time, refresh: Time, now: Time) {
    && OwnDevice(s, user, device)
    && (now < access ==> p.access in s.access && s.access[p.access] == AccessRow(user, device, access))
    && (now < refresh ==>
          p.refresh in s.refresh && s.refresh[p.refresh] == RefreshRow(user, device, refresh, None, None))
  }

  /** The call rotates, logs out or reuses no token of the device and does not revoke it. */
  predicate LeavesAlone(s: Auth, e: Event, device: Id) {
    match e.call
    case Rotate(token, _) => token in s.refresh ==> s.refresh[token].device != device
    case Logout(token) => token in s.refresh ==> s.refresh[token].device != device
    case RevokeDevice(_, d) => d != device
    case _ => true
  }

  ghost predicate LeftAlone(s: Auth, es: seq<Event>, ttl: Time, device: Id, now: Time)
    decreases |es|
  {
    es != [] ==>
      var before, e := es[..|es| - 1], es[|es| - 1];
      LeftAlone(s, before, ttl, device, now) && LeavesAlone(Run(s, before, ttl), e, device) && e.now <= now
  }

  lemma StaysHeld(s: Auth, e: Event, ttl: Time, user: Id, device: Id, p: Pair, access: Time, refresh: Time, now: Time)
    requires Holds(s, user, device, p, access, refresh, now) && LeavesAlone(s, e, device) && e.now <= now
    ensures Holds(Step(s, e, ttl), user, device, p, access, refresh, now)
  {
    match e.call {
      case Login(u, d, key, keyVersion, q) =>
        LoginDecides(s, u, d, key, keyVersion, q, e.now, ttl);
        if MayLogin(s, u, d, key, keyVersion, q) { LoginEffect(s, u, d, key, keyVersion, q, e.now, ttl); }
      case Rotate(token, q) => RotatedElsewhere(s, token, q, e.now, ttl, device);
      case Logout(token) => LogoutEffect(s, token, e.now);
      case RevokeDevice(u, d) => RevokeEffect(s, u, d, e.now);
      case CleanUp => CleanupEffect(s, e.now);
      case SetAccounts(_) =>
    }
  }

  lemma RotatedElsewhere(s: Auth, token: Token, q: Pair, now: Time, ttl: Time, device: Id)
    requires token in s.refresh ==> s.refresh[token].device != device
    ensures var s' := RefreshCall(s, token, q, now, ttl).auth;
            && s'.devices == s.devices
            && (forall r :: r in s.refresh && s.refresh[r].device == device ==>
                  r in s'.refresh && s'.refresh[r] == s.refresh[r])
            && (forall a :: a in s.access && s.access[a].device == device ==>
                  a in s'.access && s'.access[a] == s.access[a])
  {
    RefreshDecides(s, token, q, now, ttl);
    if MayRefresh(s, token, q, now) {
      RefreshEffect(s, token, q, now, ttl);
    } else if ReuseSeen(s, token, now) {
      ReuseEffect(s, token, q, now, ttl);
    }
  }

  lemma {:induction false} RunHeld(s: Auth, es: seq<Event>, ttl: Time, user: Id, device: Id, p: Pair, access: Time,
        refresh: Time, now: Time)
    requires Holds(s, user, device, p, access, refresh, now) && LeftAlone(s, es, ttl, device, now)
    ensures Holds(Run(s, es, ttl), user, device, p, access, refresh, now)
    decreases |es|
  {
    if es != [] {
      RunHeld(s, es[..|es| - 1], ttl, user, device, p, access, refresh, now);
      StaysHeld(Run(s, es[..|es| - 1], ttl), es[|es| - 1], ttl, user, device, p, access, refresh, now);
    }
  }

  /** The access token is accepted for `ttl` and the refresh token for thirty days. */
  ghost predicate Accepted(s: Auth, user: Id, device: Id, p: Pair, issued: Time, ttl: Time, now: Time) {
    && (now < issued + ttl ==> Authenticated(s, p.access, now) == Ok((user, device)))
    && (now < issued + 2_592_000_000_000_000 ==>
          forall q :: FreshPair(s, q) ==> RefreshCall(s, p.refresh, q, now, ttl).result == Ok(q))
  }

  lemma HeldAccepted(s: Auth, user: Id, device: Id, p: Pair, issued: Time, ttl: Time, now: Time)
    requires Holds(s, user, device, p, issued + ttl, issued + 2_592_000_000_000_000, now) && ActiveUser(s, user)
    ensures Accepted(s, user, device, p, issued, ttl, now)
  {
    forall q | FreshPair(s, q) && now < issued + 2_592_000_000_000_000
      ensures RefreshCall(s, p.refresh, q, now, ttl).result == Ok(q)
    {
      RefreshDecides(s, p.refresh, q, now, ttl);
    }
  }

  /** A pair issued by a login or a refresh is accepted until it expires, through any run of calls that
      rotates, logs out or revokes nothing of its device and leaves the account active. */
  lemma IssuedUntilExpiry(s: Auth, e: Event, p: Pair, user: Id, device: Id, es: seq<Event>, ttl: Time, now: Time)
    requires match e.call
             case Login(u, d, key, keyVersion, q) =>
               u == user && d == device && q == p && MayLogin(s, u, d, key, keyVersion, q)
             case Rotate(token, q) =>
               q == p && MayRefresh(s, token, q, e.now) && s.refresh[token].user == user
               && s.refresh[token].device == device
             case _ => false
    requires LeftAlone(Step(s, e, ttl), es, ttl, device, now) && ActiveUser(Run(Step(s, e, ttl), es, ttl), user)
    ensures Accepted(Run(Step(s, e, ttl), es, ttl), user, device, p, e.now, ttl, now)
  {
    match e.call {
      case Login(u, d, key, keyVersion, q) => LoginEffect(s, u, d, key, keyVersion, q, e.now, ttl);
      case Rotate(token, q) => RefreshEffect(s, token, q, e.now, ttl);
    }
    RunHeld(Step(s, e, ttl), es, ttl, user, device, p, e.now + ttl, e.now + 2_592_000_000_000_000, now);
    HeldAccepted(Run(Step(s, e, ttl), es, ttl), user, device, p, e.now, ttl, now);
  }
}

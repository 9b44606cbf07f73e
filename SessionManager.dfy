/**
 * The per-user session table (`session_manager.py`): each user id maps to a
 * session holding that user's own app-server client.
 *
 * The monotonic clock is an integer parameter `now`; the settings the table
 * reads (`max_sessions`, `idle_timeout_seconds`, the user's CODEX_HOME and
 * environment) are parameters, and so is the outcome of creating the home
 * directory.
 */
module SessionManager {
  import opened Wrappers
  import opened AppServerClient

  /** One user's session. */
  class UserSession {
    const userId: string
    const client: Client
    const codexHome: Option<string>
    const createdAt: int
    var lastActivity: int

    constructor (userId: string, client: Client, codexHome: Option<string>, now: int)
      ensures this.userId == userId && this.client == client && this.codexHome == codexHome
      ensures createdAt == now && lastActivity == now
    {
      this.userId := userId;
      this.client := client;
      this.codexHome := codexHome;
      createdAt := now;
      lastActivity := now;
    }

    /** `touch()`: record activity now. */
    method Touch(now: int)
      modifies this
      ensures lastActivity == now
      ensures IdleSeconds(now) == 0
    {
      lastActivity := now;
    }

    /** `idle_seconds`: time since the last activity. */
    function IdleSeconds(now: int): int
      reads this
    {
      now - lastActivity
    }
  }

  /** A per-user lock; only its identity matters in a sequential model. */
  class UserLock {
    const userId: string

    constructor (userId: string)
      ensures this.userId == userId
    {
      this.userId := userId;
    }
  }

  /** Why `get_client` fails. */
  datatype SessionFailure =
    | CapacityReached(maxSessions: int)   // "Maximum concurrent sessions (N) reached"
    | HomeNotCreated                      // "Failed to create user directory: ..."

  /** The entries of `sessions` whose key is not in `users`. */
  function Without<V>(sessions: map<string, V>, users: set<string>): (m: map<string, V>)
    ensures m.Keys == sessions.Keys - users
    ensures forall u | u in m :: m[u] == sessions[u]
  {
    map u | u in sessions && u !in users :: sessions[u]
  }

  lemma WithoutTwice<V>(sessions: map<string, V>, a: set<string>, b: set<string>)
    ensures Without(Without(sessions, a), b) == Without(sessions, a + b)
  {
  }

  /** Every session is filed under its own user, and no two entries share a session or a client. */
  predicate WellFiled(sessions: map<string, UserSession>)
  {
    && (forall u | u in sessions :: sessions[u].userId == u)
    && (forall u, v | u in sessions && v in sessions && u != v ::
          sessions[u] != sessions[v] && sessions[u].client != sessions[v].client)
  }

  class SessionManager {
    var sessions: map<string, UserSession>
    var locks: map<string, UserLock>
    var cleanupScheduled: bool

    constructor ()
      ensures sessions == map[] && locks == map[] && !cleanupScheduled
      ensures Valid()
    {
      sessions := map[];
      locks := map[];
      cleanupScheduled := false;
    }

    /** The session objects of the table. */
    function Sessions(): set<UserSession>
      reads this
    {
      set u | u in sessions :: sessions[u]
    }

    /** The clients of the table. */
    function Clients(): set<Client>
      reads this
    {
      set u | u in sessions :: sessions[u].client
    }

    /** The table is well filed. */
    predicate Valid()
      reads this
    {
      WellFiled(sessions)
    }

    /** `active_session_count`. */
    function ActiveSessionCount(): (n: nat)
      reads this
      ensures n == |sessions.Keys|
    {
      |sessions|
    }

    /** The users whose idle time is strictly greater than `timeout`. */
    function IdleUsers(now: int, timeout: int): (idle: set<string>)
      reads this, Sessions()
      ensures idle <= sessions.Keys
      ensures forall u | u in sessions :: u in idle <==> sessions[u].IdleSeconds(now) > timeout
    {
      set u | u in sessions && sessions[u].IdleSeconds(now) > timeout
    }

    /** `_get_user_lock`: a lock is created for a user at most once, and later calls return it. */
    method GetUserLock(userId: string) returns (lock: UserLock)
      modifies this
      ensures sessions == old(sessions) && cleanupScheduled == old(cleanupScheduled)
      ensures userId in old(locks) ==> lock == old(locks)[userId] && locks == old(locks)
      ensures userId !in old(locks) ==> fresh(lock) && locks == old(locks)[userId := lock]
      ensures locks[userId] == lock
    {
      if userId !in locks {
        var created := new UserLock(userId);
        locks := locks[userId := created];
      }
      lock := locks[userId];
    }

    /** `_remove_session`: drop one entry, if present, and close its client. */
    method RemoveSession(userId: string)
      requires Valid()
      modifies this, if userId in sessions then {sessions[userId].client} else {}
      ensures Valid()
      ensures sessions == Without(old(sessions), {userId})
      ensures locks == old(locks) && cleanupScheduled == old(cleanupScheduled)
      ensures userId in old(sessions) ==> !old(sessions)[userId].client.IsAlive()
    {
      if userId in sessions {
        var session := sessions[userId];
        sessions := Without(sessions, {userId});
        session.client.Close();
      }
    }

    /** `_create_session`: file a fresh session with a fresh, not yet started client. */
    method CreateSession(userId: string, now: int, codexHome: Option<string>, homeCreated: bool,
                         env: Option<map<string, string>>, workingDir: Option<string>)
      returns (r: Result<Client, SessionFailure>)
      requires Valid() && userId !in sessions
      modifies this
      ensures Valid()
      ensures locks == old(locks) && cleanupScheduled == old(cleanupScheduled)
      ensures codexHome.Some? && !homeCreated ==> r == Err(HomeNotCreated) && sessions == old(sessions)
      ensures !(codexHome.Some? && !homeCreated) ==>
        && r.Ok? && fresh(r.value) && !r.value.IsAlive()
        && userId in sessions && fresh(sessions[userId])
        && sessions[userId].client == r.value && sessions[userId].codexHome == codexHome
        && sessions[userId].lastActivity == now
        && Without(sessions, {userId}) == old(sessions)
    {
      if codexHome.Some? && !homeCreated {
        return Err(HomeNotCreated);
      }
      var client := new Client(env, workingDir);
      var session := new UserSession(userId, client, codexHome, now);
      sessions := sessions[userId := session];
      return Ok(client);
    }

    /**
     * `get_client`: the live session's client, touched; otherwise a dead session
     * is removed first, the capacity ceiling is checked (only when positive), and
     * a new session is created.
     */
    method GetClient(userId: string, now: int, maxSessions: int, codexHome: Option<string>, homeCreated: bool,
                     env: Option<map<string, string>>, workingDir: Option<string>)
      returns (r: Result<Client, SessionFailure>)
      requires Valid()
      modifies this, if userId in sessions then {sessions[userId], sessions[userId].client} else {}
      ensures Valid() && cleanupScheduled == old(cleanupScheduled)
      ensures Without(sessions, {userId}) == Without(old(sessions), {userId})
      // fast path
      ensures old(userId in sessions && sessions[userId].client.IsAlive()) ==>
        && r == Ok(old(sessions)[userId].client) && unchanged(old(sessions)[userId].client) && r.value.IsAlive()
        && sessions == old(sessions) && locks == old(locks)
        && sessions[userId].lastActivity == now
      // slow path: a dead session is gone before anything else happens
      ensures !old(userId in sessions && sessions[userId].client.IsAlive()) ==> userId in locks
      ensures !old(userId in sessions && sessions[userId].client.IsAlive()) ==>
        var base := Without(old(sessions), {userId});
        && (maxSessions > 0 && |base| >= maxSessions ==> r == Err(CapacityReached(maxSessions)))
        && (r.Err? ==> sessions == base)
        && (!(maxSessions > 0 && |base| >= maxSessions) && !(codexHome.Some? && !homeCreated) ==> r.Ok?)
      ensures !old(userId in sessions && sessions[userId].client.IsAlive()) && r.Ok? ==>
        var base := Without(old(sessions), {userId});
        && fresh(r.value) && !r.value.IsAlive()
        && userId in sessions && sessions[userId].client == r.value
        && Without(sessions, {userId}) == base && |sessions| == |base| + 1
        && (maxSessions > 0 ==> |sessions| <= maxSessions)
      // the capacity ceiling, once respected, stays respected
      ensures maxSessions > 0 && old(ActiveSessionCount()) <= maxSessions ==> ActiveSessionCount() <= maxSessions
    {
      if userId in sessions && sessions[userId].client.IsAlive() {
        var client := TouchSession(userId, now);
        return Ok(client);
      }
      r := ReplaceSession(userId, now, maxSessions, codexHome, homeCreated, env, workingDir);
    }

    /** The slow path of `get_client`: drop the user's dead session, if any, then create one under the user's lock. */
    method ReplaceSession(userId: string, now: int, maxSessions: int, codexHome: Option<string>, homeCreated: bool,
                          env: Option<map<string, string>>, workingDir: Option<string>)
      returns (r: Result<Client, SessionFailure>)
      requires Valid() && !(userId in sessions && sessions[userId].client.IsAlive())
      modifies this, if userId in sessions then {sessions[userId].client} else {}
      ensures Valid() && cleanupScheduled == old(cleanupScheduled)
      ensures Without(sessions, {userId}) == Without(old(sessions), {userId})
      ensures userId in locks
      ensures var base := Without(old(sessions), {userId});
        && (maxSessions > 0 && |base| >= maxSessions ==> r == Err(CapacityReached(maxSessions)))
        && (r.Err? ==> sessions == base)
        && (!(maxSessions > 0 && |base| >= maxSessions) && !(codexHome.Some? && !homeCreated) ==> r.Ok?)
      ensures r.Ok? ==>
        var base := Without(old(sessions), {userId});
        && fresh(r.value) && !r.value.IsAlive()
        && userId in sessions && sessions[userId].client == r.value
        && Without(sessions, {userId}) == base && |sessions| == |base| + 1
        && (maxSessions > 0 ==> |sessions| <= maxSessions)
    {
      ghost var before := sessions;
      RemoveSession(userId);
      ghost var base := sessions;
      r := CreateUnderLock(userId, now, maxSessions, codexHome, homeCreated, env, workingDir);
      if r.Err? {
        WithoutTwice(before, {userId}, {userId});
        assert {userId} + {userId} == {userId};
      }
    }

    /** The fast path of `get_client`: touch the user's session and hand out its client. */
    method TouchSession(userId: string, now: int) returns (client: Client)
      requires Valid() && userId in sessions
      modifies sessions[userId]
      ensures client == sessions[userId].client && sessions[userId].lastActivity == now
    {
      var session := sessions[userId];
      session.Touch(now);
      client := session.client;
    }

    /** The slow path of `get_client`, for a user without a session: take the user's lock, check capacity, create. */
    method CreateUnderLock(userId: string, now: int, maxSessions: int, codexHome: Option<string>, homeCreated: bool,
                           env: Option<map<string, string>>, workingDir: Option<string>)
      returns (r: Result<Client, SessionFailure>)
      requires Valid() && userId !in sessions
      modifies this
      ensures Valid() && cleanupScheduled == old(cleanupScheduled)
      ensures userId in locks && (userId in old(locks) ==> locks == old(locks))
      ensures maxSessions > 0 && |old(sessions)| >= maxSessions ==>
        r == Err(CapacityReached(maxSessions)) && sessions == old(sessions)
      ensures r.Err? ==> sessions == old(sessions)
      ensures r.Ok? ==>
        && fresh(r.value) && !r.value.IsAlive()
        && userId in sessions && sessions[userId].client == r.value && fresh(sessions[userId])
        && sessions[userId].lastActivity == now
        && Without(sessions, {userId}) == old(sessions) && |sessions| == |old(sessions)| + 1
        && (maxSessions > 0 ==> |sessions| <= maxSessions)
      ensures !(maxSessions > 0 && |old(sessions)| >= maxSessions) && !(codexHome.Some? && !homeCreated) ==> r.Ok?
      ensures maxSessions > 0 && old(ActiveSessionCount()) <= maxSessions ==> ActiveSessionCount() <= maxSessions
    {
      var lock := GetUserLock(userId);
      if maxSessions > 0 && |sessions| >= maxSessions {
        return Err(CapacityReached(maxSessions));
      }
      r := CreateSession(userId, now, codexHome, homeCreated, env, workingDir);
      if r.Ok? {
        assert sessions.Keys == old(sessions).Keys + {userId};
      }
    }

    /** Remove the given users' sessions one at a time, closing each client. */
    method RemoveAll(users: set<string>)
      requires Valid() && users <= sessions.Keys
      modifies this, Clients()
      ensures Valid()
      ensures sessions == Without(old(sessions), users)
      ensures locks == old(locks) && cleanupScheduled == old(cleanupScheduled)
      ensures forall u | u in users :: !old(sessions)[u].client.IsAlive()
    {
      var pending := users;
      ghost var done: set<string> := {};
      ghost var all := sessions;
      while pending != {}
        invariant Valid() && WellFiled(all) && users <= all.Keys
        invariant done + pending == users && done !! pending
        invariant sessions == Without(all, done)
        invariant locks == old(locks) && cleanupScheduled == old(cleanupScheduled)
        invariant forall u | u in done :: !all[u].client.IsAlive()
        decreases pending
      {
        var userId :| userId in pending;
        RemoveNext(userId, all, done);
        done := done + {userId};
        pending := pending - {userId};
      }
    }

    /** One step of `RemoveAll`: remove one more user, keeping the clients already closed closed. */
    method RemoveNext(userId: string, ghost all: map<string, UserSession>, ghost done: set<string>)
      requires Valid() && WellFiled(all) && userId in all && userId !in done && done <= all.Keys
      requires sessions == Without(all, done)
      requires forall u | u in done :: !all[u].client.IsAlive()
      modifies this, all[userId].client
      ensures Valid() && sessions == Without(all, done + {userId})
      ensures locks == old(locks) && cleanupScheduled == old(cleanupScheduled)
      ensures forall u | u in done + {userId} :: !all[u].client.IsAlive()
    {
      ghost var closed := all[userId].client;
      RemoveSession(userId);
      WithoutTwice(all, done, {userId});
      forall u | u in done
        ensures !all[u].client.IsAlive()
      {
        assert all[u].client != closed;
      }
    }

    /** `cleanup_idle_sessions`: with a positive timeout, remove exactly the sessions idle longer than it. */
    method CleanupIdleSessions(now: int, timeout: int)
      requires Valid()
      modifies this, Clients()
      ensures Valid()
      ensures locks == old(locks) && cleanupScheduled == old(cleanupScheduled)
      ensures timeout <= 0 ==> sessions == old(sessions)
      ensures timeout > 0 ==> sessions == Without(old(sessions), old(IdleUsers(now, timeout)))
      ensures timeout > 0 ==> forall u | u in old(IdleUsers(now, timeout)) :: !old(sessions)[u].client.IsAlive()
    {
      if timeout <= 0 {
        return;
      }
      RemoveAll(IdleUsers(now, timeout));
    }

    /** `shutdown`: the cleanup task is dropped and every session removed, its client closed. */
    method Shutdown()
      requires Valid()
      modifies this, Clients()
      ensures Valid()
      ensures sessions == map[] && !cleanupScheduled && locks == old(locks)
      ensures forall u | u in old(sessions) :: !old(sessions)[u].client.IsAlive()
    {
      cleanupScheduled := false;
      RemoveAll(sessions.Keys);
    }
  }
}

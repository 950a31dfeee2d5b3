/** The clock-in/clock-out session machine of `UltimateClockManager`
    (Utils/timekeeper.py). Redis is a set of maps held by the manager: the
    active sessions (`active_session:{server}:{user}`), the per-user and
    per-server totals hashes, the entry lists, the leaderboards and the
    completed-session records. The clock is the `now` argument in whole
    seconds, and the session id that `uuid4` would draw is an argument too. */
module ClockManagement {
  import opened Wrappers
  import opened Text

  /** Identifies a session owner: (server id, user id). */
  type Slot = (int, int)

  datatype Session = Session(category: string, start: int, sessionId: string)

  /** The record `clock_out` hands to `_add_session_time` and keeps as
      `completed_session:{server}:{user}:{session_id}`. */
  datatype Completion = Completion(
    server: int, user: int, category: string, seconds: int,
    sessionId: string, start: int, end: int)

  /** The detailed entry `_add_session_time` adds to `time_entries`. */
  datatype Entry = Entry(category: string, seconds: int, sessionId: string, start: int, end: int)

  datatype ClockInResult = ClockedIn(category: string, sessionId: string) | AlreadyClockedIn(existing: Session)

  datatype ClockOutError = NotClockedIn | SessionTooShort | SessionTooLong(duration: int)

  datatype ClockOutResult =
    | ClockedOut(category: string, duration: int, sessionId: string, categoryTotal: int)
    | ClockOutFailed(error: ClockOutError)

  /** The longest session `clock_out` records: 24 hours. */
  const MaxSessionSeconds := 86400

  /** The duration `clock_out` records for a session that lasted `duration`
      seconds, or why it refuses: under a second is too short and over a
      day too long, unless `force` is set, in which case short sessions are
      recorded as they are and long ones capped at a day. */
  function ClockOutDuration(duration: int, force: bool): (r: ClockOutDecision)
    ensures r.Recorded? ==> r.seconds <= MaxSessionSeconds
    ensures r.Recorded? && !force ==> 1 <= r.seconds && r.seconds == duration
    ensures force ==> r == Recorded(if duration > MaxSessionSeconds then MaxSessionSeconds else duration)
    ensures !force ==> (r == Refused(SessionTooShort) <==> duration < 1)
    ensures !force ==> (r == Refused(SessionTooLong(duration)) <==> duration > MaxSessionSeconds)
  {
    if duration < 1 && !force then Refused(SessionTooShort)
    else if duration > MaxSessionSeconds then
      if !force then Refused(SessionTooLong(duration)) else Recorded(MaxSessionSeconds)
    else Recorded(duration)
  }

  datatype ClockOutDecision = Recorded(seconds: int) | Refused(error: ClockOutError)

  /** `hincrby(key, field, n)` on one hash. */
  function Incremented<K>(m: map<K, int>, field: K, n: int): map<K, int> {
    m[field := (if field in m then m[field] else 0) + n]
  }

  function Get<K>(m: map<K, int>, field: K): int {
    if field in m then m[field] else 0
  }

  /** The value under `k`, or `default` when there is none. */
  function Find<K, V>(m: map<K, V>, k: K, default: V): V {
    if k in m then m[k] else default
  }

  /** The two `zincrby` calls of `_add_session_time`: the user's score on
      the server's "total" board, then on the category's board. */
  function RaisedScores(boards: map<(int, string), map<int, int>>, server: int, user: int, category: string, seconds: int)
    : map<(int, string), map<int, int>>
  {
    var mid := boards[(server, "total") := Incremented(Find(boards, (server, "total"), map[]), user, seconds)];
    mid[(server, category) := Incremented(Find(mid, (server, category), map[]), user, seconds)]
  }

  /** The two increments `_add_session_time` applies to a totals hash: the
      category field and the "total" field. A category literally named
      "total" is therefore counted twice. */
  function AddedToTotals(m: map<string, int>, category: string, seconds: int): map<string, int> {
    Incremented(Incremented(m, category, seconds), "total", seconds)
  }

  /** The "total" field grows by the session length (twice over when the
      category itself is called "total"); the category field grows by it;
      no other field changes. */
  lemma AddedToTotalsEffect(m: map<string, int>, category: string, seconds: int)
    ensures category != "total" ==>
      Get(AddedToTotals(m, category, seconds), "total") == Get(m, "total") + seconds
      && Get(AddedToTotals(m, category, seconds), category) == Get(m, category) + seconds
    ensures category == "total" ==>
      Get(AddedToTotals(m, category, seconds), "total") == Get(m, "total") + 2 * seconds
    ensures forall f :: f != category && f != "total" ==> Get(AddedToTotals(m, category, seconds), f) == Get(m, f)
  {
    var m1 := Incremented(m, category, seconds);
    assert Get(m1, category) == Get(m, category) + seconds;
  }

  class ClockManager {
    /** Redis `active_session:{server}:{user}`. */
    var store: map<Slot, Session>
    /** `active_sessions_cache`, keyed by "{server}:{user}". */
    var localCache: map<Slot, Session>
    /** Redis `user_times:{server}:{user}` hashes. */
    var userTimes: map<Slot, map<string, int>>
    /** Redis `server_times:{server}` hashes. */
    var serverTimes: map<int, map<string, int>>
    /** Redis `time_entries:{server}:{user}`, oldest first. */
    var entries: map<Slot, seq<Entry>>
    /** Redis `leaderboard:{server}:{board}` scores, board being "total" or a
        category. */
    var leaderboards: map<(int, string), map<int, int>>
    /** Redis `completed_session:{server}:{user}:{session_id}`. */
    var completed: map<(int, int, string), Completion>
    var sessionsCreated: nat
    var sessionsCompleted: nat

    /** The local cache only ever holds copies of stored sessions. */
    ghost predicate Valid()
      reads this
    {
      forall slot :: slot in localCache ==> slot in store && localCache[slot] == store[slot]
    }

    constructor ()
      ensures Valid()
      ensures store == map[] && localCache == map[] && userTimes == map[] && serverTimes == map[]
      ensures entries == map[] && leaderboards == map[] && completed == map[]
      ensures sessionsCreated == 0 && sessionsCompleted == 0
    {
      store, localCache := map[], map[];
      userTimes, serverTimes, entries := map[], map[], map[];
      leaderboards, completed := map[], map[];
      sessionsCreated, sessionsCompleted := 0, 0;
    }

    /** `get_active_session`: the local cache first, then the store, caching
        what the store returns. Because the cache is coherent, the answer is
        always the stored session. */
    method GetActiveSession(server: int, user: int) returns (s: Option<Session>)
      requires Valid()
      modifies this
      ensures Valid()
      ensures s == (if (server, user) in store then Some(store[(server, user)]) else None)
      ensures localCache == (if (server, user) in store then old(localCache)[(server, user) := store[(server, user)]] else old(localCache))
      ensures store == old(store) && userTimes == old(userTimes) && serverTimes == old(serverTimes)
      ensures entries == old(entries) && leaderboards == old(leaderboards) && completed == old(completed)
      ensures sessionsCreated == old(sessionsCreated) && sessionsCompleted == old(sessionsCompleted)
    {
      var slot := (server, user);
      if slot in localCache {
        return Some(localCache[slot]);
      }
      if slot in store {
        var session := store[slot];
        localCache := localCache[slot := session];
        return Some(session);
      }
      return None;
    }

    /** `clock_in`: refused while a session is active for (server, user);
        otherwise a session in the lower-cased, stripped category starts at
        `now` and is written to the store and the local cache. */
    method ClockIn(server: int, user: int, category: string, sessionId: string, now: int)
      returns (r: ClockInResult)
      requires Valid()
      modifies this
      ensures Valid()
      ensures (server, user) in old(store) ==>
        r == AlreadyClockedIn(old(store)[(server, user)])
        && store == old(store) && sessionsCreated == old(sessionsCreated)
        && localCache == old(localCache)[(server, user) := old(store)[(server, user)]]
      ensures (server, user) !in old(store) ==>
        var session := Session(Strip(Lower(category)), now, sessionId);
        r == ClockedIn(session.category, sessionId)
        && store == old(store)[(server, user) := session]
        && localCache == old(localCache)[(server, user) := session]
        && sessionsCreated == old(sessionsCreated) + 1
      ensures userTimes == old(userTimes) && serverTimes == old(serverTimes) && entries == old(entries)
      ensures leaderboards == old(leaderboards) && completed == old(completed)
      ensures sessionsCompleted == old(sessionsCompleted)
    {
      var existing := GetActiveSession(server, user);
      if existing.Some? {
        return AlreadyClockedIn(existing.value);
      }
      var normalised := Strip(Lower(category));
      var session := Session(normalised, now, sessionId);
      store := store[(server, user) := session];
      localCache := localCache[(server, user) := session];
      sessionsCreated := sessionsCreated + 1;
      return ClockedIn(normalised, sessionId);
    }

    /** `clock_out`: refused when no session is active or when the duration
        is out of range without `force`; otherwise the (possibly capped)
        time is added, the active session is removed from the store and the
        local cache, and the completion is recorded. */
    method ClockOut(server: int, user: int, now: int, force: bool) returns (r: ClockOutResult)
      requires Valid()
      modifies this
      ensures Valid()
      ensures (server, user) !in old(store) ==>
        r == ClockOutFailed(NotClockedIn) && store == old(store) && localCache == old(localCache)
      ensures (server, user) in old(store) ==>
        var session := old(store)[(server, user)];
        match ClockOutDuration(now - session.start, force)
        case Refused(e) =>
          r == ClockOutFailed(e) && localCache == old(localCache)[(server, user) := session]
        case Recorded(seconds) =>
          var totals := AddedToTotals(Find(old(userTimes), (server, user), map[]), session.category, seconds);
          r == ClockedOut(session.category, seconds, session.sessionId, totals[session.category])
          && store == old(store) - {(server, user)}
          && localCache == old(localCache) - {(server, user)}
          && userTimes == old(userTimes)[(server, user) := totals]
          && completed == old(completed)[(server, user, session.sessionId) :=
               Completion(server, user, session.category, seconds, session.sessionId, session.start, now)]
          && sessionsCompleted == old(sessionsCompleted) + 1
          && serverTimes == old(serverTimes)[server := AddedToTotals(Find(old(serverTimes), server, map[]), session.category, seconds)]
          && entries == old(entries)[(server, user) := Find(old(entries), (server, user), [])
                                       + [Entry(session.category, seconds, session.sessionId, session.start, now)]]
          && leaderboards == RaisedScores(old(leaderboards), server, user, session.category, seconds)
      ensures r.ClockOutFailed? ==>
        store == old(store) && userTimes == old(userTimes) && serverTimes == old(serverTimes)
        && entries == old(entries) && leaderboards == old(leaderboards) && completed == old(completed)
        && sessionsCompleted == old(sessionsCompleted)
      ensures sessionsCreated == old(sessionsCreated)
    {
      var active := GetActiveSession(server, user);
      if active.None? {
        return ClockOutFailed(NotClockedIn);
      }
      var session := active.value;
      match ClockOutDuration(now - session.start, force)
      case Refused(e) =>
        return ClockOutFailed(e);
      case Recorded(seconds) =>
        r := Finish(server, user, session, seconds, now);
    }

    /** The successful end of `clock_out`: the time goes to the totals, the
        active session is deleted from the store and the local cache, and
        the completed session is recorded. */
    method Finish(server: int, user: int, session: Session, seconds: int, now: int) returns (r: ClockOutResult)
      requires Valid() && (server, user) in store && store[(server, user)] == session
      modifies this
      ensures Valid()
      ensures var totals := AddedToTotals(Find(old(userTimes), (server, user), map[]), session.category, seconds);
        r == ClockedOut(session.category, seconds, session.sessionId, totals[session.category])
        && store == old(store) - {(server, user)}
        && localCache == old(localCache) - {(server, user)}
        && userTimes == old(userTimes)[(server, user) := totals]
        && completed == old(completed)[(server, user, session.sessionId) :=
             Completion(server, user, session.category, seconds, session.sessionId, session.start, now)]
        && sessionsCompleted == old(sessionsCompleted) + 1
      ensures serverTimes == old(serverTimes)[server := AddedToTotals(Find(old(serverTimes), server, map[]), session.category, seconds)]
      ensures entries == old(entries)[(server, user) := Find(old(entries), (server, user), [])
                                        + [Entry(session.category, seconds, session.sessionId, session.start, now)]]
      ensures leaderboards == RaisedScores(old(leaderboards), server, user, session.category, seconds)
      ensures sessionsCreated == old(sessionsCreated)
    {
      var done := Completion(server, user, session.category, seconds, session.sessionId, session.start, now);
      var categoryTotal := AddSessionTime(done);
      store := store - {(server, user)};
      localCache := localCache - {(server, user)};
      sessionsCompleted := sessionsCompleted + 1;
      completed := completed[(server, user, session.sessionId) := done];
      return ClockedOut(session.category, seconds, session.sessionId, categoryTotal);
    }

    /** `_add_session_time`: adds the session to the user's and the
        server's totals (category and "total"), appends the detailed entry,
        raises the user's score on the server's "total" board and category
        board, and returns the user's new total for the category. */
    method AddSessionTime(c: Completion) returns (categoryTotal: int)
      modifies this
      ensures var slot := (c.server, c.user);
        var userHash := AddedToTotals(Find(old(userTimes), slot, map[]), c.category, c.seconds);
        userTimes == old(userTimes)[slot := userHash]
        && categoryTotal == userHash[c.category]
        && serverTimes == old(serverTimes)[c.server := AddedToTotals(Find(old(serverTimes), c.server, map[]), c.category, c.seconds)]
        && entries == old(entries)[slot := Find(old(entries), slot, []) + [Entry(c.category, c.seconds, c.sessionId, c.start, c.end)]]
        && leaderboards == RaisedScores(old(leaderboards), c.server, c.user, c.category, c.seconds)
      ensures store == old(store) && localCache == old(localCache) && completed == old(completed)
      ensures sessionsCreated == old(sessionsCreated) && sessionsCompleted == old(sessionsCompleted)
    {
      var slot := (c.server, c.user);
      var userHash := Find(userTimes, slot, map[]);
      userHash := Incremented(userHash, c.category, c.seconds);
      userHash := Incremented(userHash, "total", c.seconds);
      userTimes := userTimes[slot := userHash];
      var serverHash := Find(serverTimes, c.server, map[]);
      serverHash := Incremented(serverHash, c.category, c.seconds);
      serverHash := Incremented(serverHash, "total", c.seconds);
      serverTimes := serverTimes[c.server := serverHash];
      entries := entries[slot := Find(entries, slot, []) + [Entry(c.category, c.seconds, c.sessionId, c.start, c.end)]];
      leaderboards := RaisedScores(leaderboards, c.server, c.user, c.category, c.seconds);
      categoryTotal := userHash[c.category];
    }
  }
}

/**
 * The usage-tracking session table of app/auth.py.
 *
 * Python's salted `hash()` is an uninterpreted function passed in by the
 * caller; the clock is an integer-seconds input.
 */
module Auth {
  import opened Basics
  import Text

  /** Sessions older than this many seconds are removed by the sweep. */
  const SessionLifetime := 86400

  datatype Session = Session(apiKeyHash: int, createdAt: int, requestCount: int, lastRequestTime: int)

  type Sessions = map<string, Session>

  /** The id of a session: the key's hash and the creation second, in decimal, after a fixed
      label; the creation second can be read back from its end. */
  function SessionId(keyHash: int, now: int): (r: string)
    ensures KeyPrefix(keyHash) <= r
    ensures var tail := r[|KeyPrefix(keyHash)|..]; Text.IsNumeral(tail) && Text.ParseInt(tail) == now
  {
    var r := KeyPrefix(keyHash) + Text.IntToString(now);
    assert r[|KeyPrefix(keyHash)|..] == Text.IntToString(now);
    Text.IntToStringIsNumeral(now);
    Text.ParseIntToString(now);
    r
  }

  /** The part of a session id fixed by the key. */
  function KeyPrefix(keyHash: int): string {
    "api_key_" + Text.IntToString(keyHash) + "_"
  }

  datatype Created = Created(id: string, sessions: Sessions)

  /** `create_session`: record a fresh session for `apiKey` at `now`, replacing any entry with the same id. */
  function CreateSession(sessions: Sessions, apiKey: string, now: int, hash: string -> int): (r: Created)
    ensures r.id == SessionId(hash(apiKey), now)
    ensures r.sessions.Keys == sessions.Keys + {r.id}
    ensures r.sessions[r.id].apiKeyHash == hash(apiKey)
    ensures r.sessions[r.id].requestCount == 0
    ensures r.sessions[r.id].createdAt == now && r.sessions[r.id].lastRequestTime == now
    ensures forall id :: id in sessions && id != r.id ==> r.sessions[id] == sessions[id]
  {
    var id := SessionId(hash(apiKey), now);
    Created(id, sessions[id := Session(hash(apiKey), now, 0, now)])
  }

  /** `get_session`: the stored session, or nothing for an unknown id. */
  function GetSession(sessions: Sessions, id: string): (r: Option<Session>)
    ensures r.Some? <==> id in sessions
    ensures r.Some? ==> r.value == sessions[id]
  {
    if id in sessions then Some(sessions[id]) else None
  }

  /** `update_session_activity`: count one more request and stamp its time; unknown ids are ignored. */
  function UpdateSessionActivity(sessions: Sessions, id: string, now: int): (r: Sessions)
    ensures r.Keys == sessions.Keys
    ensures id in sessions ==>
      && r[id].requestCount == sessions[id].requestCount + 1
      && r[id].lastRequestTime == now
      && r[id].createdAt == sessions[id].createdAt
      && r[id].apiKeyHash == sessions[id].apiKeyHash
    ensures forall other :: other in sessions && other != id ==> r[other] == sessions[other]
    ensures id !in sessions ==> r == sessions
  {
    if id in sessions then
      var s := sessions[id];
      sessions[id := s.(requestCount := s.requestCount + 1, lastRequestTime := now)]
    else sessions
  }

  /** `cleanup_expired_sessions`: remove exactly the sessions created more than a day before `now`. */
  function CleanupExpiredSessions(sessions: Sessions, now: int): (r: Sessions)
    ensures forall id :: id in r <==> id in sessions && now - sessions[id].createdAt <= SessionLifetime
    ensures forall id :: id in r ==> r[id] == sessions[id]
  {
    map id | id in sessions && now - sessions[id].createdAt <= SessionLifetime :: sessions[id]
  }

  /** A session just created can be looked up under its id, fresh: no requests counted yet. */
  lemma CreateThenGet(sessions: Sessions, apiKey: string, now: int, hash: string -> int)
    ensures var c := CreateSession(sessions, apiKey, now, hash);
      GetSession(c.sessions, SessionId(hash(apiKey), now)) == Some(Session(hash(apiKey), now, 0, now))
  {
  }

  /** A lookup after recording activity sees the count one higher and the new time; a lookup of
      any other id sees what it saw before. */
  lemma ActivityThenGet(sessions: Sessions, id: string, now: int, other: string)
    requires other != id
    ensures var r := UpdateSessionActivity(sessions, id, now);
      && (GetSession(sessions, id).Some? ==>
            GetSession(r, id) == Some(GetSession(sessions, id).value.(requestCount := GetSession(sessions, id).value.requestCount + 1,
                                                                      lastRequestTime := now)))
      && (GetSession(sessions, id).None? ==> GetSession(r, id).None?)
      && GetSession(r, other) == GetSession(sessions, other)
  {
  }

  /** Two creations for one key within one second yield the same id; the second replaces the
      first, so the request count is back to zero whatever activity happened in between. */
  lemma SameSecondReplaces(sessions: Sessions, apiKey: string, now: int, hash: string -> int, later: int)
    ensures var first := CreateSession(sessions, apiKey, now, hash);
      var touched := UpdateSessionActivity(first.sessions, first.id, later);
      var second := CreateSession(touched, apiKey, now, hash);
      && second.id == first.id
      && second.sessions == first.sessions
      && second.sessions[second.id].requestCount == 0
  {
  }

  /** Creations for one key in different seconds get different ids, so neither replaces the other. */
  lemma DistinctSecondsDistinctIds(keyHash: int, t1: int, t2: int)
    requires t1 != t2
    ensures SessionId(keyHash, t1) != SessionId(keyHash, t2)
  {
  }

  /** The sweep looks only at creation time: recording activity neither saves a session
      from it nor is lost by it. */
  lemma SweepIgnoresActivity(sessions: Sessions, id: string, touchedAt: int, now: int)
    ensures CleanupExpiredSessions(UpdateSessionActivity(sessions, id, touchedAt), now)
         == UpdateSessionActivity(CleanupExpiredSessions(sessions, now), id, touchedAt)
  {
    var left := CleanupExpiredSessions(UpdateSessionActivity(sessions, id, touchedAt), now);
    var right := UpdateSessionActivity(CleanupExpiredSessions(sessions, now), id, touchedAt);
    assert left.Keys == right.Keys;
  }
}

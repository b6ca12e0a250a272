/**
 * `SessionManager`: the in-memory login sessions, a map from session id to
 * session that `createSession`, `getSession` (which evicts an expired entry it
 * finds), `removeSession` and `cleanupExpiredSessions` change in place.
 *
 * The random UUID and the clock are parameters: `createSession` is given the
 * new id and the creation time, and every expiry check the current time.
 */
module Sessions {
  import opened JavaText

  /** `SessionManager.Session`: who is logged in and when the session was created.
      The role is a nullable Java string. */
  datatype Session = Session(custid: int, name: string, role: Option<string>, createdAt: int)

  /** `SESSION_TIMEOUT`: two hours in milliseconds. */
  const SessionTimeout: int := 2 * 60 * 60 * 1000

  /** `isExpired(timeoutMillis)`: strictly more than the timeout has elapsed. */
  predicate Expired(s: Session, now: int, timeoutMillis: int)
  {
    now - s.createdAt > timeoutMillis
  }

  /** Expiry is strict: at exactly two hours a session is still valid, one millisecond later
      it is not; and the timeout is 7,200,000 ms. */
  lemma ExpiryIsStrict(s: Session)
    ensures SessionTimeout == 7_200_000
    ensures !Expired(s, s.createdAt + SessionTimeout, SessionTimeout)
    ensures Expired(s, s.createdAt + SessionTimeout + 1, SessionTimeout)
  {
  }

  /** Once expired, a session stays expired. */
  lemma ExpiryIsPermanent(s: Session, now: int, later: int)
    requires Expired(s, now, SessionTimeout) && now <= later
    ensures Expired(s, later, SessionTimeout)
  {
  }

  // ---------------------------------------------------------------------
  // The store's transitions, as functions of the map
  // ---------------------------------------------------------------------

  /** The id names a stored session: it is non-null and non-empty and in the store. */
  predicate Names(store: map<string, Session>, id: Option<string>)
  {
    id.Some? && id.value != "" && id.value in store
  }

  /** What `getSession(id)` returns at time `now`. */
  function Lookup(store: map<string, Session>, id: Option<string>, now: int): (r: Option<Session>)
    ensures r.Some? <==> Names(store, id) && !Expired(store[id.value], now, SessionTimeout)
    ensures r.Some? ==> r.value == store[id.value]
  {
    if Names(store, id) && !Expired(store[id.value], now, SessionTimeout) then Some(store[id.value]) else None
  }

  /** The store after `getSession(id)` at time `now`: a session found expired is removed,
      and nothing else changes. */
  function AfterLookup(store: map<string, Session>, id: Option<string>, now: int): (r: map<string, Session>)
    ensures Names(store, id) && Expired(store[id.value], now, SessionTimeout) ==> r == store - {id.value}
    ensures !(Names(store, id) && Expired(store[id.value], now, SessionTimeout)) ==> r == store
  {
    if Names(store, id) && Expired(store[id.value], now, SessionTimeout) then store - {id.value} else store
  }

  /** The store after `removeSession(id)`: a null id changes nothing. */
  function Removed(store: map<string, Session>, id: Option<string>): (r: map<string, Session>)
    ensures id.None? ==> r == store
    ensures id.Some? ==> id.value !in r
    ensures forall k :: k in store && (id.None? || k != id.value) ==> k in r && r[k] == store[k]
    ensures r.Keys <= store.Keys
  {
    if id.None? then store else store - {id.value}
  }

  /** The store after `cleanupExpiredSessions()` at time `now`: exactly the sessions that
      have not expired, unchanged. */
  function Cleaned(store: map<string, Session>, now: int): (r: map<string, Session>)
    ensures forall k :: k in r <==> k in store && !Expired(store[k], now, SessionTimeout)
    ensures forall k :: k in r ==> r[k] == store[k]
  {
    map k | k in store && !Expired(store[k], now, SessionTimeout) :: store[k]
  }

  /** A session created at `t` under a fresh non-empty id is found, with the data it was
      created with, by a lookup at any time `t'` with `t' - t` within the timeout. */
  lemma CreatedSessionIsFound(store: map<string, Session>, id: string, custid: int, name: string,
                              role: Option<string>, t: int, t': int)
    requires id != "" && t' - t <= SessionTimeout
    ensures var s := Session(custid, name, role, t);
            && Lookup(store[id := s], Some(id), t') == Some(s)
            && AfterLookup(store[id := s], Some(id), t') == store[id := s]
  {
  }

  /** Storing under a fresh id adds exactly one session. */
  lemma FreshIdAddsOne(store: map<string, Session>, id: string, s: Session)
    requires id !in store
    ensures |store[id := s]| == |store| + 1
  {
    assert (store[id := s]).Keys == store.Keys + {id};
  }

  /** A null or empty id finds nothing and leaves the store unchanged. */
  lemma MissingIdFindsNothing(store: map<string, Session>, id: Option<string>, now: int)
    requires id.None? || id.value == ""
    ensures Lookup(store, id, now).None?
    ensures AfterLookup(store, id, now) == store
  {
  }

  /** Finding a session expired removes exactly that one entry and returns nothing. */
  lemma ExpiredLookupEvicts(store: map<string, Session>, id: string, now: int)
    requires id != "" && id in store && Expired(store[id], now, SessionTimeout)
    ensures Lookup(store, Some(id), now).None?
    ensures AfterLookup(store, Some(id), now).Keys == store.Keys - {id}
    ensures forall k :: k in store && k != id ==> AfterLookup(store, Some(id), now)[k] == store[k]
  {
  }

  /** Cleaning up first changes no lookup at the same time: it only drops what a lookup
      would refuse anyway. */
  lemma CleanupPreservesLookups(store: map<string, Session>, id: Option<string>, now: int)
    ensures Lookup(Cleaned(store, now), id, now) == Lookup(store, id, now)
  {
  }

  /** Cleaning up twice at the same time is the same as once. */
  lemma CleanupIdempotent(store: map<string, Session>, now: int)
    ensures Cleaned(Cleaned(store, now), now) == Cleaned(store, now)
  {
  }

  /** After a cleanup, no stored session has expired, so a lookup evicts nothing. */
  lemma CleanedStoreEvictsNothing(store: map<string, Session>, id: Option<string>, now: int)
    ensures AfterLookup(Cleaned(store, now), id, now) == Cleaned(store, now)
  {
  }

  // ---------------------------------------------------------------------
  // The store
  // ---------------------------------------------------------------------

  /** The static `sessions` map of `SessionManager`. */
  class SessionStore {
    var sessions: map<string, Session>

    /** The store starts empty. */
    constructor ()
      ensures sessions == map[]
    {
      sessions := map[];
    }

    /** `createSession(custid, name, role)` with the generated id and the current time:
        the new session is stored under the id (replacing any session it named), and
        the id is returned. */
    method CreateSession(custid: int, name: string, role: Option<string>, id: string, now: int)
      returns (sessionId: string)
      modifies this
      ensures sessionId == id
      ensures sessions == old(sessions)[id := Session(custid, name, role, now)]
      ensures id !in old(sessions) ==> |sessions| == |old(sessions)| + 1
    {
      sessions := sessions[id := Session(custid, name, role, now)];
      if id !in old(sessions) {
        FreshIdAddsOne(old(sessions), id, Session(custid, name, role, now));
      }
      sessionId := id;
    }

    /** `getSession(sessionId)` at time `now`. */
    method GetSession(sessionId: Option<string>, now: int) returns (session: Option<Session>)
      modifies this
      ensures session == Lookup(old(sessions), sessionId, now)
      ensures sessions == AfterLookup(old(sessions), sessionId, now)
    {
      if sessionId.None? || sessionId.value == "" {
        return None;
      }
      if sessionId.value !in sessions {
        return None;
      }
      var s := sessions[sessionId.value];
      if now - s.createdAt > SessionTimeout {
        sessions := sessions - {sessionId.value};
        return None;
      }
      session := Some(s);
    }

    /** `removeSession(sessionId)`. */
    method RemoveSession(sessionId: Option<string>)
      modifies this
      ensures sessions == Removed(old(sessions), sessionId)
    {
      if sessionId.Some? {
        sessions := sessions - {sessionId.value};
      }
    }

    /** `cleanupExpiredSessions()` at time `now`. */
    method CleanupExpiredSessions(now: int)
      modifies this
      ensures sessions == Cleaned(old(sessions), now)
    {
      sessions := map k | k in sessions && !(now - sessions[k].createdAt > SessionTimeout) :: sessions[k];
    }

    /** `getSessionCount()`: the number of stored sessions, expired ones not yet evicted
        included. */
    method GetSessionCount() returns (n: int)
      ensures n == |sessions|
    {
      n := |sessions|;
    }
  }

  /** A login followed by a lookup within two hours finds the session, and logging out
      then makes the same lookup fail. */
  method LoginLookupLogout(store: SessionStore, id: string, t: int)
    requires id != ""
    modifies store
    ensures store.sessions == old(store.sessions) - {id}
  {
    var sessionId := store.CreateSession(7, "kim", Some("customer"), id, t);
    var found := store.GetSession(Some(sessionId), t + SessionTimeout);
    assert found == Some(Session(7, "kim", Some("customer"), t));
    store.RemoveSession(Some(sessionId));
    var again := store.GetSession(Some(sessionId), t + SessionTimeout);
    assert again.None?;
  }
}

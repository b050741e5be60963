/**
 * Per-phone conversation sessions (models/Session.js): a collection with a
 * unique index on `phone`, modelled as a map from phone to session.
 */
module SessionStore {
  import opened Wrappers

  /** `state == None` is the schema's `null`: no continuation state. */
  datatype Session = Session(phone: string, state: Option<string>, updatedAt: int)

  /** At most one session per phone, filed under that phone. */
  ghost predicate Keyed(m: map<string, Session>) {
    forall p :: p in m ==> m[p].phone == p
  }

  /** The collection after `getOrCreateSession(phone)` at time `now`, and the session it returns. */
  function GetOrCreate(m: map<string, Session>, phone: string, now: int): (map<string, Session>, Session) {
    if phone in m then (m, m[phone])
    else (m[phone := Session(phone, None, now)], Session(phone, None, now))
  }

  /** The collection after `setSessionState(phone, state)` at time `now` (an upsert). */
  function SetState(m: map<string, Session>, phone: string, state: Option<string>, now: int): map<string, Session> {
    m[phone := Session(phone, state, now)]
  }

  /**
   * `getOrCreateSession` returns the phone's session, which is now stored;
   * an unknown phone gets a fresh session with no state, a known one keeps
   * its session and nothing is written.
   */
  lemma GetOrCreateFindsOrCreates(m: map<string, Session>, phone: string, now: int)
    requires Keyed(m)
    ensures var (m', s) := GetOrCreate(m, phone, now);
      && Keyed(m') && s.phone == phone && phone in m' && m'[phone] == s
      && m'.Keys == m.Keys + {phone}
      && (phone in m ==> m' == m && s == m[phone])
      && (phone !in m ==> s.state == None && s.updatedAt == now)
      && (forall p :: p in m && p != phone ==> m'[p] == m[p])
  {
  }

  /** A second `getOrCreateSession` with no write in between returns the same session and creates nothing. */
  lemma GetOrCreateIdempotent(m: map<string, Session>, phone: string, t1: int, t2: int)
    ensures var (m1, s1) := GetOrCreate(m, phone, t1);
      GetOrCreate(m1, phone, t2) == (m1, s1)
  {
  }

  /**
   * After `setSessionState(phone, state)` the phone has exactly one session,
   * carrying `state` (also when it is `None`) and the write time; every other
   * phone's session is unchanged, and an absent session is created.
   */
  lemma SetStateUpserts(m: map<string, Session>, phone: string, state: Option<string>, now: int)
    requires Keyed(m)
    ensures var m' := SetState(m, phone, state, now);
      && Keyed(m') && m'.Keys == m.Keys + {phone}
      && m'[phone].state == state && m'[phone].updatedAt == now
      && (forall p :: p in m && p != phone ==> m'[p] == m[p])
  {
  }

  class Sessions {
    var sessions: map<string, Session>

    ghost predicate Valid()
      reads this
    {
      Keyed(sessions)
    }

    /** A handle on the collection behind the `Session` model, holding the sessions `existing` already has. */
    constructor (existing: map<string, Session>)
      requires Keyed(existing)
      ensures Valid() && sessions == existing
    {
      sessions := existing;
    }

    /** `getOrCreateSession(phone)`: `findOne`, then `create` with a null state when nothing was found. */
    method GetOrCreateSession(phone: string, now: int) returns (s: Session)
      requires Valid()
      modifies this
      ensures Valid()
      ensures (sessions, s) == GetOrCreate(old(sessions), phone, now)
    {
      if phone in sessions {
        s := sessions[phone];
      } else {
        s := Session(phone, None, now);
        sessions := sessions[phone := s];
      }
    }

    /** `setSessionState(phone, state)`: `findOneAndUpdate` with `upsert: true`, refreshing `updatedAt`. */
    method SetSessionState(phone: string, state: Option<string>, now: int)
      requires Valid()
      modifies this
      ensures Valid()
      ensures sessions == SetState(old(sessions), phone, state, now)
    {
      sessions := sessions[phone := Session(phone, state, now)];
    }
  }
}

/** The index of active sessions: at most one per profile, and a default among them. */
module SessionManager {
  import opened Prelude

  datatype Profile = Profile(id: string, version: nat, ready: bool, boundAgents: set<string>)

  datatype Entry = Entry(session: nat, generation: nat, profile: Profile)

  /** `order` is the insertion order of the session dictionary. */
  datatype Sessions = Sessions(entries: map<nat, Entry>, order: seq<nat>, byProfile: map<string, nat>, first: Option<nat>)

  const NO_SESSIONS := Sessions(map[], [], map[], None)

  function ByProfile(s: Sessions, profile: string): Option<Entry> {
    if profile in s.byProfile then Get(s.entries, s.byProfile[profile]) else None
  }

  /** A profile that already has another active session is refused. */
  predicate Addable(s: Sessions, e: Entry) {
    e.profile.id in s.byProfile ==> s.byProfile[e.profile.id] == e.session
  }

  function Add(s: Sessions, e: Entry): Sessions
    requires Addable(s, e)
  {
    Sessions(s.entries[e.session := e],
             if e.session in s.entries then s.order else s.order + [e.session],
             s.byProfile[e.profile.id := e.session],
             if s.first.None? then Some(e.session) else s.first)
  }

  function Dropped(order: seq<nat>, session: nat): (r: seq<nat>)
    ensures forall x :: x in r <==> x in order && x != session
  {
    if order == [] then []
    else
      assert order == order[..|order| - 1] + [order[|order| - 1]];
      var front := Dropped(order[..|order| - 1], session);
      if order[|order| - 1] == session then front else front + [order[|order| - 1]]
  }

  lemma {:induction false} DroppedDistinct(order: seq<nat>, session: nat)
    requires Distinct(order)
    ensures Distinct(Dropped(order, session))
  {
    if order != [] {
      var front := order[..|order| - 1];
      DroppedDistinct(front, session);
      assert order[|order| - 1] !in front;
    }
  }

  function Remove(s: Sessions, session: nat): Sessions {
    if session !in s.entries then s
    else
      var profile := s.entries[session].profile.id;
      var rest := Dropped(s.order, session);
      Sessions(s.entries - {session},
               rest,
               if Get(s.byProfile, profile) == Some(session) then s.byProfile - {profile} else s.byProfile,
               if s.first != Some(session) then s.first else if rest == [] then None else Some(rest[0]))
  }

  lemma RemoveAbsent(s: Sessions, session: nat)
    requires session !in s.entries
    ensures Remove(s, session) == s
  {
  }

  // ---------------------------------------------------------------------------
  // Active sessions and active profiles are in bijection
  // ---------------------------------------------------------------------------

  ghost predicate Bijection(s: Sessions) {
    && (forall id :: id in s.entries ==> IndexedByProfile(s, id))
    && (forall p :: p in s.byProfile ==> s.byProfile[p] in s.entries && s.entries[s.byProfile[p]].profile.id == p)
  }

  predicate IndexedByProfile(s: Sessions, id: nat)
    requires id in s.entries
  {
    var e := s.entries[id];
    e.session == id && e.profile.id in s.byProfile && s.byProfile[e.profile.id] == id
  }

  /** A default is set exactly while some session is active, and it is one of them. */
  ghost predicate DefaultActive(s: Sessions) {
    && Distinct(s.order) && Elements(s.order) == s.entries.Keys
    && (s.first.None? <==> s.entries == map[])
    && (s.first.Some? ==> s.first.value in s.entries)
  }

  ghost predicate SessionsValid(s: Sessions) {
    Bijection(s) && DefaultActive(s)
  }

  /** Two active sessions never share a profile. */
  lemma OneSessionPerProfile(s: Sessions, a: nat, b: nat)
    requires Bijection(s) && a in s.entries && b in s.entries && s.entries[a].profile.id == s.entries[b].profile.id
    ensures a == b
  {
    assert IndexedByProfile(s, a) && IndexedByProfile(s, b);
  }

  /** A session that is already there is replaced; it must keep its profile. */
  predicate KeepsProfile(s: Sessions, e: Entry) {
    e.session in s.entries ==> s.entries[e.session].profile.id == e.profile.id
  }

  /** Adding a known session again under another profile leaves the old profile's entry behind. */
  lemma AddBijectionExactly(s: Sessions, e: Entry)
    requires Bijection(s) && Addable(s, e)
    ensures Bijection(Add(s, e)) <==> KeepsProfile(s, e)
  {
    var s' := Add(s, e);
    if KeepsProfile(s, e) {
      forall id | id in s'.entries ensures IndexedByProfile(s', id) {
        if id != e.session {
          assert IndexedByProfile(s, id);
        }
      }
    } else {
      assert IndexedByProfile(s, e.session);
      var before := s.entries[e.session].profile.id;
      assert before in s'.byProfile && s'.byProfile[before] == e.session;
    }
  }

  lemma RemoveKeepsBijection(s: Sessions, session: nat)
    requires Bijection(s)
    ensures Bijection(Remove(s, session))
  {
    var s' := Remove(s, session);
    forall id | id in s'.entries ensures IndexedByProfile(s', id) {
      assert IndexedByProfile(s, id);
    }
  }

  lemma AddKeepsDefault(s: Sessions, e: Entry)
    requires DefaultActive(s) && Addable(s, e)
    ensures DefaultActive(Add(s, e))
  {
    if e.session in s.entries {
      assert e.session in Elements(s.order);
    } else {
      assert e.session !in Elements(s.order);
      assert Elements(s.order + [e.session]) == Elements(s.order) + {e.session};
    }
    assert e.session in Add(s, e).entries;
  }

  lemma RemoveKeepsDefault(s: Sessions, session: nat)
    requires DefaultActive(s)
    ensures DefaultActive(Remove(s, session))
  {
    var s' := Remove(s, session);
    if session in s.entries {
      var rest := Dropped(s.order, session);
      DroppedDistinct(s.order, session);
      assert Elements(rest) == Elements(s.order) - {session};
      assert s'.entries.Keys == s.entries.Keys - {session};
      if rest != [] {
        assert rest[0] in Elements(rest);
      } else {
        assert s'.entries.Keys == {};
      }
      if s.first != Some(session) {
        assert s.first.Some?;
        assert s.first.value in s'.entries;
      }
    }
  }

  lemma SessionsKept(s: Sessions, e: Entry, session: nat)
    requires SessionsValid(s)
    ensures Addable(s, e) ==> (SessionsValid(Add(s, e)) <==> KeepsProfile(s, e))
    ensures SessionsValid(Remove(s, session))
  {
    if Addable(s, e) {
      AddBijectionExactly(s, e);
      AddKeepsDefault(s, e);
    }
    RemoveKeepsBijection(s, session);
    RemoveKeepsDefault(s, session);
  }

  // ---------------------------------------------------------------------------
  // The manager object
  // ---------------------------------------------------------------------------

  class SessionManager {
    var sessions: map<nat, Entry>
    var order: seq<nat>
    var profileSessions: map<string, nat>
    var defaultSession: Option<nat>

    function State(): Sessions
      reads this
    {
      Sessions(sessions, order, profileSessions, defaultSession)
    }

    constructor ()
      ensures State() == NO_SESSIONS
    {
      sessions, order, profileSessions, defaultSession := map[], [], map[], None;
    }

    method AddEntry(e: Entry) returns (added: bool)
      modifies this
      ensures old(SessionsValid(State())) ==> (SessionsValid(State()) <==> !added || KeepsProfile(old(State()), e))
      ensures added <==> Addable(old(State()), e)
      ensures State() == if added then Add(old(State()), e) else old(State())
    {
      hide Bijection, DefaultActive;
      if SessionsValid(State()) {
        SessionsKept(State(), e, e.session);
      }
      var existing := Get(profileSessions, e.profile.id);
      if existing.Some? && existing.value != e.session {
        return false;
      }
      if e.session !in sessions {
        order := order + [e.session];
      }
      sessions := sessions[e.session := e];
      profileSessions := profileSessions[e.profile.id := e.session];
      if defaultSession.None? {
        defaultSession := Some(e.session);
      }
      added := true;
    }

    method RemoveEntry(session: nat) returns (removed: Option<Entry>)
      modifies this
      ensures old(SessionsValid(State())) ==> SessionsValid(State())
      ensures State() == Remove(old(State()), session)
      ensures removed == Get(old(sessions), session)
    {
      hide Bijection, DefaultActive;
      if SessionsValid(State()) {
        SessionsKept(State(), Entry(session, 0, Profile("", 0, false, {})), session);
      }
      removed := Get(sessions, session);
      if removed.None? {
        return;
      }
      var profile := removed.value.profile.id;
      sessions := sessions - {session};
      order := Dropped(order, session);
      if Get(profileSessions, profile) == Some(session) {
        profileSessions := profileSessions - {profile};
      }
      if defaultSession == Some(session) {
        defaultSession := if order == [] then None else Some(order[0]);
      }
    }
  }
}

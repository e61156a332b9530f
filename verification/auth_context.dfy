/** The session/profile store (src/context/AuthContext.tsx). The provider holds four pieces
    of state — session, user, profile, loading — and updates them from the one-shot session
    fetch at mount and from every auth-change event. The listener is split at its await
    into a begin step and a complete step; the mount fetch, which awaits the session and
    then the profile, is one step. The backend's answers are parameters.

    The pure functions below state each step on an `AuthState` value; the class
    `AuthProvider` performs the steps on its fields and is proved to follow them. */
module AuthContext {
  import opened Base
  import opened Types
  import SupabaseClient

  /** What the provider hands to its consumers. */
  datatype AuthState = AuthState(session: Option<Session>, user: Option<User>, profile: Option<Profile>, loading: bool)

  /** The answer of `profiles.select('*').eq('id', …).single()`. */
  type ProfileFetch = Result<Profile, BackendError>

  /** One auth-change event: the session it carries and the answer of the profile fetch
      it triggers (read only when the session is present). */
  datatype AuthEvent = AuthEvent(session: Option<Session>, fetched: ProfileFetch)

  /** The auth methods the provider's mount effect calls. */
  const MountCalls: set<SupabaseClient.AuthMethod> := {SupabaseClient.GetSession, SupabaseClient.OnAuthStateChange}

  /** The state before anything has been fetched: no session, no user, no profile, loading. */
  const Initial := AuthState(None, None, None, true)

  /** `session?.user ?? null`: the session's user, or none without a session. */
  function UserOf(s: Option<Session>): (u: Option<User>)
    ensures u.Some? <==> s.Some?
    ensures s.Some? ==> u.value == s.value.user
  {
    if s.Some? then Some(s.value.user) else None
  }

  /** The invariant the store keeps once it has resolved anything: `user` mirrors the
      session, and a profile is held only while there is a session. */
  ghost predicate Consistent(st: AuthState)
  {
    st.user == UserOf(st.session) && (st.session.None? ==> st.profile.None?)
  }

  /** The profile after a fetch: the row on success; on error the error is logged and the
      previous profile is kept. */
  function ApplyProfileFetch(profile: Option<Profile>, fetched: ProfileFetch): (r: Option<Profile>)
    ensures fetched.Ok? ==> r == Some(fetched.value)
    ensures fetched.Err? ==> r == profile
  {
    match fetched
    case Ok(p) => Some(p)
    case Err(_) => profile
  }

  /** `fetchSessionAndProfile`: store the fetched session and its user, fetch the profile
      only when there is a user, and clear `loading` whatever the fetch returned. */
  function ResolveInitial(st: AuthState, s: Option<Session>, fetched: ProfileFetch): (r: AuthState)
    ensures r.session == s && r.user == UserOf(s)
    ensures !r.loading
    ensures s.None? ==> r.profile == st.profile
    ensures s.Some? && fetched.Err? ==> r.profile == st.profile
    ensures s.Some? && fetched.Ok? ==> r.profile == Some(fetched.value)
  {
    var profile := if UserOf(s).Some? then ApplyProfileFetch(st.profile, fetched) else st.profile;
    AuthState(s, UserOf(s), profile, false)
  }

  /** The synchronous part of the auth-change listener: replace session and user; with a
      user, raise `loading` for the profile fetch; without one, clear the profile and
      `loading` at once. */
  function BeginAuthChange(st: AuthState, s: Option<Session>): (r: AuthState)
    ensures r.session == s && r.user == UserOf(s)
    ensures r.loading <==> s.Some?
    ensures s.Some? ==> r.profile == st.profile
    ensures s.None? ==> r.profile.None?
  {
    if UserOf(s).Some? then AuthState(s, UserOf(s), st.profile, true)
    else AuthState(s, UserOf(s), None, false)
  }

  /** The part of the listener after the profile fetch returns: apply its result and
      clear `loading`. Session and user are untouched. */
  function CompleteAuthChange(st: AuthState, fetched: ProfileFetch): (r: AuthState)
    ensures r.session == st.session && r.user == st.user
    ensures r.profile == ApplyProfileFetch(st.profile, fetched)
    ensures !r.loading
  {
    st.(profile := ApplyProfileFetch(st.profile, fetched), loading := false)
  }

  /** One whole auth-change event, run without interruption. Whatever state it starts
      from, it leaves the store consistent and not loading, with the event's session user;
      with a session the profile is the fetch applied to the previous one, without one there
      is no profile. */
  function HandleAuthChange(st: AuthState, e: AuthEvent): (r: AuthState)
    ensures Consistent(r) && !r.loading
    ensures r.session == e.session && r.user == UserOf(e.session)
    ensures e.session.Some? ==> r.profile == ApplyProfileFetch(st.profile, e.fetched)
    ensures e.session.None? ==> r.profile.None?
  {
    var begun := BeginAuthChange(st, e.session);
    if e.session.Some? then CompleteAuthChange(begun, e.fetched) else begun
  }

  /** The state after a sequence of auth-change events, oldest first. */
  function Replay(st: AuthState, events: seq<AuthEvent>): AuthState
    decreases |events|
  {
    if events == [] then st
    else HandleAuthChange(Replay(st, events[..|events| - 1]), events[|events| - 1])
  }

  /** The store after mount (session `s0`, profile fetch `f0`) and then `events`. */
  function History(s0: Option<Session>, f0: ProfileFetch, events: seq<AuthEvent>): AuthState
  {
    Replay(ResolveInitial(Initial, s0, f0), events)
  }

  /** Along any history the store is consistent, `loading` has settled to false, and the
      user is the one of the latest session seen (the last event's, or the mount's). */
  lemma HistorySettles(s0: Option<Session>, f0: ProfileFetch, events: seq<AuthEvent>)
    ensures Consistent(History(s0, f0, events))
    ensures !History(s0, f0, events).loading
    ensures History(s0, f0, events).user == UserOf(if events == [] then s0 else events[|events| - 1].session)
  {
  }

  /** `p` came from a successful profile fetch made for a session, and no event since then
      carried a null session (a sign-out): either the fetch of event `i`, or the mount's
      fetch when no event so far signed out. */
  ghost predicate FetchedSinceSignOut(p: Profile, s0: Option<Session>, f0: ProfileFetch, events: seq<AuthEvent>)
  {
    || (exists i :: 0 <= i < |events| && events[i].session.Some? && events[i].fetched == Ok(p)
                    && forall k :: i <= k < |events| ==> events[k].session.Some?)
    || (s0.Some? && f0 == Ok(p) && forall k :: 0 <= k < |events| ==> events[k].session.Some?)
  }

  /** No stale profile survives a sign-out: a profile the store holds is one the backend
      returned for a session, with no null-session event after that fetch. A failed fetch
      keeps the previous profile, so the source of the profile may lie several events back. */
  lemma {:induction false} ProfileProvenance(s0: Option<Session>, f0: ProfileFetch, events: seq<AuthEvent>)
    ensures History(s0, f0, events).profile.Some? ==>
              FetchedSinceSignOut(History(s0, f0, events).profile.value, s0, f0, events)
  {
    if events == [] {
    } else {
      var n := |events| - 1;
      var pre := events[..n];
      var e := events[n];
      var before := History(s0, f0, pre);
      assert History(s0, f0, events) == HandleAuthChange(before, e);
      if e.session.Some? {
        var p := History(s0, f0, events).profile;
        if e.fetched.Ok? {
          assert FetchedSinceSignOut(p.value, s0, f0, events) by {
            assert events[n].session.Some? && events[n].fetched == Ok(p.value);
            assert forall k :: n <= k < |events| ==> events[k].session.Some?;
          }
        } else if p.Some? {
          assert p == before.profile;
          ProfileProvenance(s0, f0, pre);
          assert forall k :: 0 <= k < n ==> pre[k] == events[k];
          if exists i :: 0 <= i < |pre| && pre[i].session.Some? && pre[i].fetched == Ok(p.value)
                         && forall k :: i <= k < |pre| ==> pre[k].session.Some? {
            var i :| 0 <= i < |pre| && pre[i].session.Some? && pre[i].fetched == Ok(p.value)
                     && forall k :: i <= k < |pre| ==> pre[k].session.Some?;
            assert forall k :: i <= k < |events| ==> events[k].session.Some?;
          } else {
            assert forall k :: 0 <= k < |events| ==> events[k].session.Some?;
          }
        }
      }
    }
  }

  /** A failed profile fetch never overwrites the profile, on mount or on an event. */
  lemma FetchErrorKeepsProfile(st: AuthState, s: Option<Session>, err: BackendError)
    ensures ResolveInitial(st, s, Err(err)).profile == st.profile
    ensures s.Some? ==> HandleAuthChange(st, AuthEvent(s, Err(err))).profile == st.profile
  {
  }

  /** The backend answered the rows that were asked for: the profile query filters on the
      id of the session's user, so every profile fetched carries that id. */
  ghost predicate FetchesMatchSessions(s0: Option<Session>, f0: ProfileFetch, events: seq<AuthEvent>)
  {
    && (s0.Some? && f0.Ok? ==> f0.value.id == s0.value.user.id)
    && forall i :: 0 <= i < |events| && events[i].session.Some? && events[i].fetched.Ok? ==>
         events[i].fetched.value.id == events[i].session.value.user.id
  }

  /** As written, the store can hold one identity's profile beside another identity's user:
      user A mounts with A's profile, then B signs in and B's fetch fails (B has no profile
      row yet, so the single-row query errors). A's profile is kept beside B's user. */
  lemma StaleProfileAsWritten(sa: Session, sb: Session, p: Profile, err: BackendError)
    requires p.id == sa.user.id && sb.user.id != sa.user.id
    ensures FetchesMatchSessions(Some(sa), Ok(p), [AuthEvent(Some(sb), Err(err))])
    ensures History(Some(sa), Ok(p), [AuthEvent(Some(sb), Err(err))]).user == Some(sb.user)
    ensures History(Some(sa), Ok(p), [AuthEvent(Some(sb), Err(err))]).profile == Some(p)
    ensures p.id != sb.user.id
  {
    var events := [AuthEvent(Some(sb), Err(err))];
    var mounted := ResolveInitial(Initial, Some(sa), Ok(p));
    assert events[..|events| - 1] == [];
    assert Replay(mounted, events[..|events| - 1]) == mounted;
    assert History(Some(sa), Ok(p), events) == HandleAuthChange(mounted, events[0]);
  }

  /** The evidently intended result of a fetch: the row on success, and no profile on
      failure, rather than the previous identity's. */
  function ApplyProfileFetchIntended(fetched: ProfileFetch): (r: Option<Profile>)
    ensures r.Some? <==> fetched.Ok?
    ensures fetched.Ok? ==> r == Some(fetched.value)
  {
    match fetched
    case Ok(p) => Some(p)
    case Err(_) => None
  }

  /** A whole auth-change event with the intended fetch handling. */
  function HandleAuthChangeIntended(st: AuthState, e: AuthEvent): (r: AuthState)
    ensures Consistent(r) && !r.loading
    ensures r.session == e.session && r.user == UserOf(e.session)
    ensures r.profile == (if e.session.Some? then ApplyProfileFetchIntended(e.fetched) else None)
  {
    var begun := BeginAuthChange(st, e.session);
    if e.session.Some? then begun.(profile := ApplyProfileFetchIntended(e.fetched), loading := false) else begun
  }

  /** The store after mount and `events`, with the intended fetch handling at mount and on
      every event. */
  function HistoryIntended(s0: Option<Session>, f0: ProfileFetch, events: seq<AuthEvent>): AuthState
    decreases |events|
  {
    if events == [] then AuthState(s0, UserOf(s0), if s0.Some? then ApplyProfileFetchIntended(f0) else None, false)
    else HandleAuthChangeIntended(HistoryIntended(s0, f0, events[..|events| - 1]), events[|events| - 1])
  }

  /** With the intended handling, a profile the store holds always belongs to its user. */
  lemma ProfileBelongsToUserIntended(s0: Option<Session>, f0: ProfileFetch, events: seq<AuthEvent>)
    requires FetchesMatchSessions(s0, f0, events)
    ensures HistoryIntended(s0, f0, events).profile.Some? ==>
              && HistoryIntended(s0, f0, events).user.Some?
              && HistoryIntended(s0, f0, events).profile.value.id == HistoryIntended(s0, f0, events).user.value.id
  {
  }

  /** The correction changes nothing while every fetch made succeeds: then the intended
      store is the store as written (both are then decided by the latest session). */
  lemma IntendedAgreesWithoutFetchErrors(s0: Option<Session>, f0: ProfileFetch, events: seq<AuthEvent>)
    requires s0.Some? ==> f0.Ok?
    requires forall i :: 0 <= i < |events| && events[i].session.Some? ==> events[i].fetched.Ok?
    ensures HistoryIntended(s0, f0, events) == History(s0, f0, events)
  {
  }

  /** Where the provider is in its lifecycle: created, mounted with the listener
      registered, or torn down with the listener released. */
  datatype Stage = Created | Listening | TornDown

  /** The result `signOut` hands back: `{ error }`. */
  datatype SignOutResult = SignOutResult(error: Option<Thrown>)

  class AuthProvider {
    var session: Option<Session>
    var user: Option<User>
    var profile: Option<Profile>
    var loading: bool
    var stage: Stage
    /** The listener is suspended at its profile fetch. */
    ghost var fetchInFlight: bool

    function State(): AuthState
      reads this
    {
      AuthState(session, user, profile, loading)
    }

    ghost predicate Valid()
      reads this
    {
      && (stage == Created ==> State() == Initial && !fetchInFlight)
      && (stage != Created ==> Consistent(State()))
      && (fetchInFlight ==> stage == Listening && loading && user.Some?)
      && (stage == Listening && !fetchInFlight ==> !loading)
    }

    /** The four `useState` initial values. */
    constructor ()
      ensures Valid() && stage == Created
      ensures State() == Initial
    {
      session, user, profile, loading := None, None, None, true;
      stage := Created;
      fetchInFlight := false;
    }

    /** The mount effect: `fetchSessionAndProfile` with the session `s` and profile fetch
        `fetched` the backend answers, and registration of the auth-change listener. */
    method Mount(s: Option<Session>, fetched: ProfileFetch)
      requires Valid() && stage == Created
      modifies this
      ensures Valid() && stage == Listening && !fetchInFlight
      ensures State() == ResolveInitial(old(State()), s, fetched)
    {
      session := s;
      user := UserOf(s);
      if user.Some? {
        match fetched {
          case Ok(p) => profile := Some(p);
          case Err(_) =>
        }
      }
      loading := false;
      stage := Listening;
    }

    /** The listener, up to its await: the event's session replaces session and user. */
    method AuthChangeStart(s: Option<Session>)
      requires Valid() && stage == Listening && !fetchInFlight
      modifies this
      ensures Valid() && stage == Listening
      ensures fetchInFlight <==> s.Some?
      ensures State() == BeginAuthChange(old(State()), s)
    {
      session := s;
      user := UserOf(s);
      if user.Some? {
        loading := true;
        fetchInFlight := true;
      } else {
        profile := None;
        loading := false;
      }
    }

    /** The listener after its profile fetch returns `fetched`. */
    method AuthChangeFinish(fetched: ProfileFetch)
      requires Valid() && fetchInFlight
      modifies this
      ensures Valid() && stage == Listening && !fetchInFlight
      ensures State() == CompleteAuthChange(old(State()), fetched)
    {
      if fetched.Ok? {
        profile := Some(fetched.value);
      }
      loading := false;
      fetchInFlight := false;
    }

    /** `signOut`: hands back the backend's answer and changes no state; clearing the
        session is left to the listener. */
    method SignOut(backendError: Option<Thrown>) returns (r: SignOutResult)
      ensures r.error == backendError
    {
      r := SignOutResult(backendError);
    }

    /** The effect's cleanup: the listener subscription is released. */
    method Teardown()
      requires Valid() && stage == Listening
      modifies this
      ensures Valid() && stage == TornDown && !fetchInFlight
      ensures State() == old(State())
    {
      stage := TornDown;
      fetchInFlight := false;
    }
  }
}

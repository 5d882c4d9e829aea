/** The current-user store: the signed-in user, a loading flag and an error. */
module UserStore {
  import opened Js
  import opened Types

  /** What `getCurrentUserAction` resolves to, destructured as `{ error, user }`. */
  datatype CurrentUserResult = CurrentUserResult(error: Option<string>, user: Option<User>)

  datatype UserState = UserState(user: Option<User>, loading: bool, error: Option<string>)

  const Initial: UserState := UserState(None, false, None)

  /** The first `set` of `fetchCurrentUser`, in force while the request is awaited:
      loading on, error cleared, user kept. */
  function FetchStarted(s: UserState): (t: UserState)
    ensures t.loading && t.error == None && t.user == s.user
  {
    s.(loading := true, error := None)
  }

  /** The rest of `fetchCurrentUser` once the request ends: a truthy error is recorded
      and keeps the user; otherwise a returned user replaces it; a throw records a fixed
      message; loading is off in every case. */
  function FetchSettled(s: UserState, outcome: Outcome<CurrentUserResult>): (t: UserState)
    ensures !t.loading
    ensures outcome.Resolved? && Truthy(outcome.value.error) ==>
              t.error == outcome.value.error && t.user == s.user
    ensures outcome.Resolved? && !Truthy(outcome.value.error) ==>
              t.error == s.error && t.user == (if outcome.value.user.Some? then outcome.value.user else s.user)
    ensures outcome.Rejected? ==> t.error == Some("Failed to fetch user data") && t.user == s.user
  {
    var settled :=
      match outcome
      case Resolved(r) =>
        if Truthy(r.error) then s.(error := r.error)
        else if r.user.Some? then s.(user := r.user)
        else s
      case Rejected(_) => s.(error := Some("Failed to fetch user data"));
    settled.(loading := false)
  }

  /** `fetchCurrentUser` as a whole, given how the request ends. */
  function CurrentUserFetched(s: UserState, outcome: Outcome<CurrentUserResult>): (t: UserState)
    ensures !t.loading
    ensures outcome.Resolved? && Truthy(outcome.value.error) ==>
              t.error == outcome.value.error && t.user == s.user
    ensures outcome.Resolved? && !Truthy(outcome.value.error) ==>
              t.error == None && t.user == (if outcome.value.user.Some? then outcome.value.user else s.user)
    ensures outcome.Rejected? ==> t.error == Some("Failed to fetch user data") && t.user == s.user
  {
    FetchSettled(FetchStarted(s), outcome)
  }

  /** A `clearUser` while the request is awaited (signing out) is undone when the
      request then returns a user, and kept otherwise. */
  lemma ClearDuringFetch(s: UserState, outcome: Outcome<CurrentUserResult>)
    ensures var t := FetchSettled(FetchStarted(s).(user := None), outcome);
            if outcome.Resolved? && !Truthy(outcome.value.error) && outcome.value.user.Some? then
              t.user == outcome.value.user
            else t.user == None
  {
  }

  /** A fetch never leaves an empty-string error behind and never clears the user. */
  lemma FetchKeepsUserUnlessReplaced(s: UserState, outcome: Outcome<CurrentUserResult>)
    ensures var t := CurrentUserFetched(s, outcome);
            (t.error.Some? ==> t.error.value != "")
            && (s.user.Some? ==> t.user.Some?)
            && (t.error.None? <==> outcome.Resolved? && !Truthy(outcome.value.error))
  {
  }

  /** The zustand user store. */
  class Store {
    var user: Option<User>
    var loading: bool
    var error: Option<string>

    function State(): UserState
      reads this
    {
      UserState(user, loading, error)
    }

    constructor ()
      ensures State() == Initial
    {
      user, loading, error := None, false, None;
    }

    /** `setUser` */
    method SetUser(u: Option<User>)
      modifies this
      ensures user == u && loading == old(loading) && error == old(error)
    {
      user := u;
    }

    /** `fetchCurrentUser`, given how the request ends: the first `set`, then the rest. */
    method FetchCurrentUser(outcome: Outcome<CurrentUserResult>)
      modifies this
      ensures State() == CurrentUserFetched(old(State()), outcome)
    {
      StartFetchCurrentUser();
      FinishFetchCurrentUser(outcome);
    }

    /** `fetchCurrentUser` up to the `await`. */
    method StartFetchCurrentUser()
      modifies this
      ensures State() == FetchStarted(old(State()))
    {
      loading, error := true, None;
    }

    /** `fetchCurrentUser` after the `await`, given how the request ended. */
    method FinishFetchCurrentUser(outcome: Outcome<CurrentUserResult>)
      modifies this
      ensures State() == FetchSettled(old(State()), outcome)
    {
      match outcome {
        case Resolved(r) =>
          if Truthy(r.error) {
            error := r.error;
          } else if r.user.Some? {
            user := r.user;
          }
        case Rejected(_) =>
          error := Some("Failed to fetch user data");
      }
      loading := false;
    }

    /** `clearUser` */
    method ClearUser()
      modifies this
      ensures user == None && loading == old(loading) && error == old(error)
    {
      user := None;
    }
  }
}

/** The admin dashboard store: the user list and the play history, each with its own
    loading flag and error, the two counts, and the selectors over them. */
module DashboardStore {
  import opened Js
  import opened Types

  /** What `getAllUsersAction` resolves to. */
  datatype UsersResult = UsersResult(success: bool, users: Option<seq<User>>, total: Option<int>, error: Option<string>)

  /** What `getAllHistoryAction` resolves to. */
  datatype HistoryResult = HistoryResult(success: bool, history: Option<seq<History>>, error: Option<string>)

  datatype DashboardState = DashboardState(
    users: seq<User>, history: seq<History>,
    usersLoading: bool, historyLoading: bool,
    usersError: Option<string>, historyError: Option<string>,
    usersCount: int, gamesPlayedCount: int)

  const Initial: DashboardState := DashboardState([], [], false, false, None, None, 0, 0)

  /** The user fields: the only fields the user fetch writes. */
  function UsersPart(s: DashboardState): (seq<User>, bool, Option<string>, int) {
    (s.users, s.usersLoading, s.usersError, s.usersCount)
  }

  /** The history fields: the only fields the history fetch writes. */
  function HistoryPart(s: DashboardState): (seq<History>, bool, Option<string>, int) {
    (s.history, s.historyLoading, s.historyError, s.gamesPlayedCount)
  }

  /** The message a thrown value leaves: its own message if it is an `Error`. */
  function CaughtMessage(t: Thrown, fallback: string): string {
    match t
    case ErrorObject(m) => m
    case NonError => fallback
  }

  /** The first `set` of `fetchUsers`. */
  function UsersStarted(s: DashboardState): (t: DashboardState)
    ensures t.usersLoading && t.usersError == None
    ensures HistoryPart(t) == HistoryPart(s) && t.users == s.users && t.usersCount == s.usersCount
  {
    s.(usersLoading := true, usersError := None)
  }

  /** The second `set` of `fetchUsers`, once the request has ended. */
  function UsersFinished(s: DashboardState, outcome: Outcome<UsersResult>): (t: DashboardState)
    ensures !t.usersLoading && HistoryPart(t) == HistoryPart(s)
    ensures outcome.Resolved? && outcome.value.success ==>
              t.users == outcome.value.users.GetOr([]) && t.usersCount == outcome.value.total.GetOr(0)
              && t.usersError == s.usersError
    ensures outcome.Resolved? && !outcome.value.success ==>
              t.users == s.users && t.usersCount == s.usersCount
              && t.usersError == Some(Or(outcome.value.error, "Failed to fetch users")) && t.usersError.value != ""
    ensures outcome.Rejected? ==>
              t.users == s.users && t.usersCount == s.usersCount
              && t.usersError == Some(CaughtMessage(outcome.thrown, "Failed to fetch users"))
  {
    match outcome
    case Resolved(result) =>
      if result.success then
        s.(users := result.users.GetOr([]), usersCount := result.total.GetOr(0), usersLoading := false)
      else
        s.(usersError := Some(Or(result.error, "Failed to fetch users")), usersLoading := false)
    case Rejected(t) =>
      s.(usersError := Some(CaughtMessage(t, "Failed to fetch users")), usersLoading := false)
  }

  /** The first `set` of `fetchHistory`. */
  function HistoryStarted(s: DashboardState): (t: DashboardState)
    ensures t.historyLoading && t.historyError == None
    ensures UsersPart(t) == UsersPart(s) && t.history == s.history && t.gamesPlayedCount == s.gamesPlayedCount
  {
    s.(historyLoading := true, historyError := None)
  }

  /** The second `set` of `fetchHistory`, once the request has ended. */
  function HistoryFinished(s: DashboardState, outcome: Outcome<HistoryResult>): (t: DashboardState)
    ensures !t.historyLoading && UsersPart(t) == UsersPart(s)
    ensures outcome.Resolved? && outcome.value.success ==>
              t.history == outcome.value.history.GetOr([]) && t.gamesPlayedCount == |t.history|
              && t.historyError == s.historyError
    ensures outcome.Resolved? && !outcome.value.success ==>
              t.history == s.history && t.gamesPlayedCount == s.gamesPlayedCount
              && t.historyError == Some(Or(outcome.value.error, "Failed to fetch history")) && t.historyError.value != ""
    ensures outcome.Rejected? ==>
              t.history == s.history && t.gamesPlayedCount == s.gamesPlayedCount
              && t.historyError == Some(CaughtMessage(outcome.thrown, "Failed to fetch history"))
  {
    match outcome
    case Resolved(result) =>
      if result.success then
        var h := result.history.GetOr([]);
        s.(history := h, gamesPlayedCount := |h|, historyLoading := false)
      else
        s.(historyError := Some(Or(result.error, "Failed to fetch history")), historyLoading := false)
    case Rejected(t) =>
      s.(historyError := Some(CaughtMessage(t, "Failed to fetch history")), historyLoading := false)
  }

  /** `fetchUsers` as a whole: the starting `set` then the finishing one. A success
      installs the reply; a failure or throw keeps the users and count from before the
      call; the history fields are never touched. */
  function UsersFetched(s: DashboardState, outcome: Outcome<UsersResult>): (t: DashboardState)
    ensures !t.usersLoading && HistoryPart(t) == HistoryPart(s)
    ensures outcome.Resolved? && outcome.value.success ==>
              t.users == outcome.value.users.GetOr([]) && t.usersCount == outcome.value.total.GetOr(0)
              && t.usersError == None
    ensures !(outcome.Resolved? && outcome.value.success) ==>
              t.users == s.users && t.usersCount == s.usersCount && t.usersError.Some?
  {
    UsersFinished(UsersStarted(s), outcome)
  }

  /** `fetchHistory` as a whole. A success installs the reply and counts it; a failure
      or throw keeps the history and count from before the call; the user fields are
      never touched. */
  function HistoryFetched(s: DashboardState, outcome: Outcome<HistoryResult>): (t: DashboardState)
    ensures !t.historyLoading && UsersPart(t) == UsersPart(s)
    ensures outcome.Resolved? && outcome.value.success ==>
              t.history == outcome.value.history.GetOr([]) && t.gamesPlayedCount == |t.history|
              && t.historyError == None
    ensures !(outcome.Resolved? && outcome.value.success) ==>
              t.history == s.history && t.gamesPlayedCount == s.gamesPlayedCount && t.historyError.Some?
  {
    HistoryFinished(HistoryStarted(s), outcome)
  }

  /** After `fetchUsers`, an error is left exactly when the request did not succeed. */
  lemma UsersFetchedError(s: DashboardState, outcome: Outcome<UsersResult>)
    ensures var t := UsersFetched(s, outcome);
            !t.usersLoading && (t.usersError == None <==> outcome.Resolved? && outcome.value.success)
  {
  }

  /** `fetchDashboardData` runs both fetches at once. They write disjoint fields, so each
      step of one commutes with each step of the other and every interleaving of the
      four `set` calls ends in the same state. */
  lemma FetchStepsCommute(s: DashboardState, u: Outcome<UsersResult>, h: Outcome<HistoryResult>)
    ensures UsersStarted(HistoryStarted(s)) == HistoryStarted(UsersStarted(s))
    ensures UsersStarted(HistoryFinished(s, h)) == HistoryFinished(UsersStarted(s), h)
    ensures UsersFinished(HistoryStarted(s), u) == HistoryStarted(UsersFinished(s, u))
    ensures UsersFinished(HistoryFinished(s, h), u) == HistoryFinished(UsersFinished(s, u), h)
  {
  }

  /** `resetErrors` */
  function ErrorsReset(s: DashboardState): (t: DashboardState)
    ensures t.usersError == None && t.historyError == None
    ensures t.(usersError := s.usersError, historyError := s.historyError) == s
  {
    s.(usersError := None, historyError := None)
  }

  datatype UsersData = UsersData(users: seq<User>, count: int, loading: bool, error: Option<string>)
  datatype HistoryData = HistoryData(history: seq<History>, count: int, loading: bool, error: Option<string>)
  datatype DashboardStats = DashboardStats(usersCount: int, gamesPlayedCount: int, loading: bool, hasErrors: bool)

  /** `selectUsersData` */
  function SelectUsersData(s: DashboardState): (d: UsersData)
    ensures (d.users, d.loading, d.error, d.count) == UsersPart(s)
  {
    UsersData(s.users, s.usersCount, s.usersLoading, s.usersError)
  }

  /** `selectHistoryData` */
  function SelectHistoryData(s: DashboardState): (d: HistoryData)
    ensures (d.history, d.loading, d.error, d.count) == HistoryPart(s)
  {
    HistoryData(s.history, s.gamesPlayedCount, s.historyLoading, s.historyError)
  }

  /** `selectDashboardStats`: loading while either fetch is, and errors exactly when
      either error is a non-empty string. */
  function SelectDashboardStats(s: DashboardState): (d: DashboardStats)
    ensures d.loading <==> s.usersLoading || s.historyLoading
    ensures d.hasErrors <==> Truthy(s.usersError) || Truthy(s.historyError)
    ensures d.usersCount == s.usersCount && d.gamesPlayedCount == s.gamesPlayedCount
  {
    DashboardStats(s.usersCount, s.gamesPlayedCount, s.usersLoading || s.historyLoading,
                   Truthy(s.usersError) || Truthy(s.historyError))
  }

  /** After both fetches, the stats are not loading, and they report errors exactly
      when some fetch resolved without success (or threw an error with a message). */
  lemma StatsAfterDashboardData(s: DashboardState, u: Outcome<UsersResult>, h: Outcome<HistoryResult>)
    ensures var d := SelectDashboardStats(HistoryFetched(UsersFetched(s, u), h));
            !d.loading
            && (d.hasErrors <==>
                  (u.Resolved? && !u.value.success) || (u.Rejected? && CaughtMessage(u.thrown, "Failed to fetch users") != "")
                  || (h.Resolved? && !h.value.success) || (h.Rejected? && CaughtMessage(h.thrown, "Failed to fetch history") != ""))
  {
  }

  /** The zustand dashboard store. */
  class Store {
    var users: seq<User>
    var history: seq<History>
    var usersLoading: bool
    var historyLoading: bool
    var usersError: Option<string>
    var historyError: Option<string>
    var usersCount: int
    var gamesPlayedCount: int

    function State(): DashboardState
      reads this
    {
      DashboardState(users, history, usersLoading, historyLoading, usersError, historyError, usersCount, gamesPlayedCount)
    }

    constructor ()
      ensures State() == Initial
    {
      users, history := [], [];
      usersLoading, historyLoading := false, false;
      usersError, historyError := None, None;
      usersCount, gamesPlayedCount := 0, 0;
    }

    /** `fetchUsers`, given how the request ends. */
    method FetchUsers(outcome: Outcome<UsersResult>)
      modifies this
      ensures State() == UsersFetched(old(State()), outcome)
    {
      usersLoading, usersError := true, None;
      match outcome {
        case Resolved(result) =>
          if result.success {
            users, usersCount, usersLoading := result.users.GetOr([]), result.total.GetOr(0), false;
          } else {
            usersError, usersLoading := Some(Or(result.error, "Failed to fetch users")), false;
          }
        case Rejected(t) =>
          usersError, usersLoading := Some(CaughtMessage(t, "Failed to fetch users")), false;
      }
    }

    /** `fetchHistory`, given how the request ends. */
    method FetchHistory(outcome: Outcome<HistoryResult>)
      modifies this
      ensures State() == HistoryFetched(old(State()), outcome)
    {
      historyLoading, historyError := true, None;
      match outcome {
        case Resolved(result) =>
          if result.success {
            var h := result.history.GetOr([]);
            history, gamesPlayedCount, historyLoading := h, |h|, false;
          } else {
            historyError, historyLoading := Some(Or(result.error, "Failed to fetch history")), false;
          }
        case Rejected(t) =>
          historyError, historyLoading := Some(CaughtMessage(t, "Failed to fetch history")), false;
      }
    }

    /** `fetchDashboardData`, taking the two fetches one after the other (every other
        interleaving ends in the same state, by FetchStepsCommute). */
    method FetchDashboardData(u: Outcome<UsersResult>, h: Outcome<HistoryResult>)
      modifies this
      ensures State() == HistoryFetched(UsersFetched(old(State()), u), h)
      ensures State() == UsersFetched(HistoryFetched(old(State()), h), u)
    {
      ghost var s := State();
      FetchStepsCommute(s, u, h);
      FetchStepsCommute(UsersStarted(s), u, h);
      FetchStepsCommute(HistoryStarted(s), u, h);
      FetchStepsCommute(HistoryStarted(UsersStarted(s)), u, h);
      FetchUsers(u);
      FetchHistory(h);
    }

    /** `resetErrors` */
    method ResetErrors()
      modifies this
      ensures State() == ErrorsReset(old(State()))
    {
      usersError, historyError := None, None;
    }
  }
}

/** The single-player game page: draw a number, decide win or lose, move the balance,
    record the play in the history and send it to be saved. */
module SinglePlayer {
  import opened Js
  import opened Types

  const WinPoints: int := 50
  const LosePoints: int := -35

  /** `Math.floor(Math.random() * 101)` for a draw in `[0, 1)`. */
  function GeneratedNumber(draw: real): (n: int)
    requires 0.0 <= draw < 1.0
    ensures 0 <= n <= 100
  {
    (draw * 101.0).Floor
  }

  /** The rule: a number above 70 (and at most 100) wins, anything else loses. */
  function VerdictFor(n: int): (v: Verdict)
    ensures v == Win <==> 70 < n <= 100
  {
    if n > 70 && n <= 100 then Win else Lose
  }

  /** The points a verdict is worth. */
  function PointsFor(v: Verdict): (p: int)
    ensures p == WinPoints || p == LosePoints
    ensures p > 0 <==> v == Win
  {
    match v
    case Win => WinPoints
    case Lose => LosePoints
  }

  /** One entry of the local history. */
  datatype GameResult = GameResult(generatedNumber: int, pointsChange: int, result: Verdict, newBalance: int)

  /** The entry for drawing `n` on balance `balance`. */
  function Play(balance: int, n: int): (r: GameResult)
    ensures r.generatedNumber == n
    ensures r.result == Win <==> 70 < n <= 100
    ensures r.pointsChange == (if r.result == Win then 50 else -35)
    ensures r.newBalance == balance + r.pointsChange
  {
    var v := VerdictFor(n);
    var p := PointsFor(v);
    GameResult(n, p, v, balance + p)
  }

  /** The record sent to be saved. */
  datatype SaveRequest = SaveRequest(generatedNumber: int, newBalance: int, result: Verdict, userId: string)

  /** The save body for a play: `user!._id` throws when no user is loaded, and the throw
      is caught before anything is sent. */
  function SaveRequestFor(r: GameResult, user: Option<User>): (q: Option<SaveRequest>)
    ensures q.Some? <==> user.Some?
    ensures q.Some? ==> q.value.generatedNumber == r.generatedNumber && q.value.newBalance == r.newBalance
                        && q.value.result == r.result && q.value.userId == user.value.id
  {
    match user
    case None => None
    case Some(u) => Some(SaveRequest(r.generatedNumber, r.newBalance, r.result, u.id))
  }

  /** The page state `{ balance, history }`. */
  datatype PageState = PageState(balance: int, history: seq<GameResult>)

  const Initial: PageState := PageState(0, [])

  /** The state after one play of number `n`: the balance becomes the new balance and the
      entry goes in front of the earlier ones. */
  function AfterPlay(s: PageState, n: int): (t: PageState)
    ensures |t.history| == |s.history| + 1 && t.history[1..] == s.history
    ensures t.history[0] == Play(s.balance, n) && t.balance == t.history[0].newBalance
  {
    var r := Play(s.balance, n);
    PageState(r.newBalance, [r] + s.history)
  }

  /** The state after playing the numbers `ns` in order from `s`. */
  function AfterPlays(s: PageState, ns: seq<int>): (t: PageState)
    ensures |t.history| == |s.history| + |ns|
    decreases |ns|
  {
    if ns == [] then s else AfterPlays(AfterPlay(s, ns[0]), ns[1..])
  }

  /** The sum of the point changes of some history entries. */
  function TotalPoints(history: seq<GameResult>): int {
    if history == [] then 0 else history[0].pointsChange + TotalPoints(history[1..])
  }

  /** Each entry's balance is the balance after the entry below it (the older one) plus
      its own change, and the oldest starts from `start`. */
  predicate Ledger(history: seq<GameResult>, start: int) {
    history == [] ||
    (history[0].newBalance == (if |history| == 1 then start else history[1].newBalance) + history[0].pointsChange
     && Ledger(history[1..], start))
  }

  /** From the initial state, every sequence of plays leaves a consistent ledger: the
      balance is the newest entry's balance, each entry follows from the one before it,
      and the balance is the sum of all point changes. */
  lemma {:induction false} PlaysKeepLedger(s: PageState, ns: seq<int>)
    requires Ledger(s.history, 0)
    requires s.balance == (if s.history == [] then 0 else s.history[0].newBalance)
    requires s.balance == TotalPoints(s.history)
    ensures var t := AfterPlays(s, ns);
            Ledger(t.history, 0)
            && t.balance == (if t.history == [] then 0 else t.history[0].newBalance)
            && t.balance == TotalPoints(t.history)
    decreases |ns|
  {
    if ns != [] {
      var s' := AfterPlay(s, ns[0]);
      assert [s'.history[0]] + s.history == s'.history;
      assert TotalPoints(s'.history) == s'.history[0].pointsChange + TotalPoints(s.history);
      PlaysKeepLedger(s', ns[1..]);
    }
  }

  /** After `k` plays from the initial state the balance lies between `-35 k` and `50 k`. */
  lemma {:induction false} BalanceBounds(s: PageState, ns: seq<int>)
    requires LosePoints * |s.history| <= s.balance <= WinPoints * |s.history|
    ensures var t := AfterPlays(s, ns);
            LosePoints * |t.history| <= t.balance <= WinPoints * |t.history|
    decreases |ns|
  {
    if ns != [] {
      BalanceBounds(AfterPlay(s, ns[0]), ns[1..]);
    }
  }

  /** The `GamePage` component's state. */
  class GamePage {
    var balance: int
    var history: seq<GameResult>

    function State(): PageState
      reads this
    {
      PageState(balance, history)
    }

    constructor ()
      ensures State() == Initial
    {
      balance, history := 0, [];
    }

    /** `generateNumber` for the random draw `draw`, with `user` the loaded user if any.
        Returns the record sent to be saved, if one is sent. */
    method GenerateNumber(draw: real, user: Option<User>) returns (saved: Option<SaveRequest>)
      requires 0.0 <= draw < 1.0
      modifies this
      ensures State() == AfterPlay(old(State()), GeneratedNumber(draw))
      ensures saved == SaveRequestFor(history[0], user)
    {
      var generatedNumber := GeneratedNumber(draw);
      var result: Verdict;
      var pointsChange: int;
      if generatedNumber > 70 && generatedNumber <= 100 {
        result, pointsChange := Win, WinPoints;
      } else {
        result, pointsChange := Lose, LosePoints;
      }
      var newBalance := balance + pointsChange;
      var newResult := GameResult(generatedNumber, pointsChange, result, newBalance);
      balance, history := newBalance, [newResult] + history;
      saved := match user
        case None => None
        case Some(u) => Some(SaveRequest(generatedNumber, newBalance, result, u.id));
    }
  }
}

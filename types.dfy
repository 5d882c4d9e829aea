/** The records the stores and pages modelled here import from the type declarations, and the shape of the
    values the server actions return. */
module Types {
  import opened Js

  datatype Role = UserRole | AdminRole

  /** A registered account; the fields the stores and pages modelled here do not look at are left out. */
  datatype User = User(id: string, username: string, role: Role, phone: string, balance: int)

  /** `'win' | 'lose'` */
  datatype Verdict = Win | Lose

  /** One stored play of the single-player game. */
  datatype History = History(gameId: string, generatedNumber: int, result: Verdict, newBalance: int, balanceChange: int)

  /** The status a game room is in. */
  datatype GameStatus = Pending | Active | Finished

  /** The room-list filter: every room, or the rooms of one status. */
  datatype StatusFilter = All | Only(status: GameStatus)

  /** A cached game room: its identity and the rest of the server's object, which the
      client never looks into. */
  datatype GameRoom = GameRoom(id: string, payload: string)

  /** What a server action returns: `{ success: true, ... }` or `{ error }`. */
  datatype ActionResult<+T> = Success(data: T) | Failure(error: Option<string>)
}

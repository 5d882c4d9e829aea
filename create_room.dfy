/** The create-room dialog: its input guard and the create-then-prepend flow. */
module CreateRoom {
  import opened Js
  import opened Types
  import GameStore

  const MinBet: int := 1
  const MinTimeout: int := 10

  /** The guard `!(betVal < 1 || timeoutVal < 10)`: both values at or above their minimum. */
  function InputAccepted(bet: int, timeout: int): (accepted: bool)
    ensures accepted <==> bet >= 1 && timeout >= 10
  {
    !(bet < MinBet || timeout < MinTimeout)
  }

  /** The body sent to the create action. */
  datatype CreateRequest = CreateRequest(bet: int, timeout: int)

  /** The request the handler sends for the entered values, if it sends one. */
  function RequestFor(bet: int, timeout: int): (request: Option<CreateRequest>)
    ensures request.Some? <==> bet >= 1 && timeout >= 10
    ensures request.Some? ==> request.value.bet == bet && request.value.timeout == timeout
  {
    if InputAccepted(bet, timeout) then Some(CreateRequest(bet, timeout)) else None
  }

  /** The room that reaches the store: `newGame.data` of a successful create. Any other
      ending throws inside the `try` (`newGame.data._id` of an error result) and is
      swallowed by the `catch`. */
  function CreatedRoom(response: Outcome<ActionResult<GameRoom>>): (room: Option<GameRoom>)
    ensures room.Some? <==> response.Resolved? && response.value.Success?
    ensures room.Some? ==> room.value == response.value.data
  {
    if response.Resolved? && response.value.Success? then Some(response.value.data) else None
  }

  /** The dialog's own state. */
  class CreateRoomDialog {
    var isCreating: bool

    constructor ()
      ensures !isCreating
    {
      isCreating := false;
    }

    /** `handleCreateRoom` for the entered bet and timeout, given how the create
        request ends. Returns the request sent, if any. */
    method HandleCreateRoom(bet: int, timeout: int, store: GameStore.Store,
                            response: Outcome<ActionResult<GameRoom>>)
      returns (request: Option<CreateRequest>)
      modifies this, store
      ensures request == RequestFor(bet, timeout)
      ensures request.None? ==> isCreating == old(isCreating) && store.gameRooms == old(store.gameRooms)
      ensures request.Some? ==> !isCreating
      ensures request.Some? && CreatedRoom(response).Some? ==>
                store.gameRooms == GameStore.Prepend(old(store.gameRooms), CreatedRoom(response).value)
      ensures request.Some? && CreatedRoom(response).None? ==> store.gameRooms == old(store.gameRooms)
      ensures store.isLoading == old(store.isLoading) && store.error == old(store.error)
      ensures store.statusFilter == old(store.statusFilter)
    {
      if bet < MinBet || timeout < MinTimeout {
        return None;
      }
      isCreating := true;
      request := Some(CreateRequest(bet, timeout));
      if response.Resolved? && response.value.Success? {
        store.AddGame(response.value.data);
      }
      isCreating := false;
    }
  }
}

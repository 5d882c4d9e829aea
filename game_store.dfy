/** The game-room cache: the list of known rooms, the keyed replace-and-prepend
    update every writer goes through, and the store that holds the list together
    with its loading flag, error and status filter. */
module GameStore {
  import opened Js
  import opened Types
  import GameFilter

  /** The number of cached entries with identity `id`. */
  function CountId(rooms: seq<GameRoom>, id: string): nat
  {
    if rooms == [] then 0
    else (if rooms[0].id == id then 1 else 0) + CountId(rooms[1..], id)
  }

  /** The first cached entry with identity `id`, as a lookup by id sees it. */
  function Find(rooms: seq<GameRoom>, id: string): (found: Option<GameRoom>)
    ensures found.Some? ==> found.value in rooms && found.value.id == id
    ensures found.Some? ==>
              exists i :: 0 <= i < |rooms| && rooms[i] == found.value && CountId(rooms[..i], id) == 0
    ensures found.None? <==> CountId(rooms, id) == 0
  {
    if rooms == [] then None
    else if rooms[0].id == id then Some(rooms[0])
    else
      assert forall i :: 0 <= i < |rooms[1..]| ==>
        rooms[1..][i] == rooms[i + 1] && rooms[..i + 1] == [rooms[0]] + rooms[1..][..i];
      Find(rooms[1..], id)
  }

  /** Whether no two cached entries share an identity. */
  predicate DistinctIds(rooms: seq<GameRoom>)
  {
    forall i, j :: 0 <= i < j < |rooms| ==> rooms[i].id != rooms[j].id
  }

  /** `addGame`: the new room goes in front and every cached room stays behind it, in
      order; an entry with the same identity is not removed. */
  function Prepend(rooms: seq<GameRoom>, game: GameRoom): (r: seq<GameRoom>)
    ensures |r| == |rooms| + 1 && r[0] == game
    ensures forall i :: 0 <= i < |rooms| ==> r[i + 1] == rooms[i]
    ensures CountId(r, game.id) == CountId(rooms, game.id) + 1
  {
    [game] + rooms
  }

  /** Whether `a` is `b` with some entries left out and the rest kept in their order. */
  predicate Subsequence(a: seq<GameRoom>, b: seq<GameRoom>)
    decreases |b|
  {
    if a == [] then true
    else if b == [] then false
    else if a[0] == b[0] then Subsequence(a[1..], b[1..])
    else Subsequence(a, b[1..])
  }

  /** `rooms.filter(r => r._id !== id)`: the entries of another identity, each as often
      as before and in their order. */
  function WithoutId(rooms: seq<GameRoom>, id: string): (r: seq<GameRoom>)
    ensures |r| <= |rooms|
    ensures forall x :: x in r <==> x in rooms && x.id != id
    ensures forall x :: multiset(r)[x] == if x.id == id then 0 else multiset(rooms)[x]
    ensures Subsequence(r, rooms)
    ensures CountId(r, id) == 0
    ensures CountId(rooms, id) == 0 ==> r == rooms
  {
    assert rooms == [] || rooms == [rooms[0]] + rooms[1..];
    if rooms == [] then []
    else if rooms[0].id != id then [rooms[0]] + WithoutId(rooms[1..], id)
    else WithoutId(rooms[1..], id)
  }

  /** A subsequence holds each entry at most as often as the sequence it is taken from. */
  lemma {:induction false} SubsequenceMultiset(a: seq<GameRoom>, b: seq<GameRoom>)
    requires Subsequence(a, b)
    ensures multiset(a) <= multiset(b)
    decreases |b|
  {
    if a != [] {
      assert b == [b[0]] + b[1..];
      if a[0] == b[0] {
        assert a == [a[0]] + a[1..];
        SubsequenceMultiset(a[1..], b[1..]);
      } else {
        SubsequenceMultiset(a, b[1..]);
      }
    }
  }

  /** The contract of `WithoutId` leaves no freedom: the only list that keeps the order
      and keeps exactly the entries of other identities is the filter itself. */
  lemma {:induction false} WithoutIdIsTheOnlyFilter(rooms: seq<GameRoom>, id: string, r: seq<GameRoom>)
    requires Subsequence(r, rooms)
    requires forall x :: multiset(r)[x] == if x.id == id then 0 else multiset(rooms)[x]
    ensures r == WithoutId(rooms, id)
    decreases |rooms|
  {
    if rooms == [] {
      assert r == [];
    } else {
      var b0, bs := rooms[0], rooms[1..];
      assert rooms == [b0] + bs;
      if r != [] && r[0] == b0 {
        assert r == [r[0]] + r[1..];
        assert multiset(r)[b0] == multiset(rooms)[b0] >= 1;
        assert b0.id != id;
        forall x ensures multiset(r[1..])[x] == if x.id == id then 0 else multiset(bs)[x] {
          assert multiset(r)[x] == multiset(r[1..])[x] + (if x == b0 then 1 else 0);
        }
        WithoutIdIsTheOnlyFilter(bs, id, r[1..]);
      } else {
        assert Subsequence(r, bs);
        // r holds every entry of another identity as often as rooms does, so it cannot
        // have skipped b0 unless b0 is one of the removed entries
        SubsequenceMultiset(r, bs);
        assert multiset(rooms)[b0] == multiset(bs)[b0] + 1;
        assert b0.id == id;
        forall x ensures multiset(r)[x] == if x.id == id then 0 else multiset(bs)[x] {
          if x.id != id {
            assert x != b0;
          }
        }
        WithoutIdIsTheOnlyFilter(bs, id, r);
      }
    }
  }

  /** The replace-and-prepend of `updateGameRoom`, `playGame` and `forfeitGame`. */
  function Upsert(rooms: seq<GameRoom>, room: GameRoom): (r: seq<GameRoom>)
    ensures |r| >= 1 && r[0] == room
    ensures CountId(r, room.id) == 1
    ensures forall x :: x in r <==> x == room || (x in rooms && x.id != room.id)
    ensures Find(r, room.id) == Some(room)
  {
    [room] + WithoutId(rooms, room.id)
  }

  /** Filtering the same identity out twice removes nothing more. */
  lemma {:induction false} WithoutIdIdempotent(rooms: seq<GameRoom>, id: string)
    ensures WithoutId(WithoutId(rooms, id), id) == WithoutId(rooms, id)
  {
    // the result holds no entry with `id`, so filtering it again changes nothing
    assert CountId(WithoutId(rooms, id), id) == 0;
  }

  /** The entries of every other identity are exactly those before the update, in the
      same relative order: the update drops nothing else and reorders nothing. */
  lemma UpsertKeepsOthersInOrder(rooms: seq<GameRoom>, room: GameRoom)
    ensures WithoutId(Upsert(rooms, room), room.id) == WithoutId(rooms, room.id)
  {
    assert WithoutId(Upsert(rooms, room), room.id) == WithoutId(WithoutId(rooms, room.id), room.id);
    WithoutIdIdempotent(rooms, room.id);
  }

  /** A lookup of any other identity sees the same room before and after the update. */
  lemma {:induction false} UpsertLeavesOtherLookups(rooms: seq<GameRoom>, room: GameRoom, id: string)
    requires id != room.id
    ensures Find(Upsert(rooms, room), id) == Find(rooms, id)
  {
    FindSkipsOtherId(rooms, room.id, id);
  }

  /** Removing the entries of one identity does not change what a lookup of another finds. */
  lemma {:induction false} FindSkipsOtherId(rooms: seq<GameRoom>, removed: string, id: string)
    requires id != removed
    ensures Find(WithoutId(rooms, removed), id) == Find(rooms, id)
  {
    if rooms != [] {
      FindSkipsOtherId(rooms[1..], removed, id);
    }
  }

  /** Applying the same room twice gives the list applying it once gives. */
  lemma UpsertIdempotent(rooms: seq<GameRoom>, room: GameRoom)
    ensures Upsert(Upsert(rooms, room), room) == Upsert(rooms, room)
  {
    UpsertKeepsOthersInOrder(rooms, room);
  }

  /** Last writer wins: of two updates to one room only the later one is visible, and
      the list is as if the earlier one had never been applied. */
  lemma UpsertLastWriterWins(rooms: seq<GameRoom>, earlier: GameRoom, later: GameRoom)
    requires earlier.id == later.id
    ensures Upsert(Upsert(rooms, earlier), later) == Upsert(rooms, later)
  {
    UpsertKeepsOthersInOrder(rooms, earlier);
  }

  /** The update keeps a cache without duplicate identities free of duplicates. */
  lemma {:induction false} UpsertKeepsDistinctIds(rooms: seq<GameRoom>, room: GameRoom)
    requires DistinctIds(rooms)
    ensures DistinctIds(Upsert(rooms, room))
  {
    WithoutIdKeepsDistinctIds(rooms, room.id);
    var r := Upsert(rooms, room);
    forall i, j | 0 <= i < j < |r| ensures r[i].id != r[j].id {
      if i == 0 {
        assert r[j] in WithoutId(rooms, room.id);
      }
    }
  }

  lemma {:induction false} WithoutIdKeepsDistinctIds(rooms: seq<GameRoom>, id: string)
    requires DistinctIds(rooms)
    ensures DistinctIds(WithoutId(rooms, id))
  {
    if rooms != [] {
      assert DistinctIds(rooms[1..]) by {
        forall i, j | 0 <= i < j < |rooms[1..]| ensures rooms[1..][i].id != rooms[1..][j].id {
          assert rooms[1..][i] == rooms[i + 1] && rooms[1..][j] == rooms[j + 1];
        }
      }
      WithoutIdKeepsDistinctIds(rooms[1..], id);
      var tail := WithoutId(rooms[1..], id);
      if rooms[0].id != id {
        var r := [rooms[0]] + tail;
        forall i, j | 0 <= i < j < |r| ensures r[i].id != r[j].id {
          if i == 0 {
            assert r[j] in rooms[1..];
            var k :| 0 <= k < |rooms[1..]| && rooms[1..][k] == r[j];
            assert rooms[k + 1] == r[j];
          }
        }
      }
    }
  }

  /** `addGame` does not de-duplicate: prepending a room already cached leaves two
      entries with its identity. */
  lemma PrependDuplicatesCachedRoom(room: GameRoom)
    ensures CountId(Prepend([room], room), room.id) == 2
    ensures !DistinctIds(Prepend([room], room))
  {
    assert CountId([room], room.id) == 1;
    var r := Prepend([room], room);
    assert r[0].id == r[1].id;
  }

  /** The room a successful play or forfeit returns: `response?.success && response.data`. */
  function ReturnedRoom(response: Outcome<ActionResult<Option<GameRoom>>>): (room: Option<GameRoom>)
    ensures room.Some? <==> response.Resolved? && response.value.Success? && response.value.data.Some?
    ensures room.Some? ==> room == response.value.data
  {
    match response
    case Resolved(Success(data)) => data
    case Resolved(Failure(_)) => None
    case Rejected(_) => None
  }

  /** The fields of the game store. */
  datatype RoomsState = RoomsState(gameRooms: seq<GameRoom>, isLoading: bool, error: Option<string>,
                                   statusFilter: StatusFilter)

  /** The first `set` of `fetchRooms`, in force while the request is awaited: loading on,
      error cleared, list and filter kept. */
  function RoomsFetchStarted(s: RoomsState): (t: RoomsState)
    ensures t.isLoading && t.error == None
    ensures t.gameRooms == s.gameRooms && t.statusFilter == s.statusFilter
  {
    s.(isLoading := true, error := None)
  }

  /** The rest of `fetchRooms(status)` once the request ends: a success replaces the list
      wholesale and records the filter; a failure records the server's message or the
      fallback; a throw records the thrown message; loading is off in every case. */
  function RoomsFetchFinished(s: RoomsState, status: StatusFilter,
                              response: Outcome<ActionResult<seq<GameRoom>>>): (t: RoomsState)
    ensures !t.isLoading
    ensures response.Resolved? && response.value.Success? ==>
              t.gameRooms == response.value.data && t.statusFilter == status && t.error == s.error
    ensures response.Resolved? && response.value.Failure? ==>
              t.gameRooms == s.gameRooms && t.statusFilter == s.statusFilter
              && t.error == Some(Or(response.value.error, "Failed to fetch games"))
    ensures response.Rejected? ==>
              t.gameRooms == s.gameRooms && t.statusFilter == s.statusFilter
              && t.error == MessageOf(response.thrown)
  {
    var settled :=
      match response
      case Resolved(Success(games)) => s.(gameRooms := games, statusFilter := status)
      case Resolved(Failure(e)) => s.(error := Some(Or(e, "Failed to fetch games")))
      case Rejected(t) => s.(error := MessageOf(t));
    settled.(isLoading := false)
  }

  /** A room added or updated while the list request is awaited is lost when the request
      succeeds, since the reply replaces the list wholesale; when the request fails or
      throws it is kept. */
  lemma RoomWrittenDuringFetch(s: RoomsState, status: StatusFilter, room: GameRoom,
                               response: Outcome<ActionResult<seq<GameRoom>>>)
    ensures var during := RoomsFetchStarted(s);
            var added := during.(gameRooms := Prepend(during.gameRooms, room));
            var updated := during.(gameRooms := Upsert(during.gameRooms, room));
            if response.Resolved? && response.value.Success? then
              RoomsFetchFinished(added, status, response).gameRooms == response.value.data
              && RoomsFetchFinished(updated, status, response).gameRooms == response.value.data
            else
              RoomsFetchFinished(added, status, response).gameRooms == Prepend(s.gameRooms, room)
              && RoomsFetchFinished(updated, status, response).gameRooms == Upsert(s.gameRooms, room)
  {
  }

  /** The zustand game store. */
  class Store {
    var gameRooms: seq<GameRoom>
    var isLoading: bool
    var error: Option<string>
    var statusFilter: StatusFilter

    function State(): RoomsState
      reads this
    {
      RoomsState(gameRooms, isLoading, error, statusFilter)
    }

    constructor ()
      ensures gameRooms == [] && !isLoading && error == None
      ensures statusFilter == GameFilter.InitialFilter
    {
      gameRooms := [];
      isLoading := false;
      error := None;
      statusFilter := GameFilter.InitialFilter;
    }

    /** `addGame` */
    method AddGame(game: GameRoom)
      modifies this
      ensures gameRooms == Prepend(old(gameRooms), game)
      ensures isLoading == old(isLoading) && error == old(error) && statusFilter == old(statusFilter)
    {
      gameRooms := Prepend(gameRooms, game);
    }

    /** `updateGameRoom` */
    method UpdateGameRoom(room: GameRoom)
      modifies this
      ensures gameRooms == Upsert(old(gameRooms), room)
      ensures isLoading == old(isLoading) && error == old(error) && statusFilter == old(statusFilter)
    {
      gameRooms := Upsert(gameRooms, room);
    }

    /** `fetchRooms(status)`, given how the list request ends: the first `set`, then the
        rest. Returns the status parameter the request is sent with. */
    method FetchRooms(status: StatusFilter, response: Outcome<ActionResult<seq<GameRoom>>>)
      returns (sent: Option<GameStatus>)
      modifies this
      ensures sent == GameFilter.QueryParam(status)
      ensures State() == RoomsFetchFinished(RoomsFetchStarted(old(State())), status, response)
    {
      sent := StartFetchRooms(status);
      FinishFetchRooms(status, response);
    }

    /** `fetchRooms(status)` up to the `await`: loading on and error cleared. Returns
        the status parameter the request is sent with. */
    method StartFetchRooms(status: StatusFilter) returns (sent: Option<GameStatus>)
      modifies this
      ensures sent == GameFilter.QueryParam(status)
      ensures State() == RoomsFetchStarted(old(State()))
    {
      isLoading, error := true, None;
      sent := if status == All then None else Some(status.status);
    }

    /** `fetchRooms(status)` after the `await`, given how the request ended. */
    method FinishFetchRooms(status: StatusFilter, response: Outcome<ActionResult<seq<GameRoom>>>)
      modifies this
      ensures State() == RoomsFetchFinished(old(State()), status, response)
    {
      match response {
        case Resolved(Success(games)) =>
          gameRooms, statusFilter := games, status;
        case Resolved(Failure(e)) =>
          error := Some(Or(e, "Failed to fetch games"));
        case Rejected(t) =>
          error := MessageOf(t);
      }
      isLoading := false;
    }

    /** `setStatusFilter` */
    method SetStatusFilter(filter: StatusFilter)
      modifies this
      ensures statusFilter == filter
      ensures gameRooms == old(gameRooms) && isLoading == old(isLoading) && error == old(error)
    {
      statusFilter := filter;
    }

    /** `joinRoom(roomId)`, given how the join request ends. Returns the room id the
        join-room socket event is emitted for, if any; the store is never written. */
    method JoinRoom(roomId: string, response: Outcome<ActionResult<GameRoom>>)
      returns (emitted: Option<string>)
      ensures emitted.Some? <==> response.Resolved? && response.value.Success?
      ensures emitted.Some? ==> emitted.value == roomId
    {
      emitted := None;
      if response.Resolved? && response.value.Success? {
        emitted := Some(roomId);
      }
    }

    /** `getGameRoom(roomId)`, given how the fetch ends. */
    method GetGameRoom(roomId: string, response: Outcome<ActionResult<GameRoom>>)
      returns (room: Option<GameRoom>)
      ensures room.Some? <==> response.Resolved? && response.value.Success?
      ensures room.Some? ==> room.value == response.value.data
    {
      room := None;
      if response.Resolved? && response.value.Success? {
        room := Some(response.value.data);
      }
    }

    /** `playGame(roomId, generatedNumber)`, given how the turn request ends. */
    method PlayGame(roomId: string, generatedNumber: int, response: Outcome<ActionResult<Option<GameRoom>>>)
      returns (game: Option<GameRoom>)
      modifies this
      ensures game == ReturnedRoom(response)
      ensures gameRooms == if game.Some? then Upsert(old(gameRooms), game.value) else old(gameRooms)
      ensures isLoading == old(isLoading) && error == old(error) && statusFilter == old(statusFilter)
    {
      game := ApplyReturnedRoom(response);
    }

    /** `forfeitGame(roomId)`, given how the forfeit request ends. */
    method ForfeitGame(roomId: string, response: Outcome<ActionResult<Option<GameRoom>>>)
      returns (game: Option<GameRoom>)
      modifies this
      ensures game == ReturnedRoom(response)
      ensures gameRooms == if game.Some? then Upsert(old(gameRooms), game.value) else old(gameRooms)
      ensures isLoading == old(isLoading) && error == old(error) && statusFilter == old(statusFilter)
    {
      game := ApplyReturnedRoom(response);
    }

    /** The shared tail of `playGame` and `forfeitGame`: on success replace-and-prepend
        the returned room and return it, otherwise return nothing. */
    method ApplyReturnedRoom(response: Outcome<ActionResult<Option<GameRoom>>>)
      returns (game: Option<GameRoom>)
      modifies this
      ensures game == ReturnedRoom(response)
      ensures gameRooms == if game.Some? then Upsert(old(gameRooms), game.value) else old(gameRooms)
      ensures isLoading == old(isLoading) && error == old(error) && statusFilter == old(statusFilter)
    {
      game := None;
      if response.Resolved? && response.value.Success? && response.value.data.Some? {
        game := response.value.data;
        gameRooms := Upsert(gameRooms, game.value);
      }
    }
  }
}

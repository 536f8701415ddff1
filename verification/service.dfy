/**
 The room handlers served one request at a time against the process-wide
 directory: listing, lookup and toggle, and the state reached by replaying
 a sequence of requests from the seeded directory.
 */
module Service {
  import opened Wrappers
  import opened RoomDirectory
  import Seed

  /** The three room requests the server answers. */
  datatype Request = ListRooms | GetRoom(id: string) | ToggleRoom(id: string)

  /** What a handler answers: the room map, one room, or the not-found error. */
  datatype Response = Rooms(rooms: Directory) | OneRoom(room: Room) | Rejected(error: Error)

  /** The result of handling one request: the directory afterwards and the answer. */
  datatype Outcome = Outcome(rooms: Directory, response: Response)

  /** Handles one request; only a toggle of a known id changes the directory. */
  function Step(d: Directory, req: Request): (r: Outcome)
    ensures r.rooms.Keys == d.Keys
    ensures !req.ToggleRoom? ==> r.rooms == d
    ensures r.response.Rejected? <==> !req.ListRooms? && req.id !in d
    ensures r.response.Rejected? ==> r.rooms == d && r.response.error == NotFound(RoomNotFound)
    ensures req.ListRooms? ==> r.response == Rooms(d)
    ensures req.GetRoom? && req.id in d ==> r.response == OneRoom(d[req.id])
    ensures req.ToggleRoom? && req.id in d ==>
              && Flipped(d[req.id], r.rooms[req.id])
              && OthersUnchanged(d, r.rooms, req.id)
              && r.response == OneRoom(r.rooms[req.id])
  {
    match req
    case ListRooms => Outcome(d, Rooms(List(d)))
    case GetRoom(id) =>
      (match Get(d, id)
       case Success(room) => Outcome(d, OneRoom(room))
       case Failure(e) => Outcome(d, Rejected(e)))
    case ToggleRoom(id) =>
      (match Toggle(d, id)
       case Success(u) => Outcome(u.rooms, OneRoom(u.room))
       case Failure(e) => Outcome(d, Rejected(e)))
  }

  /** The directory after handling `reqs` in order, starting from `d`. */
  function Run(d: Directory, reqs: seq<Request>): (r: Directory)
    ensures r.Keys == d.Keys
    ensures forall k :: k in d ==> SameExceptAvailability(d[k], r[k])
    decreases |reqs|
  {
    if |reqs| == 0 then d else Run(Step(d, reqs[0]).rooms, reqs[1..])
  }

  /** How many requests in `reqs` toggle room `k`. */
  function ToggleCount(reqs: seq<Request>, k: string): (n: nat)
    ensures n <= |reqs|
    ensures n == 0 <== forall i :: 0 <= i < |reqs| ==> reqs[i] != ToggleRoom(k)
  {
    if |reqs| == 0 then 0
    else (if reqs[0] == ToggleRoom(k) then 1 else 0) + ToggleCount(reqs[1..], k)
  }

  /**
   After any sequence of requests a room is available exactly when it was
   available at the start and was toggled an even number of times, or was
   unavailable and was toggled an odd number of times.
   */
  lemma {:induction false} RunAvailability(d: Directory, reqs: seq<Request>, k: string)
    requires k in d
    ensures Run(d, reqs)[k].available == (d[k].available != (ToggleCount(reqs, k) % 2 == 1))
    decreases |reqs|
  {
    if |reqs| > 0 {
      var next := Step(d, reqs[0]).rooms;
      RunAvailability(next, reqs[1..], k);
      if reqs[0] == ToggleRoom(k) {
        assert next[k].available == !d[k].available;
      } else {
        assert next[k] == d[k];
      }
    }
  }

  /** Requests that never toggle room `k` leave its record exactly as it was. */
  lemma RunUntoggledRoom(d: Directory, reqs: seq<Request>, k: string)
    requires k in d
    requires forall i :: 0 <= i < |reqs| ==> reqs[i] != ToggleRoom(k)
    ensures Run(d, reqs)[k] == d[k]
  {
    RunAvailability(d, reqs, k);
  }

  /**
   Every directory reachable from the seeded one holds exactly the seeded ids,
   stays well formed, and differs from the seed only in availability.
   */
  lemma ReachableFromSeed(reqs: seq<Request>)
    ensures Run(Seed.Initial, reqs).Keys == Seed.SeedIds
    ensures WellFormed(Run(Seed.Initial, reqs))
    ensures forall k :: k in Seed.Initial ==>
              SameExceptAvailability(Seed.Initial[k], Run(Seed.Initial, reqs)[k])
  {
    Seed.InitialKeys();
    Seed.InitialWellFormed();
  }

  /** Listing after any sequence of requests still reports every seeded room and nothing else. */
  lemma ListIsExhaustive(reqs: seq<Request>)
    ensures Step(Run(Seed.Initial, reqs), ListRooms).response.rooms.Keys == Seed.SeedIds
  {
    ReachableFromSeed(reqs);
  }

  /** Toggling the same room twice in a row is invisible in the directory. */
  lemma DoubleToggleIsIdentity(d: Directory, id: string)
    ensures Run(d, [ToggleRoom(id), ToggleRoom(id)]) == d
  {
    var reqs := [ToggleRoom(id), ToggleRoom(id)];
    var once := AfterToggle(d, id);
    assert Step(d, ToggleRoom(id)).rooms == once;
    assert Step(once, ToggleRoom(id)).rooms == AfterToggle(once, id);
    assert reqs[1..] == [ToggleRoom(id)];
    assert Run(d, reqs) == Run(once, [ToggleRoom(id)]);
    assert Run(once, [ToggleRoom(id)]) == Run(AfterToggle(once, id), []);
    ToggleInvolution(d, id);
  }
}

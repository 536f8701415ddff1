/**
 The room directory of the mock facility server: an in-memory map from room
 identifier to room record, read whole by `List`, read one record at a time
 by `Get`, and changed only by `Toggle`, which flips one room's availability.
 */
module RoomDirectory {
  import opened Wrappers

  /** One entry of a room's schedule. The time range is an opaque string. */
  datatype Meeting = Meeting(time: string, title: string, organizer: string)

  /** A room record as the server stores and returns it. */
  datatype Room = Room(
    id: string,
    name: string,
    capacity: int,
    available: bool,
    meetingsToday: seq<Meeting>
  )

  /** The whole directory: room identifier to room record. */
  type Directory = map<string, Room>

  /** The one failure the directory reports: the requested id is not a key. */
  datatype Error = NotFound(detail: string)

  /** The detail message the server attaches to its not-found failure. */
  const RoomNotFound: string := "Room not found"

  /** What a successful toggle yields: the directory afterwards and the record it returns. */
  datatype Update = Update(rooms: Directory, room: Room)

  /** `after` is `before` with every field kept except `available`, which may differ. */
  predicate SameExceptAvailability(before: Room, after: Room) {
    && after.id == before.id
    && after.name == before.name
    && after.capacity == before.capacity
    && after.meetingsToday == before.meetingsToday
  }

  /** `after` is `before` with exactly its availability negated. */
  predicate Flipped(before: Room, after: Room) {
    SameExceptAvailability(before, after) && after.available == !before.available
  }

  /** Every room other than `id` is present in both directories with the same record. */
  predicate OthersUnchanged(before: Directory, after: Directory, id: string) {
    forall k :: k in before && k != id ==> k in after && after[k] == before[k]
  }

  /** Every record is stored under its own id and has a positive capacity. */
  predicate WellFormed(d: Directory) {
    forall k :: k in d ==> d[k].id == k && d[k].capacity > 0
  }

  /** Listing returns the entire directory: no room is dropped, added or altered. */
  function List(d: Directory): (r: Directory)
    ensures r.Keys == d.Keys
    ensures forall k :: k in d ==> r[k] == d[k]
  {
    d
  }

  /** Looks up one room; an unknown id fails with the not-found error. */
  function Get(d: Directory, id: string): (r: Result<Room, Error>)
    ensures r.Success? <==> id in d
    ensures r.Success? ==> r.value == d[id]
    ensures r.Failure? ==> r.error == NotFound(RoomNotFound)
  {
    if id !in d then Failure(NotFound(RoomNotFound)) else Success(d[id])
  }

  /**
   Flips the availability of one room and returns the updated record together
   with the directory afterwards; an unknown id fails with the not-found error
   and produces no new directory.
   */
  function Toggle(d: Directory, id: string): (r: Result<Update, Error>)
    ensures r.Success? <==> id in d
    ensures r.Failure? ==> r.error == NotFound(RoomNotFound)
    ensures r.Success? ==>
              && r.value.rooms.Keys == d.Keys
              && Flipped(d[id], r.value.rooms[id])
              && OthersUnchanged(d, r.value.rooms, id)
              && r.value.room == r.value.rooms[id]
  {
    if id !in d then
      Failure(NotFound(RoomNotFound))
    else
      var room := d[id].(available := !d[id].available);
      Success(Update(d[id := room], room))
  }

  /** The directory after a toggle: unchanged when the toggle fails. */
  function AfterToggle(d: Directory, id: string): (r: Directory)
    ensures r.Keys == d.Keys
    ensures id !in d ==> r == d
    ensures id in d ==> Flipped(d[id], r[id]) && OthersUnchanged(d, r, id)
  {
    match Toggle(d, id)
    case Success(u) => u.rooms
    case Failure(_) => d
  }

  /** Two toggles of the same id restore the directory they started from. */
  lemma ToggleInvolution(d: Directory, id: string)
    ensures AfterToggle(AfterToggle(d, id), id) == d
  {
    var once := AfterToggle(d, id);
    var twice := AfterToggle(once, id);
    if id in d {
      forall k | k in d
        ensures twice[k] == d[k]
      {
        if k == id {
          assert Flipped(d[id], once[id]) && Flipped(once[id], twice[id]);
        }
      }
    }
  }

  /** The record returned by a second toggle is the record the directory held before the first. */
  lemma ToggleTwiceReturnsOriginal(d: Directory, id: string)
    requires id in d
    ensures Toggle(AfterToggle(d, id), id).Success?
    ensures Toggle(AfterToggle(d, id), id).value.room == d[id]
  {
    ToggleInvolution(d, id);
  }

  /** Toggles of any two ids commute. */
  lemma ToggleCommutes(d: Directory, a: string, b: string)
    ensures AfterToggle(AfterToggle(d, a), b) == AfterToggle(AfterToggle(d, b), a)
  {
    var ab := AfterToggle(AfterToggle(d, a), b);
    var ba := AfterToggle(AfterToggle(d, b), a);
    forall k | k in d
      ensures ab[k] == ba[k]
    {
    }
  }

  /** A lookup after a toggle sees the flipped record for the toggled id and the old record for every other id. */
  lemma GetAfterToggle(d: Directory, id: string, k: string)
    ensures Get(AfterToggle(d, id), k).Success? <==> Get(d, k).Success?
    ensures k in d && k != id ==> Get(AfterToggle(d, id), k) == Get(d, k)
    ensures id in d ==> Flipped(Get(d, id).value, Get(AfterToggle(d, id), id).value)
  {
  }

  /** A toggle keeps the directory well formed. */
  lemma TogglePreservesWellFormed(d: Directory, id: string)
    requires WellFormed(d)
    ensures WellFormed(AfterToggle(d, id))
  {
  }
}

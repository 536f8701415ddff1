# Room directory of the mock facility server

This project models the room directory of `backend_stub/mock_server.py`. The
directory is a process-wide map from room identifier to room record. A record
holds the id, a display name, an integer capacity, an `available` flag and the
day's meetings. The server seeds twelve rooms at start-up. It answers three
requests: list every room, get one room, and toggle one room's availability.
Both get and toggle fail with "Room not found" when the id is not a key.

The model is functional. A `Room` is an immutable datatype and the directory is
a `map<string, Room>`. `Get` returns a `Result`. `Toggle` returns the new
directory together with the record the handler returns. `Service.Step` handles
one request. `Service.Run` replays a sequence of requests in order, which is
the sequential reading of the server's handlers.

Files:
- `wrappers.dfy`: the `Result` type.
- `room_directory.dfy`: `Room`, `Meeting`, the `NotFound` error, and `List`, `Get` and `Toggle` with lemmas about them.
- `seed.dfy`: the seeded directory `Seed.Initial` and its invariants.
- `service.dfy`: requests, responses, one-request handling, replay, and properties of every reachable state.

## Model

| member | source | states |
|---|---|---|
| RoomDirectory.List | backend_stub/mock_server.py:99-101 | listing returns every room of the current directory, each with its stored record; nothing is added or dropped |
| RoomDirectory.Get | backend_stub/mock_server.py:104-108 | lookup succeeds exactly when the id is a key and then yields the stored record; otherwise it fails with NotFound("Room not found") |
| RoomDirectory.Toggle | backend_stub/mock_server.py:111-117 | fails with NotFound exactly when the id is absent; otherwise the key set is kept, the toggled room differs only by a negated `available`, every other room is unchanged, and the returned record is the updated one |
| RoomDirectory.AfterToggle | backend_stub/mock_server.py:111-117 | the directory after a toggle request: unchanged for an unknown id, otherwise only the one room's availability is flipped |
| RoomDirectory.ToggleInvolution | backend_stub/mock_server.py:116 | toggling the same id twice restores the original directory |
| RoomDirectory.ToggleTwiceReturnsOriginal | backend_stub/mock_server.py:116-117 | the record returned by the second of two toggles equals the record held before the first |
| RoomDirectory.ToggleCommutes | backend_stub/mock_server.py:116 | toggles of any two ids give the same directory in either order |
| RoomDirectory.GetAfterToggle | backend_stub/mock_server.py:104-117 | after a toggle, lookup succeeds for the same ids, sees the old record for every other room and the flipped record for the toggled room |
| RoomDirectory.TogglePreservesWellFormed | backend_stub/mock_server.py:116 | a toggle keeps every record stored under its own id with a positive capacity |
| Seed.InitialKeys | backend_stub/mock_server.py:11-96 | the seeded directory holds exactly the twelve seeded ids |
| Seed.InitialWellFormed | backend_stub/mock_server.py:11-96 | every seeded record's id equals its key and its capacity is positive |
| Seed.GetSeededRoom | backend_stub/mock_server.py:104-108 | looking up any seeded id succeeds with a record carrying that exact id |
| Seed.GetNonexistent | backend_stub/mock_server.py:106-107 | looking up "nonexistent" in the seeded directory fails with NotFound |
| Service.Step | backend_stub/mock_server.py:99-117 | one request keeps the key set; list and get never change the directory; a request is rejected with NotFound exactly when it names an absent id, and then nothing changes; a toggle of a known id flips only that room and answers with the updated record |
| Service.Run | backend_stub/mock_server.py:111-117 | after any sequence of requests the key set is the starting one and every room keeps its id, name, capacity and meetings |
| Service.RunAvailability | backend_stub/mock_server.py:116 | after any sequence of requests a room's availability equals its starting value exactly when it was toggled an even number of times |
| Service.RunUntoggledRoom | backend_stub/mock_server.py:116 | a room no request toggles ends with exactly its starting record |
| Service.ReachableFromSeed | backend_stub/mock_server.py:11-117 | every directory reachable from the seed holds exactly the seeded ids, stays well formed and differs from the seed only in availability |
| Service.ListIsExhaustive | backend_stub/mock_server.py:99-101 | listing after any sequence of requests reports exactly the seeded ids |
| Service.DoubleToggleIsIdentity | backend_stub/mock_server.py:116 | two successive toggle requests for the same id leave the directory as it was |

## Left out

- The web framework app, the cross-origin middleware and the route decorators (lines 3-9 and the decorator lines): plumbing around the handler bodies, which are what is modelled.
- The HTTP 404 status code: the failure is the abstract `NotFound` error carrying the handler's "Room not found" message.
- `uvicorn.run` and the host and port binding (lines 120-121): process I/O.
- Concurrent requests and the atomicity of the toggle: the model handles one request at a time.
- Aliasing: the Python handlers return the live dictionary, so a caller holding it would see later toggles. The model returns values; only the directory state changes.
- Meeting time ranges are opaque strings: nothing parses or validates them.
- The GPS fix store, the anchor store and the building-coordinate transform are not part of this model: their source is not among the modelled files, and the transform uses floating-point trigonometry.

/** What the two memory services answer, and the per-session log they keep. Events go
    through `json.dumps` on the way in and `json.loads` on the way out; the model keeps the
    decoded values, so that pair is taken to give back what it was given. */
module MemoryApi {
  import opened Base

  const MissingFieldsMessage := "Missing required fields"
  const UnavailableMessage := "Memory service is not available."

  datatype Reply =
    | Unavailable              // 503, no backend client
    | MissingFields            // 400
    | Stored                   // 201, {"status": "success"}
    | Events(events: seq<Json>) // 200, the session's events in order

  function Status(r: Reply): nat
  {
    match r
    case Unavailable => 503
    case MissingFields => 400
    case Stored => 201
    case Events(_) => 200
  }

  /** The events kept under `key`; a key never written holds none. */
  function Log(logs: map<string, seq<Json>>, key: string): seq<Json>
  {
    if key in logs then logs[key] else []
  }

  /** `logs` with `event` appended to the log under `key`. */
  function Append(logs: map<string, seq<Json>>, key: string, event: Json): (r: map<string, seq<Json>>)
    ensures Log(r, key) == Log(logs, key) + [event]
    ensures forall k :: k != key ==> Log(r, k) == Log(logs, k)
  {
    logs[key := Log(logs, key) + [event]]
  }

  /** Appending one event and then another under the same key gives both, in that order. */
  lemma AppendTwice(logs: map<string, seq<Json>>, key: string, e1: Json, e2: Json)
    ensures Log(Append(Append(logs, key, e1), key, e2), key) == Log(logs, key) + [e1, e2]
  {
    assert Log(logs, key) + [e1] + [e2] == Log(logs, key) + [e1, e2];
  }
}

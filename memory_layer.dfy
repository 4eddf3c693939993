/** The Redis-backed memory service of src/memory_layer/app.py: one Redis list per session,
    pushed at the tail and read whole. The lists are a map from key to events; whether the
    start-up `ping` reached Redis is `connected`, and `show` is Python's `str()` of a JSON
    value, which the key is built from. */
module MemoryLayer {
  import opened Base
  import opened MemoryApi

  class RedisMemoryService {
    const connected: bool
    const show: Json -> string
    /** The Redis lists, by key. */
    var lists: map<string, seq<Json>>

    constructor(connected: bool, show: Json -> string)
      ensures this.connected == connected && this.show == show && lists == map[]
    {
      this.connected := connected;
      this.show := show;
      lists := map[];
    }

    /** `f"session:{user_id}:{session_id}"`. */
    function SessionKey(userId: Json, sessionId: Json): string
    {
      "session:" + show(userId) + ":" + show(sessionId)
    }

    /** `store_memory`: 503 without a client, then 400 unless all three fields are truthy;
        otherwise `rpush` of the event onto the session's list and 201. */
    method StoreMemory(userId: Json, sessionId: Json, event: Json) returns (r: Reply)
      modifies this
      ensures Status(r) == 503 <==> !connected
      ensures Status(r) == 400 <==> connected && !(Truthy(userId) && Truthy(sessionId) && Truthy(event))
      ensures r == Unavailable || r == MissingFields || r == Stored
      ensures r != Stored ==> lists == old(lists)
      ensures r == Stored ==> lists == Append(old(lists), SessionKey(userId, sessionId), event)
    {
      if !connected {
        return Unavailable;
      }
      if !(Truthy(userId) && Truthy(sessionId) && Truthy(event)) {
        return MissingFields;
      }
      var sessionKey := SessionKey(userId, sessionId);
      lists := lists[sessionKey := Log(lists, sessionKey) + [event]];
      return Stored;
    }

    /** `retrieve_memory`: 503 without a client, then 400 unless both ids are truthy;
        otherwise `lrange(key, 0, -1)`, the whole list, empty for a key never pushed to. */
    method RetrieveMemory(userId: Json, sessionId: Json) returns (r: Reply)
      ensures Status(r) == 503 <==> !connected
      ensures Status(r) == 400 <==> connected && !(Truthy(userId) && Truthy(sessionId))
      ensures Status(r) != 503 && Status(r) != 400 ==> r == Events(Log(lists, SessionKey(userId, sessionId)))
    {
      if !connected {
        return Unavailable;
      }
      if !(Truthy(userId) && Truthy(sessionId)) {
        return MissingFields;
      }
      var sessionKey := SessionKey(userId, sessionId);
      var events := LRange(lists, sessionKey);
      return Events(events);
    }
  }

  /** `lrange(key, 0, -1)`: every element of the list, head to tail. */
  method LRange(lists: map<string, seq<Json>>, key: string) returns (events: seq<Json>)
    ensures events == Log(lists, key)
  {
    var raw := Log(lists, key);
    events := [];
    var i := 0;
    while i < |raw|
      invariant 0 <= i <= |raw|
      invariant events == raw[..i]
    {
      events := events + [raw[i]];
      i := i + 1;
    }
    assert raw[..|raw|] == raw;
  }

  // ---------------------------------------------------------------------------

  /** Where the user id and the separator after it sit in a session key. */
  lemma KeyLayout(user: string, session: string)
    ensures var k := "session:" + user + ":" + session;
      |k| == 9 + |user| + |session| && k[8 + |user|] == ':'
      && (forall i :: 0 <= i < |user| ==> k[8 + i] == user[i])
      && k[8..8 + |user|] == user && k[9 + |user|..] == session
  {
  }

  /** Two sessions have different lists whenever their ids render without a ":" in the
      user id: the key then determines both ids' texts. */
  lemma {:induction false} KeysSeparateSessions(m: RedisMemoryService, u1: Json, s1: Json, u2: Json, s2: Json)
    requires forall i :: 0 <= i < |m.show(u1)| ==> m.show(u1)[i] != ':'
    requires forall i :: 0 <= i < |m.show(u2)| ==> m.show(u2)[i] != ':'
    requires m.SessionKey(u1, s1) == m.SessionKey(u2, s2)
    ensures m.show(u1) == m.show(u2) && m.show(s1) == m.show(s2)
  {
    var a, b := m.show(u1), m.show(u2);
    KeyLayout(a, m.show(s1));
    KeyLayout(b, m.show(s2));
    // The first ':' after the prefix ends the user id in both readings.
    assert |a| == |b|;
  }

  /** A user id holding ":" can share a list with another pair: user "a:b" with session
      "c" and user "a" with session "b:c" push to the same key. */
  lemma ColonIdsShareList(m: RedisMemoryService, u1: Json, s1: Json, u2: Json, s2: Json)
    requires m.show(u1) == "a:b" && m.show(s1) == "c" && m.show(u2) == "a" && m.show(s2) == "b:c"
    ensures m.SessionKey(u1, s1) == m.SessionKey(u2, s2)
  {
    assert "session:" + "a:b" + ":" + "c" == "session:" + "a" + ":" + "b:c";
  }
}

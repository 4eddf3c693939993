/** The file-backed memory service of src/memory_layer_mock/app.py: one file per session
    under /tmp/nexus_memory, each holding that session's events one per line. The files are
    a map from path to the events they hold; `show` is Python's `str()` of a JSON value,
    which the file name is built from. */
module MemoryLayerMock {
  import opened Base
  import opened Text
  import opened MemoryApi

  const MemoryDir := "/tmp/nexus_memory"

  class MemoryLayerMock {
    const show: Json -> string
    /** The session files, by path. */
    var files: map<string, seq<Json>>

    constructor(show: Json -> string)
      ensures this.show == show && files == map[]
    {
      this.show := show;
      files := map[];
    }

    /** `os.path.join(MEMORY_DIR, f"{user_id}_{session_id}.json")`. */
    function SessionFile(userId: Json, sessionId: Json): string
    {
      PathJoin(MemoryDir, show(userId) + "_" + show(sessionId) + ".json")
    }

    /** `store_memory`: 400 and no write unless all three fields are truthy; otherwise the
        event is appended to the session's file and 201 returned. */
    method StoreMemory(userId: Json, sessionId: Json, event: Json) returns (r: Reply)
      modifies this
      ensures Status(r) == 400 <==> !(Truthy(userId) && Truthy(sessionId) && Truthy(event))
      ensures r == MissingFields || r == Stored
      ensures r == MissingFields ==> files == old(files)
      ensures r == Stored ==> files == Append(old(files), SessionFile(userId, sessionId), event)
    {
      if !Truthy(userId) || !Truthy(sessionId) || !Truthy(event) {
        return MissingFields;
      }
      var sessionFile := SessionFile(userId, sessionId);
      files := files[sessionFile := Log(files, sessionFile) + [event]];
      return Stored;
    }

    /** `retrieve_memory`: 400 unless both ids are truthy; otherwise 200 with the events of
        the session's file, none when there is no such file. Nothing changes. */
    method RetrieveMemory(userId: Json, sessionId: Json) returns (r: Reply)
      ensures Status(r) == 400 <==> !(Truthy(userId) && Truthy(sessionId))
      ensures Status(r) != 400 ==> r == Events(Log(files, SessionFile(userId, sessionId)))
    {
      if !Truthy(userId) || !Truthy(sessionId) {
        return MissingFields;
      }
      var sessionFile := SessionFile(userId, sessionId);
      if sessionFile in files {
        return Events(files[sessionFile]);
      }
      return Events([]);
    }
  }

  // ---------------------------------------------------------------------------

  /** Ids that render to plain names put the session's file directly under the memory
      directory. */
  lemma FileUnderMemoryDir(m: MemoryLayerMock, userId: Json, sessionId: Json)
    requires m.show(userId) == [] || m.show(userId)[0] != '/'
    ensures m.SessionFile(userId, sessionId) == "/tmp/nexus_memory/" + m.show(userId) + "_" + m.show(sessionId) + ".json"
  {
    var name := m.show(userId) + "_" + m.show(sessionId) + ".json";
    assert name[0] != '/' by {
      if m.show(userId) == [] {
        assert name[0] == '_';
      } else {
        assert name[0] == m.show(userId)[0];
      }
    }
    PathJoinRelative(MemoryDir, name);
  }

  /** A user id whose text starts with "/" makes the path absolute, so the file lands
      outside the memory directory. */
  lemma AbsoluteUserIdLeavesMemoryDir(m: MemoryLayerMock, userId: Json, sessionId: Json)
    requires |m.show(userId)| > 0 && m.show(userId)[0] == '/'
    ensures m.SessionFile(userId, sessionId) == m.show(userId) + "_" + m.show(sessionId) + ".json"
  {
    var name := m.show(userId) + "_" + m.show(sessionId) + ".json";
    assert name[0] == '/';
    PathJoinAbsolute(MemoryDir, name);
  }

  /** Two pairs of ids whose texts join to the same "user_session" share one file: user
      "a_b" with session "c" and user "a" with session "b_c" read and write the same log. */
  lemma JoinedIdsShareFile(m: MemoryLayerMock, u1: Json, s1: Json, u2: Json, s2: Json)
    requires m.show(u1) == "a_b" && m.show(s1) == "c" && m.show(u2) == "a" && m.show(s2) == "b_c"
    ensures m.SessionFile(u1, s1) == m.SessionFile(u2, s2)
  {
    assert m.show(u1) + "_" + m.show(s1) == m.show(u2) + "_" + m.show(s2);
  }
}

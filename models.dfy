/**
 * The two persisted records of backend/api/models.py: a chat `Message` and the
 * per-user `UserMemoryState`.  The user is identified by its username.
 */
module Models {
  import opened Wrappers
  import Strings

  /**
   * One row of the message table.  `id` is the primary key; `timestamp` is the
   * creation time the database stamps on insert.
   */
  datatype Message = Message(
    id: nat,
    user: string,
    text: string,
    timestamp: int,
    sessionId: int,
    isUser: bool := true)

  /** How many leading code points of the text `Message.__str__` shows. */
  const PreviewLength: nat := 30

  /** `Message.__str__`: "username: <first 30 code points of the text> (<session id>)". */
  function MessageToString(m: Message): (r: string)
    ensures var preview := Strings.Prefix(m.text, PreviewLength);
            var session := Strings.IntToString(m.sessionId);
            && |r| == |m.user| + 2 + |preview| + |session| + 3
            && r[..|m.user| + 2] == m.user + ": "
            && r[|m.user| + 2..|m.user| + 2 + |preview|] == preview
            && r[|r| - |session| - 3..] == " (" + session + ")"
    ensures |m.text| <= PreviewLength ==> r == m.user + ": " + m.text + " (" + Strings.IntToString(m.sessionId) + ")"
  {
    var head := m.user + ": ";
    var preview := Strings.Prefix(m.text, PreviewLength);
    var tail := " (" + Strings.IntToString(m.sessionId) + ")";
    var r := head + preview + tail;
    assert r[..|head|] == head;
    assert r[|head|..|head| + |preview|] == preview;
    assert r[|r| - |tail|..] == tail;
    r
  }

  /**
   * The memory row of one user: the summary so far (`current_memory`, `None` when the
   * summariser produced no text) and the last message folded into it (a nullable key).
   */
  datatype MemoryState = MemoryState(currentMemory: Option<string>, lastProcessed: Option<Message>)

  /** The row `get_or_create` inserts: an empty summary and a null pointer. */
  const FreshMemoryState: MemoryState := MemoryState(Some(""), None)

  /**
   * `on_delete=SET_NULL`: deleting the message with key `id` nulls a pointer to it and
   * leaves every other pointer alone.
   */
  function ClearPointerTo(st: MemoryState, id: nat): (r: MemoryState)
    ensures r.currentMemory == st.currentMemory
    ensures st.lastProcessed.Some? && st.lastProcessed.value.id == id ==> r.lastProcessed == None
    ensures !(st.lastProcessed.Some? && st.lastProcessed.value.id == id) ==> r == st
  {
    match st.lastProcessed
    case Some(m) => if m.id == id then MemoryState(st.currentMemory, None) else st
    case None => st
  }
}

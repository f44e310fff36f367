/**
 * The database-backed conversation memory of backend/api/bot/Memory/LLM_Memory.py.
 *
 * The message table is an ordered log of `Message` rows and the memory table a
 * map from user to `MemoryState`; both are fields of `MemoryManager`, which
 * stands for the database the Python class reaches through the ORM.  The
 * database clock is a parameter of `AddMessage`; the summariser (a language-model
 * call) is a function parameter of the operations that fold.
 */
module ConversationMemory {
  import opened Wrappers
  import opened Models
  import Strings

  /** The summariser `summarize_conversation(text, context)`: any function of the transcript and the old summary. */
  type Summarizer = (string, Option<string>) -> Option<string>

  /** Timestamps strictly increase along the log. */
  ghost predicate Ascending(log: seq<Message>) {
    forall i, j :: 0 <= i < j < |log| ==> log[i].timestamp < log[j].timestamp
  }

  /** Primary keys strictly increase along the log. */
  ghost predicate IdsAscending(log: seq<Message>) {
    forall i, j :: 0 <= i < j < |log| ==> log[i].id < log[j].id
  }

  /** The rows of `log` that satisfy `keep`, in log order (a filtered query). */
  function Select(log: seq<Message>, keep: Message -> bool): (r: seq<Message>)
    ensures forall m :: m in r <==> (m in log && keep(m))
    ensures |r| <= |log|
  {
    if log == [] then []
    else if keep(log[0]) then [log[0]] + Select(log[1..], keep)
    else Select(log[1..], keep)
  }

  /** Filtering a concatenation filters each part: the kept rows stay in log order, each as often as in the log. */
  lemma {:induction false} SelectAppend(a: seq<Message>, b: seq<Message>, keep: Message -> bool)
    ensures Select(a + b, keep) == Select(a, keep) + Select(b, keep)
  {
    if a == [] {
      assert a + b == b;
    } else {
      assert (a + b)[0] == a[0];
      assert (a + b)[1..] == a[1..] + b;
      SelectAppend(a[1..], b, keep);
    }
  }

  /** A single row is kept exactly when it satisfies the condition. */
  lemma SelectOne(m: Message, keep: Message -> bool)
    ensures Select([m], keep) == if keep(m) then [m] else []
  {
    assert [m][1..] == [];
  }

  /** A filtered query keeps the timestamp order of the rows it selects. */
  lemma {:induction false} SelectAscending(log: seq<Message>, keep: Message -> bool)
    ensures Ascending(log) ==> Ascending(Select(log, keep))
  {
    if log != [] && Ascending(log) {
      AscendingTail(log);
      SelectAscending(log[1..], keep);
      if keep(log[0]) {
        ConsAscending(log[0], Select(log[1..], keep));
      }
    }
  }

  /** The tail of an ascending log is ascending, and its head is earlier than every row of the tail. */
  lemma AscendingTail(log: seq<Message>)
    requires log != [] && Ascending(log)
    ensures Ascending(log[1..])
    ensures forall m :: m in log[1..] ==> log[0].timestamp < m.timestamp
  {
    forall m | m in log[1..]
      ensures log[0].timestamp < m.timestamp
    {
      var k :| 0 <= k < |log[1..]| && log[1..][k] == m;
      assert log[k + 1] == m;
    }
  }

  /** A row earlier than every row of an ascending log can go in front of it. */
  lemma ConsAscending(x: Message, rest: seq<Message>)
    requires Ascending(rest)
    requires forall m :: m in rest ==> x.timestamp < m.timestamp
    ensures Ascending([x] + rest)
  {
    var r := [x] + rest;
    forall i, j | 0 <= i < j < |r|
      ensures r[i].timestamp < r[j].timestamp
    {
      assert r[j] == rest[j - 1];
      if i > 0 {
        assert r[i] == rest[i - 1];
      }
    }
  }

  /** A row later than every row of an ascending log can go at its end. */
  lemma SnocAscending(log: seq<Message>, x: Message)
    requires Ascending(log)
    requires forall m :: m in log ==> m.timestamp < x.timestamp
    ensures Ascending(log + [x])
  {
    var r := log + [x];
    forall i, j | 0 <= i < j < |r|
      ensures r[i].timestamp < r[j].timestamp
    {
      assert r[i] == log[i];
      if j < |log| {
        assert r[j] == log[j];
      } else {
        assert log[i] in log;
      }
    }
  }

  lemma SnocIdsAscending(log: seq<Message>, x: Message)
    requires IdsAscending(log)
    requires forall i :: 0 <= i < |log| ==> log[i].id < x.id
    ensures IdsAscending(log + [x])
  {
    var r := log + [x];
    forall i, j | 0 <= i < j < |r|
      ensures r[i].id < r[j].id
    {
      assert r[i] == log[i];
      if j < |log| {
        assert r[j] == log[j];
      }
    }
  }

  /** A filtered query keeps the key order of the rows it selects. */
  lemma {:induction false} SelectIdsAscending(log: seq<Message>, keep: Message -> bool)
    ensures IdsAscending(log) ==> IdsAscending(Select(log, keep))
  {
    if log != [] && IdsAscending(log) {
      IdsAscendingTail(log);
      SelectIdsAscending(log[1..], keep);
      if keep(log[0]) {
        ConsIdsAscending(log[0], Select(log[1..], keep));
      }
    }
  }

  lemma IdsAscendingTail(log: seq<Message>)
    requires log != [] && IdsAscending(log)
    ensures IdsAscending(log[1..])
    ensures forall m :: m in log[1..] ==> log[0].id < m.id
  {
    forall m | m in log[1..]
      ensures log[0].id < m.id
    {
      var k :| 0 <= k < |log[1..]| && log[1..][k] == m;
      assert log[k + 1] == m;
    }
  }

  lemma ConsIdsAscending(x: Message, rest: seq<Message>)
    requires IdsAscending(rest)
    requires forall m :: m in rest ==> x.id < m.id
    ensures IdsAscending([x] + rest)
  {
    var r := [x] + rest;
    forall i, j | 0 <= i < j < |r|
      ensures r[i].id < r[j].id
    {
      assert r[j] == rest[j - 1];
      if i > 0 {
        assert r[i] == rest[i - 1];
      }
    }
  }

  /** A filtered query keeps order: the selected rows appear in `log` in the same relative order. */
  lemma {:induction false} SelectOfSelect(log: seq<Message>, first: Message -> bool, second: Message -> bool)
    ensures Select(Select(log, first), second) == Select(log, (m: Message) => first(m) && second(m))
  {
    if log != [] {
      SelectOfSelect(log[1..], first, second);
      if first(log[0]) {
        assert Select(log, first)[1..] == Select(log[1..], first);
      }
    }
  }

  /** All of one user's messages. */
  function History(log: seq<Message>, user: string): (r: seq<Message>)
    ensures forall m :: m in r <==> (m in log && m.user == user)
  {
    Select(log, (m: Message) => m.user == user)
  }

  lemma HistoryAscending(log: seq<Message>, user: string)
    ensures Ascending(log) ==> Ascending(History(log, user))
  {
    SelectAscending(log, (m: Message) => m.user == user);
  }

  /**
   * `get_unprocessed_messages`: with a pointer, the user's messages strictly later than
   * it; without one, the user's whole history.
   */
  function Unprocessed(log: seq<Message>, user: string, pointer: Option<Message>): (r: seq<Message>)
    ensures forall m :: m in r <==> (m in log && m.user == user
                                     && (pointer.Some? ==> m.timestamp > pointer.value.timestamp))
    ensures Ascending(log) ==> Ascending(r)
    ensures pointer == None ==> r == History(log, user)
  {
    match pointer
    case None => HistoryAscending(log, user); History(log, user)
    case Some(p) =>
      var keep := (m: Message) => m.user == user && m.timestamp > p.timestamp;
      SelectAscending(log, keep); Select(log, keep)
  }

  /** `get_chat_history`: the user's messages, restricted to one session when one is given. */
  function ChatHistory(log: seq<Message>, user: string, sessionId: Option<int>): (r: seq<Message>)
    ensures forall m :: m in r <==> (m in log && m.user == user
                                     && (sessionId.Some? ==> m.sessionId == sessionId.value))
    ensures Ascending(log) ==> Ascending(r)
    ensures sessionId == None ==> r == History(log, user)
  {
    match sessionId
    case None => HistoryAscending(log, user); History(log, user)
    case Some(sid) =>
      var keep := (m: Message) => m.user == user && m.sessionId == sid;
      SelectAscending(log, keep); Select(log, keep)
  }

  /** The largest session id among the user's messages, `None` when there are none (`Max('session_id')`). */
  function MaxSession(log: seq<Message>, user: string): (r: Option<int>)
    ensures r == None <==> forall m :: m in log ==> m.user != user
    ensures r.Some? ==> exists m :: m in log && m.user == user && m.sessionId == r.value
    ensures r.Some? ==> forall m :: m in log && m.user == user ==> m.sessionId <= r.value
  {
    if log == [] then None
    else
      var rest := MaxSession(log[1..], user);
      var m := log[0];
      if m.user != user then
        assert forall x :: x in log ==> x == m || x in log[1..];
        rest
      else if rest.Some? && rest.value >= m.sessionId then
        assert forall x :: x in log ==> x == m || x in log[1..];
        rest
      else
        assert forall x :: x in log ==> x == m || x in log[1..];
        Some(m.sessionId)
  }

  /**
   * The session id `add_message` gives a new message: a user message opens a new session
   * numbered one past the largest so far (or 1), an assistant message joins the current
   * one; `None` when an assistant message has no session to join.
   */
  function NewSessionId(log: seq<Message>, user: string, isUser: bool): (r: Option<int>)
    ensures isUser ==> r.Some? && forall m :: m in log && m.user == user ==> m.sessionId < r.value
    ensures isUser && (forall m :: m in log ==> m.user != user) ==> r == Some(1)
    ensures isUser && MaxSession(log, user).Some? ==> r == Some(MaxSession(log, user).value + 1)
    ensures !isUser ==> r == MaxSession(log, user)
  {
    if isUser then Some(MaxSession(log, user).GetOr(0) + 1) else MaxSession(log, user)
  }

  /** One transcript line of `update_memory`. */
  function SummaryLine(m: Message): string {
    (if m.isUser then "User" else "LLM") + ": " + m.text
  }

  /** One transcript line of `format_memory_for_prompt` ("user" / "assistant" in Persian). */
  function PromptLine(m: Message): string {
    (if m.isUser then "کاربر" else "دستیار") + ": " + m.text
  }

  function SummaryLines(ms: seq<Message>): seq<string> {
    if ms == [] then [] else [SummaryLine(ms[0])] + SummaryLines(ms[1..])
  }

  function PromptLines(ms: seq<Message>): seq<string> {
    if ms == [] then [] else [PromptLine(ms[0])] + PromptLines(ms[1..])
  }

  /** One summary line per message, in order. */
  lemma {:induction false} SummaryLinesAt(ms: seq<Message>)
    ensures |SummaryLines(ms)| == |ms|
    ensures forall i :: 0 <= i < |ms| ==> SummaryLines(ms)[i] == SummaryLine(ms[i])
  {
    if ms != [] {
      SummaryLinesAt(ms[1..]);
    }
  }

  /** The text handed to the summariser: one labelled line per message, joined with newlines. */
  function SummaryTranscript(ms: seq<Message>): string {
    Strings.Join(SummaryLines(ms), "\n")
  }

  /** The recent-messages text of the prompt. */
  function PromptTranscript(ms: seq<Message>): string {
    Strings.Join(PromptLines(ms), "\n")
  }

  /** When no message text holds a newline, the summariser's transcript splits back into its lines. */
  lemma SummaryTranscriptLines(ms: seq<Message>)
    requires |ms| >= 1
    requires forall i :: 0 <= i < |ms| ==> '\n' !in ms[i].text
    ensures Strings.Split(SummaryTranscript(ms), '\n') == SummaryLines(ms)
  {
    var lines := SummaryLines(ms);
    SummaryLinesAt(ms);
    forall i | 0 <= i < |lines| ensures '\n' !in lines[i] {
      SummaryLineNoNewline(ms[i]);
    }
    Strings.SplitJoin(lines, '\n');
  }

  lemma SummaryLineNoNewline(m: Message)
    requires '\n' !in m.text
    ensures '\n' !in SummaryLine(m)
  {
    var tag := (if m.isUser then "User" else "LLM") + ": ";
    assert '\n' !in tag;
    assert SummaryLine(m) == tag + m.text;
  }

  /** The prompt transcript is empty exactly when there are no messages. */
  lemma {:induction false} PromptTranscriptEmpty(ms: seq<Message>)
    ensures PromptTranscript(ms) == "" <==> ms == []
    ensures ms != [] ==> !Strings.IsSpace(PromptTranscript(ms)[0])
  {
    if ms != [] {
      var lines := PromptLines(ms);
      var first := lines[0];
      assert first == (if ms[0].isUser then "کاربر" else "دستیار") + ": " + ms[0].text;
      assert first != [] && !Strings.IsSpace(first[0]);
      if |lines| > 1 {
        assert PromptTranscript(ms) == first + "\n" + Strings.Join(lines[1..], "\n");
      }
    }
  }

  /** The fold `update_memory` performs on one user's memory row. */
  function Fold(log: seq<Message>, user: string, st: MemoryState, summarize: Summarizer): (r: MemoryState)
    ensures Unprocessed(log, user, st.lastProcessed) == [] ==> r == st
    ensures var u := Unprocessed(log, user, st.lastProcessed);
            u != [] ==> r.currentMemory == summarize(SummaryTranscript(u), st.currentMemory)
                        && r.lastProcessed == Some(u[|u| - 1])
  {
    var u := Unprocessed(log, user, st.lastProcessed);
    if u == [] then st
    else MemoryState(summarize(SummaryTranscript(u), st.currentMemory), Some(u[|u| - 1]))
  }

  /**
   * The fold would store no summary.  `current_memory` is a NOT NULL text column,
   * so the `save()` of such a row fails and the stored row stays as it was.
   */
  predicate FoldRefused(log: seq<Message>, user: string, st: MemoryState, summarize: Summarizer) {
    var u := Unprocessed(log, user, st.lastProcessed);
    u != [] && summarize(SummaryTranscript(u), st.currentMemory) == None
  }

  /** A refused fold is exactly one that would null the summary of a row that has one. */
  lemma FoldRefusedExactly(log: seq<Message>, user: string, st: MemoryState, summarize: Summarizer)
    requires st.currentMemory.Some?
    ensures FoldRefused(log, user, st, summarize) <==> Fold(log, user, st, summarize).currentMemory == None
  {
  }

  /** After a fold nothing of the user's is left unprocessed. */
  lemma FoldLeavesNothingUnprocessed(log: seq<Message>, user: string, st: MemoryState, summarize: Summarizer)
    requires Ascending(log)
    ensures Unprocessed(log, user, Fold(log, user, st, summarize).lastProcessed) == []
  {
    var u := Unprocessed(log, user, st.lastProcessed);
    if u != [] {
      LastIsLatest(u);
      var last := u[|u| - 1];
      NothingLaterThanLatest(log, user, st.lastProcessed, last);
    }
  }

  /** In a timestamp-ascending sequence no element is later than the last. */
  lemma LastIsLatest(ms: seq<Message>)
    requires Ascending(ms) && ms != []
    ensures forall m :: m in ms ==> m.timestamp <= ms[|ms| - 1].timestamp
  {
    forall m | m in ms ensures m.timestamp <= ms[|ms| - 1].timestamp {
      var k :| 0 <= k < |ms| && ms[k] == m;
      assert k == |ms| - 1 || ms[k].timestamp < ms[|ms| - 1].timestamp;
    }
  }

  /** Nothing is unprocessed from a pointer at the latest of the previously unprocessed messages. */
  lemma NothingLaterThanLatest(log: seq<Message>, user: string, pointer: Option<Message>, last: Message)
    requires last in Unprocessed(log, user, pointer)
    requires forall m :: m in Unprocessed(log, user, pointer) ==> m.timestamp <= last.timestamp
    ensures Unprocessed(log, user, Some(last)) == []
  {
  }

  /** Folding twice in a row is folding once: the second fold finds nothing and changes nothing. */
  lemma FoldIdempotent(log: seq<Message>, user: string, st: MemoryState, summarize: Summarizer)
    requires Ascending(log)
    ensures Fold(log, user, Fold(log, user, st, summarize), summarize) == Fold(log, user, st, summarize)
  {
    FoldLeavesNothingUnprocessed(log, user, st, summarize);
  }

  /** Heading of the background section, and of the recent-messages section. */
  const BackgroundHeading: string := "پیش‌زمینه مکالمه:"
  const RecentHeading: string := "پیام‌های اخیر:"

  function Spaces(n: nat): (r: string)
    ensures |r| == n && Strings.AllSpace(r)
  {
    if n == 0 then "" else " " + Spaces(n - 1)
  }

  /** The indentation of the two triple-quoted templates. */
  const WideIndent: string := Spaces(28)
  const NarrowIndent: string := Spaces(24)

  /** The text `format_memory_for_prompt` builds, before `strip()`. */
  function MemoryTemplate(memory: string, recent: string): string {
    if recent != "" then
      "\n" + WideIndent + BackgroundHeading + "\n" + WideIndent + memory + "\n\n"
      + WideIndent + RecentHeading + "\n" + WideIndent + recent + "\n" + WideIndent
    else
      "\n" + NarrowIndent + BackgroundHeading + "\n" + NarrowIndent + memory + "\n" + NarrowIndent
  }

  /** `format_memory_for_prompt`'s text: the template with surrounding whitespace stripped. */
  function FormatMemory(currentMemory: Option<string>, unprocessed: seq<Message>): string {
    Strings.Strip(MemoryTemplate(currentMemory.GetOr(""), PromptTranscript(unprocessed)))
  }

  /**
   * The prompt text starts with the background section (the summary, "" when there is
   * none); the recent-messages section follows exactly when there are unprocessed
   * messages; only the template's leading indentation and trailing whitespace are cut.
   */
  lemma FormatMemoryShape(currentMemory: Option<string>, unprocessed: seq<Message>)
    ensures var r := FormatMemory(currentMemory, unprocessed);
            var memory := currentMemory.GetOr("");
            && (unprocessed != [] ==>
                 r == BackgroundHeading + "\n" + WideIndent + memory + "\n\n" + WideIndent
                      + RecentHeading + "\n" + WideIndent + Strings.TrimEnd(PromptTranscript(unprocessed)))
            && (unprocessed == [] ==>
                 r == Strings.TrimEnd(BackgroundHeading + "\n" + NarrowIndent + memory))
            && |r| >= |BackgroundHeading| && r[..|BackgroundHeading|] == BackgroundHeading
  {
    var recent := PromptTranscript(unprocessed);
    PromptTranscriptEmpty(unprocessed);
    if recent != "" {
      StrippedWide(currentMemory.GetOr(""), recent);
    } else {
      StrippedNarrow(currentMemory.GetOr(""));
    }
  }

  /** The leading newline and indentation of a template line. */
  lemma IndentIsSpace(n: nat)
    ensures Strings.AllSpace("\n" + Spaces(n))
  {
  }

  lemma StrippedWide(memory: string, recent: string)
    requires recent != "" && !Strings.IsSpace(recent[0])
    ensures var r := Strings.Strip(MemoryTemplate(memory, recent));
            && r == BackgroundHeading + "\n" + WideIndent + memory + "\n\n" + WideIndent
                    + RecentHeading + "\n" + WideIndent + Strings.TrimEnd(recent)
            && |r| >= |BackgroundHeading| && r[..|BackgroundHeading|] == BackgroundHeading
  {
    IndentIsSpace(28);
    StripWideShape(WideIndent, BackgroundHeading, memory, RecentHeading, recent);
  }

  lemma StrippedNarrow(memory: string)
    ensures var r := Strings.Strip(MemoryTemplate(memory, ""));
            && r == Strings.TrimEnd(BackgroundHeading + "\n" + NarrowIndent + memory)
            && |r| >= |BackgroundHeading| && r[..|BackgroundHeading|] == BackgroundHeading
  {
    IndentIsSpace(24);
    StripNarrowShape(NarrowIndent, BackgroundHeading, memory);
  }

  /** The two-section template with any indentation and headings. */
  lemma StripWideShape(indent: string, heading: string, memory: string, recentHeading: string, recent: string)
    requires Strings.AllSpace("\n" + indent)
    requires heading != [] && !Strings.IsSpace(heading[0])
    requires recent != [] && !Strings.IsSpace(recent[0])
    ensures var r := Strings.Strip("\n" + indent + heading + "\n" + indent + memory + "\n\n"
                                   + indent + recentHeading + "\n" + indent + recent + "\n" + indent);
            && r == heading + "\n" + indent + memory + "\n\n" + indent
                    + recentHeading + "\n" + indent + Strings.TrimEnd(recent)
            && |r| >= |heading| && r[..|heading|] == heading
  {
    var pad := "\n" + indent;
    var mid := "\n" + indent + memory + "\n\n" + indent + recentHeading + "\n" + indent;
    var front := heading + mid;
    WideRegrouped(indent, heading, memory, recentHeading, recent);
    Strings.StripPadded(pad, front + recent, pad);
    TrimEndKeepsFront(front, recent);
    var t := Strings.TrimEnd(recent);
    WideResultRegrouped(indent, heading, memory, recentHeading, t);
    assert (heading + (mid + t))[..|heading|] == heading;
  }

  /** Regrouping the two-section template around its text. */
  lemma WideRegrouped(indent: string, heading: string, memory: string, recentHeading: string, recent: string)
    ensures "\n" + indent + heading + "\n" + indent + memory + "\n\n"
            + indent + recentHeading + "\n" + indent + recent + "\n" + indent
            == ("\n" + indent)
               + ((heading + ("\n" + indent + memory + "\n\n" + indent + recentHeading + "\n" + indent)) + recent)
               + ("\n" + indent)
  {
  }

  lemma WideResultRegrouped(indent: string, heading: string, memory: string, recentHeading: string, t: string)
    ensures (heading + ("\n" + indent + memory + "\n\n" + indent + recentHeading + "\n" + indent)) + t
            == heading + "\n" + indent + memory + "\n\n" + indent + recentHeading + "\n" + indent + t
    ensures (heading + ("\n" + indent + memory + "\n\n" + indent + recentHeading + "\n" + indent)) + t
            == heading + (("\n" + indent + memory + "\n\n" + indent + recentHeading + "\n" + indent) + t)
  {
  }

  /** The one-section template with any indentation and heading. */
  lemma StripNarrowShape(indent: string, heading: string, memory: string)
    requires Strings.AllSpace("\n" + indent)
    requires heading != [] && !Strings.IsSpace(heading[0]) && !Strings.IsSpace(heading[|heading| - 1])
    ensures var r := Strings.Strip("\n" + indent + heading + "\n" + indent + memory + "\n" + indent);
            && r == Strings.TrimEnd(heading + "\n" + indent + memory)
            && |r| >= |heading| && r[..|heading|] == heading
  {
    var pad := "\n" + indent;
    var rest := "\n" + indent + memory;
    assert "\n" + indent + heading + "\n" + indent + memory + "\n" + indent == pad + (heading + rest) + pad;
    assert heading + rest == heading + "\n" + indent + memory;
    Strings.StripPadded(pad, heading + rest, pad);
    TrimEndKeepsFront(heading, rest);
    assert (heading + Strings.TrimEnd(rest))[..|heading|] == heading;
  }

  /**
   * `rstrip` of a concatenation only trims the back when the front ends in a non-space
   * or the back starts with one.
   */
  lemma {:induction false} TrimEndKeepsFront(front: string, back: string)
    requires (front != [] && !Strings.IsSpace(front[|front| - 1])) || (back != [] && !Strings.IsSpace(back[0]))
    ensures Strings.TrimEnd(front + back) == front + Strings.TrimEnd(back)
    decreases |back|
  {
    if back != [] && Strings.IsSpace(back[|back| - 1]) {
      assert (front + back)[..|front + back| - 1] == front + back[..|back| - 1];
      TrimEndKeepsFront(front, back[..|back| - 1]);
    } else if back == [] {
      assert front + back == front;
    }
  }

  /** The log without the row whose key is `id`. */
  function WithoutId(log: seq<Message>, id: nat): (r: seq<Message>)
    ensures forall m :: m in r <==> (m in log && m.id != id)
  {
    Select(log, (m: Message) => m.id != id)
  }

  /** A user's memory row as `get_or_create` sees it: the stored one, or the fresh one it would insert. */
  function RowOf(states: map<string, MemoryState>, user: string): (r: MemoryState)
    ensures user !in states ==> r == FreshMemoryState
    ensures user in states ==> r == states[user]
  {
    if user in states then states[user] else FreshMemoryState
  }

  /** Database errors the model distinguishes. */
  datatype DbError =
    | NullSessionId  // a message row whose session id is null
    | NullMemory     // a memory row whose summary is null

  /** The message and memory tables, with the operations of `MemoryManager`. */
  /** Every stored pointer names a message of the log that belongs to the row's own user. */
  ghost predicate PointersValid(log: seq<Message>, states: map<string, MemoryState>) {
    forall u :: u in states && states[u].lastProcessed.Some? ==>
      states[u].lastProcessed.value in log && states[u].lastProcessed.value.user == u
  }

  /** Storing a row whose pointer is valid for its user keeps every pointer valid. */
  lemma StoreKeepsPointersValid(log: seq<Message>, states: map<string, MemoryState>, user: string, st: MemoryState)
    requires PointersValid(log, states)
    requires st.lastProcessed.Some? ==> st.lastProcessed.value in log && st.lastProcessed.value.user == user
    ensures PointersValid(log, states[user := st])
  {
  }

  class MemoryManager {
    var log: seq<Message>
    var states: map<string, MemoryState>
    var nextId: nat

    ghost predicate Valid()
      reads this
    {
      && Ascending(log)
      && IdsAscending(log)
      && (forall i :: 0 <= i < |log| ==> log[i].id < nextId)
      && PointersValid(log, states)
      && (forall u :: u in states ==> states[u].currentMemory.Some?)
    }

    constructor ()
      ensures Valid() && log == [] && states == map[]
    {
      log := [];
      states := map[];
      nextId := 0;
    }

    /** `get_or_create_memory_state`: the user's row, inserting a fresh one the first time. */
    method GetOrCreateMemoryState(user: string) returns (st: MemoryState)
      requires Valid()
      modifies this`states
      ensures Valid()
      ensures states == old(states)[user := RowOf(old(states), user)]
      ensures user in states && st == states[user]
    {
      if user !in states {
        states := states[user := FreshMemoryState];
      }
      st := states[user];
    }

    /**
     * `add_message`: append one row with the next key, the clock's time and the session
     * rule of `NewSessionId`; the memory table is untouched.  Inserting an assistant
     * message for a user with no messages fails, since the session id would be null.
     */
    method AddMessage(user: string, text: string, now: int, isUser: bool := true)
      returns (r: Result<Message, DbError>)
      requires Valid()
      requires forall m :: m in log ==> m.timestamp < now
      modifies this`log, this`nextId
      ensures Valid() && states == old(states)
      ensures NewSessionId(old(log), user, isUser) == None ==> r == Failure(NullSessionId) && log == old(log)
      ensures NewSessionId(old(log), user, isUser).Some? ==>
                && r.Success?
                && r.value == Message(old(nextId), user, text, now, NewSessionId(old(log), user, isUser).value, isUser)
                && log == old(log) + [r.value]
    {
      var session := NewSessionId(log, user, isUser);
      if session == None {
        return Failure(NullSessionId);
      }
      var message := Message(nextId, user, text, now, session.value, isUser);
      SnocAscending(log, message);
      SnocIdsAscending(log, message);
      log := log + [message];
      nextId := nextId + 1;
      r := Success(message);
    }

    method GetUnprocessedMessages(user: string) returns (ms: seq<Message>)
      requires Valid()
      modifies this`states
      ensures Valid()
      ensures states == old(states)[user := RowOf(old(states), user)]
      ensures user in states && ms == Unprocessed(log, user, states[user].lastProcessed)
    {
      var st := GetOrCreateMemoryState(user);
      ms := Unprocessed(log, user, st.lastProcessed);
    }

    /**
     * `update_memory`: fold the user's unprocessed messages into the summary and move the
     * pointer to the last of them; with nothing unprocessed, return the summary unchanged.
     * When the summariser gives no text the save fails: the row `get_or_create` fetched
     * or inserted stays as it was.
     */
    method UpdateMemory(user: string, summarize: Summarizer) returns (r: Result<Option<string>, DbError>)
      requires Valid()
      modifies this`states
      ensures Valid()
      ensures FoldRefused(log, user, RowOf(old(states), user), summarize) ==>
                && r == Failure(NullMemory)
                && states == old(states)[user := RowOf(old(states), user)]
      ensures !FoldRefused(log, user, RowOf(old(states), user), summarize) ==>
                && states == old(states)[user := Fold(log, user, RowOf(old(states), user), summarize)]
                && r == Success(states[user].currentMemory)
    {
      ghost var before := RowOf(states, user);
      var st := GetOrCreateMemoryState(user);
      // `get_unprocessed_messages` finds the row just fetched or inserted.
      var unprocessed := Unprocessed(log, user, st.lastProcessed);
      if unprocessed == [] {
        assert Fold(log, user, before, summarize) == before;
        return Success(st.currentMemory);
      }
      var last := unprocessed[|unprocessed| - 1];
      assert last in unprocessed;
      var conversation := SummaryTranscript(unprocessed);
      var memory := summarize(conversation, st.currentMemory);
      if memory == None {
        return Failure(NullMemory);
      }
      assert Fold(log, user, before, summarize) == MemoryState(memory, Some(last));
      StoreKeepsPointersValid(log, states, user, MemoryState(memory, Some(last)));
      states := states[user := MemoryState(memory, Some(last))];
      r := Success(memory);
    }

    method GetChatHistory(user: string, sessionId: Option<int>) returns (ms: seq<Message>)
      requires Valid()
      ensures ms == ChatHistory(log, user, sessionId)
      ensures Ascending(ms)
    {
      ms := ChatHistory(log, user, sessionId);
    }

    method GetCurrentMemory(user: string) returns (memory: Option<string>)
      requires Valid()
      modifies this`states
      ensures Valid()
      ensures states == old(states)[user := RowOf(old(states), user)]
      ensures memory == RowOf(old(states), user).currentMemory
    {
      var st := GetOrCreateMemoryState(user);
      memory := st.currentMemory;
    }

    /** `end_session`: the same fold as `update_memory`, its result discarded. */
    method EndSession(user: string, summarize: Summarizer) returns (r: Result<(), DbError>)
      requires Valid()
      modifies this`states
      ensures Valid()
      ensures FoldRefused(log, user, RowOf(old(states), user), summarize) ==>
                && r == Failure(NullMemory)
                && states == old(states)[user := RowOf(old(states), user)]
      ensures !FoldRefused(log, user, RowOf(old(states), user), summarize) ==>
                && r == Success(())
                && states == old(states)[user := Fold(log, user, RowOf(old(states), user), summarize)]
    {
      var updated := UpdateMemory(user, summarize);
      if updated.Failure? {
        return Failure(updated.error);
      }
      r := Success(());
    }

    method FormatMemoryForPrompt(user: string) returns (prompt: string)
      requires Valid()
      modifies this`states
      ensures Valid()
      ensures states == old(states)[user := RowOf(old(states), user)]
      ensures var row := RowOf(old(states), user);
              prompt == FormatMemory(row.currentMemory, Unprocessed(log, user, row.lastProcessed))
    {
      var st := GetOrCreateMemoryState(user);
      // `get_unprocessed_messages` finds the row just fetched or inserted.
      var unprocessed := Unprocessed(log, user, st.lastProcessed);
      prompt := FormatMemory(st.currentMemory, unprocessed);
    }

    /**
     * Deleting a message row (`on_delete=SET_NULL` on the pointer): the row leaves the log
     * and every pointer to it is nulled, so that user's next fold starts from the whole history.
     */
    method DeleteMessage(id: nat)
      requires Valid()
      modifies this`log, this`states
      ensures Valid()
      ensures log == WithoutId(old(log), id)
      ensures states.Keys == old(states).Keys
      ensures forall u :: u in states ==> states[u] == ClearPointerTo(old(states)[u], id)
      ensures forall u :: (u in states && old(states)[u].lastProcessed.Some?
                             && old(states)[u].lastProcessed.value.id == id) ==>
                  Unprocessed(log, u, states[u].lastProcessed) == History(log, u)
    {
      SelectAscending(log, (m: Message) => m.id != id);
      SelectIdsAscending(log, (m: Message) => m.id != id);
      log := WithoutId(log, id);
      states := map u | u in states :: ClearPointerTo(states[u], id);
      forall i | 0 <= i < |log| ensures log[i].id < nextId {
        assert log[i] in old(log);
      }
    }
  }
}

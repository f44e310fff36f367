/**
 * The in-memory prototype of Memory/LLM_Memory.py: a `UserMemory` object per user
 * holding the whole conversation, the exchanges of the current session and a
 * running summary, and a `MemoryManager` that creates those objects lazily, one
 * per user id.
 */
module MemoryPrototype {
  import opened Wrappers
  import Strings

  /** One `{"user": ..., "llm": ...}` entry: a user message and the reply to it. */
  datatype Exchange = Exchange(user: string, llm: string)

  /** A summariser: the new summary from the session text and the old summary. */
  type Summarizer = (string, Option<string>) -> Option<string>

  /**
   * `summarize_conversation`, the summariser the prototype calls: a stub that returns
   * nothing (`None`), whatever it is given.
   */
  function SummarizeConversation(text: string, context: Option<string>): (r: Option<string>)
    ensures r == None
  {
    None
  }

  /** The line an exchange contributes to the session text: "User: u\nLLM: l". */
  function ExchangeText(e: Exchange): string {
    "User: " + e.user + "\nLLM: " + e.llm
  }

  function ExchangeTexts(es: seq<Exchange>): seq<string> {
    if es == [] then [] else [ExchangeText(es[0])] + ExchangeTexts(es[1..])
  }

  /** The text `update_summary` hands to the summariser. */
  function ActiveTranscript(es: seq<Exchange>): string {
    Strings.Join(ExchangeTexts(es), "\n")
  }

  /** The session text is empty exactly when the session holds no exchange. */
  lemma ActiveTranscriptEmpty(es: seq<Exchange>)
    ensures ActiveTranscript(es) == "" <==> es == []
  {
    if es != [] {
      var first := ExchangeText(es[0]);
      assert first[0] == 'U';
      if |es| > 1 {
        assert ActiveTranscript(es) == first + "\n" + ActiveTranscript(es[1..]);
      }
    }
  }

  /** One user's memory. */
  class UserMemory {
    const userId: string
    var conversationHistory: seq<Exchange>
    var activeSessionHistory: seq<Exchange>
    var summary: Option<string>

    constructor (userId: string)
      ensures this.userId == userId
      ensures conversationHistory == [] && activeSessionHistory == []
      ensures summary == Some("")
    {
      this.userId := userId;
      conversationHistory := [];
      activeSessionHistory := [];
      summary := Some("");
    }

    /** `add_message`: the same exchange goes at the end of both lists. */
    method AddMessage(userMessage: string, llmResponse: string)
      modifies this
      ensures conversationHistory == old(conversationHistory) + [Exchange(userMessage, llmResponse)]
      ensures activeSessionHistory == old(activeSessionHistory) + [Exchange(userMessage, llmResponse)]
      ensures summary == old(summary)
    {
      conversationHistory := conversationHistory + [Exchange(userMessage, llmResponse)];
      activeSessionHistory := activeSessionHistory + [Exchange(userMessage, llmResponse)];
    }

    /**
     * `update_summary`: the summary becomes the summariser's answer on the session text
     * and the old summary.  The source calls `SummarizeConversation`; any summariser
     * may be passed here.
     */
    method UpdateSummary(summarize: Summarizer)
      modifies this`summary
      ensures summary == summarize(ActiveTranscript(activeSessionHistory), old(summary))
    {
      var activeConversation := ActiveTranscript(activeSessionHistory);
      summary := summarize(activeConversation, summary);
    }

    method GetFullHistory() returns (h: seq<Exchange>)
      ensures h == conversationHistory
    {
      h := conversationHistory;
    }

    method GetSummary() returns (s: Option<string>)
      ensures s == summary
    {
      s := summary;
    }

    /**
     * `exit_session`: both lists are cleared before the summary is updated, so the
     * summariser is handed the empty text.
     */
    method ExitSession(summarize: Summarizer)
      modifies this
      ensures conversationHistory == [] && activeSessionHistory == []
      ensures summary == summarize("", old(summary))
    {
      conversationHistory := [];
      activeSessionHistory := [];
      UpdateSummary(summarize);
      ActiveTranscriptEmpty([]);
    }
  }

  /** The per-user dictionary of memories. */
  class MemoryManager {
    var userMemories: map<string, UserMemory>

    /** Each memory is filed under its own user id, so distinct ids hold distinct objects. */
    ghost predicate Valid()
      reads this, userMemories.Values
    {
      forall id :: id in userMemories ==> userMemories[id].userId == id
    }

    constructor ()
      ensures Valid() && userMemories == map[]
    {
      userMemories := map[];
    }

    /**
     * `get_user_memory`: the stored memory of `id`, or a new empty one stored under `id`
     * the first time; no other entry changes.
     */
    method GetUserMemory(id: string) returns (m: UserMemory)
      requires Valid()
      modifies this`userMemories
      ensures Valid()
      ensures m.userId == id && id in userMemories && userMemories[id] == m
      ensures id in old(userMemories) ==> userMemories == old(userMemories)
      ensures id !in old(userMemories) ==>
                && fresh(m)
                && userMemories == old(userMemories)[id := m]
                && m.conversationHistory == [] && m.activeSessionHistory == [] && m.summary == Some("")
    {
      if id !in userMemories {
        var created := new UserMemory(id);
        userMemories := userMemories[id := created];
      }
      m := userMemories[id];
    }

    /**
     * `add_user_message`: the exchange is appended to the lists of `id`'s memory;
     * every other user's memory is untouched.
     */
    method AddUserMessage(id: string, userMessage: string, llmResponse: string)
      requires Valid()
      modifies this`userMemories, if id in userMemories then {userMemories[id]} else {}
      ensures Valid()
      ensures userMemories.Keys == old(userMemories.Keys) + {id}
      ensures id in old(userMemories) ==> userMemories[id] == old(userMemories[id])
      ensures id !in old(userMemories) ==> fresh(userMemories[id])
      ensures var before := if id in old(userMemories) then old(userMemories[id].conversationHistory) else [];
              userMemories[id].conversationHistory == before + [Exchange(userMessage, llmResponse)]
      ensures var before := if id in old(userMemories) then old(userMemories[id].activeSessionHistory) else [];
              userMemories[id].activeSessionHistory == before + [Exchange(userMessage, llmResponse)]
      ensures userMemories[id].summary == if id in old(userMemories) then old(userMemories[id].summary) else Some("")
      ensures forall other :: other in old(userMemories) && other != id ==>
                && userMemories[other] == old(userMemories[other])
                && userMemories[other].conversationHistory == old(userMemories[other].conversationHistory)
                && userMemories[other].activeSessionHistory == old(userMemories[other].activeSessionHistory)
                && userMemories[other].summary == old(userMemories[other].summary)
    {
      var userMemory := GetUserMemory(id);
      userMemory.AddMessage(userMessage, llmResponse);
    }

    method GetFullHistory(id: string) returns (h: seq<Exchange>)
      requires Valid()
      modifies this`userMemories
      ensures Valid()
      ensures id in userMemories && h == userMemories[id].conversationHistory
      ensures id in old(userMemories) ==> userMemories == old(userMemories)
      ensures id !in old(userMemories) ==> h == [] && userMemories.Keys == old(userMemories.Keys) + {id}
    {
      var userMemory := GetUserMemory(id);
      h := userMemory.GetFullHistory();
    }

    method GetSummary(id: string) returns (s: Option<string>)
      requires Valid()
      modifies this`userMemories
      ensures Valid()
      ensures id in userMemories && s == userMemories[id].summary
      ensures id in old(userMemories) ==> userMemories == old(userMemories)
      ensures id !in old(userMemories) ==> s == Some("") && userMemories.Keys == old(userMemories.Keys) + {id}
    {
      var userMemory := GetUserMemory(id);
      s := userMemory.GetSummary();
    }
  }

  /** The two exchanges the example at the bottom of the file records for "user_1", and those for "user_2". */
  const FirstUserExchanges: seq<Exchange> :=
    [Exchange("Hi, how are you?", "I'm great, thank you!"),
     Exchange("Tell me something interesting.", "Did you know that honey never spoils?")]
  const SecondUserExchanges: seq<Exchange> :=
    [Exchange("Hello, what's the weather?", "It's sunny and warm today!"),
     Exchange("Can you give me a fact?", "Octopuses have three hearts!")]

  /**
   * The example at the bottom of the file: two exchanges each for two users; each user
   * sees exactly their own history.
   */
  method ExampleUsage(user1: string, user2: string) returns (history1: seq<Exchange>, history2: seq<Exchange>)
    requires user1 != user2
    ensures history1 == FirstUserExchanges
    ensures history2 == SecondUserExchanges
  {
    var a, b := FirstUserExchanges, SecondUserExchanges;
    var manager := new MemoryManager();
    manager.AddUserMessage(user1, a[0].user, a[0].llm);
    manager.AddUserMessage(user1, a[1].user, a[1].llm);
    assert manager.userMemories[user1].conversationHistory == a;
    assert user2 !in manager.userMemories.Keys by { assert manager.userMemories.Keys == {user1}; }
    manager.AddUserMessage(user2, b[0].user, b[0].llm);
    assert manager.userMemories[user2].conversationHistory == [b[0]];
    manager.AddUserMessage(user2, b[1].user, b[1].llm);
    assert manager.userMemories[user2].conversationHistory == b;
    history1 := manager.GetFullHistory(user1);
    history2 := manager.GetFullHistory(user2);
  }
}

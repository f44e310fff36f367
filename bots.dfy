/**
 * The two history-based chatbots of backend/api/bot: the placebo bot
 * (placebo_bot.py), which sends a fixed system prompt and a window of the last
 * six history entries, and the simple bot (simple_bot.py), which sends its loaded
 * system prompt and the whole history.  Both hand back the model's reply, the
 * reply suggestions, and the history extended by the new exchange.  The chat
 * model is a function parameter.
 */
module Bots {
  import opened Wrappers
  import Recommendations

  datatype Role = System | User | Assistant

  /** One `{"role": ..., "content": ...}` chat message; `None` is a null content. */
  datatype ChatMessage = ChatMessage(role: Role, content: Option<string>)

  /**
   * `openai_req_with_history`: the model's reply to a list of chat messages, the
   * `content` of its first choice, which may be null (`None`).
   */
  type ChatModel = seq<ChatMessage> -> Option<string>

  const PlaceboSystemPrompt: string :=
    "تو دستیار روان‌درمانی به خود هستی که وظیفه‌ات کمک به بهتر شدن حال روحی کاربر است."

  /** How many history entries the placebo bot sends. */
  const PlaceboWindow: nat := 6

  /**
   * `history[-n:]`: the last `n` entries, or all of them when there are fewer.
   * As in Python, `-0` is `0`, so `n == 0` keeps the whole history.
   */
  function LastEntries(history: seq<ChatMessage>, n: nat): (r: seq<ChatMessage>)
    ensures |r| == if n == 0 || |history| < n then |history| else n
    ensures r == history[|history| - |r|..]
  {
    if n == 0 || |history| <= n then history else history[|history| - n..]
  }

  /** `history or []`: a missing history counts as an empty one. */
  function HistoryOrEmpty(history: Option<seq<ChatMessage>>): (h: seq<ChatMessage>)
    ensures history.Some? ==> h == history.value
    ensures history.None? ==> h == []
  {
    history.GetOr([])
  }

  /**
   * The messages the placebo bot sends: its system prompt, the last six history
   * entries, then the new user message.
   */
  function PlaceboMessages(history: Option<seq<ChatMessage>>, userMessage: string): (r: seq<ChatMessage>)
    ensures var h := HistoryOrEmpty(history);
            var k := if |h| < PlaceboWindow then |h| else PlaceboWindow;
            && |r| == 2 + k
            && r[0] == ChatMessage(System, Some(PlaceboSystemPrompt))
            && r[1..|r| - 1] == h[|h| - k..]
            && r[|r| - 1] == ChatMessage(User, Some(userMessage))
  {
    var h := HistoryOrEmpty(history);
    var window := if h == [] then [] else LastEntries(h, PlaceboWindow);
    var r := [ChatMessage(System, Some(PlaceboSystemPrompt))] + window + [ChatMessage(User, Some(userMessage))];
    assert r[1..|r| - 1] == window;
    r
  }

  /** The messages the simple bot sends: its system prompt, the whole history, then the new user message. */
  function SimpleMessages(systemPrompt: string, history: Option<seq<ChatMessage>>, userMessage: string)
    : (r: seq<ChatMessage>)
    ensures var h := HistoryOrEmpty(history);
            && |r| == |h| + 2
            && r[0] == ChatMessage(System, Some(systemPrompt))
            && r[1..|r| - 1] == h
            && r[|r| - 1] == ChatMessage(User, Some(userMessage))
  {
    var h := HistoryOrEmpty(history);
    var r := [ChatMessage(System, Some(systemPrompt))] + h + [ChatMessage(User, Some(userMessage))];
    assert r[1..|r| - 1] == h;
    r
  }

  /** `updated_history`: the full history, then the user message and the reply. */
  function UpdatedHistory(history: Option<seq<ChatMessage>>, userMessage: string, response: Option<string>)
    : (r: seq<ChatMessage>)
    ensures var h := HistoryOrEmpty(history);
            && |r| == |h| + 2
            && r[..|h|] == h
            && r[|h|] == ChatMessage(User, Some(userMessage))
            && r[|h| + 1] == ChatMessage(Assistant, response)
  {
    var h := HistoryOrEmpty(history);
    var r := h + [ChatMessage(User, Some(userMessage)), ChatMessage(Assistant, response)];
    assert r[..|h|] == h;
    r
  }

  /**
   * `placebo_bot_response`: the messages are built in place, the model is asked
   * once, and the suggestions are requested with an empty memory.  `user` is part
   * of the interface and not used.
   */
  method PlaceboBotResponse(history: Option<seq<ChatMessage>>, userMessage: string, user: string, model: ChatModel)
    returns (response: Option<string>, recommendations: seq<string>, updatedHistory: seq<ChatMessage>,
             ghost sent: seq<ChatMessage>)
    ensures sent == PlaceboMessages(history, userMessage)
    ensures response == model(sent)
    ensures recommendations == Recommendations.CreateRecommendations(response, "")
    ensures updatedHistory == UpdatedHistory(history, userMessage, response)
  {
    var messages := [ChatMessage(System, Some(PlaceboSystemPrompt))];
    if history.Some? && history.value != [] {
      messages := messages + LastEntries(history.value, PlaceboWindow);
    } else {
      assert HistoryOrEmpty(history) == [];
    }
    messages := messages + [ChatMessage(User, Some(userMessage))];
    sent := messages;
    response := model(messages);
    updatedHistory := HistoryOrEmpty(history) + [ChatMessage(User, Some(userMessage)), ChatMessage(Assistant, response)];
    recommendations := Recommendations.CreateRecommendations(response, "");
  }

  /** `simple_bot_response`, with the system prompt its module loads from a file as a parameter. */
  method SimpleBotResponse(systemPrompt: string, history: Option<seq<ChatMessage>>, userMessage: string,
                           model: ChatModel)
    returns (response: Option<string>, recommendations: seq<string>, updatedHistory: seq<ChatMessage>,
             ghost sent: seq<ChatMessage>)
    ensures sent == SimpleMessages(systemPrompt, history, userMessage)
    ensures response == model(sent)
    ensures recommendations == Recommendations.CreateRecommendations(response, "")
    ensures updatedHistory == UpdatedHistory(history, userMessage, response)
  {
    var messages := [ChatMessage(System, Some(systemPrompt))];
    if history.Some? && history.value != [] {
      messages := messages + history.value;
    }
    messages := messages + [ChatMessage(User, Some(userMessage))];
    sent := messages;
    response := model(messages);
    updatedHistory := HistoryOrEmpty(history) + [ChatMessage(User, Some(userMessage)), ChatMessage(Assistant, response)];
    recommendations := Recommendations.CreateRecommendations(response, "");
  }

  /** With no history, or an empty one, the placebo bot sends just its prompt and the user message. */
  lemma PlaceboWithoutHistory(history: Option<seq<ChatMessage>>, userMessage: string, response: Option<string>)
    requires history.None? || history.value == []
    ensures PlaceboMessages(history, userMessage) ==
              [ChatMessage(System, Some(PlaceboSystemPrompt)), ChatMessage(User, Some(userMessage))]
    ensures |UpdatedHistory(history, userMessage, response)| == 2
  {
    assert HistoryOrEmpty(history) == [];
    var p := PlaceboMessages(history, userMessage);
    assert |p| == 2;
    assert p == [p[0], p[1]];
  }

  /** A history of two entries is sent whole: four messages in all. */
  lemma PlaceboTwoEntryHistory(h: seq<ChatMessage>, userMessage: string)
    requires |h| == 2
    ensures |PlaceboMessages(Some(h), userMessage)| == 4
    ensures PlaceboMessages(Some(h), userMessage)[1..3] == h
  {
  }

  /** Up to six entries of history, the placebo bot sends what the simple bot would with the same prompt. */
  lemma PlaceboAgreesOnShortHistory(history: Option<seq<ChatMessage>>, userMessage: string)
    requires |HistoryOrEmpty(history)| <= PlaceboWindow
    ensures PlaceboMessages(history, userMessage) == SimpleMessages(PlaceboSystemPrompt, history, userMessage)
  {
    var p := PlaceboMessages(history, userMessage);
    var s := SimpleMessages(PlaceboSystemPrompt, history, userMessage);
    assert p == [p[0]] + p[1..|p| - 1] + [p[|p| - 1]];
    assert s == [s[0]] + s[1..|s| - 1] + [s[|s| - 1]];
  }

  /**
   * Over a longer history the window slides: after one more exchange the placebo
   * bot sends the previous window without its two oldest entries, then the exchange.
   */
  lemma PlaceboWindowSlides(h: seq<ChatMessage>, userMessage: string, response: Option<string>, next: string)
    requires |h| >= PlaceboWindow
    ensures var before := PlaceboMessages(Some(h), userMessage);
            var after := PlaceboMessages(Some(UpdatedHistory(Some(h), userMessage, response)), next);
            after[1..PlaceboWindow + 1] ==
              before[3..PlaceboWindow + 1] + [ChatMessage(User, Some(userMessage)), ChatMessage(Assistant, response)]
  {
    var u := UpdatedHistory(Some(h), userMessage, response);
    var before := PlaceboMessages(Some(h), userMessage);
    var after := PlaceboMessages(Some(u), next);
    var w := h[|h| - PlaceboWindow..];
    assert before[1..PlaceboWindow + 1] == w;
    assert before[3..PlaceboWindow + 1] == w[2..];
    assert after[1..PlaceboWindow + 1] == u[|u| - PlaceboWindow..];
    assert u == h + [ChatMessage(User, Some(userMessage)), ChatMessage(Assistant, response)];
    assert u[|u| - PlaceboWindow..] == w[2..] + [ChatMessage(User, Some(userMessage)), ChatMessage(Assistant, response)];
  }
}

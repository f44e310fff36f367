# Self-attachment therapy chatbot: a Dafny model of its core

The repository is a Persian-language chatbot that guides a user through a
"self-attachment" therapy protocol. This project models its core in Dafny and
proves properties of that model:

- **The dialogue controller** (`backend/api/bot/utils.py`): a state machine over
  nineteen protocol states. The handler line is "open conversation" while the
  turn count is below five, and the state's own prompt after that. Every
  transition resets the count, so only END, and a decider whose answer is not
  recognised, stay long enough to show their prompt (`NoTransitionExactly`).
  The decider states route on the Yes/No `response` and, in EMOTION_VERIFIER, on
  the `emotion` a classifier detected. This is the `Dialogue` module, and the
  `StateMachine` class there has the source's fields.
- **The linear prototype controller** (`main.py`): thirteen states in a fixed
  chain, plus the driver loop that runs it to END. This is `LinearDialogue`.
- **Long-term memory** (`backend/api/bot/Memory/LLM_Memory.py`, over the records
  of `backend/api/models.py`):
  - a message log with per-user sessions;
  - a per-user summary row with a pointer to the last message folded into it;
  - the fold `update_memory` performs;
  - the text `format_memory_for_prompt` builds.

  This is the `ConversationMemory` module (class `MemoryManager`) and the
  `Models` module. The two database tables are fields of the class.
- **The in-memory memory prototype** (`Memory/LLM_Memory.py`): `UserMemory`
  objects that one `MemoryManager` creates lazily per user id, and the example
  run at the bottom of that file. This is `MemoryPrototype`.
- **The exercise suggester** (`backend/api/bot/RAG/llm_excercise_suggestor.py`),
  modelled in `ExerciseSuggestor`. It covers:
  - which exercises are offered, including the day filter and the fallback;
  - the shuffle;
  - how the ranking model's comma-separated reply is read back;
  - loading exercise texts;
  - the `exercise_data` handed to the deciding model;
  - what is returned for the final choice.
- **The two history-based bots** (`placebo_bot.py` and `simple_bot.py`) and the
  reply suggestions of `gpt_recommendations.py`. These are the `Bots` and
  `Recommendations` modules.

Two shared modules support these:

- `Wrappers` holds `Option` and `Result`.
- `Strings` models the Python string operations the code relies on: `strip`,
  `split`, `join`, `replace` of one character, slicing a prefix, and `str` of an
  integer.

Every language-model call is a function parameter of the operation that makes
it. These are the chat model, the summariser, the ranking and deciding replies,
and the suggestion generator. Randomness, the clock and the exercise files are
parameters too. The model therefore states what the code does with whatever
those return.

A few points where the model follows the code rather than the documentation:

- `add_message` in `backend/api/bot/Memory/LLM_Memory.py` gives every *user*
  message a new session id (one past the largest so far). Assistant messages
  join the current session. A session therefore lasts one exchange, whether or
  not `end_session` is called. `ConversationMemory.NewSessionId` states the
  rule as written.
- An assistant message for a user who has no messages yet gets a null session
  id, which the database refuses. The model returns `Failure(NullSessionId)`.
- The placebo bot's system prompt is the one in `placebo_bot.py:4`. The test at
  `backend/api/tests.py:86-87` expects a different phrase in it. The model
  follows the code.
- `create_recommendations` returns three empty strings before it would call the
  model (`gpt_recommendations.py:8`). The bots use that behaviour. The
  post-processing below that return is modelled separately as what it would do.
- In `suggest_exercises`, the loaded texts are paired with the candidates **by
  position**, while missing files are skipped. A candidate without a file
  therefore shifts the texts of the candidates after it.
  `ExerciseSuggestor.MisalignedContent` exhibits this, and
  `ExerciseSuggestor.DescribedContentAligned` states when the pairing is right.

## Model

| member | source | states |
|---|---|---|
| Models.MessageToString | backend/api/models.py:14-15 | the text is the username, ": ", the first 30 code points of the text, and the session id in parentheses; a text of at most 30 characters appears whole |
| Models.ClearPointerTo | backend/api/models.py:20-25 | deleting a message nulls a memory row's pointer exactly when it pointed at that message; the summary and every other pointer are unchanged |
| Strings.IntToString | backend/api/models.py:15 | `str` of an integer: a leading '-' exactly for negatives, then decimal digits whose value is the magnitude, with no leading zero |
| Strings.Strip | backend/api/bot/RAG/llm_excercise_suggestor.py:70 | the slice of the input left once the whitespace in front and behind it is cut off; neither end of the result is whitespace |
| Strings.StripIdempotent | backend/api/bot/RAG/llm_excercise_suggestor.py:70 | stripping twice is stripping once |
| Strings.SplitJoin | backend/api/bot/RAG/llm_excercise_suggestor.py:68 | splitting on a separator undoes joining pieces that do not contain it |
| ConversationMemory.History | backend/api/bot/Memory/LLM_Memory.py:48 | a message is in a user's history iff it is in the log and belongs to that user |
| ConversationMemory.Select | backend/api/bot/Memory/LLM_Memory.py:39-48 | filtering the log keeps exactly the messages satisfying the condition |
| ConversationMemory.SelectAppend | backend/api/bot/Memory/LLM_Memory.py:39-48 | filtering a concatenation is filtering each part, so the kept rows stay in log order, each as often as in the log |
| ConversationMemory.SelectOne | backend/api/bot/Memory/LLM_Memory.py:39-48 | a single row is kept exactly when it satisfies the condition |
| ConversationMemory.SelectAscending | backend/api/bot/Memory/LLM_Memory.py:44-48 | a filter of a timestamp-ordered log is timestamp-ordered (`order_by('timestamp')`) |
| ConversationMemory.SelectOfSelect | backend/api/bot/Memory/LLM_Memory.py:39-48 | filtering twice is filtering once by both conditions |
| ConversationMemory.Unprocessed | backend/api/bot/Memory/LLM_Memory.py:39-48 | with a pointer: the user's messages strictly later than it; without one: the user's whole history; ordered by time |
| ConversationMemory.ChatHistory | backend/api/bot/Memory/LLM_Memory.py:76-80 | the user's messages, restricted to one session iff a session id is given, ordered by time |
| ConversationMemory.MaxSession | backend/api/bot/Memory/LLM_Memory.py:27 | `None` iff the user has no messages; otherwise a session id of one of them and at least every other one |
| ConversationMemory.NewSessionId | backend/api/bot/Memory/LLM_Memory.py:25-33 | a user message gets exactly one past the largest session id of the user's messages (1 for a first message); an assistant message gets the largest so far, `None` when there is none |
| ConversationMemory.SummaryLinesAt | backend/api/bot/Memory/LLM_Memory.py:58-61 | the transcript has one "User:"/"LLM:" line per message, in order |
| ConversationMemory.SummaryTranscriptLines | backend/api/bot/Memory/LLM_Memory.py:58-61 | when no text contains a newline, the summariser's transcript splits back into exactly its lines |
| ConversationMemory.PromptTranscriptEmpty | backend/api/bot/Memory/LLM_Memory.py:96-102 | the recent-messages text is empty iff there are no unprocessed messages, and otherwise does not start with whitespace |
| ConversationMemory.Fold | backend/api/bot/Memory/LLM_Memory.py:50-74 | with nothing unprocessed the row is unchanged; otherwise the summary is the summariser's answer on the transcript and the old summary, and the pointer is the last unprocessed message |
| ConversationMemory.FoldLeavesNothingUnprocessed | backend/api/bot/Memory/LLM_Memory.py:50-74 | after a fold nothing of the user's is left unprocessed |
| ConversationMemory.FoldIdempotent | backend/api/bot/Memory/LLM_Memory.py:50-74 | a second fold right after the first changes nothing |
| ConversationMemory.FoldRefusedExactly | backend/api/bot/Memory/LLM_Memory.py:64-72 | for a row that has a summary, the save is refused exactly when the fold would null it (`current_memory` is NOT NULL, backend/api/models.py:19) |
| ConversationMemory.LastIsLatest | backend/api/bot/Memory/LLM_Memory.py:71 | in a time-ordered sequence no message is later than the last one, so the pointer is the latest processed message |
| ConversationMemory.NothingLaterThanLatest | backend/api/bot/Memory/LLM_Memory.py:39-48 | a pointer no earlier than every unprocessed message leaves nothing unprocessed |
| ConversationMemory.Spaces | backend/api/bot/Memory/LLM_Memory.py:103-114 | the template indentation is n whitespace characters |
| ConversationMemory.FormatMemoryShape | backend/api/bot/Memory/LLM_Memory.py:89-115 | the prompt text starts with the background heading and the summary ("" when there is none); the recent-messages section follows iff there are unprocessed messages; only leading indentation and trailing whitespace are cut |
| ConversationMemory.WithoutId | backend/api/models.py:20-25 | deleting a row keeps exactly the messages with another key |
| ConversationMemory.RowOf | backend/api/bot/Memory/LLM_Memory.py:20-23 | a user's row is the stored one, or the fresh row (empty summary, null pointer) `get_or_create` would insert |
| ConversationMemory.MemoryManager.constructor | backend/api/models.py:7-25 | both tables start empty and the invariant holds |
| ConversationMemory.MemoryManager.GetOrCreateMemoryState | backend/api/bot/Memory/LLM_Memory.py:20-23 | the user's row is returned, inserted fresh the first time; no other row changes |
| ConversationMemory.MemoryManager.AddMessage | backend/api/bot/Memory/LLM_Memory.py:25-37 | appends one message with the next key, the clock's time and the session id of `NewSessionId`, or fails with nothing stored when that id is null; the time order of the log is kept |
| ConversationMemory.MemoryManager.GetUnprocessedMessages | backend/api/bot/Memory/LLM_Memory.py:39-48 | returns `Unprocessed` from the user's (possibly new) row |
| ConversationMemory.MemoryManager.UpdateMemory | backend/api/bot/Memory/LLM_Memory.py:50-74 | the user's row becomes `Fold` of the old row and its summary is returned; when the summariser gives no text the save fails with `NullMemory` and the row stays as `get_or_create` left it; every pointer stays a message of its own user and every row keeps a summary |
| ConversationMemory.MemoryManager.GetChatHistory | backend/api/bot/Memory/LLM_Memory.py:76-80 | returns `ChatHistory`, ordered by time |
| ConversationMemory.MemoryManager.GetCurrentMemory | backend/api/bot/Memory/LLM_Memory.py:82-84 | returns the summary of the user's (possibly new) row |
| ConversationMemory.MemoryManager.EndSession | backend/api/bot/Memory/LLM_Memory.py:86-87 | performs the same fold as `update_memory`, failing in the same case |
| ConversationMemory.MemoryManager.FormatMemoryForPrompt | backend/api/bot/Memory/LLM_Memory.py:89-115 | returns `FormatMemory` of the row's summary and the unprocessed messages |
| ConversationMemory.MemoryManager.DeleteMessage | backend/api/models.py:20-25 | removes the row and nulls every pointer to it, so that user's next fold starts from their whole history |
| Dialogue.HandlerLine | backend/api/bot/utils.py:13-54 | "open conversation" iff fewer than five turns have passed, then the state's own prompt |
| Dialogue.PromptIsNotOpenConversation | backend/api/bot/utils.py:13-54 | no state's prompt is the open-conversation line |
| Dialogue.GreetingIgnoresClassifier | backend/api/bot/utils.py:63-64 | GREETING moves to FORMALITY without reading either classifier attribute |
| Dialogue.EmotionVerifierRouting | backend/api/bot/utils.py:75-84 | EVENT iff 'Yes' with 'Negative' or 'Antisocial'; ASK_EXERCISE iff 'Yes' with 'Positive'; FEELING_CORRECTION iff 'No'; otherwise no move |
| Dialogue.NoTransitionExactly | backend/api/bot/utils.py:56-151 | exactly END, and a decider whose outcome is unrecognised, make no transition |
| Dialogue.GreetingNeverReentered | backend/api/bot/utils.py:56-151 | no transition leads back to GREETING |
| Dialogue.AnswersToEnd | backend/api/bot/utils.py:89-147 | the number of answers equals the route length `DistanceToEnd` gives for the state |
| Dialogue.EndReachable | backend/api/bot/utils.py:56-151 | from every state some sequence of Yes/No answers reaches END |
| Dialogue.EndAbsorbing | backend/api/bot/utils.py:149-151 | whatever is answered at END, the machine stays there |
| Dialogue.StateMachine.constructor | backend/api/bot/utils.py:2-4 | starts in GREETING with turn 0 and neither classifier attribute present |
| Dialogue.StateMachine.Transition | backend/api/bot/utils.py:6-11 | sets the new state, resets the turn count, and sets emotion 'Positive' and response 'Yes' |
| Dialogue.StateMachine.StateHandler | backend/api/bot/utils.py:13-54 | the handler line of the current state and turn count |
| Dialogue.StateMachine.ExecuteState | backend/api/bot/utils.py:56-151 | moves to `Next` of the current state and outcomes when there is one (turn reset, defaults restored); otherwise only the capped turn count changes; answers "Done" exactly at END |
| Dialogue.StateMachine.SetEmotion | backend/api/bot/utils.py:153-154 | the emotion becomes the given one |
| Dialogue.StateMachine.SetResponse | backend/api/bot/utils.py:156-157 | the response becomes the given one |
| LinearDialogue.Index | main.py:50-75 | each state has its own chain position, END the last |
| LinearDialogue.IndexChainAt | main.py:50-75 | chain positions and states correspond one to one |
| LinearDialogue.Successor | main.py:50-73 | each non-END state moves to the next position of the chain |
| LinearDialogue.Step | main.py:42-75 | below five turns only the count rises; at five a non-END state moves to its successor with turn 0 |
| LinearDialogue.EndAbsorbing | main.py:74-75 | END never moves, and its turn count saturates at five |
| LinearDialogue.RunAt | main.py:42-75 | a fresh machine spends six calls in each state, in chain order |
| LinearDialogue.RunFromStart | main.py:42-75 | after k calls the machine is at chain position k / 6, turn k % 6 |
| LinearDialogue.VisitedOnce | main.py:42-75 | each state is occupied during one stretch of six consecutive calls and never again |
| LinearDialogue.StateMachine.constructor | main.py:2-4 | starts in GREETING with turn 0 |
| LinearDialogue.StateMachine.Transition | main.py:6-9 | sets the new state and resets the turn count |
| LinearDialogue.StateMachine.ExecuteState | main.py:42-75 | one call is one `Step` of the configuration |
| LinearDialogue.StateMachine.StateHandler | main.py:11-40 | "open conversation" iff fewer than five turns have passed, the state's own prompt afterwards |
| LinearDialogue.RunExample | main.py:77-80 | the driver loop ends, after exactly 72 calls |
| LinearDialogue.PromptIsNotOpenConversation | main.py:11-40 | no state's prompt is the open-conversation line |
| MemoryPrototype.SummarizeConversation | Memory/LLM_Memory.py:1-3 | the summariser the prototype calls is a stub that returns nothing, whatever it is given |
| MemoryPrototype.ActiveTranscriptEmpty | Memory/LLM_Memory.py:16-18 | the session text is empty iff the session holds no exchange |
| MemoryPrototype.UserMemory.constructor | Memory/LLM_Memory.py:6-10 | empty histories and the empty summary |
| MemoryPrototype.UserMemory.AddMessage | Memory/LLM_Memory.py:12-14 | the exchange is appended to both lists; the summary is unchanged |
| MemoryPrototype.UserMemory.UpdateSummary | Memory/LLM_Memory.py:16-18 | for any summariser, the summary becomes its answer on the session text and the old summary |
| MemoryPrototype.UserMemory.GetFullHistory | Memory/LLM_Memory.py:20-21 | returns the whole history |
| MemoryPrototype.UserMemory.GetSummary | Memory/LLM_Memory.py:23-24 | returns the summary |
| MemoryPrototype.UserMemory.ExitSession | Memory/LLM_Memory.py:26-29 | both lists are emptied before the summary update, so for any summariser the summary becomes its answer on the empty text |
| MemoryPrototype.MemoryManager.constructor | Memory/LLM_Memory.py:33-34 | no memories |
| MemoryPrototype.MemoryManager.GetUserMemory | Memory/LLM_Memory.py:36-39 | the stored memory of the id, or a new empty one stored under it; no other entry changes |
| MemoryPrototype.MemoryManager.AddUserMessage | Memory/LLM_Memory.py:41-43 | the exchange is appended to that user's lists; every other user's memory is untouched |
| MemoryPrototype.MemoryManager.GetFullHistory | Memory/LLM_Memory.py:45-47 | the user's history, empty for an unknown id (which then gets a memory) |
| MemoryPrototype.MemoryManager.GetSummary | Memory/LLM_Memory.py:49-51 | the user's summary, "" for an unknown id (which then gets a memory) |
| MemoryPrototype.ExampleUsage | Memory/LLM_Memory.py:54-77 | each of the two users sees exactly their own two exchanges, in order |
| ExerciseSuggestor.Where | backend/api/bot/RAG/llm_excercise_suggestor.py:36-45 | keeps exactly the entries whose number is (or is not) listed |
| ExerciseSuggestor.WhereAppend | backend/api/bot/RAG/llm_excercise_suggestor.py:36-45 | filtering a concatenation is filtering each part, so entries keep their catalogue order and multiplicity |
| ExerciseSuggestor.WhereOne | backend/api/bot/RAG/llm_excercise_suggestor.py:36-45 | a single entry is kept exactly when its number passes |
| ExerciseSuggestor.WhereAll | backend/api/bot/RAG/llm_excercise_suggestor.py:36-45 | when every entry passes, the list is kept whole and in order |
| ExerciseSuggestor.Available | backend/api/bot/RAG/llm_excercise_suggestor.py:35-52 | no done exercise is offered; the offer is the day list's not-done entries when there are any, else the catalogue's; it is empty iff everything (day list and catalogue) is done |
| ExerciseSuggestor.Shuffle | backend/api/bot/RAG/llm_excercise_suggestor.py:59 | the array is only reordered (same multiset) |
| ExerciseSuggestor.ParseCandidates | backend/api/bot/RAG/llm_excercise_suggestor.py:68-70 | one stripped, comma-free candidate per comma-separated piece of the reply |
| ExerciseSuggestor.ParseCandidatesJoin | backend/api/bot/RAG/llm_excercise_suggestor.py:68-70 | a reply listing stripped, comma-free numbers joined by ',' reads back as exactly those numbers |
| ExerciseSuggestor.ContentsOf | backend/api/bot/RAG/llm_excercise_suggestor.py:17-30 | at most one text per id |
| ExerciseSuggestor.GetExerciseContent | backend/api/bot/RAG/llm_excercise_suggestor.py:17-30 | the texts of the ids that have files, in order, missing files skipped |
| ExerciseSuggestor.ContentsOfComplete | backend/api/bot/RAG/llm_excercise_suggestor.py:17-30 | no text is lost iff every id has a file |
| ExerciseSuggestor.ContentsOfAligned | backend/api/bot/RAG/llm_excercise_suggestor.py:17-30 | when every id has a file, the i-th text is the i-th id's |
| ExerciseSuggestor.ContentsOfOne | backend/api/bot/RAG/llm_excercise_suggestor.py:110 | for one id the answer is its text or nothing |
| ExerciseSuggestor.FindNumber | backend/api/bot/RAG/llm_excercise_suggestor.py:88 | the position of the first entry with the number, `None` iff there is none |
| ExerciseSuggestor.Lookup | backend/api/bot/RAG/llm_excercise_suggestor.py:88 | the entry at the first position with the number, `None` iff there is none |
| ExerciseSuggestor.Field | backend/api/bot/RAG/llm_excercise_suggestor.py:92-96 | the metadata field, "" when the entry or the field is missing |
| ExerciseSuggestor.LookupSkips | backend/api/bot/RAG/llm_excercise_suggestor.py:88 | an entry with another number does not change the lookup |
| ExerciseSuggestor.WhereLookup | backend/api/bot/RAG/llm_excercise_suggestor.py:76-88 | looking a candidate up in the metadata kept for the candidates finds the same entry as in the whole catalogue |
| ExerciseSuggestor.BuildExerciseData | backend/api/bot/RAG/llm_excercise_suggestor.py:86-97 | one entry per candidate, in order: the text at the same position ("Content not available" past the end) and the first matching entry's fields |
| ExerciseSuggestor.OfferExercises | backend/api/bot/RAG/llm_excercise_suggestor.py:35-59 | the offer is a reordering of `Available`, with no done exercise |
| ExerciseSuggestor.AssembleExerciseData | backend/api/bot/RAG/llm_excercise_suggestor.py:68-97 | the candidates read back from the reply, and the data describing them from the catalogue and the files |
| ExerciseSuggestor.SuggestExercises | backend/api/bot/RAG/llm_excercise_suggestor.py:33-112 | the ranking model sees a reordering of the available exercises; the decider sees the data describing the parsed candidates; the result is the stripped choice and its text, or no text when it has no file |
| ExerciseSuggestor.DescribedContentAligned | backend/api/bot/RAG/llm_excercise_suggestor.py:86-97 | when every candidate has a file, each entry carries its own exercise's text |
| ExerciseSuggestor.MisalignedContent | backend/api/bot/RAG/llm_excercise_suggestor.py:86-97 | when the first of two candidates has no file, its entry carries the second's text and the second's entry says none is available |
| Recommendations.CreateRecommendations | backend/api/bot/gpt_recommendations.py:6-8 | three empty suggestions, whatever the message (even a null reply) and memory |
| Recommendations.Clean | backend/api/bot/gpt_recommendations.py:22 | no '.', no surrounding whitespace, and only characters of the piece |
| Recommendations.Suggestions | backend/api/bot/gpt_recommendations.py:19-23 | one to three suggestions, the cleaned first pieces between '/', each without '.', '/' or surrounding whitespace |
| Recommendations.PostProcessSuggestions | backend/api/bot/gpt_recommendations.py:19-23 | the loop and the slice compute `Suggestions` |
| Recommendations.CleanPadded | backend/api/bot/gpt_recommendations.py:22 | a plain suggestion padded with whitespace cleans back to itself |
| Recommendations.RequestedFormJoin | backend/api/bot/gpt_recommendations.py:12-13 | the requested "s1 / s2 / s3" form is the three padded suggestions joined by '/' |
| Recommendations.SuggestionsOfRequestedForm | backend/api/bot/gpt_recommendations.py:12-23 | an answer in the requested form yields exactly its three suggestions |
| Bots.LastEntries | backend/api/bot/placebo_bot.py:20 | `history[-n:]`: the last n entries, or all when there are fewer; at n = 0 the whole history, as Python's `h[-0:]` |
| Bots.HistoryOrEmpty | backend/api/bot/placebo_bot.py:25 | a missing history counts as empty |
| Bots.PlaceboMessages | backend/api/bot/placebo_bot.py:17-21 | the system prompt, the last six history entries, then the user message |
| Bots.SimpleMessages | backend/api/bot/simple_bot.py:19-22 | the system prompt, the whole history, then the user message |
| Bots.UpdatedHistory | backend/api/bot/placebo_bot.py:25-28 | the history extended by the user message and then the reply, a null reply kept as a null assistant content |
| Bots.PlaceboBotResponse | backend/api/bot/placebo_bot.py:7-32 | the model is asked once, on `PlaceboMessages`; its reply (possibly null), the three empty suggestions and `UpdatedHistory` are returned |
| Bots.SimpleBotResponse | backend/api/bot/simple_bot.py:13-32 | the model is asked once, on `SimpleMessages`; its reply (possibly null), the three empty suggestions and `UpdatedHistory` are returned |
| Bots.PlaceboWithoutHistory | backend/api/tests.py:91 | with no history the placebo bot sends two messages and, whatever the reply, the updated history has two entries |
| Bots.PlaceboTwoEntryHistory | backend/api/tests.py:112 | a two-entry history is sent whole, four messages in all |
| Bots.PlaceboAgreesOnShortHistory | backend/api/bot/placebo_bot.py:19-21 | up to six entries of history, the placebo bot sends what the simple bot would with the same prompt |
| Bots.PlaceboWindowSlides | backend/api/bot/placebo_bot.py:20 | over a longer history, one more exchange drops the window's two oldest entries and adds the exchange |

## Left out

- Printing, logging and the `print` of the demo scripts are not modelled.
- The calls to the OpenAI API are not modelled. Their replies are function parameters.
- Temperatures, model names and the full prompt texts of `suggest_exercises`, `update_memory` and `create_recommendations` are not modelled. The model only says which data each prompt is built from.
- Reading prompt files and exercise files is not modelled. The exercise files are a map from exercise number to text, and `simple_bot.py`'s loaded system prompt is a parameter.
- `random.shuffle` is modelled as the Fisher–Yates loop driven by a random-number parameter. The distribution is not modelled.
- The database clock (`auto_now_add`) is a parameter of `AddMessage`, required to move strictly forward. Equal timestamps are not modelled.
- Django model instances are values. Aliasing of an instance held across a save is not modelled.
- Users are identified by username. The `User` table and `on_delete=CASCADE` from users are not modelled.
- `ConversationMemory.MemoryManager.UpdateMemory`, `ConversationMemory.MemoryManager.FormatMemoryForPrompt`: `get_unprocessed_messages` calls `get_or_create` a second time. The model reuses the row fetched just before, because the second call finds that same row.
- `ExerciseSuggestor`: the `KeyError` a catalogue entry without an "Exercise Number" would raise is not modelled. Every entry has a number.
- `ExerciseSuggestor.SuggestExercises`: the prompts handed to the two models are modelled as the data they are built from (the shuffled offer, and `exercise_data`). Their text formatting, user memory and stage are left out.
- `MemoryPrototype.ExampleUsage`: the example's two `get_summary` prints are not modelled.
- `Dialogue.Prompt` and `LinearDialogue.Prompt`: that the prompts of distinct states differ is not proved.
- `Recommendations.PostProcessSuggestions`: this code is unreachable behind the early return at `gpt_recommendations.py:8`. It is modelled as what it would compute.
- `Bots.PlaceboBotResponse`: the `user` parameter is accepted and not used, as in the source.
- `ExerciseSuggestor.SuggestExercises`: a reply of `None` from the ranking or deciding model raises `AttributeError` at `.split(',')` or `.strip()` in the source. The model takes both replies as strings, so that error path is not modelled.
- `MemoryPrototype.UserMemory.GetFullHistory`: the source returns the live list, which later `add_message` calls extend. The model returns the list's value at the time of the call, so aliasing of the returned list is not modelled.

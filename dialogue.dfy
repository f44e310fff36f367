/**
 * The branching dialogue controller of backend/api/bot/utils.py.
 *
 * A `StateMachine` object holds the current state, a turn counter capped
 * at five, and the two classifier outcomes `emotion` and `response` that
 * route the decider states.  The two outcomes are attributes that Python
 * only creates inside `transition` (or through the setters); before that,
 * reading them would raise `AttributeError`.  They are `Option`s here,
 * `None` standing for "attribute not yet created".
 */
module Dialogue {
  import opened Wrappers

  /** The nineteen states of the protocol graph. */
  datatype State =
    | Greeting | Formality | Name | Feeling | EmotionVerifier | FeelingCorrection
    | Event | AskEventRecent | Exc10 | Additional | AskQuestion | InviteToProject
    | AskExercise | Suggestion | InviteToAttemptExc | Feedback
    | LikeAnotherExercise  // spelled LIKE_ANOTHER_EXERCSISE in the source
    | Thanks | End

  const Yes: string := "Yes"
  const No: string := "No"
  const Positive: string := "Positive"
  const Negative: string := "Negative"
  const Antisocial: string := "Antisocial"

  /** The turn count at which a state stops "open conversation" and shows its own prompt. */
  const LoopLimit: nat := 5

  /** The reply of `execute_state` once the protocol is over. */
  const Done: string := "Done"

  /** The states whose routing depends on a Yes/No `response`. */
  predicate IsYesNoState(s: State) {
    s in {Event, AskEventRecent, Exc10, Additional, AskQuestion, AskExercise,
          InviteToAttemptExc, LikeAnotherExercise}
  }

  /** The states that leave after one call whatever the classifier said. */
  predicate IsUnconditional(s: State) {
    s in {Greeting, Formality, Name, Feeling, FeelingCorrection, InviteToProject,
          Suggestion, Feedback, Thanks}
  }

  /**
   * The attributes that `execute_state` reads in state `s` exist: `response` in every
   * decider, and `emotion` in EMOTION_VERIFIER once the response is 'Yes'.
   */
  predicate AttributesReadable(s: State, emotion: Option<string>, response: Option<string>) {
    && ((IsYesNoState(s) || s == EmotionVerifier) ==> response.Some?)
    && (s == EmotionVerifier && response == Some(Yes) ==> emotion.Some?)
  }

  /** The fixed successor of an unconditional state. */
  function UnconditionalSuccessor(s: State): State
    requires IsUnconditional(s)
  {
    match s
    case Greeting => Formality
    case Formality => Name
    case Name => Feeling
    case Feeling => EmotionVerifier
    case FeelingCorrection => Event
    case InviteToProject => Suggestion
    case Suggestion => InviteToAttemptExc
    case Feedback => LikeAnotherExercise
    case Thanks => End
  }

  /** The successors of a Yes/No state, on 'Yes' and on 'No'. */
  function YesSuccessor(s: State): State
    requires IsYesNoState(s)
  {
    match s
    case Event => AskEventRecent
    case AskEventRecent => Additional
    case Exc10 => Additional
    case Additional => AskQuestion
    case AskQuestion => InviteToProject
    case AskExercise => Suggestion
    case InviteToAttemptExc => Feedback
    case LikeAnotherExercise => Suggestion
  }

  function NoSuccessor(s: State): State
    requires IsYesNoState(s)
  {
    match s
    case Event => Additional
    case AskEventRecent => Exc10
    case Exc10 => Additional
    case Additional => InviteToProject
    case AskQuestion => AskQuestion
    case AskExercise => Thanks
    case InviteToAttemptExc => Thanks
    case LikeAnotherExercise => Thanks
  }

  /**
   * The state `execute_state` transitions to from `s`, or `None` when it makes no
   * transition (END, and a decider whose classifier outcome is not recognised).
   */
  function Next(s: State, emotion: Option<string>, response: Option<string>): Option<State>
    requires AttributesReadable(s, emotion, response)
  {
    if IsUnconditional(s) then Some(UnconditionalSuccessor(s))
    else if s == EmotionVerifier then
      if response.value == Yes && emotion.value in {Negative, Antisocial} then Some(Event)
      else if response.value == Yes && emotion.value == Positive then Some(AskExercise)
      else if response.value == No then Some(FeelingCorrection)
      else None
    else if IsYesNoState(s) then
      if response.value == Yes then Some(YesSuccessor(s))
      else if response.value == No then Some(NoSuccessor(s))
      else None
    else None
  }

  /** The line `state_handler` returns while a state is still in open conversation. */
  const OpenConversation: string := "صحبت آزاد - Open-Ended Conversation"

  /** The fixed prompt of each state. */
  function Prompt(s: State): string {
    match s
    case Greeting => "سلام روزت بخیر"
    case Formality => "دوست داری با هم رسمی صحبت کنیم یا دوستانه؟"
    case Name => "اسمت چیه؟"
    case Feeling => "حالت چطوره؟"
    case EmotionVerifier => "آیا احساس ناراحتی داری؟"
    case FeelingCorrection => "احساست رو میتونی بهم بگی؟"
    case Event => "آیا اتفاق خاصی امروز افتاده که بخواهی درباره‌اش صحبت کنی؟"
    case AskEventRecent => "آیا این اتفاق به تازگی برایت رخ داده؟"
    case Exc10 => "آیا تمرین ۱۰ را برای خودت تاثیر گذار دونستی؟"
    case Additional => "آیا چیزی دیگه‌ای هست که بخواهی اضافه کنی؟"
    case AskQuestion => "از تو یک سوال دیگر می‌پرسم."
    case InviteToProject => "من تو را به دلبستگی به خود دعوت می‌کنم."
    case AskExercise => "آیا دوست داری تمرینی برای بهتر شدن حالت بشنوی؟"
    case Suggestion => "من این تمرین رو پیشنهاد می‌کنم که انجام بدی."
    case InviteToAttemptExc => "آیا می‌توانی این تمرین را انجام دهی؟"
    case Feedback => "آیا حالت بهتر شده؟"
    case LikeAnotherExercise => "آیا می‌خواهی یک تمرین دیگر به تو پیشنهاد کنم؟"
    case Thanks => "خیلی ممنون که صحبت کردی، امیدوارم بهت کمک کرده باشم."
    case End => "روز خوبی داشته باشی"
  }

  /** The handler line of a state with a given turn count (`state_handler`). */
  function HandlerLine(s: State, loopCount: nat): (line: string)
    ensures line == OpenConversation <==> loopCount < LoopLimit
    ensures loopCount >= LoopLimit ==> line == Prompt(s)
  {
    PromptIsNotOpenConversation(s);
    if loopCount < LoopLimit then OpenConversation else Prompt(s)
  }

  lemma PromptIsNotOpenConversation(s: State)
    ensures Prompt(s) != OpenConversation
  {
  }

  /** GREETING moves to FORMALITY without reading either classifier attribute. */
  lemma GreetingIgnoresClassifier(emotion: Option<string>, response: Option<string>)
    ensures AttributesReadable(Greeting, emotion, response)
    ensures Next(Greeting, emotion, response) == Some(Formality)
  {
  }

  /** EMOTION_VERIFIER routing, each target with the exact outcomes that lead to it. */
  lemma EmotionVerifierRouting(emotion: Option<string>, response: Option<string>)
    requires AttributesReadable(EmotionVerifier, emotion, response)
    ensures Next(EmotionVerifier, emotion, response) == Some(Event)
            <==> response == Some(Yes) && emotion.value in {Negative, Antisocial}
    ensures Next(EmotionVerifier, emotion, response) == Some(AskExercise)
            <==> response == Some(Yes) && emotion == Some(Positive)
    ensures Next(EmotionVerifier, emotion, response) == Some(FeelingCorrection)
            <==> response == Some(No)
    ensures Next(EmotionVerifier, emotion, response) == None
            <==> response != Some(No)
                 && (response == Some(Yes) ==> emotion.value !in {Negative, Antisocial, Positive})
  {
  }

  /** Exactly END, and a decider whose outcome it does not recognise, make no transition. */
  lemma NoTransitionExactly(s: State, emotion: Option<string>, response: Option<string>)
    requires AttributesReadable(s, emotion, response)
    ensures Next(s, emotion, response) == None
            <==> || s == End
                 || (IsYesNoState(s) && response.value != Yes && response.value != No)
                 || (s == EmotionVerifier && response.value != No
                     && (response.value == Yes ==> emotion.value !in {Negative, Antisocial, Positive}))
  {
  }

  /** No transition ever leads back to GREETING: it is only the initial state. */
  lemma GreetingNeverReentered(s: State, emotion: Option<string>, response: Option<string>)
    requires AttributesReadable(s, emotion, response)
    ensures Next(s, emotion, response) != Some(Greeting)
  {
  }

  /** The state after one `set_response(answer)` and `execute_state` with emotion 'Positive'. */
  function Answer(s: State, answer: string): State {
    match Next(s, Some(Positive), Some(answer))
    case Some(t) => t
    case None => s
  }

  /** The state after answering each of `answers` in turn. */
  function Converse(s: State, answers: seq<string>): State
    decreases |answers|
  {
    if answers == [] then s else Converse(Answer(s, answers[0]), answers[1..])
  }

  /** The number of transitions from a state to END along the route `AnswersToEnd` takes. */
  function DistanceToEnd(s: State): nat {
    match s
    case End => 0
    case Thanks => 1
    case AskExercise | InviteToAttemptExc | LikeAnotherExercise => 2
    case Feedback | Suggestion | EmotionVerifier => 3
    case InviteToProject | Feeling => 4
    case AskQuestion | Additional | Name => 5
    case Exc10 | AskEventRecent | Event | Formality => 6
    case FeelingCorrection | Greeting => 7
  }

  /** The answer that takes a state one step closer to END. */
  function AnswerTowardsEnd(s: State): string {
    if s in {AskQuestion, AskEventRecent, EmotionVerifier} then Yes else No
  }

  /** A sequence of answers that leads from `s` to END. */
  function AnswersToEnd(s: State): (answers: seq<string>)
    ensures |answers| == DistanceToEnd(s)
    decreases DistanceToEnd(s)
  {
    if s == End then [] else [AnswerTowardsEnd(s)] + AnswersToEnd(Answer(s, AnswerTowardsEnd(s)))
  }

  /** END can be reached from every state: no state other than END is a trap. */
  lemma {:induction false} EndReachable(s: State)
    ensures Converse(s, AnswersToEnd(s)) == End
    decreases DistanceToEnd(s)
  {
    if s != End {
      var t := Answer(s, AnswerTowardsEnd(s));
      EndReachable(t);
      assert AnswersToEnd(s)[1..] == AnswersToEnd(t);
    }
  }

  /** END is absorbing: whatever is answered there, the conversation stays at END. */
  lemma {:induction false} EndAbsorbing(answers: seq<string>)
    ensures Converse(End, answers) == End
    decreases |answers|
  {
    if answers != [] {
      EndAbsorbing(answers[1..]);
    }
  }

  class StateMachine {
    var state: State
    var loopCount: nat
    var emotion: Option<string>
    var response: Option<string>

    /** The object invariant: the counter is capped, and outside GREETING both attributes exist. */
    ghost predicate Valid()
      reads this
    {
      && loopCount <= LoopLimit
      && (state != Greeting ==> emotion.Some? && response.Some?)
    }

    constructor ()
      ensures Valid()
      ensures state == Greeting && loopCount == 0 && emotion == None && response == None
    {
      state := Greeting;
      loopCount := 0;
      emotion := None;
      response := None;
    }

    method Transition(newState: State)
      modifies this
      ensures Valid()
      ensures state == newState && loopCount == 0
      ensures emotion == Some(Positive) && response == Some(Yes)
    {
      state := newState;
      emotion := Some(Positive);
      response := Some(Yes);
      loopCount := 0;
    }

    function StateHandler(): (line: string)
      reads this
      ensures line == HandlerLine(state, loopCount)
    {
      HandlerLine(state, loopCount)
    }

    method ExecuteState() returns (r: Option<string>)
      requires Valid()
      modifies this
      ensures Valid()
      ensures r == if old(state) == End then Some(Done) else None
      ensures match Next(old(state), old(emotion), old(response))
              case Some(t) =>
                && state == t && loopCount == 0
                && emotion == Some(Positive) && response == Some(Yes)
              case None =>
                && state == old(state)
                && loopCount == (if old(loopCount) < LoopLimit then old(loopCount) + 1 else old(loopCount))
                && emotion == old(emotion) && response == old(response)
    {
      r := None;
      if loopCount < LoopLimit {
        loopCount := loopCount + 1;
      }
      match state
      case Greeting => Transition(Formality);
      case Formality => Transition(Name);
      case Name => Transition(Feeling);
      case Feeling => Transition(EmotionVerifier);
      case EmotionVerifier =>
        if response.value == Yes {
          if emotion.value == Negative {
            Transition(Event);
            return;
          }
          if emotion.value == Antisocial {
            Transition(Event);
            return;
          }
          if emotion.value == Positive {
            Transition(AskExercise);
            return;
          }
        }
        if response.value == No {
          Transition(FeelingCorrection);
        }
      case FeelingCorrection => Transition(Event);
      case Event =>
        if response.value == Yes {
          Transition(AskEventRecent);
        } else if response.value == No {
          Transition(Additional);
        }
      case AskEventRecent =>
        if response.value == Yes {
          Transition(Additional);
        } else if response.value == No {
          Transition(Exc10);
        }
      case Exc10 =>
        if response.value == Yes {
          Transition(Additional);
        } else if response.value == No {
          Transition(Additional);
        }
      case Additional =>
        if response.value == Yes {
          Transition(AskQuestion);
        } else if response.value == No {
          Transition(InviteToProject);
        }
      case AskQuestion =>
        if response.value == Yes {
          Transition(InviteToProject);
        } else if response.value == No {
          Transition(AskQuestion);
        }
      case AskExercise =>
        if response.value == Yes {
          Transition(Suggestion);
        } else if response.value == No {
          Transition(Thanks);
        }
      case InviteToProject => Transition(Suggestion);
      case Suggestion => Transition(InviteToAttemptExc);
      case InviteToAttemptExc =>
        if response.value == Yes {
          Transition(Feedback);
        } else if response.value == No {
          Transition(Thanks);
        }
      case Feedback => Transition(LikeAnotherExercise);
      case LikeAnotherExercise =>
        if response.value == Yes {
          Transition(Suggestion);
        } else if response.value == No {
          Transition(Thanks);
        }
      case Thanks => Transition(End);
      case End => r := Some(Done);
    }

    method SetEmotion(e: string)
      requires Valid()
      modifies this`emotion
      ensures Valid() && emotion == Some(e)
    {
      emotion := Some(e);
    }

    method SetResponse(resp: string)
      requires Valid()
      modifies this`response
      ensures Valid() && response == Some(resp)
    {
      response := Some(resp);
    }
  }
}

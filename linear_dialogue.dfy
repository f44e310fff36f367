/**
 * The linear prototype controller of main.py: thirteen states in a fixed
 * chain, each held for five "open conversation" turns before it moves on,
 * and the driver loop at the bottom of the file that runs the machine from
 * GREETING until it reaches END.
 */
module LinearDialogue {

  /** The thirteen states of the chain, in order. */
  datatype State =
    | Greeting | Formality | Name | Feeling | EmotionVerifier | FeelingCorrection
    | Event | Exc10 | Additional
    | Suggestoin  // spelled SUGGESTOIN in the source
    | Feedback | Thanks | End

  const LoopLimit: nat := 5

  /** The number of transitions along the chain, from GREETING to END. */
  const ChainLength: nat := 12

  /** The position of a state in the chain. */
  function Index(s: State): (i: nat)
    ensures i <= ChainLength
    ensures i == ChainLength <==> s == End
  {
    match s
    case Greeting => 0
    case Formality => 1
    case Name => 2
    case Feeling => 3
    case EmotionVerifier => 4
    case FeelingCorrection => 5
    case Event => 6
    case Exc10 => 7
    case Additional => 8
    case Suggestoin => 9
    case Feedback => 10
    case Thanks => 11
    case End => 12
  }

  /** The state at a position of the chain. */
  function ChainAt(i: nat): State
    requires i <= ChainLength
  {
    [Greeting, Formality, Name, Feeling, EmotionVerifier, FeelingCorrection,
     Event, Exc10, Additional, Suggestoin, Feedback, Thanks, End][i]
  }

  /** `Index` and `ChainAt` are inverse: each state has exactly one position. */
  lemma IndexChainAt(s: State, i: nat)
    requires i <= ChainLength
    ensures ChainAt(Index(s)) == s
    ensures Index(ChainAt(i)) == i
  {
  }

  /** The state `execute_state` moves a non-END state to once its turns are used up. */
  function Successor(s: State): (t: State)
    requires s != End
    ensures Index(t) == Index(s) + 1
  {
    match s
    case Greeting => Formality
    case Formality => Name
    case Name => Feeling
    case Feeling => EmotionVerifier
    case EmotionVerifier => FeelingCorrection
    case FeelingCorrection => Event
    case Event => Exc10
    case Exc10 => Additional
    case Additional => Suggestoin
    case Suggestoin => Feedback
    case Feedback => Thanks
    case Thanks => End
  }

  /** The machine's observable state: the current state and its turn count. */
  datatype Config = Config(state: State, loopCount: nat)

  /** One call of `execute_state`. */
  function Step(c: Config): (d: Config)
    requires c.loopCount <= LoopLimit
    ensures d.loopCount <= LoopLimit
    ensures c.loopCount < LoopLimit ==> d == Config(c.state, c.loopCount + 1)
    ensures c.loopCount == LoopLimit && c.state != End ==> d == Config(Successor(c.state), 0)
  {
    if c.loopCount < LoopLimit then Config(c.state, c.loopCount + 1)
    else if c.state == End then c
    else Config(Successor(c.state), 0)
  }

  /** END is absorbing, and its turn count saturates at the limit. */
  lemma EndAbsorbing(c: Config)
    requires c.state == End && c.loopCount <= LoopLimit
    ensures Step(c).state == End
    ensures Step(c).loopCount == if c.loopCount < LoopLimit then c.loopCount + 1 else LoopLimit
  {
  }

  /** The configuration after `k` calls from a fresh machine. */
  function Run(k: nat): (c: Config)
    ensures c.loopCount <= LoopLimit
  {
    if k == 0 then Config(Greeting, 0) else Step(Run(k - 1))
  }

  /** Six calls per state: `r` calls into its stay at chain position `q`, the machine is there at turn `r`. */
  lemma {:induction false} RunAt(q: nat, r: nat)
    requires (q < ChainLength && r <= LoopLimit) || (q == ChainLength && r == 0)
    ensures Run(6 * q + r) == Config(ChainAt(q), r)
    decreases 6 * q + r
  {
    if r > 0 {
      RunAt(q, r - 1);
    } else if q > 0 {
      RunAt(q - 1, LoopLimit);
      var s := ChainAt(q - 1);
      IndexChainAt(s, q - 1);
      IndexChainAt(Successor(s), q);
    }
  }

  /** After `k` calls from a fresh machine it is at chain position `k / 6`, turn `k % 6`. */
  lemma RunFromStart(k: nat)
    requires k <= 6 * ChainLength
    ensures Run(k) == Config(ChainAt(k / 6), k % 6)
  {
    RunAt(k / 6, k % 6);
  }

  /** Every state is occupied during one contiguous stretch of six calls, and never again. */
  lemma VisitedOnce(s: State, k: nat)
    requires k < 6 * ChainLength
    ensures Run(k).state == s <==> 6 * Index(s) <= k < 6 * Index(s) + 6
  {
    RunFromStart(k);
    IndexChainAt(s, k / 6);
    if Run(k).state == s {
      assert Index(s) == k / 6;
    }
  }

  class StateMachine {
    var state: State
    var loopCount: nat

    ghost predicate Valid()
      reads this
    {
      loopCount <= LoopLimit
    }

    function Current(): Config
      reads this
    {
      Config(state, loopCount)
    }

    constructor ()
      ensures Valid() && state == Greeting && loopCount == 0
    {
      state := Greeting;
      loopCount := 0;
    }

    method Transition(newState: State)
      modifies this
      ensures Valid() && state == newState && loopCount == 0
    {
      state := newState;
      loopCount := 0;
    }

    method ExecuteState()
      requires Valid()
      modifies this
      ensures Valid()
      ensures Current() == Step(old(Current()))
    {
      if loopCount < LoopLimit {
        loopCount := loopCount + 1;
        return;
      }
      match state
      case Greeting => Transition(Formality);
      case Formality => Transition(Name);
      case Name => Transition(Feeling);
      case Feeling => Transition(EmotionVerifier);
      case EmotionVerifier => Transition(FeelingCorrection);
      case FeelingCorrection => Transition(Event);
      case Event => Transition(Exc10);
      case Exc10 => Transition(Additional);
      case Additional => Transition(Suggestoin);
      case Suggestoin => Transition(Feedback);
      case Feedback => Transition(Thanks);
      case Thanks => Transition(End);
      case End =>
    }

    function StateHandler(): (line: string)
      reads this
      ensures line == OpenConversation <==> loopCount < LoopLimit
      ensures loopCount >= LoopLimit ==> line == Prompt(state)
    {
      PromptIsNotOpenConversation(state);
      if loopCount < LoopLimit then OpenConversation else Prompt(state)
    }
  }

  /** The script at the bottom of main.py: run a fresh machine until it reaches END. */
  method RunExample() returns (calls: nat)
    ensures calls == 6 * ChainLength
  {
    var machine := new StateMachine();
    calls := 0;
    while machine.state != End
      invariant machine.Valid()
      invariant calls <= 6 * ChainLength
      invariant machine.Current() == Run(calls)
      decreases 6 * ChainLength - calls
    {
      RunFromStart(calls);
      if calls == 6 * ChainLength {
        IndexChainAt(End, ChainLength);
      }
      machine.ExecuteState();
      calls := calls + 1;
    }
    if calls < 6 * ChainLength {
      RunFromStart(calls);
      assert Index(ChainAt(calls / 6)) == calls / 6 by { IndexChainAt(End, calls / 6); }
    }
  }

  const OpenConversation: string := "صحبت آزاد - Open-Ended Conversation"

  function Prompt(s: State): string {
    match s
    case Greeting => "سلام روزت بخیر"
    case Formality => "دوست داری با هم رسمی صحبت کنیم یا دوستانه؟"
    case Name => "اسمت چیه؟"
    case Feeling => "حالت چطوره؟"
    case EmotionVerifier => "آیا احساس ناراحتی داری؟"
    case FeelingCorrection => "احساست رو میتونی بهم بگی؟"
    case Event => "آیا اتفاق خاصی امروز افتاده که بخواهی درباره‌اش صحبت کنی؟"
    case Exc10 => "چه چیزی به نظرت میتونه به بهتر شدن حالت کمک کنه؟"
    case Additional => "آیا چیزی دیگه‌ای هست که بخواهی اضافه کنی؟"
    case Suggestoin => "آیا می‌خواهی پیشنهاداتی برای بهتر شدن حالت بشنوی؟"
    case Feedback => "آیا حالت بهتر شده؟"
    case Thanks => "خیلی ممنون که صحبت کردی، امیدوارم بهت کمک کرده باشم."
    case End => "روز خوبی داشته باشی"
  }

  lemma PromptIsNotOpenConversation(s: State)
    ensures Prompt(s) != OpenConversation
  {
  }
}

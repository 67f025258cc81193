/** The onboarding and tutoring dialogue of main.py as a value-level state
    machine: the session record, the message-quota guard around every backend
    call, the stage dispatch run on each chat input, and the restart. The
    `Session` class runs the same dispatch imperatively and is proved against it. */
module Dialogue {
  import opened Optional
  import opened Strings
  import opened Chat

  datatype Stage = Welcome | AskInfo | ChooseSkill | AskLevel | GeneratePath | InUnit | PathComplete

  /** One unit of the learning path: its title, objective and welcome line. */
  datatype Unit = Unit(title: string, objective: string, welcome: string)

  /** The session keys the dialogue reads and writes. */
  datatype State = State(
    chatHistory: seq<Message>,
    userInfo: map<string, string>,
    skills: seq<string>,
    selectedSkill: Option<string>,
    skillLevel: Option<string>,
    learningPath: seq<Unit>,
    currentUnit: int,
    stage: Stage,
    aiError: string,
    messagesCount: int,
    maxFreeMessages: int)

  const PromptEngineering: string := "Prompt Engineering"
  const Skills: seq<string> := [PromptEngineering]
  const MaxFreeMessages: int := 50
  const LimitReached: string := "Message limit reached"
  const PassMarker: string := "[status:pass]"
  const AffirmativeWords: seq<string> := ["yes", "sure", "okay", "want", "would like"]

  /** The `defaults` table: the state of a fresh session. */
  function Initial(): State
  {
    State([], map[], Skills, None, None, [], 0, Welcome, "", 0, MaxFreeMessages)
  }

  /** The number of units of the predefined path. */
  const PathLength: int := 5

  /** The predefined five-unit path stored at the `generate_path` stage. Its
      texts (like the placeholders below) are written as concatenations of
      short literals, which the verifier handles far more cheaply than one
      long literal; the values are the program's strings. */
  function LearningPath(): (p: seq<Unit>)
    ensures |p| == PathLength
  {
    [IntroductionUnit(), WritingUnit(), ContextUnit(), AdvancedUnit(), ApplicationsUnit()]
  }

  function IntroductionUnit(): Unit
  {
    Unit("Introduction " + "to Prompt " + "Engineering",
         "Understanding " + "the " + "fundamentals " + "of prompt " + "engineering " + "and its " + "importance",
         "Welcome to " + "your prompt " + "engineering " + "learning " + "journey! " + "We'll start " + "with the " + "basics.")
  }

  function WritingUnit(): Unit
  {
    Unit("Writing " + "Effective " + "Prompts",
         "Learn " + "techniques " + "for writing " + "clear and " + "specific " + "prompts",
         "Now we'll " + "learn how " + "to write " + "prompts " + "that get " + "the results " + "you want.")
  }

  function ContextUnit(): Unit
  {
    Unit("Using " + "Context in " + "Prompts",
         "Master the " + "use of " + "context to " + "improve " + "response " + "quality",
         "We'll dive " + "deep into " + "how to use " + "context to " + "make your " + "prompts " + "more " + "accurate.")
  }

  function AdvancedUnit(): Unit
  {
    Unit("Advanced " + "Prompt " + "Engineering " + "Techniques",
         "Learn " + "advanced " + "techniques " + "like Chain " + "of Thought",
         "Time to " + "learn the " + "advanced " + "techniques " + "that " + "experts use.")
  }

  function ApplicationsUnit(): Unit
  {
    Unit("Practical " + "Applications " + "and Projects",
         "Apply what " + "you've " + "learned to " + "real-world " + "projects",
         "We'll " + "conclude by " + "applying " + "everything " + "you've " + "learned to " + "practical " + "projects.")
  }

  /** The instruction each backend call carries as its trailing system message. */
  datatype Instruction =
    | Greet
    | AskEmail(name: string)
    | AskBirth
    | OfferSkill
    | AskExperience
    | Decline
    | WelcomeUnit(unit: Unit)
    | TutorUnit(unit: Unit)
    | NextUnit(unit: Unit)
    | CongratulateAll

  /** Tags standing in for the natural-language instruction templates; each
      carries the template's parameters (the name given, the unit's fields). */
  function InstructionText(i: Instruction): string
  {
    match i
    case Greet => "greet"
    case AskEmail(name) => "ask-email:" + name
    case AskBirth => "ask-birth"
    case OfferSkill => "offer-skill"
    case AskExperience => "ask-experience"
    case Decline => "decline"
    case WelcomeUnit(u) => "welcome-unit:" + u.title + ":" + u.welcome
    case TutorUnit(u) => "tutor:" + u.title + ":" + u.objective
    case NextUnit(u) => "next-unit:" + u.title + ":" + u.welcome
    case CongratulateAll => "congratulate"
  }

  function UserMessage(text: string): Message { Message(User, text) }
  function AssistantMessage(text: string): Message { Message(Assistant, text) }
  function SystemMessage(text: string): Message { Message(System, text) }

  /** Python truthiness of a reply: present and non-empty. */
  predicate Truthy(r: Option<string>)
  {
    r.Some? && r.value != ""
  }

  /** The message list `generate_ai_response` hands to the backend adapter: a
      copy of the history, the user message when one is given, and the instruction. */
  function Prompt(history: seq<Message>, system: string, userInput: string): seq<Message>
  {
    history + (if userInput != "" then [UserMessage(userInput)] else []) + [SystemMessage(system)]
  }

  /** The transcript text a call with this history, instruction and user input sends. */
  function Sent(history: seq<Message>, i: Instruction, userInput: string): string
  {
    Transcript(Prompt(history, InstructionText(i), userInput))
  }

  /** What one call of `generate_ai_response` yields: the session afterwards, the reply, the error text. */
  datatype Response = Response(state: State, reply: Option<string>, error: string)

  /** `check_message_limit`: whether another backend call is allowed. */
  predicate WithinLimit(s: State)
  {
    s.messagesCount < s.maxFreeMessages
  }

  /** `generate_ai_response`: refuse at the quota, otherwise ask the backend and
      count a non-empty reply. */
  function Generate(s: State, system: string, userInput: string, backend: Backend): Response
  {
    if !WithinLimit(s) then Response(s, None, LimitReached)
    else
      var r := ChatResult(Prompt(s.chatHistory, system, userInput), backend);
      Response(s.(messagesCount := if Truthy(r.0) then s.messagesCount + 1 else s.messagesCount), r.0, r.1)
  }

  /** The caller's `if response: ... elif error: ...`: a reply is appended and
      moves the dialogue to `next`; otherwise a non-empty error is recorded. */
  function Answer(g: Response, next: Stage): State
  {
    if Truthy(g.reply) then
      g.state.(chatHistory := g.state.chatHistory + [AssistantMessage(g.reply.value)], stage := next)
    else if g.error != "" then g.state.(aiError := g.error)
    else g.state
  }

  /** A follow-up call whose reply, if any, is appended and whose error is dropped. */
  function FollowUp(g: Response): State
  {
    if Truthy(g.reply) then g.state.(chatHistory := g.state.chatHistory + [AssistantMessage(g.reply.value)])
    else g.state
  }

  /** `any(word in text.lower() for word in [...])`. */
  function AnyOccurs(text: string, words: seq<string>): (r: bool)
    ensures r <==> exists k :: 0 <= k < |words| && Contains(text, words[k])
  {
    if words == [] then false
    else Contains(text, words[0]) || AnyOccurs(text, words[1..])
  }

  /** The confirmation test of the `ask_level` stage. */
  predicate IsAffirmative(input: string)
  {
    AnyOccurs(Lower(input), AffirmativeWords)
  }

  /** The dispatch needs the current unit to exist while in `in_unit`
      (the lookup `learning_path[current_unit]` would fail otherwise). */
  predicate Indexable(s: State)
  {
    s.stage == InUnit ==> 0 <= s.currentUnit < |s.learningPath|
  }

  /** Recording one answer of the onboarding: the stripped profile field and the user message. */
  function Record(s: State, key: string, input: string): State
  {
    s.(userInfo := s.userInfo[key := Strip(input)], chatHistory := s.chatHistory + [UserMessage(input)])
  }

  /** The `welcome` stage: a greeting first when the history is empty, then the name. */
  function SubmitName(s: State, input: string, backend: Backend): State
  {
    var s1 := if s.chatHistory == [] then Answer(Generate(s, InstructionText(Greet), "", backend), s.stage) else s;
    Answer(Generate(Record(s1, "name", input), InstructionText(AskEmail(input)), "", backend), AskInfo)
  }

  /** The `ask_level` stage: confirm the only skill, or decline back to `welcome`. */
  function Confirm(s: State, input: string, backend: Backend): State
  {
    var s1 := s.(chatHistory := s.chatHistory + [UserMessage(input)]);
    if IsAffirmative(input) then
      Answer(Generate(s1.(selectedSkill := Some(PromptEngineering)), InstructionText(AskExperience), "", backend), GeneratePath)
    else
      Answer(Generate(s1, InstructionText(Decline), "", backend), Welcome)
  }

  /** The updates of the `generate_path` stage before its call: the stripped
      level, the user message, the path given, its first unit. */
  function EnterPath(s: State, input: string, path: seq<Unit>): State
  {
    s.(skillLevel := Some(Strip(input)), chatHistory := s.chatHistory + [UserMessage(input)],
       learningPath := path, currentUnit := 0, stage := InUnit)
  }

  /** The `generate_path` stage: enter the path and welcome the user to its first unit. */
  function StartPath(s: State, input: string, backend: Backend): State
  {
    var s1 := EnterPath(s, input, LearningPath());
    Answer(Generate(s1, InstructionText(WelcomeUnit(s1.learningPath[0])), "", backend), InUnit)
  }

  /** The `in_unit` stage: tutor the current unit and advance on the pass marker. */
  function Tutor(s: State, input: string, backend: Backend): State
    requires 0 <= s.currentUnit < |s.learningPath|
  {
    var unit := s.learningPath[s.currentUnit];
    var s1 := s.(chatHistory := s.chatHistory + [UserMessage(input)]);
    var g := Generate(s1, InstructionText(TutorUnit(unit)), input, backend);
    var s2 := Answer(g, InUnit);
    if Truthy(g.reply) && Contains(g.reply.value, PassMarker) then
      FollowUp(Generate(Advanced(s2), InstructionText(FollowInstruction(s2)), "", backend))
    else s2
  }

  /** The session before the follow-up call of a passed unit: the next unit,
      or the completed path at the last unit. */
  function Advanced(s2: State): State
  {
    if s2.currentUnit + 1 < |s2.learningPath| then s2.(currentUnit := s2.currentUnit + 1)
    else s2.(stage := PathComplete)
  }

  /** The follow-up instruction of a passed unit: introduce the next unit, or congratulate. */
  function FollowInstruction(s2: State): Instruction
    requires 0 <= s2.currentUnit
  {
    if s2.currentUnit + 1 < |s2.learningPath| then NextUnit(s2.learningPath[s2.currentUnit + 1])
    else CongratulateAll
  }

  /** One chat input. Empty input, and any input at `path_complete`, is ignored. */
  function Step(s: State, input: string, backend: Backend): State
    requires Indexable(s)
  {
    if input == "" || s.stage == PathComplete then s
    else match s.stage
      case Welcome => SubmitName(s, input, backend)
      case AskInfo => Answer(Generate(Record(s, "email", input), InstructionText(AskBirth), "", backend), ChooseSkill)
      case ChooseSkill => Answer(Generate(Record(s, "birth", input), InstructionText(OfferSkill), "", backend), AskLevel)
      case AskLevel => Confirm(s, input, backend)
      case GeneratePath => StartPath(s, input, backend)
      case InUnit => Tutor(s, input, backend)
  }

  /** "Start Again": the nine listed keys take their `defaults` values. */
  function Restarted(s: State): State
  {
    var d := Initial();
    s.(chatHistory := d.chatHistory, userInfo := d.userInfo, selectedSkill := d.selectedSkill,
       skillLevel := d.skillLevel, learningPath := d.learningPath, currentUnit := d.currentUnit,
       stage := d.stage, aiError := d.aiError, messagesCount := d.messagesCount)
  }

  /** What every reachable session satisfies. */
  predicate Inv(s: State)
  {
    && 0 <= s.messagesCount <= s.maxFreeMessages
    && (s.stage == InUnit || s.stage == PathComplete ==>
          |s.learningPath| == PathLength && 0 <= s.currentUnit < |s.learningPath|
          && s.selectedSkill == Some(PromptEngineering))
    && (s.stage == PathComplete ==> s.currentUnit == |s.learningPath| - 1)
    && (s.stage == GeneratePath ==> s.selectedSkill == Some(PromptEngineering))
    && (s.stage != InUnit && s.stage != PathComplete ==> s.learningPath == [] && s.currentUnit == 0)
  }

  /** In the unit stages the stored path is the predefined one. */
  predicate HoldsPath(s: State)
  {
    s.stage == InUnit || s.stage == PathComplete ==> s.learningPath == LearningPath()
  }

  /** The outcome of one call as its caller sees it: a non-empty reply, or none
      together with the error text (empty when the reply was merely empty). */
  datatype Verdict = Replied(reply: string) | Refused(error: string)

  function VerdictOf(count: int, limit: int, outcome: Outcome): Verdict
  {
    if count >= limit then Refused(LimitReached)
    else match outcome
      case Generated(raw) => if CleanReply(raw) != "" then Replied(CleanReply(raw)) else Refused("")
      case Failed(e) => Refused(e)
  }

  /** The verdict of the call `Generate(s, InstructionText(i), userInput, ...)`
      would make, read off the backend directly. */
  function VerdictFor(s: State, i: Instruction, userInput: string, backend: Backend): Verdict
  {
    VerdictOf(s.messagesCount, s.maxFreeMessages, backend(Sent(s.chatHistory, i, userInput)))
  }

  /** The rendered status of unit `i` in the learning-path panel. */
  datatype Status = Completed | Current | Locked

  function UnitStatus(i: int, currentUnit: int): Status
  {
    if i < currentUnit then Completed
    else if i == currentUnit then Current
    else Locked
  }

  /** The statuses of the first `n` units, in order. */
  function Statuses(n: nat, currentUnit: int): seq<Status>
  {
    seq(n, i => UnitStatus(i, currentUnit))
  }

  /** How many entries of `ss` are `x`. */
  function CountOf(ss: seq<Status>, x: Status): nat
  {
    multiset(ss)[x]
  }

  /** The panel with the completed path shown as completed (see the README's
      findings): a unit is completed when the path is or when it comes before
      the current one, and current only at the current index of an unfinished
      path; read in order, the panel is completed units, at most one current
      unit, then locked ones. */
  function DisplayStatuses(s: State): (r: seq<Status>)
    ensures |r| == |s.learningPath|
    ensures forall i :: 0 <= i < |r| ==>
              (r[i] == Completed <==> s.stage == PathComplete || i < s.currentUnit)
              && (r[i] == Current <==> s.stage != PathComplete && i == s.currentUnit)
    ensures forall i, j :: 0 <= i < j < |r| && r[j] == Completed ==> r[i] == Completed
    ensures forall i, j :: 0 <= i < j < |r| && r[i] == Locked ==> r[j] == Locked
    ensures forall i, j :: 0 <= i < j < |r| && r[i] == Current ==> r[j] != Current
  {
    if s.stage == PathComplete then seq(|s.learningPath|, _ => Completed)
    else Statuses(|s.learningPath|, s.currentUnit)
  }

  /** The `input_placeholders` table. */
  function Placeholder(stage: Stage): (p: string)
    ensures p == "" <==> stage == PathComplete
  {
    match stage
    case Welcome => "Enter your name or " + "what you'd like me to " + "call you..."
    case AskInfo => "Enter your email " + "address..."
    case ChooseSkill => "Enter your birth date " + "(example: " + "1990-01-01)..."
    case AskLevel => "Do you want to learn " + "prompt engineering? " + "(yes/no)..."
    case GeneratePath => "Describe your current " + "experience in this " + "field..."
    case InUnit => "Ask or answer through " + "chat..."
    case PathComplete => ""
  }
}

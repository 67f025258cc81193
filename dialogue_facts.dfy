/** Properties of the dialogue: the quota, the transition made by each stage for
    each backend outcome, the bounds kept on the current unit, the restart and
    the learning-path panel. */
module DialogueFacts {
  import opened Optional
  import opened Strings
  import opened Chat
  import opened Dialogue

  /** The state after one call whose caller-side verdict is `v`: a reply is
      appended, counted and moves to `next`; a refusal records its error, if any. */
  function Settle(s: State, v: Verdict, next: Stage): State
  {
    match v
    case Replied(r) =>
      s.(chatHistory := s.chatHistory + [AssistantMessage(r)], stage := next, messagesCount := s.messagesCount + 1)
    case Refused(e) => if e == "" then s else s.(aiError := e)
  }

  /** A follow-up call (whose error is ignored): a reply is appended and counted. */
  function Follow(s: State, v: Verdict): State
  {
    match v
    case Replied(r) => s.(chatHistory := s.chatHistory + [AssistantMessage(r)], messagesCount := s.messagesCount + 1)
    case Refused(_) => s
  }

  /** What a settled call changes: on a reply the history gains the reply, the
      stage moves on and the count rises by one; on a refusal only a non-empty
      error is recorded. Nothing else changes. */
  lemma SettleFacts(a: State, v: Verdict, next: Stage)
    ensures var t := Settle(a, v, next);
            && t.userInfo == a.userInfo && t.skills == a.skills
            && t.selectedSkill == a.selectedSkill && t.skillLevel == a.skillLevel
            && t.learningPath == a.learningPath && t.currentUnit == a.currentUnit
            && t.maxFreeMessages == a.maxFreeMessages
            && (v.Replied? ==> t.stage == next && t.messagesCount == a.messagesCount + 1
                               && t.chatHistory == a.chatHistory + [AssistantMessage(v.reply)] && t.aiError == a.aiError)
            && (v.Refused? ==> t.stage == a.stage && t.messagesCount == a.messagesCount
                               && t.chatHistory == a.chatHistory
                               && t.aiError == (if v.error == "" then a.aiError else v.error))
  {
  }

  // ----- the quota -----

  /** At the quota a call asks nothing, changes nothing and reports the limit;
      below it the count rises by one exactly when the reply is non-empty. */
  lemma GenerateQuota(s: State, system: string, userInput: string, backend: Backend)
    ensures !WithinLimit(s) ==>
              Generate(s, system, userInput, backend) == Response(s, None, LimitReached)
              && forall other: Backend :: Generate(s, system, userInput, other) == Generate(s, system, userInput, backend)
    ensures WithinLimit(s) ==>
              var g := Generate(s, system, userInput, backend);
              && g.state == s.(messagesCount := g.state.messagesCount)
              && (g.state.messagesCount == s.messagesCount + 1 <==> Truthy(g.reply))
              && (g.state.messagesCount == s.messagesCount || g.state.messagesCount == s.messagesCount + 1)
              && g.state.messagesCount <= s.maxFreeMessages
  {
  }

  /** The reply and error of a call, read off the backend's outcome for the transcript sent. */
  lemma GenerateVerdict(s: State, i: Instruction, userInput: string, backend: Backend)
    ensures var g := Generate(s, InstructionText(i), userInput, backend);
            match VerdictFor(s, i, userInput, backend)
            case Replied(r) => g == Response(s.(messagesCount := s.messagesCount + 1), Some(r), "")
            case Refused(e) => g.state == s && !Truthy(g.reply) && g.error == e
  {
  }

  /** A follow-up call is `Follow` of its verdict. */
  lemma FollowUpFollows(s: State, i: Instruction, userInput: string, backend: Backend)
    ensures FollowUp(Generate(s, InstructionText(i), userInput, backend)) == Follow(s, VerdictFor(s, i, userInput, backend))
  {
    GenerateVerdict(s, i, userInput, backend);
  }

  /** The caller's handling of one call is `Settle` of the call's verdict. */
  lemma AnswerSettles(s: State, i: Instruction, userInput: string, next: Stage, backend: Backend)
    ensures Answer(Generate(s, InstructionText(i), userInput, backend), next)
            == Settle(s, VerdictFor(s, i, userInput, backend), next)
  {
    GenerateVerdict(s, i, userInput, backend);
  }

  // ----- the text sent to the backend -----

  /** The transcript of a prompt list: the history's lines, the user line when
      given, the instruction line and the trailing "Assistant:". */
  lemma PromptTranscript(history: seq<Message>, system: string, userInput: string)
    ensures Transcript(Prompt(history, system, userInput))
            == Lines(history) + (if userInput != "" then Line(UserMessage(userInput)) else "")
               + Line(SystemMessage(system)) + "Assistant:"
  {
    var extra := if userInput != "" then [UserMessage(userInput)] else [];
    var last := [SystemMessage(system)];
    LinesAppend(history + extra, last);
    LinesAppend(history, extra);
    LineSingle(SystemMessage(system));
    if userInput != "" {
      LineSingle(UserMessage(userInput));
    } else {
      assert Lines(extra) == "";
    }
  }

  lemma LineSingle(m: Message)
    ensures Lines([m]) == Line(m)
  {
    assert [m][..0] == [];
  }

  /** In `in_unit` the input is appended to the history and passed again, so
      the tutoring transcript carries it on two consecutive lines. */
  lemma TutorTranscriptRepeatsInput(history: seq<Message>, unit: Unit, input: string)
    requires input != ""
    ensures Sent(history + [UserMessage(input)], TutorUnit(unit), input)
            == Lines(history) + Line(UserMessage(input)) + Line(UserMessage(input))
               + Line(SystemMessage(InstructionText(TutorUnit(unit)))) + "Assistant:"
  {
    PromptTranscript(history + [UserMessage(input)], InstructionText(TutorUnit(unit)), input);
    LinesAppend(history, [UserMessage(input)]);
    LineSingle(UserMessage(input));
  }

  // ----- the onboarding stages -----

  predicate Onboarding(stage: Stage)
  {
    stage == Welcome || stage == AskInfo || stage == ChooseSkill
  }

  /** The profile key each onboarding stage stores. */
  function Field(stage: Stage): string
  {
    match stage
    case Welcome => "name"
    case AskInfo => "email"
    case _ => "birth"
  }

  /** The stage an onboarding stage moves to on a reply. */
  function Onward(stage: Stage): Stage
  {
    match stage
    case Welcome => AskInfo
    case AskInfo => ChooseSkill
    case _ => AskLevel
  }

  /** The instruction the onboarding stage sends after recording the answer. */
  function Question(stage: Stage, input: string): Instruction
  {
    match stage
    case Welcome => AskEmail(input)
    case AskInfo => AskBirth
    case _ => OfferSkill
  }

  /** An onboarding stage (after the greeting) makes one call on the recorded state. */
  lemma OnboardingStep(s: State, input: string, backend: Backend)
    requires Onboarding(s.stage) && input != ""
    requires s.stage == Welcome ==> s.chatHistory != []
    ensures var a := Record(s, Field(s.stage), input);
            Step(s, input, backend) == Settle(a, VerdictFor(a, Question(s.stage, input), "", backend), Onward(s.stage))
  {
    AnswerSettles(Record(s, Field(s.stage), input), Question(s.stage, input), "", Onward(s.stage), backend);
  }

  /** What an onboarding answer does: the stripped field and the user message
      are recorded whatever happens; the stage advances exactly when the reply
      is non-empty, which is exactly when the count rises; a refusal leaves the
      stage and records a non-empty error. */
  lemma OnboardingOutcome(s: State, input: string, backend: Backend)
    requires Onboarding(s.stage) && input != ""
    requires s.stage == Welcome ==> s.chatHistory != []
    ensures var t := Step(s, input, backend);
            var v := VerdictFor(Record(s, Field(s.stage), input), Question(s.stage, input), "", backend);
            && t.userInfo == s.userInfo[Field(s.stage) := Strip(input)]
            && (t.stage == Onward(s.stage) <==> v.Replied?)
            && (t.stage == Onward(s.stage) <==> t.messagesCount == s.messagesCount + 1)
            && (v.Replied? ==> t.chatHistory == s.chatHistory + [UserMessage(input)] + [AssistantMessage(v.reply)])
            && (v.Refused? ==> t.stage == s.stage && t.messagesCount == s.messagesCount
                               && t.chatHistory == s.chatHistory + [UserMessage(input)]
                               && t.aiError == (if v.error == "" then s.aiError else v.error))
            && t.selectedSkill == s.selectedSkill && t.skillLevel == s.skillLevel
            && t.learningPath == s.learningPath && t.currentUnit == s.currentUnit
  {
    OnboardingStep(s, input, backend);
    var a := Record(s, Field(s.stage), input);
    var v := VerdictFor(a, Question(s.stage, input), "", backend);
    SettleFacts(a, v, Onward(s.stage));
  }

  /** On the very first input the greeting is asked for first, on the empty
      history; the name is then handled on the state the greeting left. */
  lemma GreetingStep(s: State, input: string, backend: Backend)
    requires s.stage == Welcome && s.chatHistory == [] && input != ""
    ensures var a := Record(Settle(s, VerdictFor(s, Greet, "", backend), Welcome), "name", input);
            Step(s, input, backend) == Settle(a, VerdictFor(a, AskEmail(input), "", backend), AskInfo)
  {
    AnswerSettles(s, Greet, "", Welcome, backend);
    var a := Record(Settle(s, VerdictFor(s, Greet, "", backend), Welcome), "name", input);
    AnswerSettles(a, AskEmail(input), "", AskInfo, backend);
  }

  /** Whatever the second call does, a greeting reply is the first message of
      the history and the name the second. */
  lemma GreetingOrder(s: State, input: string, g: Verdict, w: Verdict)
    requires s.chatHistory == [] && g.Replied?
    ensures var t := Settle(Record(Settle(s, g, Welcome), "name", input), w, AskInfo);
            |t.chatHistory| >= 2 && t.chatHistory[..2] == [AssistantMessage(g.reply), UserMessage(input)]
  {
    var a := Record(Settle(s, g, Welcome), "name", input);
    assert a.chatHistory == [AssistantMessage(g.reply), UserMessage(input)];
    SettleFacts(a, w, AskInfo);
  }

  /** The first input: the greeting call, then the name; a greeting reply comes
      before the name in the history. */
  lemma GreetingFirst(s: State, input: string, backend: Backend)
    requires s.stage == Welcome && s.chatHistory == [] && input != ""
    ensures var greeting := VerdictFor(s, Greet, "", backend);
            var a := Record(Settle(s, greeting, Welcome), "name", input);
            && Step(s, input, backend) == Settle(a, VerdictFor(a, AskEmail(input), "", backend), AskInfo)
            && (greeting.Replied? ==>
                  var t := Step(s, input, backend);
                  |t.chatHistory| >= 2 && t.chatHistory[..2] == [AssistantMessage(greeting.reply), UserMessage(input)])
  {
    GreetingStep(s, input, backend);
    var g := VerdictFor(s, Greet, "", backend);
    if g.Replied? {
      var a := Record(Settle(s, g, Welcome), "name", input);
      GreetingOrder(s, input, g, VerdictFor(a, AskEmail(input), "", backend));
    }
  }

  /** On an empty history the greeting call sends only the instruction line. */
  lemma GreetingTranscript()
    ensures Sent([], Greet, "") == "System: " + InstructionText(Greet) + "\n" + "Assistant:"
  {
    var m := SystemMessage(InstructionText(Greet));
    assert Prompt([], InstructionText(Greet), "") == [m];
    LineSingle(m);
  }

  // ----- confirming the skill -----

  /** The confirmation test is the case-insensitive search for one of the five words. */
  lemma AffirmativeIff(input: string)
    ensures IsAffirmative(input) <==>
            exists k :: 0 <= k < |AffirmativeWords| && Contains(Lower(input), AffirmativeWords[k])
  {
  }

  /** "Yes" in any capitalisation confirms. */
  lemma YesConfirms()
    ensures IsAffirmative("Yes")
  {
    assert Lower("Yes") == "yes";
    assert StartsWith("yes", AffirmativeWords[0]);
  }

  /** "no" does not confirm. */
  lemma NoDeclines()
    ensures !IsAffirmative("no")
  {
    assert Lower("no") == "no";
    forall k | 0 <= k < |AffirmativeWords| ensures !Contains("no", AffirmativeWords[k]) {
      assert |AffirmativeWords[k]| >= 3;
    }
  }

  /** The test is a plain substring search, so the hesitant "unsure" confirms
      (it contains "sure"). */
  lemma UnsureConfirms()
    ensures IsAffirmative("unsure")
  {
    var low := "unsure";
    assert Lower("unsure") == low;
    assert low[2..6] == AffirmativeWords[1];
    assert StartsWith(low[2..6], AffirmativeWords[1]);
    ContainsInSlice(low, AffirmativeWords[1], 2, 6);
  }

  /** `ask_level` as one call: the user message is recorded, an affirmative
      answer selects the skill before the call, and the call is settled towards
      `generate_path` (affirmative) or back to `welcome` (otherwise). */
  lemma ConfirmStep(s: State, input: string, backend: Backend)
    requires s.stage == AskLevel && input != ""
    ensures var asked := s.(chatHistory := s.chatHistory + [UserMessage(input)]);
            Step(s, input, backend) ==
              if IsAffirmative(input) then
                var a := asked.(selectedSkill := Some(PromptEngineering));
                Settle(a, VerdictFor(a, AskExperience, "", backend), GeneratePath)
              else Settle(asked, VerdictFor(asked, Decline, "", backend), Welcome)
  {
    var asked := s.(chatHistory := s.chatHistory + [UserMessage(input)]);
    if IsAffirmative(input) {
      AnswerSettles(asked.(selectedSkill := Some(PromptEngineering)), AskExperience, "", GeneratePath, backend);
    } else {
      AnswerSettles(asked, Decline, "", Welcome, backend);
    }
  }

  /** `ask_level`, affirmative answer: the skill is selected; a reply moves to
      `generate_path`, a refusal keeps the stage. The user message is recorded either way. */
  lemma ConfirmAccepted(s: State, input: string, backend: Backend)
    requires s.stage == AskLevel && input != "" && IsAffirmative(input)
    ensures var t := Step(s, input, backend);
            var a := s.(chatHistory := s.chatHistory + [UserMessage(input)], selectedSkill := Some(PromptEngineering));
            var v := VerdictFor(a, AskExperience, "", backend);
            && t.selectedSkill == Some(PromptEngineering)
            && (v.Replied? ==> t.stage == GeneratePath && t.messagesCount == s.messagesCount + 1
                               && t.chatHistory == s.chatHistory + [UserMessage(input)] + [AssistantMessage(v.reply)])
            && (v.Refused? ==> t.stage == AskLevel && t.messagesCount == s.messagesCount
                               && t.chatHistory == s.chatHistory + [UserMessage(input)]
                               && t.aiError == (if v.error == "" then s.aiError else v.error))
            && t.userInfo == s.userInfo && t.skillLevel == s.skillLevel
            && t.learningPath == s.learningPath && t.currentUnit == s.currentUnit
  {
    ConfirmStep(s, input, backend);
    var a := s.(chatHistory := s.chatHistory + [UserMessage(input)], selectedSkill := Some(PromptEngineering));
    var v := VerdictFor(a, AskExperience, "", backend);
    SettleFacts(a, v, GeneratePath);
  }

  /** `ask_level`, any other answer: a reply goes back to `welcome` (the
      selected skill is left as it was), a refusal keeps the stage. */
  lemma ConfirmDeclined(s: State, input: string, backend: Backend)
    requires s.stage == AskLevel && input != "" && !IsAffirmative(input)
    ensures var t := Step(s, input, backend);
            var a := s.(chatHistory := s.chatHistory + [UserMessage(input)]);
            var v := VerdictFor(a, Decline, "", backend);
            && t.selectedSkill == s.selectedSkill
            && (v.Replied? ==> t.stage == Welcome && t.messagesCount == s.messagesCount + 1
                               && t.chatHistory == s.chatHistory + [UserMessage(input)] + [AssistantMessage(v.reply)])
            && (v.Refused? ==> t.stage == AskLevel && t.messagesCount == s.messagesCount
                               && t.chatHistory == s.chatHistory + [UserMessage(input)]
                               && t.aiError == (if v.error == "" then s.aiError else v.error))
            && t.userInfo == s.userInfo && t.skillLevel == s.skillLevel
            && t.learningPath == s.learningPath && t.currentUnit == s.currentUnit
  {
    ConfirmStep(s, input, backend);
    var a := s.(chatHistory := s.chatHistory + [UserMessage(input)]);
    var v := VerdictFor(a, Decline, "", backend);
    SettleFacts(a, v, Welcome);
  }

  // ----- building the path -----

  /** `generate_path` is the path entered, then one call settled on `in_unit`. */
  lemma StartPathStep(s: State, input: string, backend: Backend)
    requires s.stage == GeneratePath && input != ""
    ensures var s1 := EnterPath(s, input, LearningPath());
            Step(s, input, backend) == Settle(s1, VerdictFor(s1, WelcomeUnit(s1.learningPath[0]), "", backend), InUnit)
  {
    var s1 := EnterPath(s, input, LearningPath());
    AnswerSettles(s1, WelcomeUnit(s1.learningPath[0]), "", InUnit, backend);
  }

  /** `generate_path` stores the stripped level and the five units and enters
      the first unit whatever the backend does; the user message is recorded,
      then the welcome reply when there is one, and a refusal's error. */
  lemma StartPathOutcome(s: State, input: string, backend: Backend)
    requires s.stage == GeneratePath && input != ""
    ensures var t := Step(s, input, backend);
            var s1 := EnterPath(s, input, LearningPath());
            var v := VerdictFor(s1, WelcomeUnit(s1.learningPath[0]), "", backend);
            && t.stage == InUnit
            && t.learningPath == LearningPath() && |t.learningPath| == PathLength
            && t.currentUnit == 0
            && t.skillLevel == Some(Strip(input))
            && (v.Replied? ==> t.chatHistory == s.chatHistory + [UserMessage(input)] + [AssistantMessage(v.reply)]
                               && t.messagesCount == s.messagesCount + 1
                               && t.aiError == s.aiError)
            && (v.Refused? ==> t.chatHistory == s.chatHistory + [UserMessage(input)]
                               && t.messagesCount == s.messagesCount
                               && t.aiError == (if v.error == "" then s.aiError else v.error))
            && t.selectedSkill == s.selectedSkill && t.userInfo == s.userInfo
            && t.skills == s.skills && t.maxFreeMessages == s.maxFreeMessages
  {
    var s1 := EnterPath(s, input, LearningPath());
    var v := VerdictFor(s1, WelcomeUnit(s1.learningPath[0]), "", backend);
    StartPathStep(s, input, backend);
    SettleFacts(s1, v, InUnit);
  }

  // ----- tutoring -----

  /** The `in_unit` handling of a tutoring verdict `v` on the session `asked`
      (the user message already recorded), with `w` the follow-up's verdict. */
  function TutorEffect(asked: State, v: Verdict, w: Verdict): State
  {
    var s2 := Settle(asked, v, InUnit);
    if v.Replied? && Contains(v.reply, PassMarker) then Follow(Advanced(s2), w) else s2
  }

  /** `in_unit` in terms of the verdicts: the user message is recorded and
      passed again; the reply is settled; a non-empty reply carrying the pass
      marker is followed by a call introducing the next unit or congratulating,
      whose error is ignored. */
  lemma TutorStep(s: State, input: string, backend: Backend)
    requires s.stage == InUnit && 0 <= s.currentUnit < |s.learningPath| && input != ""
    ensures var asked := s.(chatHistory := s.chatHistory + [UserMessage(input)]);
            var v := VerdictFor(asked, TutorUnit(s.learningPath[s.currentUnit]), input, backend);
            var s2 := Settle(asked, v, InUnit);
            Step(s, input, backend) == TutorEffect(asked, v, VerdictFor(Advanced(s2), FollowInstruction(s2), "", backend))
  {
    TutorSettles(s, input, backend);
  }

  lemma TutorSettles(s: State, input: string, backend: Backend)
    requires 0 <= s.currentUnit < |s.learningPath|
    ensures var asked := s.(chatHistory := s.chatHistory + [UserMessage(input)]);
            var v := VerdictFor(asked, TutorUnit(s.learningPath[s.currentUnit]), input, backend);
            var s2 := Settle(asked, v, InUnit);
            Tutor(s, input, backend) == TutorEffect(asked, v, VerdictFor(Advanced(s2), FollowInstruction(s2), "", backend))
  {
    var asked := s.(chatHistory := s.chatHistory + [UserMessage(input)]);
    var unit := s.learningPath[s.currentUnit];
    var v := VerdictFor(asked, TutorUnit(unit), input, backend);
    var g := Generate(asked, InstructionText(TutorUnit(unit)), input, backend);
    GenerateVerdict(asked, TutorUnit(unit), input, backend);
    AnswerSettles(asked, TutorUnit(unit), input, InUnit, backend);
    var s2 := Settle(asked, v, InUnit);
    assert Answer(g, InUnit) == s2;
    assert (Truthy(g.reply) && Contains(g.reply.value, PassMarker)) == (v.Replied? && Contains(v.reply, PassMarker));
    FollowUpFollows(Advanced(s2), FollowInstruction(s2), "", backend);
  }

  /** What the `in_unit` handling does with any pair of verdicts: a non-empty
      reply carrying the pass marker moves to the next unit, or completes the
      path at the last unit, anything else keeps unit and stage; the user
      message and then a non-empty reply are recorded in order (a follow-up
      reply may come after them); a refusal changes nothing but a non-empty
      error; the path and the profile never change. */
  lemma TutorEffectFacts(s: State, input: string, v: Verdict, w: Verdict)
    requires s.stage == InUnit && 0 <= s.currentUnit < |s.learningPath|
    ensures var asked := s.(chatHistory := s.chatHistory + [UserMessage(input)]);
            var t := TutorEffect(asked, v, w);
            var passed := v.Replied? && Contains(v.reply, PassMarker);
            && (passed && s.currentUnit + 1 < |s.learningPath| ==>
                  t.stage == InUnit && t.currentUnit == s.currentUnit + 1)
            && (passed && s.currentUnit + 1 >= |s.learningPath| ==>
                  t.stage == PathComplete && t.currentUnit == s.currentUnit)
            && (!passed ==> t.stage == InUnit && t.currentUnit == s.currentUnit)
            && (v.Replied? ==>
                  |t.chatHistory| >= |s.chatHistory| + 2
                  && t.chatHistory[..|s.chatHistory| + 2] == s.chatHistory + [UserMessage(input)] + [AssistantMessage(v.reply)])
            && (v.Refused? ==> t == asked.(aiError := if v.error == "" then s.aiError else v.error))
            && t.learningPath == s.learningPath && t.userInfo == s.userInfo
  {
    var asked := s.(chatHistory := s.chatHistory + [UserMessage(input)]);
    if v.Replied? {
      var h := s.chatHistory + [UserMessage(input)] + [AssistantMessage(v.reply)];
      var t := TutorEffect(asked, v, w);
      if Contains(v.reply, PassMarker) && w.Replied? {
        assert t.chatHistory == h + [AssistantMessage(w.reply)];
      } else {
        assert t.chatHistory == h;
      }
      assert t.chatHistory[..|h|] == h;
    }
  }

  /** `in_unit` for a real backend: the facts above for the verdicts of its two calls. */
  lemma TutorOutcome(s: State, input: string, backend: Backend)
    requires s.stage == InUnit && 0 <= s.currentUnit < |s.learningPath| && input != ""
    ensures var t := Step(s, input, backend);
            var asked := s.(chatHistory := s.chatHistory + [UserMessage(input)]);
            var v := VerdictFor(asked, TutorUnit(s.learningPath[s.currentUnit]), input, backend);
            var passed := v.Replied? && Contains(v.reply, PassMarker);
            && (passed && s.currentUnit + 1 < |s.learningPath| ==>
                  t.stage == InUnit && t.currentUnit == s.currentUnit + 1)
            && (passed && s.currentUnit + 1 >= |s.learningPath| ==>
                  t.stage == PathComplete && t.currentUnit == s.currentUnit)
            && (!passed ==> t.stage == InUnit && t.currentUnit == s.currentUnit)
            && (v.Replied? ==>
                  |t.chatHistory| >= |s.chatHistory| + 2
                  && t.chatHistory[..|s.chatHistory| + 2] == s.chatHistory + [UserMessage(input)] + [AssistantMessage(v.reply)])
            && (v.Refused? ==> t == asked.(aiError := if v.error == "" then s.aiError else v.error))
            && t.learningPath == s.learningPath && t.userInfo == s.userInfo
  {
    TutorStep(s, input, backend);
    var asked := s.(chatHistory := s.chatHistory + [UserMessage(input)]);
    var v := VerdictFor(asked, TutorUnit(s.learningPath[s.currentUnit]), input, backend);
    var s2 := Settle(asked, v, InUnit);
    TutorEffectFacts(s, input, v, VerdictFor(Advanced(s2), FollowInstruction(s2), "", backend));
  }

  // ----- inputs that do nothing -----

  /** Empty input, and any input once the path is complete, leave the session as it is. */
  lemma IgnoredInput(s: State, input: string, backend: Backend)
    requires Indexable(s)
    requires input == "" || s.stage == PathComplete
    ensures Step(s, input, backend) == s
  {
  }

  /** At the quota no backend is consulted: the step is the same for every
      backend, the count stays, and every stage but `generate_path` keeps its
      stage and records the limit error. */
  lemma LimitReachedStep(s: State, input: string, backend: Backend, other: Backend)
    requires Inv(s) && !WithinLimit(s) && input != "" && s.stage != PathComplete
    ensures Step(s, input, backend) == Step(s, input, other)
    ensures Step(s, input, backend).messagesCount == s.messagesCount
    ensures s.stage != GeneratePath ==>
              Step(s, input, backend).stage == s.stage && Step(s, input, backend).aiError == LimitReached
  {
    match s.stage
    case Welcome =>
      if s.chatHistory == [] {
        GenerateQuota(s, InstructionText(Greet), "", backend);
        GenerateQuota(s, InstructionText(Greet), "", other);
      }
      var s1 := if s.chatHistory == [] then Answer(Generate(s, InstructionText(Greet), "", backend), s.stage) else s;
      GenerateQuota(Record(s1, "name", input), InstructionText(AskEmail(input)), "", backend);
      GenerateQuota(Record(s1, "name", input), InstructionText(AskEmail(input)), "", other);
    case AskInfo =>
    case ChooseSkill =>
    case AskLevel =>
    case GeneratePath =>
    case InUnit =>
  }

  // ----- the invariant -----

  /** Every step keeps the invariant, in particular `0 <= current_unit < len(learning_path)`
      in the unit stages and `messages_count <= max_free_messages`, and never
      lowers the count. */
  lemma StepKeepsInvariant(s: State, input: string, backend: Backend)
    requires Inv(s)
    ensures Inv(Step(s, input, backend))
    ensures s.messagesCount <= Step(s, input, backend).messagesCount
  {
    if input != "" && s.stage != PathComplete {
      match s.stage
      case Welcome => WelcomeKeepsInvariant(s, input, backend);
      case AskInfo => OnboardingKeepsInvariant(s, input, backend);
      case ChooseSkill => OnboardingKeepsInvariant(s, input, backend);
      case AskLevel => ConfirmKeepsInvariant(s, input, backend);
      case GeneratePath => StartPathKeepsInvariant(s, input, backend);
      case InUnit => TutorKeepsInvariant(s, input, backend);
    }
  }

  /** A settled call keeps the invariant when it moves between two stages of
      the onboarding (which share the invariant's conditions on the path). */
  lemma SettleKeepsInvariant(a: State, v: Verdict, next: Stage)
    requires Inv(a) && a.stage != InUnit && a.stage != PathComplete
    requires next != InUnit && next != PathComplete
    requires next == GeneratePath ==> a.selectedSkill == Some(PromptEngineering)
    requires v.Replied? ==> WithinLimit(a)
    ensures Inv(Settle(a, v, next)) && a.messagesCount <= Settle(a, v, next).messagesCount
  {
  }

  /** A call's verdict is a reply only below the quota. */
  lemma ReplyWithinLimit(a: State, i: Instruction, userInput: string, backend: Backend)
    ensures VerdictFor(a, i, userInput, backend).Replied? ==> WithinLimit(a)
  {
  }

  lemma OnboardingKeepsInvariant(s: State, input: string, backend: Backend)
    requires Inv(s) && (s.stage == AskInfo || s.stage == ChooseSkill) && input != ""
    ensures Inv(Step(s, input, backend)) && s.messagesCount <= Step(s, input, backend).messagesCount
  {
    OnboardingStep(s, input, backend);
    var a := Record(s, Field(s.stage), input);
    ReplyWithinLimit(a, Question(s.stage, input), "", backend);
    SettleKeepsInvariant(a, VerdictFor(a, Question(s.stage, input), "", backend), Onward(s.stage));
  }

  lemma WelcomeKeepsInvariant(s: State, input: string, backend: Backend)
    requires Inv(s) && s.stage == Welcome && input != ""
    ensures Inv(Step(s, input, backend)) && s.messagesCount <= Step(s, input, backend).messagesCount
  {
    if s.chatHistory == [] {
      GreetingStep(s, input, backend);
      var g := VerdictFor(s, Greet, "", backend);
      ReplyWithinLimit(s, Greet, "", backend);
      SettleKeepsInvariant(s, g, Welcome);
      var a := Record(Settle(s, g, Welcome), "name", input);
      ReplyWithinLimit(a, AskEmail(input), "", backend);
      SettleKeepsInvariant(a, VerdictFor(a, AskEmail(input), "", backend), AskInfo);
    } else {
      OnboardingStep(s, input, backend);
      var a := Record(s, "name", input);
      ReplyWithinLimit(a, AskEmail(input), "", backend);
      SettleKeepsInvariant(a, VerdictFor(a, AskEmail(input), "", backend), AskInfo);
    }
  }

  lemma ConfirmKeepsInvariant(s: State, input: string, backend: Backend)
    requires Inv(s) && s.stage == AskLevel && input != ""
    ensures Inv(Step(s, input, backend)) && s.messagesCount <= Step(s, input, backend).messagesCount
  {
    var asked := s.(chatHistory := s.chatHistory + [UserMessage(input)]);
    if IsAffirmative(input) {
      var a := asked.(selectedSkill := Some(PromptEngineering));
      AnswerSettles(a, AskExperience, "", GeneratePath, backend);
      ReplyWithinLimit(a, AskExperience, "", backend);
      SettleKeepsInvariant(a, VerdictFor(a, AskExperience, "", backend), GeneratePath);
    } else {
      AnswerSettles(asked, Decline, "", Welcome, backend);
      ReplyWithinLimit(asked, Decline, "", backend);
      SettleKeepsInvariant(asked, VerdictFor(asked, Decline, "", backend), Welcome);
    }
  }

  lemma StartPathKeepsInvariant(s: State, input: string, backend: Backend)
    requires Inv(s) && s.stage == GeneratePath && input != ""
    ensures Inv(Step(s, input, backend)) && s.messagesCount <= Step(s, input, backend).messagesCount
  {
    var s1 := EnterPath(s, input, LearningPath());
    AnswerSettles(s1, WelcomeUnit(s1.learningPath[0]), "", InUnit, backend);
    ReplyWithinLimit(s1, WelcomeUnit(s1.learningPath[0]), "", backend);
  }

  lemma TutorKeepsInvariant(s: State, input: string, backend: Backend)
    requires Inv(s) && s.stage == InUnit && input != ""
    ensures Inv(Step(s, input, backend))
    ensures s.messagesCount <= Step(s, input, backend).messagesCount
  {
    TutorStep(s, input, backend);
    var asked := s.(chatHistory := s.chatHistory + [UserMessage(input)]);
    var i := TutorUnit(s.learningPath[s.currentUnit]);
    var v := VerdictFor(asked, i, input, backend);
    var s2 := Settle(asked, v, InUnit);
    var w := VerdictFor(Advanced(s2), FollowInstruction(s2), "", backend);
    ReplyWithinLimit(asked, i, input, backend);
    ReplyWithinLimit(Advanced(s2), FollowInstruction(s2), "", backend);
    TutorEffectKeepsInvariant(s, input, v, w);
  }

  /** The `in_unit` handling keeps the invariant for verdicts that reply only below the quota. */
  lemma TutorEffectKeepsInvariant(s: State, input: string, v: Verdict, w: Verdict)
    requires Inv(s) && s.stage == InUnit
    requires v.Replied? ==> s.messagesCount < s.maxFreeMessages
    requires v.Replied? && w.Replied? ==> s.messagesCount + 1 < s.maxFreeMessages
    ensures var t := TutorEffect(s.(chatHistory := s.chatHistory + [UserMessage(input)]), v, w);
            Inv(t) && s.messagesCount <= t.messagesCount
  {
  }

  /** Every step keeps the predefined path in the unit stages: only
      `generate_path` enters them, storing the path, and `in_unit` never changes it. */
  lemma StepKeepsPath(s: State, input: string, backend: Backend)
    requires Indexable(s) && HoldsPath(s)
    ensures HoldsPath(Step(s, input, backend))
  {
    if input != "" && s.stage != PathComplete {
      match s.stage
      case Welcome =>
        if s.chatHistory == [] {
          GreetingFirst(s, input, backend);
          var a := Record(Settle(s, VerdictFor(s, Greet, "", backend), Welcome), "name", input);
          SettleFacts(a, VerdictFor(a, AskEmail(input), "", backend), AskInfo);
        } else {
          OnboardingOutcome(s, input, backend);
        }
      case AskInfo => OnboardingOutcome(s, input, backend);
      case ChooseSkill => OnboardingOutcome(s, input, backend);
      case AskLevel =>
        if IsAffirmative(input) {
          ConfirmAccepted(s, input, backend);
        } else {
          ConfirmDeclined(s, input, backend);
        }
      case GeneratePath => StartPathOutcome(s, input, backend);
      case InUnit => TutorOutcome(s, input, backend);
    }
  }

  // ----- restart -----

  /** Restart gives back the `defaults` of the nine reset keys and keeps the
      quota ceiling and the skill list; from a session with the default ceiling
      and skills it is the fresh session. */
  lemma RestartOutcome(s: State)
    ensures var r := Restarted(s);
            && r.chatHistory == [] && r.userInfo == map[] && r.selectedSkill == None
            && r.skillLevel == None && r.learningPath == [] && r.currentUnit == 0
            && r.stage == Welcome && r.aiError == "" && r.messagesCount == 0
            && r.maxFreeMessages == s.maxFreeMessages && r.skills == s.skills
    ensures Restarted(s) == Initial() <==> s.maxFreeMessages == MaxFreeMessages && s.skills == Skills
    ensures s.maxFreeMessages >= 0 ==> Inv(Restarted(s))
  {
  }

  /** The fresh session satisfies the invariant. */
  lemma InitialInvariant()
    ensures Inv(Initial())
  {
  }

  // ----- the learning-path panel -----

  lemma {:induction false} CountAppend(ss: seq<Status>, x: Status, y: Status)
    ensures CountOf(ss + [y], x) == CountOf(ss, x) + (if y == x then 1 else 0)
  {
    assert multiset(ss + [y]) == multiset(ss) + multiset{y};
  }

  /** Below the path's length exactly one unit is current, the units before it
      are completed and the units after it locked. */
  lemma StatusCounts(n: nat, currentUnit: int)
    requires 0 <= currentUnit <= n
    ensures CountOf(Statuses(n, currentUnit), Completed) == currentUnit
    ensures CountOf(Statuses(n, currentUnit), Current) == (if currentUnit < n then 1 else 0)
    ensures CountOf(Statuses(n, currentUnit), Locked) == (if currentUnit < n then n - currentUnit - 1 else 0)
  {
    StatusCount(n, currentUnit, Completed);
    StatusCount(n, currentUnit, Current);
    StatusCount(n, currentUnit, Locked);
  }

  /** How many units the panel shows with status `x`. */
  function Expected(n: nat, currentUnit: int, x: Status): int
  {
    match x
    case Completed => currentUnit
    case Current => if currentUnit < n then 1 else 0
    case Locked => if currentUnit < n then n - currentUnit - 1 else 0
  }

  lemma {:induction false} StatusCount(n: nat, currentUnit: int, x: Status)
    requires 0 <= currentUnit <= n
    ensures CountOf(Statuses(n, currentUnit), x) == Expected(n, currentUnit, x)
    decreases n
  {
    if n > 0 {
      if currentUnit < n {
        StatusCount(n - 1, currentUnit, x);
        StatusCountStep(n, currentUnit, x);
      } else {
        StatusCount(n - 1, n - 1, x);
        StatusCountEnd(n, x);
      }
    }
  }

  /** Below the end, one more unit adds its own status to the counts. */
  lemma StatusCountStep(n: nat, currentUnit: int, x: Status)
    requires 0 <= currentUnit < n
    requires CountOf(Statuses(n - 1, currentUnit), x) == Expected(n - 1, currentUnit, x)
    ensures CountOf(Statuses(n, currentUnit), x) == Expected(n, currentUnit, x)
  {
    var prev := Statuses(n - 1, currentUnit);
    assert Statuses(n, currentUnit) == prev + [UnitStatus(n - 1, currentUnit)];
    CountAppend(prev, x, UnitStatus(n - 1, currentUnit));
  }

  /** At the end every unit is completed: the last one is one more completed unit. */
  lemma StatusCountEnd(n: nat, x: Status)
    requires 0 < n
    requires CountOf(Statuses(n - 1, n - 1), x) == Expected(n - 1, n - 1, x)
    ensures CountOf(Statuses(n, n), x) == Expected(n, n, x)
  {
    var prev := Statuses(n - 1, n);
    assert Statuses(n, n) == prev + [Completed];
    SameStatuses(n - 1, n, n - 1);
    CountAppend(prev, x, Completed);
  }

  /** Two current units past the end give the same statuses. */
  lemma SameStatuses(n: nat, c1: int, c2: int)
    requires n <= c1 && n <= c2
    ensures Statuses(n, c1) == Statuses(n, c2)
  {
    assert forall i :: 0 <= i < n ==> Statuses(n, c1)[i] == Completed == Statuses(n, c2)[i];
  }

  /** As written, a completed path still shows its last unit as current and
      one unit fewer than the path as completed. */
  lemma CompletedPathShownIncomplete(s: State)
    requires Inv(s) && s.stage == PathComplete
    ensures var ss := Statuses(|s.learningPath|, s.currentUnit);
            ss[|s.learningPath| - 1] == Current
            && CountOf(ss, Completed) == |s.learningPath| - 1
            && s.currentUnit == 4 && |s.learningPath| == 5
  {
    StatusCounts(|s.learningPath|, s.currentUnit);
  }

  lemma {:induction false} CountConstant(n: nat, x: Status)
    ensures CountOf(seq(n, _ => x), x) == n
  {
    if n > 0 {
      assert seq(n, _ => x) == seq(n - 1, _ => x) + [x];
      CountConstant(n - 1, x);
      CountAppend(seq(n - 1, _ => x), x, x);
    }
  }

  /** With the completed stage shown as such, a completed path shows every unit
      completed, and in a unit exactly one unit is current. */
  lemma DisplayStatusCounts(s: State)
    requires Inv(s) && (s.stage == InUnit || s.stage == PathComplete)
    ensures s.stage == PathComplete ==> CountOf(DisplayStatuses(s), Completed) == |s.learningPath|
    ensures s.stage == InUnit ==> CountOf(DisplayStatuses(s), Current) == 1
                                  && CountOf(DisplayStatuses(s), Completed) == s.currentUnit
  {
    if s.stage == PathComplete {
      CountConstant(|s.learningPath|, Completed);
    } else {
      StatusCounts(|s.learningPath|, s.currentUnit);
    }
  }
}

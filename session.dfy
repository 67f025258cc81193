/** The Streamlit session of main.py as an object: its fields are the session
    keys, and each method performs the updates the page script makes, in the
    script's order. Every method is proved to produce the state the value-level
    dialogue of module `Dialogue` describes, so the lemmas of `DialogueFacts`
    apply to the session. */
module Session {
  import opened Optional
  import opened Strings
  import opened Chat
  import opened Dialogue
  import opened DialogueFacts

  class Session {
    var chatHistory: seq<Message>
    var userInfo: map<string, string>
    var skills: seq<string>
    var selectedSkill: Option<string>
    var skillLevel: Option<string>
    var learningPath: seq<Unit>
    var currentUnit: int
    var stage: Stage
    var aiError: string
    var messagesCount: int
    var maxFreeMessages: int

    /** The session keys as one value. */
    function Snapshot(): State
      reads this
    {
      State(chatHistory, userInfo, skills, selectedSkill, skillLevel, learningPath,
            currentUnit, stage, aiError, messagesCount, maxFreeMessages)
    }

    /** The invariant every session reached from the defaults keeps. */
    ghost predicate Valid()
      reads this
    {
      Inv(Snapshot()) && HoldsPath(Snapshot())
    }

    /** The loop over `defaults`: a fresh session. */
    constructor()
      ensures Snapshot() == Initial()
      ensures Valid()
    {
      chatHistory := [];
      userInfo := map[];
      skills := Skills;
      selectedSkill := None;
      skillLevel := None;
      learningPath := [];
      currentUnit := 0;
      stage := Welcome;
      aiError := "";
      messagesCount := 0;
      maxFreeMessages := MaxFreeMessages;
      InitialInvariant();
    }

    /** `check_message_limit`: another backend call is allowed exactly below the ceiling. */
    method CheckMessageLimit() returns (ok: bool)
      ensures ok <==> WithinLimit(Snapshot())
      ensures ok <==> messagesCount < maxFreeMessages
    {
      ok := !(messagesCount >= maxFreeMessages);
    }

    /** `generate_ai_response`: at the quota nothing is asked and the limit error
        comes back; otherwise the prompt list is built from a copy of the history,
        the backend is asked, and a non-empty reply is counted. */
    method GenerateAiResponse(systemContent: string, userInput: string, backend: Backend)
      returns (response: Option<string>, error: string)
      modifies this`messagesCount
      ensures Response(Snapshot(), response, error) == Generate(old(Snapshot()), systemContent, userInput, backend)
      ensures old(messagesCount) >= maxFreeMessages ==> response == None && error == LimitReached
      ensures messagesCount == old(messagesCount) + (if Truthy(response) then 1 else 0)
    {
      var ok := CheckMessageLimit();
      if !ok {
        return None, LimitReached;
      }
      response, error := AskBackend(systemContent, userInput, backend);
      ghost var r := ChatResult(Prompt(chatHistory, systemContent, userInput), backend);
      assert response == r.0 && error == r.1;
      if Truthy(response) {
        messagesCount := messagesCount + 1;
      }
    }

    /** The body of `generate_ai_response` after the quota check: a copy of the
        history, the user message when one is given, the instruction, handed to
        the backend adapter. */
    method AskBackend(systemContent: string, userInput: string, backend: Backend)
      returns (response: Option<string>, error: string)
      ensures (response, error) == ChatResult(Prompt(chatHistory, systemContent, userInput), backend)
    {
      var messages := chatHistory;
      if userInput != "" {
        messages := messages + [UserMessage(userInput)];
      }
      messages := messages + [SystemMessage(systemContent)];
      assert messages == Prompt(chatHistory, systemContent, userInput);
      response, error := HuggingfaceChat(messages, backend);
    }

    /** One call whose caller appends a non-empty reply and moves to `next`,
        or records a non-empty error. */
    method Ask(systemContent: string, next: Stage, backend: Backend)
      modifies this
      ensures Snapshot() == Answer(Generate(old(Snapshot()), systemContent, "", backend), next)
    {
      var response, error := GenerateAiResponse(systemContent, "", backend);
      if Truthy(response) {
        chatHistory := chatHistory + [AssistantMessage(response.value)];
        stage := next;
      } else if error != "" {
        aiError := error;
      }
    }

    /** A follow-up call: a non-empty reply is appended, an error is dropped. */
    method AskFollowUp(systemContent: string, backend: Backend)
      modifies this
      ensures Snapshot() == FollowUp(Generate(old(Snapshot()), systemContent, "", backend))
    {
      var response, error := GenerateAiResponse(systemContent, "", backend);
      if Truthy(response) {
        chatHistory := chatHistory + [AssistantMessage(response.value)];
      }
    }

    /** The stripped answer goes into the profile and the raw input into the history. */
    method RecordAnswer(key: string, userInput: string)
      modifies this
      ensures Snapshot() == Record(old(Snapshot()), key, userInput)
    {
      userInfo := userInfo[key := Strip(userInput)];
      chatHistory := chatHistory + [UserMessage(userInput)];
    }

    /** The `welcome` stage. */
    method SubmitName(userInput: string, backend: Backend)
      modifies this
      ensures Snapshot() == Dialogue.SubmitName(old(Snapshot()), userInput, backend)
    {
      if chatHistory == [] {
        Ask(InstructionText(Greet), stage, backend);
      }
      RecordAnswer("name", userInput);
      Ask(InstructionText(AskEmail(userInput)), AskInfo, backend);
    }

    /** The `ask_level` stage. */
    method ConfirmSkill(userInput: string, backend: Backend)
      modifies this
      ensures Snapshot() == Confirm(old(Snapshot()), userInput, backend)
    {
      chatHistory := chatHistory + [UserMessage(userInput)];
      if IsAffirmative(userInput) {
        selectedSkill := Some(PromptEngineering);
        Ask(InstructionText(AskExperience), GeneratePath, backend);
      } else {
        Ask(InstructionText(Decline), Welcome, backend);
      }
    }

    /** The `generate_path` stage. */
    method BuildPath(userInput: string, backend: Backend)
      modifies this
      ensures Snapshot() == StartPath(old(Snapshot()), userInput, backend)
    {
      var path := LearningPath();
      StorePath(userInput, path);
      var unit := path[0];
      Ask(InstructionText(WelcomeUnit(unit)), InUnit, backend);
    }

    /** The updates of `generate_path` before its call. */
    method StorePath(userInput: string, path: seq<Unit>)
      modifies this
      ensures Snapshot() == EnterPath(old(Snapshot()), userInput, path)
    {
      skillLevel := Some(Strip(userInput));
      chatHistory := chatHistory + [UserMessage(userInput)];
      learningPath := path;
      currentUnit := 0;
      stage := InUnit;
    }

    /** The `in_unit` stage. */
    method TutorTurn(userInput: string, backend: Backend)
      requires stage == InUnit && 0 <= currentUnit < |learningPath|
      modifies this
      ensures Snapshot() == Tutor(old(Snapshot()), userInput, backend)
    {
      var unit := learningPath[currentUnit];
      chatHistory := chatHistory + [UserMessage(userInput)];
      ghost var g := Generate(Snapshot(), InstructionText(TutorUnit(unit)), userInput, backend);
      var response, error := GenerateAiResponse(InstructionText(TutorUnit(unit)), userInput, backend);
      if Truthy(response) {
        chatHistory := chatHistory + [AssistantMessage(response.value)];
        assert Snapshot() == Answer(g, InUnit);
        if Contains(response.value, PassMarker) {
          AdvanceUnit(backend);
        }
      } else if error != "" {
        aiError := error;
      }
    }

    /** After a passed unit: move to the next unit and introduce it, or complete
        the path and congratulate; either call is a follow-up. */
    method AdvanceUnit(backend: Backend)
      requires 0 <= currentUnit
      modifies this
      ensures Snapshot() == FollowUp(Generate(Advanced(old(Snapshot())), InstructionText(FollowInstruction(old(Snapshot()))), "", backend))
    {
      if currentUnit + 1 < |learningPath| {
        currentUnit := currentUnit + 1;
        var nextUnit := learningPath[currentUnit];
        AskFollowUp(InstructionText(NextUnit(nextUnit)), backend);
      } else {
        stage := PathComplete;
        AskFollowUp(InstructionText(CongratulateAll), backend);
      }
    }

    /** One chat input: empty input and any input at `path_complete` are
        ignored, otherwise the current stage's handler runs. */
    method Submit(userInput: string, backend: Backend)
      requires Valid()
      modifies this
      ensures Snapshot() == Step(old(Snapshot()), userInput, backend)
      ensures Valid()
      ensures old(messagesCount) <= messagesCount <= maxFreeMessages
    {
      ghost var s0 := Snapshot();
      if userInput != "" && stage != PathComplete {
        match stage
        case Welcome =>
          SubmitName(userInput, backend);
        case AskInfo =>
          RecordAnswer("email", userInput);
          Ask(InstructionText(AskBirth), ChooseSkill, backend);
        case ChooseSkill =>
          RecordAnswer("birth", userInput);
          Ask(InstructionText(OfferSkill), AskLevel, backend);
        case AskLevel =>
          ConfirmSkill(userInput, backend);
        case GeneratePath =>
          BuildPath(userInput, backend);
        case InUnit =>
          TutorTurn(userInput, backend);
      }
      StepKeepsInvariant(s0, userInput, backend);
      StepKeepsPath(s0, userInput, backend);
    }

    /** "Start Again", offered at `path_complete`: the nine listed keys take their defaults. */
    method StartAgain()
      requires Valid() && stage == PathComplete
      modifies this
      ensures Snapshot() == Restarted(old(Snapshot()))
      ensures Valid()
    {
      chatHistory := [];
      userInfo := map[];
      selectedSkill := None;
      skillLevel := None;
      learningPath := [];
      currentUnit := 0;
      stage := Welcome;
      aiError := "";
      messagesCount := 0;
      RestartOutcome(old(Snapshot()));
    }

    /** "Try Again", offered while an error is shown: the error is cleared and nothing else changes. */
    method DismissError()
      requires Valid() && aiError != ""
      modifies this
      ensures Snapshot() == old(Snapshot()).(aiError := "")
      ensures Valid()
    {
      aiError := "";
    }
  }
}

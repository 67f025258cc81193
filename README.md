# Skilvyn onboarding and tutoring dialogue, in Dafny

Skilvyn is a Streamlit chat application (`main.py`) that onboards a learner and
then tutors them unit by unit. On each chat input the page script dispatches on
the session's `stage`:

- `welcome` records the name.
- `ask_info` records the email.
- `choose_skill` records the birth date.
- `ask_level` confirms the only skill, "Prompt Engineering".
- `generate_path` stores a fixed five-unit learning path.
- `in_unit` tutors the current unit until the remote model's reply carries `[status:pass]`.
- `path_complete` offers "Start Again".

Every model call goes through `generate_ai_response`, which enforces a free
message quota, and through `huggingface_chat`, which renders the conversation
into one transcript and cleans the generated text.

The project has six modules:

- `Optional` (`optional.dfy`): the `Option` type.
- `Strings` (`strings.dfy`): Python's `str.strip()`, `str.lower()` on ASCII
  letters, the `in` substring test and `str.split(sep)[0]`, each with lemmas
  that characterise it.
- `Chat` (`chat.dfy`): messages, the transcript builder, the reply cleanup and
  `huggingface_chat` over an abstract backend (`Backend = string -> Outcome`).
  The transcript builder is a `for` loop proved equal to the function `Transcript`.
- `Dialogue` (`dialogue.dfy`): the session record `State` and the `defaults`
  table. It has `Generate` (`generate_ai_response`), a function for each of
  `welcome`, `ask_level`, `generate_path` and `in_unit`, the dispatch `Step`
  (which handles `ask_info` and `choose_skill` inline, with `Record`), and
  `Restarted` (the "Start Again" button). It also holds
  the invariant `Inv`, the unit statuses of the learning-path panel and the
  input placeholders.
- `DialogueFacts` (`dialogue_facts.dfy`): the lemmas.
  - What each stage does for each backend outcome.
  - The quota.
  - The bounds on `current_unit`.
  - The restart.
  - The panel counts.
  - The transcript that is sent.
- `Session` (`session.dfy`): the class `Session.Session`, whose fields are the
  session keys. Its methods make the page script's updates in the script's
  order, and each one is proved to produce the state the `Dialogue` function
  describes. `Submit` also keeps `Inv`.

How outcomes are modelled:

- The backend is a total function from the transcript text to
  `Generated(text)` or `Failed(error)`. One chat input is one backend, so the
  outcome of every call is free.
- The caller's view of one call is a `Verdict`. It is `Replied(reply)` for a
  non-empty cleaned reply, and `Refused(error)` otherwise. The error is empty
  when the reply was merely empty, and it is the limit message at the quota.
- Lemmas such as `OnboardingOutcome` and `TutorOutcome` state each stage's
  effect per verdict.

The model follows `main.py`, including these behaviours:

- The user message and profile field are recorded before the backend call, so
  they are recorded even when that call fails.
- `generate_path` enters `in_unit` whatever the backend does, even at the quota.
- `in_unit` makes no extra call when the reply lacks the marker.
- Declining at `ask_level` does not clear a `selected_skill` set by an earlier
  affirmative answer whose call failed.

## Model

| member | source | states |
|---|---|---|
| Strings.TrimStartIsSuffix | main.py:162 | `lstrip` leaves a suffix of the input; everything dropped is whitespace and the result does not start with whitespace |
| Strings.TrimEndIsPrefix | main.py:162 | `rstrip` leaves a prefix of the input; everything dropped is whitespace and the result does not end with whitespace |
| Strings.StripIsSlice | main.py:162-164 | `strip()` keeps a slice `s[lo..hi]` with only whitespace outside it and no whitespace at either end |
| Strings.StripIdempotent | main.py:164 | stripping a stripped string changes nothing |
| Strings.LowerPointwise | main.py:341 | `lower()` on ASCII letters keeps the length and lowers each character on its own |
| Strings.ContainsIff | main.py:341 | the left-to-right `in` search succeeds exactly when the pattern occurs at some index |
| Strings.ContainsInSlice | main.py:427 | a pattern found in a slice is found in the whole string |
| Strings.BeforeIsPrefix | main.py:164 | `split(pat)[0]` is a prefix of the string |
| Strings.BeforeStopsAtPattern | main.py:164 | unless `split(pat)[0]` is the whole string, `pat` follows it |
| Strings.BeforeAvoidsPattern | main.py:164 | `split(pat)[0]` does not contain `pat` |
| Strings.BeforeIsFirst | main.py:164 | `split(pat)[0]` is no longer than the string and no occurrence of `pat` starts inside it, so it ends at the first occurrence |
| Strings.BeforeAbsent | main.py:164 | `split(pat)[0]` of a string without `pat` is the string itself |
| Chat.FormatTranscript | main.py:129-138 | the accumulation loop yields every message's line in order, then "Assistant:" |
| Chat.LinesAppend | main.py:130-136 | the lines of a concatenation are the lines of each part, in order |
| Chat.OtherRoleDropped | main.py:130-136 | a message whose role is not system, user or assistant leaves no trace in the transcript |
| Chat.HuggingfaceChat | main.py:129-165 | a generated text comes back cleaned with an empty error; a failure comes back as no reply with its error text |
| Chat.CleanReplyHasNoHumanTurn | main.py:162-165 | the cleaned reply contains no "Human:" |
| Chat.CleanReplyIsStripped | main.py:162-165 | the cleaned reply has no whitespace at either end |
| Chat.CleanReplyIdempotent | main.py:162-165 | cleaning a cleaned reply changes nothing |
| Chat.CleanReplyWithoutHumanTurn | main.py:162-165 | a text without "Human:" is only stripped |
| Dialogue.LearningPath | main.py:369-395 | the stored path has five units |
| Dialogue.AnyOccurs | main.py:341 | `any(word in text ...)` holds exactly when some word of the list occurs in the text |
| Dialogue.DisplayStatuses | main.py:193-202 | the corrected panel has one entry per unit; a unit is completed exactly when the path is complete or it comes before the current unit, and current exactly at the current index of an unfinished path; in order the panel reads completed units, at most one current unit, then locked units |
| Dialogue.Placeholder | main.py:262-272 | the placeholder is empty exactly at `path_complete` |
| DialogueFacts.SettleFacts | main.py:285-289 | after a call, a reply is appended, counted and moves the stage on; a refusal changes only `ai_error`, and only when the error is non-empty; no other key changes |
| DialogueFacts.GenerateQuota | main.py:220-244 | at the quota no backend is consulted and the state is unchanged with "Message limit reached"; below it the count rises by one exactly when the reply is non-empty and stays within the quota |
| DialogueFacts.GenerateVerdict | main.py:227-244 | a call's reply, error and count follow the verdict read off the backend's outcome for the transcript sent |
| DialogueFacts.FollowUpFollows | main.py:435-437 | a follow-up call appends and counts a non-empty reply and ignores errors |
| DialogueFacts.AnswerSettles | main.py:298-303 | the caller's `if response / elif error` is `Settle` of the call's verdict |
| DialogueFacts.PromptTranscript | main.py:232-239 | the transcript sent is the history's lines, the user line when given, the instruction line, then "Assistant:" |
| DialogueFacts.TutorTranscriptRepeatsInput | main.py:415-422 | in `in_unit` the input appears on two consecutive "Human:" lines of the transcript |
| DialogueFacts.OnboardingStep | main.py:291-335 | an onboarding stage records the stripped field and the user message, then settles one call |
| DialogueFacts.OnboardingOutcome | main.py:291-335 | the field and the user message are recorded whatever happens; the stage advances exactly when the reply is non-empty, exactly when the count rises; a refusal keeps the stage and records a non-empty error |
| DialogueFacts.GreetingStep | main.py:279-304 | on an empty history the step is the greeting call settled on `welcome`, then the name recorded and its call settled towards `ask_info` |
| DialogueFacts.GreetingOrder | main.py:285-293 | whatever the second call does, a greeting reply is the first message and the name the second |
| DialogueFacts.GreetingFirst | main.py:279-304 | on an empty history the greeting is asked for first and the name is handled on the state it leaves; a greeting reply is the first message, the name the second |
| DialogueFacts.GreetingTranscript | main.py:279-285 | the greeting call sends only the instruction line |
| DialogueFacts.AffirmativeIff | main.py:341 | the input confirms exactly when its lowercase form contains one of the five words |
| DialogueFacts.YesConfirms | main.py:341 | "Yes" confirms |
| DialogueFacts.NoDeclines | main.py:341 | "no" does not confirm |
| DialogueFacts.UnsureConfirms | main.py:341 | "unsure" confirms, because it contains "sure" |
| DialogueFacts.ConfirmStep | main.py:338-361 | `ask_level` records the message, selects the skill when affirmative, and settles towards `generate_path` or `welcome` |
| DialogueFacts.ConfirmAccepted | main.py:341-352 | affirmative: the skill is selected; a reply moves to `generate_path`; a refusal keeps `ask_level` and records a non-empty error |
| DialogueFacts.ConfirmDeclined | main.py:353-361 | otherwise the selected skill is untouched; a reply moves to `welcome`; a refusal keeps `ask_level` |
| DialogueFacts.StartPathStep | main.py:364-410 | `generate_path` is the path entered (level, user message, five units, unit 0, `in_unit`), then the welcome-unit call settled on `in_unit` |
| DialogueFacts.StartPathOutcome | main.py:364-410 | `generate_path` stores the stripped level and the five fixed units, sets unit 0 and `in_unit` whatever the backend does, appends and counts the welcome reply when there is one, records a refusal's non-empty error, and keeps the other keys |
| DialogueFacts.TutorStep | main.py:413-446 | `in_unit` is the settled tutoring call, followed on the pass marker by the follow-up call of the next unit or of the completion |
| DialogueFacts.TutorSettles | main.py:413-446 | the tutoring function equals its verdict-level description |
| DialogueFacts.TutorEffectFacts | main.py:424-445 | on the marker the unit advances, or at the last unit the path completes with the unit unchanged; otherwise unit and stage stay; the messages are recorded in order; a refusal changes only the error |
| DialogueFacts.TutorOutcome | main.py:413-446 | the progression facts above, for a real backend's two calls |
| DialogueFacts.IgnoredInput | main.py:275 | empty input, and any input at `path_complete`, changes nothing |
| DialogueFacts.LimitReachedStep | main.py:220-230 | at the quota a step does not depend on the backend and keeps the count; every stage but `generate_path` keeps its stage and shows the limit error |
| DialogueFacts.StepKeepsInvariant | main.py:275-446 | every step keeps `0 <= messages_count <= max_free_messages`, `0 <= current_unit < len(learning_path)` in the unit stages, and the stage conditions; the count never falls |
| DialogueFacts.SettleKeepsInvariant | main.py:285-361 | a settled onboarding call keeps the invariant |
| DialogueFacts.ReplyWithinLimit | main.py:229-230 | a reply is possible only below the quota |
| DialogueFacts.OnboardingKeepsInvariant | main.py:307-335 | `ask_info` and `choose_skill` keep the invariant |
| DialogueFacts.WelcomeKeepsInvariant | main.py:278-304 | `welcome`, with or without the greeting, keeps the invariant |
| DialogueFacts.ConfirmKeepsInvariant | main.py:338-361 | `ask_level` keeps the invariant |
| DialogueFacts.StartPathKeepsInvariant | main.py:364-410 | `generate_path` keeps the invariant |
| DialogueFacts.TutorKeepsInvariant | main.py:413-446 | `in_unit` keeps the invariant, so the unit index stays in range |
| DialogueFacts.TutorEffectKeepsInvariant | main.py:424-445 | the `in_unit` handling keeps the invariant when replies come only below the quota |
| DialogueFacts.StepKeepsPath | main.py:397 | in the unit stages the stored path is always the predefined one |
| DialogueFacts.RestartOutcome | main.py:449-455 | restart restores exactly the nine listed keys to their defaults and keeps the quota and the skills; restarting yields the fresh session exactly when those two are the defaults |
| DialogueFacts.InitialInvariant | main.py:96-112 | the fresh session satisfies the invariant |
| DialogueFacts.StatusCounts | main.py:193-202 | with the current unit within the path: that many units are completed, at most one is current, and the rest are locked |
| DialogueFacts.StatusCount | main.py:193-202 | the count of each status, one status at a time |
| DialogueFacts.StatusCountStep | main.py:193-202 | below the current unit's end, one more unit adds its own status to the counts |
| DialogueFacts.StatusCountEnd | main.py:193-202 | the induction step at `current_unit == n`: from the counts of `n - 1` units with current unit `n - 1`, the counts of `n` units with current unit `n`, where unit `n - 1` is completed |
| DialogueFacts.SameStatuses | main.py:193-202 | past the end of the path, every current-unit value shows the same panel |
| DialogueFacts.CompletedPathShownIncomplete | main.py:193-202 | as written, a completed path shows its last unit as current and only four of five units completed |
| DialogueFacts.DisplayStatusCounts | main.py:193-202 | corrected: a completed path shows every unit completed; in a unit exactly one unit is current |
| Session.Session.constructor | main.py:96-112 | a fresh session holds the defaults and the invariant |
| Session.Session.CheckMessageLimit | main.py:220-225 | another call is allowed exactly when `messages_count < max_free_messages` |
| Session.Session.GenerateAiResponse | main.py:227-244 | the call agrees with `Generate`: at the quota nothing is asked; otherwise the count rises exactly on a non-empty reply |
| Session.Session.AskBackend | main.py:232-239 | the prompt list is a copy of the history, then the optional user message, then the instruction |
| Session.Session.Ask | main.py:298-303 | one call whose reply is appended and moves the stage, or whose non-empty error is recorded |
| Session.Session.AskFollowUp | main.py:435-443 | one follow-up call whose reply is appended and whose error is dropped |
| Session.Session.RecordAnswer | main.py:292-293 | the stripped profile field and the raw user message are recorded |
| Session.Session.SubmitName | main.py:278-304 | the `welcome` stage, greeting first on an empty history |
| Session.Session.ConfirmSkill | main.py:338-361 | the `ask_level` stage |
| Session.Session.BuildPath | main.py:364-410 | the `generate_path` stage |
| Session.Session.StorePath | main.py:365-399 | the level, the message, the path, unit 0 and `in_unit` are stored before the call |
| Session.Session.TutorTurn | main.py:413-446 | the `in_unit` stage |
| Session.Session.AdvanceUnit | main.py:427-443 | a passed unit moves to the next one and introduces it, or completes the path and congratulates |
| Session.Session.Submit | main.py:275-446 | one chat input does what `Step` describes, keeps the invariant and the predefined path, and never lowers the count or passes the quota |
| Session.Session.StartAgain | main.py:449-455 | "Start Again" is `Restarted` and keeps the invariant |
| Session.Session.DismissError | main.py:458-462 | "Try Again" clears the error and nothing else |

## Left out

- Streamlit rendering is not modelled: page setup, CSS, headers, chat bubbles,
  the sidebar, the messages-remaining caption, the quota warning text,
  `st.success`/`st.error` and `st.rerun`. It is presentation. The two buttons
  are the methods `StartAgain` and `DismissError`.
- The HTTP plumbing of `huggingface_chat` is not modelled: the API-key lookup,
  the POST request, the 503 and other status codes, JSON decoding and
  exception capture, with their error texts (main.py:116-127, 140-170). It is
  network and foreign code. Every one of these paths is a `Failed(error)`
  outcome of the abstract backend, and a well-formed body is `Generated(text)`.
  The `temperature` and `max_tokens` parameters only travel to that request.
- The progress percentage of the learning-path panel (main.py:180) is not
  modelled. It is floating point. The unit statuses and their counts are modelled.
- Dialogue.InstructionText: the natural-language instruction templates are
  replaced by short tags that carry the same parameters (the name, the unit's
  title, objective or welcome line). The transcripts are therefore stated up
  to that wording.
- Strings.Lower, Strings.LowerPointwise: lower ASCII letters only, whereas
  Python's `str.lower()` also lowers other Unicode letters and can change the
  length (for "İ"). The affirmative words are ASCII, but a non-ASCII capital
  letter in the input is not lowered, and the kept length holds only for this
  ASCII lowering.
- The default placeholder "Write your message here..." (main.py:272) is not
  modelled. Every stage has an entry in the table, so it is never used.
- `local_app.py` and `Main.py` are not part of this model. They hold styling,
  key initialisation and a single form around a remote call.
- Session.Session.Submit: the rerun that follows each handled input is not
  modelled. One call of `Submit` is one script run with a chat input, and the
  rerun changes nothing.

## Findings

| source | as written | input that shows it | evidently intended | confidence | as-written member | corrected member |
|---|---|---|---|---|---|---|
| main.py:193-202 | at `path_complete`, `current_unit` stays at the last index (main.py:439), so the panel shows that unit as current and reports 4/5 units completed | pass the last unit: `[status:pass]` in `in_unit` with `current_unit == 4` | a completed path shows all five units completed | medium, not executed | DialogueFacts.CompletedPathShownIncomplete | DialogueFacts.DisplayStatusCounts |

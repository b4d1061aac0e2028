# TalentScout Hiring Assistant, modelled in Dafny

The TalentScout Hiring Assistant is a Streamlit chat application. It screens a job candidate in two phases:

- A scripted intake asks for name, email, phone, experience, position, location and tech stack.
- Then it asks up to five technical questions. A large language model generates them, and the application never repeats one.

This project models the application's core in `app.py`:

- **Backend selection** (`load_ai_model`). This is a pure function. It maps the identifier picked in the sidebar and the two API keys read from the environment to an Anthropic, OpenAI or Ollama client, or to no client.
- **The session state** (`st.session_state`) and its set-up (`setup_chat_session`). The state is the chat history, the current step, one stored answer per intake step, the tech stack, the question counter and the set of questions already asked.
- **One user turn** (`process_chat`). An exit keyword appends a closing message. Any other message is echoed into the history. The step table then stores it under the current step's name and advances the step. At `tech_stack` questioning starts, and in `questioning` the next question is generated.
- **Question generation** (`generate_next_question`). It stops at five questions. Otherwise it keeps asking the model until a stripped response has not been asked yet, records that response and counts it.

The modules are:

- `Text`: Python's `str.strip()` and `str.lower()`.
- `ModelLoader`: backend selection.
- `Interview`: the session as a value, with `Init`, `Generate` and `Process` as functions. It also holds the session invariant, the step order, and whole conversations (`Run`).
- `ChatSession`: the class `Session`, which holds the same fields and updates them in place. Its constructor is `setup_chat_session`. `GenerateNextQuestion` keeps the source's `while True` retry loop. `ProcessChat` keeps the source's `if`/`elif` chain. Each method is proved to leave exactly the state that the corresponding `Interview` function describes.

The language model is an oracle. A turn receives the sequence of raw responses the model would return, in the order the retry loop asks for them. Error strings from `get_ai_response` are just more responses. The environment is also reduced to parameters: each API key is the value `os.getenv` would return.

Where this model and prose descriptions of the application disagree, it follows `app.py`:

- The answer given at the greeting step is stored as `greeting`, not as `full_name` (app.py:139).
- The greeting turn replies "Hello! Let's start. What's your full name?" (app.py:128).
- Only the lower-cased message is compared with the exit keywords. "EXIT" and "Stop" take the exit branch. " exit" and "exit." do not.
- The exit branch only appends the closing message (app.py:121-123). Step, answers and questions stay as they were, so the next message carries on where the interview stood.

## Model

| member | source | states |
|---|---|---|
| `ModelLoader.LoadAiModel` | app.py:20-36 | Each backend and the condition that selects it, both ways. An Anthropic client with the given model name and temperature 0.3 is returned iff the name starts with `claude` and the Anthropic key is set and non-empty. gpt-3.5-turbo is returned iff the name is exactly `openai` and the OpenAI key is set and non-empty. mistral on Ollama is returned iff the name is exactly `ollama`, whatever the keys. |
| `ModelLoader.KeyPresent` | app.py:24-29 | A key counts as present, as `if api_key` decides, only when the variable is set and not the empty string. |
| `ModelLoader.UnavailableIff` | app.py:23-36 | No client is returned exactly when a `claude` name lacks its key, `openai` lacks its key, or the name is none of the supported ones. |
| `ModelLoader.SidebarOptionsLoad` | app.py:50 | With both keys set, each of the four sidebar options yields a client. With no keys, only `ollama` does. |
| `Text.IsSpace` | app.py:105 | The characters `strip()` removes: those Python's `str.isspace()` accepts, ASCII controls \t to \r and \x1c to \x1f, space, and the Unicode spaces and separators. |
| `Text.Strip` | app.py:105 | `strip()` removes only whitespace, all of it on both sides. The result is the infix that neither starts nor ends with whitespace. |
| `Text.StripIdempotent` | app.py:105 | Stripping a stripped response changes nothing. |
| `Text.Lower` | app.py:121 | `lower()` maps each ASCII capital to its small letter and keeps every other character and the length. |
| `Text.LowerEqualsWord` | app.py:121 | A message lower-cases to a lower-case word iff it spells that word in any mix of upper and lower case. |
| `Interview.IsExit` | app.py:119-121 | The exit test: the lower-cased message is one of `exit`, `quit`, `stop`, `end`. |
| `Interview.ExitIgnoresCase` | app.py:119-121 | A message is an exit message iff it spells `exit`, `quit`, `stop` or `end` in any mix of cases, with nothing around it. |
| `Interview.Init` | app.py:57-65 | A new session has an empty history, step `greeting`, no stored answers, tech stack "", question count 0 and no asked questions. |
| `Interview.StepTable` | app.py:127-135 | The `steps` dict: for each of the seven intake steps, the reply text and the step that follows. Every other step has no row. |
| `Interview.StepTableFollowsOrder` | app.py:127-135 | The step table's keys are exactly the seven intake steps, and each row's next step is one further along the order. |
| `Interview.FirstFresh` | app.py:97-110 | The retry loop stops at a candidate that has not been asked, and every candidate it skipped had been asked. |
| `Interview.FirstFreshUnique` | app.py:97-110 | The stopping point is determined by those two facts. |
| `Interview.Generate` | app.py:88-113 | At five or more questions it returns the closing sentence and changes nothing. Below five, the returned question is the stripped form of a model response, was not asked before and is added to the asked set. All responses before it were repeats, the count goes up by one, and nothing else changes. |
| `Interview.GenerateIgnoresHistory` | app.py:88-113 | The question drawn and the counters it leaves do not depend on the chat history. |
| `Interview.GenerateSkipsRepeats` | app.py:97-113 | With "Q1" already asked, the responses "Q1", " Q1\n", "Q2" produce "Q2". The asked set becomes {"Q1", "Q2"} and the count goes up by one. |
| `Interview.BranchOf` | app.py:121-149 | The branch a message takes: the `if`/`elif` chain of `process_chat`, tested in the source's order. |
| `Interview.BranchCases` | app.py:121-149 | A message takes the exit branch iff it is an exit message. Otherwise it takes the table branch iff the step is one of the seven intake steps, the `tech_stack` or `questioning` branch at those steps, and the "not sure" branch iff the step is none of the nine names. |
| `Interview.Process` | app.py:117-152 | An exit message appends the one closing `ai` entry and changes nothing else. Any other message leaves the old history as a prefix and appends exactly two entries: the verbatim message as `user`, then one `ai` reply. |
| `Interview.IntakeTurn` | app.py:137-140 | At an intake step the message is stored under the current step, the step becomes the table's next step and the reply is the table's prompt. Tech stack, count and asked set stay the same. |
| `Interview.GreetingTurn` | app.py:125-140 | The first answer is stored as `greeting`. The step becomes `full_name` and the history is the message followed by "Hello! Let's start. What's your full name?". |
| `Interview.TechStackTurn` | app.py:141-145 | At `tech_stack` the message becomes the tech stack and the step becomes `questioning`. The count goes from 0 to 1, and the reply is the introduction, a blank line and a question that was not asked before. That question is the first model response that, stripped, was not asked before. |
| `Interview.QuestioningTurn` | app.py:146-147 | Below the cap, a `questioning` turn replies with a question not asked before. It is the first model response that, stripped, was not asked before. The asked set gains exactly that question and the count goes up by one. Step, tech stack and answers stay the same. |
| `Interview.ExitThenContinue` | app.py:121-123 | An exit message followed by another message leaves the same step, answers, tech stack, count and asked set as that message alone. The history differs only by the one closing entry. |
| `Interview.QuestioningAfterCap` | app.py:89-90 | After five questions each further answer gets the closing sentence, and nothing but the history changes. |
| `Interview.InitInv` | app.py:57-65 | The initial session satisfies the session invariant. |
| `Interview.AnsweredAfterStore` | app.py:137-140 | Storing an intake answer and advancing keeps "answers are stored for exactly the steps already passed". |
| `Interview.AllAnsweredAfterIntake` | app.py:127-141 | Once at `tech_stack` or `questioning`, all seven intake steps count as answered. |
| `Interview.ProcessKeepsInv` | app.py:117-152 | Every turn keeps the invariant. The step is one of the nine names, the count is between 0 and 5, the asked set has as many questions as the count, the count is positive exactly in `questioning`, the tech stack is empty before `questioning`, and answers are stored for exactly the passed intake steps. |
| `Interview.IntakeTurnKeepsInv` | app.py:137-140 | The intake branch keeps the invariant. |
| `Interview.StartQuestionsKeepsInv` | app.py:141-145 | The `tech_stack` branch keeps the invariant. |
| `Interview.NextQuestionKeepsInv` | app.py:146-147 | The `questioning` branch keeps the invariant, below the cap and at it. |
| `Interview.ExitKeepsInv` | app.py:121-123 | The exit branch keeps the invariant. |
| `Interview.NeverConfused` | app.py:148-149 | In a session satisfying the invariant, the "I'm not sure how to proceed" branch is never taken. |
| `Interview.StepOrder` | app.py:127-147 | A non-exit turn moves the step exactly one place forward until `questioning`, which never changes. An exit turn keeps the step. |
| `Interview.RunKeepsInv` | app.py:117-152 | Any sequence of turns from an invariant-satisfying session keeps the invariant. |
| `Interview.RunExtendsHistory` | app.py:122-151 | A conversation only appends to the history. |
| `Interview.Reachable` | app.py:57-152 | From a fresh session, no conversation reaches the "not sure" branch, the count never exceeds five, and the asked set has one question per count. |
| `Interview.QuestioningRun` | app.py:146-147 | Answers in `questioning` below the cap each add one new question. The count grows by the number of answers, the asked set keeps its old questions and has one question per count, and step, tech stack and answers stay the same. |
| `Interview.FiveQuestions` | app.py:141-147 | From `tech_stack` with no questions asked, the tech stack answer and four more answers produce exactly five distinct questions. The session stays in `questioning` with that tech stack. |
| `Interview.Recorded` | app.py:137-140 | Lists the intake answers from a given rank on, each under the step of matching rank and only under those steps. |
| `Interview.RecordedFirst` | app.py:139-140 | The first of these answers is stored under its own step, apart from the later ones. |
| `Interview.IntakeFirstTurn` | app.py:125-140 | The first of several intake answers stores the message and echoes it into the history, and the run continues from the state it leaves. |
| `Interview.IntakeRunSteps` | app.py:127-140 | Intake answers need no model call. They advance one step each and leave tech stack, count and asked set alone. |
| `Interview.IntakeRunAnswers` | app.py:137-140 | A run of intake answers adds each answer, verbatim, under the step that was current when it came. |
| `Interview.IntakeRunHistory` | app.py:125-151 | A run of intake answers appends two entries per answer, with each answer as a user entry, in order. |
| `Interview.IntakeFromStart` | app.py:57-140 | Seven non-exit answers from a fresh session are stored verbatim under `greeting` … `location`. The session then waits at `tech_stack` with no questions asked. |
| `Interview.RecordedFromStart` | app.py:128-140 | The seven answers from the first step land under `greeting`, `full_name`, `email`, `phone`, `experience`, `position` and `location`, in that order. |
| `ChatSession.Session.constructor` | app.py:57-65 | The new session's fields equal `Init()`, which satisfies the invariant. |
| `ChatSession.Session.GenerateNextQuestion` | app.py:88-113 | The returned question and the updated fields are exactly those of `Generate` on the old fields. The `while true` loop stops at the first fresh stripped response. |
| `ChatSession.Session.ProcessChat` | app.py:117-152 | The updated fields are exactly those of `Process` on the old fields, and the session invariant is kept. |

## Left out

- The Streamlit user interface is not modelled: `configure_sidebar`, `show_chat`, `main`, titles, warnings and rendering (app.py:44-53, 68-71, 158-178). The sidebar's option list is kept as the constant `ModelLoader.SidebarOptions`, which `ModelLoader.SidebarOptionsLoad` uses.
- `st.rerun()` is modelled as the end of the turn. The framework mechanics of re-running the script are not modelled.
- `get_ai_response` and the LangChain client constructors are calls into libraries. A backend is modelled as a datatype tag carrying its settings. Model responses, including the error strings `get_ai_response` returns, are an oracle sequence of strings. The prompt text built at app.py:98-103 is not modelled, because the oracle's answer does not depend on it here.
- `.env` loading, environment reads and logging are I/O. Each API key is a parameter holding the value `os.getenv` would return.
- Exceptions are not modelled: the `except` paths at app.py:38-40, 81-83 and 153-155. A failure after app.py:125 would leave the user entry followed by a generic error `ai` entry.
- `Interview.Generate` and `ChatSession.Session.GenerateNextQuestion` require some response in the oracle sequence to strip to an unasked question. The source loops forever when none comes, and the model does not describe that non-termination.
- `Text.Lower` lower-cases only ASCII letters. No non-ASCII character lower-cases to one of the exit keywords, so the exit test is unaffected. `Text.Strip` removes the characters Python's `str.isspace()` accepts.
- `setup_chat_session` is modelled on a new session only. On later runs it leaves existing fields untouched, which the class keeps anyway. The source creates `asked_questions` lazily on the first generation below the cap. The model starts with an empty set, which behaves the same.

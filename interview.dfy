/**
 * The interview as a transition system over values: the session state, what one user
 * turn does to it (`process_chat`) and what producing a technical question does to it
 * (`generate_next_question`). The class in `ChatSession` performs the same updates in
 * place and is proved to agree with the functions here.
 */
module Interview {
  import opened Wrappers
  import opened Text

  datatype Role = User | Ai

  /** One `{"role": …, "content": …}` entry of the chat history. */
  datatype Entry = Entry(role: Role, content: string)

  /** The value of `step`. The application only ever writes the nine named steps;
      `Unknown` stands for any other string the session could hold. */
  datatype Step =
    | Greeting | FullName | Email | Phone | Experience | Position | Location
    | TechStack | Questioning
    | Unknown

  const ExitKeywords: seq<string> := ["exit", "quit", "stop", "end"]
  const ExitReply: string := "Thank you for your time! We will get back to you."
  const QuestionsIntro: string := "Great! Let's begin the technical interview. Here's your first question:"
  const AllDone: string := "That's all for the interview! Thank you for your time."
  const NotSure: string := "I'm not sure how to proceed. Can you clarify?"
  const QuestionSeparator: string := "\n\n"
  const MaxQuestions: int := 5

  /** The intake steps in the order they are visited, as stored in the step table. */
  const IntakeSteps: seq<Step> := [Greeting, FullName, Email, Phone, Experience, Position, Location]

  /** Position of a step along greeting → … → tech_stack → questioning. */
  function Rank(step: Step): nat
    requires step != Unknown
  {
    match step
    case Greeting => 0
    case FullName => 1
    case Email => 2
    case Phone => 3
    case Experience => 4
    case Position => 5
    case Location => 6
    case TechStack => 7
    case Questioning => 8
  }

  /** Different steps have different ranks. */
  lemma RankIdentifies(a: Step, b: Step)
    requires a != Unknown && b != Unknown && Rank(a) == Rank(b)
    ensures a == b
  {
  }

  /** A row of the step table: the reply sent back and the step that follows. */
  datatype Prompt = Prompt(reply: string, next: Step)

  const AskFullName: string := "Hello! Let's start. What's your full name?"
  const AskEmail: string := "Thanks! Now, please provide your email address."
  const AskPhone: string := "Got it! Your phone number next, please."
  const AskExperience: string := "How many years of experience do you have?"
  const AskPosition: string := "What position are you applying for?"
  const AskLocation: string := "Where are you currently located?"
  const AskTechStack: string := "Finally, list your tech stack (e.g., Python, Django, SQL)."

  /** The `steps` dictionary of `process_chat`. */
  function StepTable(step: Step): Option<Prompt> {
    match step
    case Greeting => Some(Prompt(AskFullName, FullName))
    case FullName => Some(Prompt(AskEmail, Email))
    case Email => Some(Prompt(AskPhone, Phone))
    case Phone => Some(Prompt(AskExperience, Experience))
    case Experience => Some(Prompt(AskPosition, Position))
    case Position => Some(Prompt(AskLocation, Location))
    case Location => Some(Prompt(AskTechStack, TechStack))
    case _ => None
  }

  /** The table has exactly the intake steps as keys, and each row moves one step forward. */
  lemma StepTableFollowsOrder(step: Step)
    ensures StepTable(step).Some? <==> step in IntakeSteps
    ensures StepTable(step).Some? ==>
      StepTable(step).value.next != Unknown && Rank(StepTable(step).value.next) == Rank(step) + 1
    ensures step in IntakeSteps ==> IntakeSteps[Rank(step)] == step
    ensures step != Unknown ==> (step in IntakeSteps <==> Rank(step) < |IntakeSteps|)
  {
  }

  /** The intake steps are listed in rank order, so they are pairwise distinct. */
  lemma IntakeRanks()
    ensures forall j :: 0 <= j < |IntakeSteps| ==> IntakeSteps[j] != Unknown && Rank(IntakeSteps[j]) == j
  {
  }

  /** The message, lower-cased, is one of the exit keywords. */
  predicate IsExit(message: string) {
    Lower(message) in ExitKeywords
  }

  /** A message takes the exit branch, which appends the closing message, exactly when it
      spells an exit keyword in any mix of upper and lower case, with nothing around it. */
  lemma {:induction false} ExitIgnoresCase(message: string)
    ensures IsExit(message) <==>
      SpellsIgnoringCase(message, "exit") || SpellsIgnoringCase(message, "quit") ||
      SpellsIgnoringCase(message, "stop") || SpellsIgnoringCase(message, "end")
  {
    LowerEqualsWord(message, "exit");
    LowerEqualsWord(message, "quit");
    LowerEqualsWord(message, "stop");
    LowerEqualsWord(message, "end");
  }

  /** The whole of `st.session_state` that the interview uses. `answers` holds the
      attributes written by `setattr`, keyed by the step they were stored under. */
  datatype State = State(
    history: seq<Entry>,
    step: Step,
    answers: map<Step, string>,
    techStack: string,
    questionCount: int,
    asked: set<string>)

  /** `setup_chat_session` on a fresh session. */
  function Init(): (s: State)
    ensures s.history == [] && s.step == Greeting && s.answers == map[]
    ensures s.techStack == "" && s.questionCount == 0 && s.asked == {}
  {
    State([], Greeting, map[], "", 0, {})
  }

  // ---------------------------------------------------------------- question generation

  /** The questions the model's responses stand for: each response stripped. */
  function Candidates(responses: seq<string>): (c: seq<string>)
    ensures |c| == |responses|
    ensures forall k :: 0 <= k < |c| ==> c[k] == Strip(responses[k])
  {
    seq(|responses|, k requires 0 <= k < |responses| => Strip(responses[k]))
  }

  /** Some candidate is a question not asked yet. */
  predicate HasFresh(candidates: seq<string>, asked: set<string>) {
    exists k :: 0 <= k < |candidates| && candidates[k] !in asked
  }

  /** Index of the first candidate that has not been asked. */
  function FirstFresh(candidates: seq<string>, asked: set<string>): (k: nat)
    requires HasFresh(candidates, asked)
    ensures k < |candidates| && candidates[k] !in asked
    ensures forall j :: 0 <= j < k ==> candidates[j] in asked
  {
    if candidates[0] !in asked then 0
    else
      assert HasFresh(candidates[1..], asked) by {
        var k :| 0 <= k < |candidates| && candidates[k] !in asked;
        assert k > 0 && candidates[1..][k - 1] == candidates[k];
      }
      var k := FirstFresh(candidates[1..], asked);
      assert forall j :: 1 <= j <= k ==> candidates[j] == candidates[1..][j - 1];
      1 + k
  }

  /** The first fresh candidate is determined by being fresh with only repeats before it. */
  lemma FirstFreshUnique(candidates: seq<string>, asked: set<string>, k: nat)
    requires k < |candidates| && candidates[k] !in asked
    requires forall j :: 0 <= j < k ==> candidates[j] in asked
    ensures HasFresh(candidates, asked) && FirstFresh(candidates, asked) == k
  {
  }

  /** What `generate_next_question` returns, together with the session it leaves. */
  datatype Generated = Generated(state: State, question: string)

  /** `generate_next_question`: at the cap it only says the interview is over; otherwise it
      draws model responses until a stripped one is new, records it and counts it.
      `responses` are the model's answers, in the order the loop would receive them. */
  function Generate(s: State, responses: seq<string>): (g: Generated)
    requires s.questionCount < MaxQuestions ==> HasFresh(Candidates(responses), s.asked)
    ensures s.questionCount >= MaxQuestions ==> g == Generated(s, AllDone)
    ensures s.questionCount < MaxQuestions ==>
      g.question !in s.asked &&
      g.state == s.(asked := s.asked + {g.question}, questionCount := s.questionCount + 1)
    ensures s.questionCount < MaxQuestions ==>
      exists k :: 0 <= k < |responses| && g.question == Strip(responses[k]) &&
        forall j :: 0 <= j < k ==> Strip(responses[j]) in s.asked
  {
    if s.questionCount >= MaxQuestions then Generated(s, AllDone)
    else
      var c := Candidates(responses);
      var q := c[FirstFresh(c, s.asked)];
      Generated(s.(asked := s.asked + {q}, questionCount := s.questionCount + 1), q)
  }

  /** The example run: with "Q1" already asked, the responses "Q1", " Q1\n", "Q2" produce "Q2". */
  lemma GenerateSkipsRepeats(s: State)
    requires s.asked == {"Q1"} && s.questionCount == 1
    ensures HasFresh(Candidates(["Q1", " Q1\n", "Q2"]), s.asked)
    ensures Generate(s, ["Q1", " Q1\n", "Q2"]) == Generated(s.(asked := {"Q1", "Q2"}, questionCount := 2), "Q2")
  {
    ExampleCandidates();
    var c := Candidates(["Q1", " Q1\n", "Q2"]);
    assert "Q2" != "Q1" by { assert "Q2"[1] != "Q1"[1]; }
    assert c[2] !in s.asked;
    FirstFreshUnique(c, s.asked, 2);
  }

  lemma ExampleCandidates()
    ensures var c := Candidates(["Q1", " Q1\n", "Q2"]);
      |c| == 3 && c[0] == "Q1" && c[1] == "Q1" && c[2] == "Q2"
  {
    StripKeepsTrimmed("Q1");
    StripPaddedQuestion();
    StripKeepsTrimmed("Q2");
  }

  lemma StripPaddedQuestion()
    ensures Strip(" Q1\n") == "Q1"
  {
  }

  // ---------------------------------------------------------------- one user turn

  /** Which branch of `process_chat` a message takes. */
  datatype Branch =
    | ExitTurn
    | TableTurn(prompt: Prompt)
    | StartQuestions
    | NextQuestion
    | Confused

  function BranchOf(step: Step, message: string): Branch {
    if IsExit(message) then ExitTurn
    else if StepTable(step).Some? then TableTurn(StepTable(step).value)
    else if step == TechStack then StartQuestions
    else if step == Questioning then NextQuestion
    else Confused
  }

  /** Which messages take which branch: the table branch is taken exactly at the seven intake
      steps, and "not sure" only at a step that is none of the nine names. */
  lemma BranchCases(step: Step, message: string)
    ensures var b := BranchOf(step, message);
      (b.ExitTurn? <==> IsExit(message)) &&
      (b.TableTurn? <==> !IsExit(message) && step in IntakeSteps) &&
      (b.StartQuestions? <==> !IsExit(message) && step == TechStack) &&
      (b.NextQuestion? <==> !IsExit(message) && step == Questioning) &&
      (b.Confused? <==> !IsExit(message) && step == Unknown)
  {
    StepTableFollowsOrder(step);
  }

  /** The turn asks the model for a question. */
  predicate Generates(s: State, message: string) {
    var b := BranchOf(s.step, message);
    (b.StartQuestions? || b.NextQuestion?) && s.questionCount < MaxQuestions
  }

  /** The model's responses let the question loop finish, if the turn runs it. */
  predicate CanProcess(s: State, message: string, responses: seq<string>) {
    Generates(s, message) ==> HasFresh(Candidates(responses), s.asked)
  }

  /** `process_chat` for one message, `st.rerun()` ending the turn. */
  function Process(s: State, message: string, responses: seq<string>): (t: State)
    requires CanProcess(s, message, responses)
    ensures IsExit(message) ==> t == s.(history := s.history + [Entry(Ai, ExitReply)])
    ensures !IsExit(message) ==>
      |t.history| == |s.history| + 2 && t.history[..|s.history|] == s.history &&
      t.history[|s.history|] == Entry(User, message) && t.history[|s.history| + 1].role == Ai
  {
    var u := s.(history := s.history + [Entry(User, message)]);
    match BranchOf(s.step, message)
    case ExitTurn =>
      s.(history := s.history + [Entry(Ai, ExitReply)])
    case TableTurn(p) =>
      u.(history := u.history + [Entry(Ai, p.reply)],
         answers := s.answers[s.step := message],
         step := p.next)
    case StartQuestions =>
      var g := Generate(u.(techStack := message, step := Questioning), responses);
      assert g.state.history == u.history;
      g.state.(history := g.state.history + [Entry(Ai, QuestionsIntro + QuestionSeparator + g.question)])
    case NextQuestion =>
      var g := Generate(u, responses);
      assert g.state.history == u.history;
      g.state.(history := g.state.history + [Entry(Ai, g.question)])
    case Confused =>
      u.(history := u.history + [Entry(Ai, NotSure)])
  }

  /** The reply appended by a non-exit turn. */
  function LastReply(t: State): string
    requires |t.history| > 0
  {
    t.history[|t.history| - 1].content
  }

  /** At an intake step the message is stored under the current step's name, the step
      advances along the table and the table's prompt is the reply; nothing else changes. */
  lemma IntakeTurn(s: State, message: string, responses: seq<string>)
    requires !IsExit(message) && StepTable(s.step).Some?
    ensures var t := Process(s, message, responses);
      t.answers == s.answers[s.step := message] && t.step == StepTable(s.step).value.next &&
      LastReply(t) == StepTable(s.step).value.reply &&
      t.techStack == s.techStack && t.questionCount == s.questionCount && t.asked == s.asked
  {
  }

  /** The first answer is stored as `greeting`, and the reply asks for the full name. */
  lemma GreetingTurn(message: string)
    requires !IsExit(message)
    ensures var t := Process(Init(), message, []);
      t.answers == map[Greeting := message] && t.step == FullName &&
      t.history == [Entry(User, message), Entry(Ai, AskFullName)]
  {
  }

  /** At `tech_stack` the message becomes the tech stack, questioning starts and the reply
      introduces the first generated question, which was not asked before. */
  lemma TechStackTurn(s: State, message: string, responses: seq<string>)
    requires !IsExit(message) && s.step == TechStack
    requires s.questionCount == 0 && HasFresh(Candidates(responses), s.asked)
    ensures var t := Process(s, message, responses);
      t.techStack == message && t.step == Questioning && t.questionCount == 1 &&
      t.answers == s.answers &&
      exists q :: q !in s.asked && t.asked == s.asked + {q} &&
        LastReply(t) == QuestionsIntro + QuestionSeparator + q
    ensures var t := Process(s, message, responses);
      exists k :: 0 <= k < |responses| &&
        LastReply(t) == QuestionsIntro + QuestionSeparator + Strip(responses[k]) &&
        forall j :: 0 <= j < k ==> Strip(responses[j]) in s.asked
  {
  }

  /** Once the cap is reached every further answer gets the closing sentence and nothing else moves. */
  lemma QuestioningAfterCap(s: State, message: string, responses: seq<string>)
    requires !IsExit(message) && s.step == Questioning && s.questionCount >= MaxQuestions
    ensures var t := Process(s, message, responses);
      t == s.(history := s.history + [Entry(User, message), Entry(Ai, AllDone)])
  {
  }

  /** Below the cap a `questioning` turn replies with a question not asked before, records
      it and counts it; the step, tech stack and stored answers stay as they were. */
  lemma QuestioningTurn(s: State, message: string, responses: seq<string>)
    requires !IsExit(message) && s.step == Questioning && s.questionCount < MaxQuestions
    requires HasFresh(Candidates(responses), s.asked)
    ensures var t := Process(s, message, responses);
      t.step == Questioning && t.questionCount == s.questionCount + 1 &&
      LastReply(t) !in s.asked && t.asked == s.asked + {LastReply(t)} &&
      t.techStack == s.techStack && t.answers == s.answers
    ensures var t := Process(s, message, responses);
      exists k :: 0 <= k < |responses| && LastReply(t) == Strip(responses[k]) &&
        forall j :: 0 <= j < k ==> Strip(responses[j]) in s.asked
  {
  }

  /** `message` does the same after the closing message `e` as it does after `s`: the same
      step, answers, tech stack and questions, and the same two new history entries. */
  ghost predicate SameAfterClosing(s: State, message: string, responses: seq<string>)
    requires CanProcess(s, message, responses)
  {
    var e := s.(history := s.history + [Entry(Ai, ExitReply)]);
    var u := Process(s, message, responses);
    CanProcess(e, message, responses) &&
    var t := Process(e, message, responses);
    t.step == u.step && t.answers == u.answers && t.techStack == u.techStack &&
    t.questionCount == u.questionCount && t.asked == u.asked &&
    t.history == e.history + u.history[|s.history|..]
  }

  /** An exit message only appends the closing message: the next message carries on from
      the same step, with the same answers and questions, as if the exit had not been sent. */
  lemma {:induction false} ExitThenContinue(s: State, exit: string, message: string, responses: seq<string>)
    requires IsExit(exit) && CanProcess(s, message, responses)
    ensures CanProcess(Process(s, exit, []), message, responses)
    ensures var t := Process(Process(s, exit, []), message, responses);
      var u := Process(s, message, responses);
      t.step == u.step && t.answers == u.answers && t.techStack == u.techStack &&
      t.questionCount == u.questionCount && t.asked == u.asked &&
      t.history == s.history + [Entry(Ai, ExitReply)] + u.history[|s.history|..]
  {
    assert Process(s, exit, []) == s.(history := s.history + [Entry(Ai, ExitReply)]);
    match BranchOf(s.step, message)
    case ExitTurn => ExitAfterClosing(s, message, responses);
    case TableTurn(p) => TableAfterClosing(s, message, responses);
    case StartQuestions => StartAfterClosing(s, message, responses);
    case NextQuestion => NextAfterClosing(s, message, responses);
    case Confused => ConfusedAfterClosing(s, message, responses);
  }

  lemma ExitAfterClosing(s: State, message: string, responses: seq<string>)
    requires BranchOf(s.step, message).ExitTurn? && CanProcess(s, message, responses)
    ensures SameAfterClosing(s, message, responses)
  {
  }

  lemma TableAfterClosing(s: State, message: string, responses: seq<string>)
    requires BranchOf(s.step, message).TableTurn? && CanProcess(s, message, responses)
    ensures SameAfterClosing(s, message, responses)
  {
  }

  lemma StartAfterClosing(s: State, message: string, responses: seq<string>)
    requires BranchOf(s.step, message).StartQuestions? && CanProcess(s, message, responses)
    ensures SameAfterClosing(s, message, responses)
  {
    var e := s.(history := s.history + [Entry(Ai, ExitReply)]);
    var v := s.(history := s.history + [Entry(User, message)], techStack := message, step := Questioning);
    GenerateIgnoresHistory(v, e.history + [Entry(User, message)], responses);
  }

  lemma NextAfterClosing(s: State, message: string, responses: seq<string>)
    requires BranchOf(s.step, message).NextQuestion? && CanProcess(s, message, responses)
    ensures SameAfterClosing(s, message, responses)
  {
    var e := s.(history := s.history + [Entry(Ai, ExitReply)]);
    var v := s.(history := s.history + [Entry(User, message)]);
    GenerateIgnoresHistory(v, e.history + [Entry(User, message)], responses);
  }

  /** The question drawn, and the rest of the state it leaves, do not depend on the history. */
  lemma GenerateIgnoresHistory(s: State, h: seq<Entry>, responses: seq<string>)
    requires s.questionCount < MaxQuestions ==> HasFresh(Candidates(responses), s.asked)
    ensures var g := Generate(s, responses);
      Generate(s.(history := h), responses) == Generated(g.state.(history := h), g.question)
  {
  }

  lemma ConfusedAfterClosing(s: State, message: string, responses: seq<string>)
    requires BranchOf(s.step, message).Confused? && CanProcess(s, message, responses)
    ensures SameAfterClosing(s, message, responses)
  {
  }

  // ---------------------------------------------------------------- invariants of a session

  /** The intake steps before `step`: those whose answers have been stored. */
  function AnsweredBefore(step: Step): set<Step>
    requires step != Unknown
  {
    set i | 0 <= i < |IntakeSteps| && i < Rank(step) :: IntakeSteps[i]
  }

  /** What holds of every session reachable from `Init()`. */
  ghost predicate Inv(s: State) {
    s.step != Unknown &&
    0 <= s.questionCount <= MaxQuestions &&
    |s.asked| == s.questionCount &&
    (s.step == Questioning <==> s.questionCount >= 1) &&
    (s.step != Questioning ==> s.techStack == "") &&
    s.answers.Keys == AnsweredBefore(s.step)
  }

  lemma InitInv()
    ensures Inv(Init())
  {
  }

  /** Storing the answer for an intake step adds exactly that step to the answered set. */
  lemma {:induction false} AnsweredAfterStore(step: Step)
    requires StepTable(step).Some?
    ensures AnsweredBefore(StepTable(step).value.next) == AnsweredBefore(step) + {step}
  {
    var next := StepTable(step).value.next;
    StepTableFollowsOrder(step);
    forall x | x in AnsweredBefore(next) ensures x in AnsweredBefore(step) + {step} {
      var i :| 0 <= i < |IntakeSteps| && i < Rank(next) && IntakeSteps[i] == x;
      if i == Rank(step) { assert x == step; }
    }
    forall x | x in AnsweredBefore(step) + {step} ensures x in AnsweredBefore(next) {
      if x == step {
        assert IntakeSteps[Rank(step)] == step;
      } else {
        var i :| 0 <= i < |IntakeSteps| && i < Rank(step) && IntakeSteps[i] == x;
        assert i < Rank(next);
      }
    }
  }

  /** Once past the intake, all seven intake answers are stored. */
  lemma AllAnsweredAfterIntake(step: Step)
    requires step == TechStack || step == Questioning
    ensures AnsweredBefore(step) == set i | 0 <= i < |IntakeSteps| :: IntakeSteps[i]
  {
  }

  /** In a reachable session the "not sure how to proceed" branch cannot be taken. */
  lemma NeverConfused(s: State, message: string)
    requires Inv(s)
    ensures !BranchOf(s.step, message).Confused?
  {
  }

  /** Every turn keeps the session invariant. */
  lemma {:induction false} ProcessKeepsInv(s: State, message: string, responses: seq<string>)
    requires Inv(s) && CanProcess(s, message, responses)
    ensures Inv(Process(s, message, responses))
  {
    match BranchOf(s.step, message)
    case ExitTurn => ExitKeepsInv(s, message, responses);
    case TableTurn(p) => IntakeTurnKeepsInv(s, message, responses);
    case StartQuestions => StartQuestionsKeepsInv(s, message, responses);
    case NextQuestion => NextQuestionKeepsInv(s, message, responses);
    case Confused =>
  }

  lemma ExitKeepsInv(s: State, message: string, responses: seq<string>)
    requires Inv(s) && IsExit(message)
    ensures Inv(Process(s, message, responses))
  {
  }

  lemma {:induction false} IntakeTurnKeepsInv(s: State, message: string, responses: seq<string>)
    requires Inv(s) && BranchOf(s.step, message).TableTurn?
    ensures Inv(Process(s, message, responses))
  {
    AnsweredAfterStore(s.step);
    StepTableFollowsOrder(s.step);
  }

  lemma {:induction false} StartQuestionsKeepsInv(s: State, message: string, responses: seq<string>)
    requires Inv(s) && BranchOf(s.step, message).StartQuestions? && CanProcess(s, message, responses)
    ensures Inv(Process(s, message, responses))
  {
    AllAnsweredAfterIntake(TechStack);
    AllAnsweredAfterIntake(Questioning);
  }

  lemma NextQuestionKeepsInv(s: State, message: string, responses: seq<string>)
    requires Inv(s) && BranchOf(s.step, message).NextQuestion? && CanProcess(s, message, responses)
    ensures Inv(Process(s, message, responses))
  {
  }

  /** Steps only move forward, one at a time, until `questioning`, which never changes. */
  lemma StepOrder(s: State, message: string, responses: seq<string>)
    requires s.step != Unknown && CanProcess(s, message, responses)
    ensures var t := Process(s, message, responses);
      t.step != Unknown &&
      Rank(t.step) == if IsExit(message) || s.step == Questioning then Rank(s.step) else Rank(s.step) + 1
  {
    var t := Process(s, message, responses);
    match BranchOf(s.step, message)
    case ExitTurn =>
      assert t.step == s.step;
    case TableTurn(p) =>
      StepTableFollowsOrder(s.step);
      assert t.step == p.next;
    case StartQuestions =>
      assert t.step == Questioning && s.step == TechStack;
    case NextQuestion =>
      assert t.step == Questioning && s.step == Questioning;
    case Confused =>
  }

  // ---------------------------------------------------------------- whole conversations

  /** One user message and the responses the model gives during that turn. */
  datatype Turn = Turn(message: string, responses: seq<string>)

  /** Every turn of the conversation can finish its question loop. */
  ghost predicate Runnable(s: State, turns: seq<Turn>)
    decreases |turns|
  {
    turns == [] ||
    (CanProcess(s, turns[0].message, turns[0].responses) &&
     Runnable(Process(s, turns[0].message, turns[0].responses), turns[1..]))
  }

  /** The session after the given turns. */
  ghost function Run(s: State, turns: seq<Turn>): State
    requires Runnable(s, turns)
    decreases |turns|
  {
    if turns == [] then s
    else Run(Process(s, turns[0].message, turns[0].responses), turns[1..])
  }

  /** Any conversation from a fresh session keeps the invariant: the step is always one of
      the nine names, at most five questions are asked and all of them are distinct. */
  lemma {:induction false} RunKeepsInv(s: State, turns: seq<Turn>)
    requires Inv(s) && Runnable(s, turns)
    ensures Inv(Run(s, turns))
    decreases |turns|
  {
    if turns != [] {
      ProcessKeepsInv(s, turns[0].message, turns[0].responses);
      RunKeepsInv(Process(s, turns[0].message, turns[0].responses), turns[1..]);
    }
  }

  /** A conversation only ever appends to the history. */
  lemma {:induction false} RunExtendsHistory(s: State, turns: seq<Turn>)
    requires Runnable(s, turns)
    ensures s.history <= Run(s, turns).history
    decreases |turns|
  {
    if turns != [] {
      var t := Process(s, turns[0].message, turns[0].responses);
      RunExtendsHistory(t, turns[1..]);
    }
  }

  /** Answers in `questioning` below the cap each add one new question to the asked set. */
  lemma {:induction false} QuestioningRun(s: State, turns: seq<Turn>)
    requires s.step == Questioning && |s.asked| == s.questionCount
    requires s.questionCount + |turns| <= MaxQuestions
    requires forall i :: 0 <= i < |turns| ==> !IsExit(turns[i].message)
    requires Runnable(s, turns)
    ensures var t := Run(s, turns);
      t.step == Questioning && t.questionCount == s.questionCount + |turns| &&
      |t.asked| == t.questionCount && s.asked <= t.asked &&
      t.techStack == s.techStack && t.answers == s.answers
    decreases |turns|
  {
    if turns != [] {
      var s1 := Process(s, turns[0].message, turns[0].responses);
      QuestioningTurn(s, turns[0].message, turns[0].responses);
      assert forall i :: 0 <= i < |turns[1..]| ==> turns[1..][i] == turns[i + 1];
      QuestioningRun(s1, turns[1..]);
    }
  }

  /** The tech stack answer and four further answers, each with a fresh model response,
      make exactly five distinct questions. */
  lemma FiveQuestions(s: State, turns: seq<Turn>)
    requires s.step == TechStack && s.questionCount == 0 && s.asked == {}
    requires |turns| == MaxQuestions && Runnable(s, turns)
    requires forall i :: 0 <= i < |turns| ==> !IsExit(turns[i].message)
    ensures var t := Run(s, turns);
      t.step == Questioning && t.questionCount == MaxQuestions && |t.asked| == MaxQuestions &&
      t.techStack == turns[0].message
  {
    var s1 := Process(s, turns[0].message, turns[0].responses);
    TechStackTurn(s, turns[0].message, turns[0].responses);
    assert forall i :: 0 <= i < |turns[1..]| ==> turns[1..][i] == turns[i + 1];
    QuestioningRun(s1, turns[1..]);
  }

  /** Intake answers without any model calls. */
  function IntakeTurns(messages: seq<string>): (turns: seq<Turn>)
    ensures |turns| == |messages|
    ensures forall i :: 0 <= i < |messages| ==> turns[i] == Turn(messages[i], [])
  {
    seq(|messages|, i requires 0 <= i < |messages| => Turn(messages[i], []))
  }

  /** The answers given from rank `from` on, each keyed by the intake step it is stored under. */
  function Recorded(from: nat, messages: seq<string>): (m: map<Step, string>)
    requires from + |messages| <= |IntakeSteps|
    ensures forall k :: k in m ==> k != Unknown && from <= Rank(k) < from + |messages|
    ensures forall j :: from <= j < from + |messages| ==>
      IntakeSteps[j] in m && m[IntakeSteps[j]] == messages[j - from]
    decreases |messages|
  {
    IntakeRanks();
    if messages == [] then map[]
    else Recorded(from + 1, messages[1..])[IntakeSteps[from] := messages[0]]
  }

  /** The first recorded answer sits under the step of rank `from`, apart from the later ones. */
  lemma RecordedFirst(from: nat, messages: seq<string>)
    requires messages != [] && from + |messages| <= |IntakeSteps|
    ensures IntakeSteps[from] !in Recorded(from + 1, messages[1..])
    ensures Recorded(from, messages) == Recorded(from + 1, messages[1..])[IntakeSteps[from] := messages[0]]
  {
  }

  /** Storing one answer and then the later ones is storing them all at once. */
  lemma StoreThenUnion(answers: map<Step, string>, later: map<Step, string>, k: Step, v: string)
    requires k !in later
    ensures answers[k := v] + later == answers + later[k := v]
  {
  }

  /** The first of several intake answers: what it stores, and that the rest of the run
      continues from the state it leaves. */
  lemma IntakeFirstTurn(s: State, messages: seq<string>)
    requires messages != [] && !IsExit(messages[0]) && StepTable(s.step).Some?
    ensures var s1 := Process(s, messages[0], []);
      CanProcess(s, messages[0], []) && IntakeTurns(messages)[1..] == IntakeTurns(messages[1..]) &&
      s1.step == StepTable(s.step).value.next && s1.answers == s.answers[s.step := messages[0]] &&
      s1.history[..|s.history|] == s.history && |s1.history| == |s.history| + 2 &&
      s1.history[|s.history|] == Entry(User, messages[0]) &&
      s1.techStack == s.techStack && s1.questionCount == s.questionCount && s1.asked == s.asked
  {
  }

  /** Answering intake questions one after another needs no model response, advances one
      step per answer and leaves the question state alone. */
  lemma {:induction false} IntakeRunSteps(s: State, messages: seq<string>)
    requires s.step != Unknown && Rank(s.step) + |messages| <= |IntakeSteps|
    requires forall i :: 0 <= i < |messages| ==> !IsExit(messages[i])
    ensures Runnable(s, IntakeTurns(messages))
    ensures var t := Run(s, IntakeTurns(messages));
      t.step != Unknown && Rank(t.step) == Rank(s.step) + |messages| &&
      t.techStack == s.techStack && t.questionCount == s.questionCount && t.asked == s.asked
    decreases |messages|
  {
    if messages != [] {
      StepTableFollowsOrder(s.step);
      IntakeFirstTurn(s, messages);
      IntakeRunSteps(Process(s, messages[0], []), messages[1..]);
    }
  }

  /** Each intake answer is stored verbatim under the step that was current when it came. */
  lemma {:induction false} IntakeRunAnswers(s: State, messages: seq<string>)
    requires s.step != Unknown && Rank(s.step) + |messages| <= |IntakeSteps|
    requires forall i :: 0 <= i < |messages| ==> !IsExit(messages[i])
    ensures Runnable(s, IntakeTurns(messages))
    ensures Run(s, IntakeTurns(messages)).answers == s.answers + Recorded(Rank(s.step), messages)
    decreases |messages|
  {
    IntakeRunSteps(s, messages);
    var r := Rank(s.step);
    if messages == [] {
      assert s.answers + Recorded(r, messages) == s.answers;
    } else {
      StepTableFollowsOrder(s.step);
      IntakeFirstTurn(s, messages);
      var s1 := Process(s, messages[0], []);
      var rest := messages[1..];
      IntakeRunAnswers(s1, rest);
      assert Run(s, IntakeTurns(messages)) == Run(s1, IntakeTurns(rest));
      RecordedFirst(r, messages);
      StoreThenUnion(s.answers, Recorded(r + 1, rest), IntakeSteps[r], messages[0]);
    }
  }

  /** `h` is `h0` followed by two entries per message, the first of each pair being the
      message itself as a user entry. */
  predicate Echoes(h0: seq<Entry>, h: seq<Entry>, messages: seq<string>) {
    |h| == |h0| + 2 * |messages| && h[..|h0|] == h0 &&
    forall i :: 0 <= i < |messages| ==> h[|h0| + 2 * i] == Entry(User, messages[i])
  }

  /** One echoed message followed by the echoes of the rest is an echo of them all. */
  lemma EchoesExtend(h0: seq<Entry>, h1: seq<Entry>, h: seq<Entry>, messages: seq<string>)
    requires messages != []
    requires |h1| == |h0| + 2 && h1[..|h0|] == h0 && h1[|h0|] == Entry(User, messages[0])
    requires Echoes(h1, h, messages[1..])
    ensures Echoes(h0, h, messages)
  {
    assert h[..|h0|] == h1[..|h0|];
    forall i | 0 <= i < |messages| ensures h[|h0| + 2 * i] == Entry(User, messages[i]) {
      if i > 0 {
        assert h[|h1| + 2 * (i - 1)] == Entry(User, messages[1..][i - 1]);
      } else {
        assert h[..|h1|][|h0|] == h1[|h0|];
      }
    }
  }

  /** Each intake answer appears in the history as a user entry, in the order given. */
  lemma {:induction false} IntakeRunHistory(s: State, messages: seq<string>)
    requires s.step != Unknown && Rank(s.step) + |messages| <= |IntakeSteps|
    requires forall i :: 0 <= i < |messages| ==> !IsExit(messages[i])
    ensures Runnable(s, IntakeTurns(messages))
    ensures Echoes(s.history, Run(s, IntakeTurns(messages)).history, messages)
    decreases |messages|
  {
    IntakeRunSteps(s, messages);
    if messages == [] {
      assert s.history[..|s.history|] == s.history;
    } else {
      StepTableFollowsOrder(s.step);
      IntakeFirstTurn(s, messages);
      var s1 := Process(s, messages[0], []);
      IntakeRunHistory(s1, messages[1..]);
      assert Run(s, IntakeTurns(messages)) == Run(s1, IntakeTurns(messages[1..]));
      EchoesExtend(s.history, s1.history, Run(s1, IntakeTurns(messages[1..])).history, messages);
    }
  }

  /** The seven intake answers from a fresh session are stored verbatim, the greeting answer
      under `greeting`, and the session then waits for the tech stack. */
  lemma IntakeFromStart(messages: seq<string>)
    requires |messages| == |IntakeSteps|
    requires forall i :: 0 <= i < |messages| ==> !IsExit(messages[i])
    ensures Runnable(Init(), IntakeTurns(messages))
    ensures var t := Run(Init(), IntakeTurns(messages));
      t.step == TechStack && t.questionCount == 0 &&
      t.answers == map[Greeting := messages[0], FullName := messages[1], Email := messages[2],
                       Phone := messages[3], Experience := messages[4], Position := messages[5],
                       Location := messages[6]]
  {
    IntakeRunSteps(Init(), messages);
    IntakeRunAnswers(Init(), messages);
    RecordedFromStart(messages);
    var t := Run(Init(), IntakeTurns(messages));
    RankIdentifies(t.step, TechStack);
    assert t.answers == map[] + Recorded(0, messages);
    assert map[] + Recorded(0, messages) == Recorded(0, messages);
  }

  lemma RecordedFromStart(messages: seq<string>)
    requires |messages| == |IntakeSteps|
    ensures Recorded(0, messages) ==
      map[Greeting := messages[0], FullName := messages[1], Email := messages[2],
          Phone := messages[3], Experience := messages[4], Position := messages[5],
          Location := messages[6]]
  {
    var m := Recorded(0, messages);
    var expected := map[Greeting := messages[0], FullName := messages[1], Email := messages[2],
                        Phone := messages[3], Experience := messages[4], Position := messages[5],
                        Location := messages[6]];
    assert IntakeSteps[0] in m && IntakeSteps[1] in m && IntakeSteps[2] in m && IntakeSteps[3] in m;
    assert IntakeSteps[4] in m && IntakeSteps[5] in m && IntakeSteps[6] in m;
    forall k | k in m ensures k in expected {
      assert Rank(k) < 7;
    }
    assert m == expected;
  }

  /** From a fresh session, no conversation reaches the "not sure" branch, and the question
      count stays within the cap with one distinct recorded question per count. */
  lemma Reachable(turns: seq<Turn>, message: string)
    requires Runnable(Init(), turns)
    ensures var s := Run(Init(), turns);
      !BranchOf(s.step, message).Confused? &&
      0 <= s.questionCount <= MaxQuestions && |s.asked| == s.questionCount
  {
    InitInv();
    RunKeepsInv(Init(), turns);
  }
}

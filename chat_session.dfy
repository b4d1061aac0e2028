/**
 * The session object the application mutates on every turn, with the two operations
 * that change it in place. Each method is proved to leave exactly the state that the
 * corresponding function of `Interview` describes.
 */
module ChatSession {
  import opened Text
  import opened Interview

  /** `st.session_state` as the interview uses it. */
  class Session {
    var history: seq<Entry>
    var step: Step
    /** The attributes written by `setattr`, keyed by the step that named them. */
    var answers: map<Step, string>
    var techStack: string
    var questionCount: int
    var askedQuestions: set<string>

    /** The session as a value. */
    function View(): State
      reads this
    {
      State(history, step, answers, techStack, questionCount, askedQuestions)
    }

    /** `setup_chat_session` on a session that holds nothing yet. */
    constructor ()
      ensures View() == Init()
      ensures Inv(View())
    {
      history := [];
      step := Greeting;
      answers := map[];
      techStack := "";
      questionCount := 0;
      askedQuestions := {};
      new;
      InitInv();
    }

    /** `generate_next_question`. `responses` are the model's answers to the prompt, in the
        order the retry loop would receive them. */
    method GenerateNextQuestion(responses: seq<string>) returns (question: string)
      requires questionCount < MaxQuestions ==> HasFresh(Candidates(responses), askedQuestions)
      modifies this
      ensures Generated(View(), question) == Generate(old(View()), responses)
    {
      if questionCount >= MaxQuestions {
        return AllDone;
      }
      ghost var first := FirstFresh(Candidates(responses), askedQuestions);
      var i := 0;
      while true
        invariant i <= first
        invariant unchanged(this)
        decreases first - i
      {
        question := Strip(responses[i]);
        if question !in askedQuestions {
          assert i == first;
          askedQuestions := askedQuestions + {question};
          break;
        }
        i := i + 1;
      }
      questionCount := questionCount + 1;
    }

    /** `process_chat` for one message; the `st.rerun()` calls end the turn. */
    method ProcessChat(message: string, responses: seq<string>)
      requires CanProcess(View(), message, responses)
      modifies this
      ensures View() == Process(old(View()), message, responses)
      ensures Inv(old(View())) ==> Inv(View())
    {
      ghost var before := View();
      if Inv(before) {
        ProcessKeepsInv(before, message, responses);
      }
      if IsExit(message) {
        history := history + [Entry(Ai, ExitReply)];
        return;
      }
      history := history + [Entry(User, message)];
      var response: string;
      var row := StepTable(step);
      if row.Some? {
        assert BranchOf(before.step, message) == TableTurn(row.value);
        response := row.value.reply;
        answers := answers[step := message];
        step := row.value.next;
      } else if step == TechStack {
        assert BranchOf(before.step, message) == StartQuestions;
        techStack := message;
        response := QuestionsIntro;
        step := Questioning;
        var question := GenerateNextQuestion(responses);
        response := response + QuestionSeparator + question;
      } else if step == Questioning {
        assert BranchOf(before.step, message) == NextQuestion;
        response := GenerateNextQuestion(responses);
      } else {
        response := NotSure;
      }
      history := history + [Entry(Ai, response)];
    }
  }
}

/**
 * The Gemini revision of the questionnaire bot (app.py).
 *
 * Two pieces of state change as messages arrive: the module-level map
 * `user_data` from a user id to that user's answers (prompt text to answer
 * text), and the per-user session dictionary `context.user_data` holding
 * `current_index`, `current_question` and `awaiting_clarification`. The
 * class Dialogue keeps both as fields and its methods are the handlers. Each
 * handler touches one user only; what it does to that user is specified by a
 * pure step function over UserState, and the lemmas about the step functions
 * carry the dialogue's properties.
 *
 * Telegram replies are reduced to a Reply value, and the value a handler
 * returns to the conversation handler to a Next value. The Gemini call is the
 * parameter `llm`: None stands for any exception raised by the call.
 */
module GeminiApp {
  import opened Survey
  import opened Text

  type UserId = int

  // The prompt texts. Texts longer than forty characters are written as
  // concatenations of shorter literals: the value is the same, and the
  // verifier can then check that each is a Line.
  const StartDateText: Line := "Когда Ваш старт? (например 20.06.2025)"
  const DistanceText: Line := "Какая дистанция?"
  const LevelText: Line := "Ваш уровень подготовки?"
  const DaysText: Line := "Сколько дней в неделю планируете бегать?"
  const PlaceText: Line := "Где будут проходить тренировки?"
  const DurationText: Line := "Сколько времени готовы тратить " + "на тренировку?"
  const HealthText: Line := "Есть ли ограничения по здоровью " + "или травмы?"
  const LongestRunText: Line := "Сколько максимально километров " + "пробегали за тренировку?"
  const CompetitionsAsk: Line := "В каких соревнованиях участвовали " + "за последние 3 месяца? "
  const CompetitionsText: Line := CompetitionsAsk + "(или 'Не участвовал')"

  /** The questionnaire, in the order it is asked. */
  const Questions: seq<Question> := [
    FreeText(StartDateText),
    Choice(DistanceText, ["800–3000 м", "3–10 км", "21 км", "42 км"]),
    Choice(LevelText, ["Новичок", "Любитель", "Опытный"]),
    Choice(DaysText, ["1", "3", "5", "7"]),
    Choice(PlaceText, ["Лес", "Парк", "Стадион", "Беговая дорожка"]),
    Choice(DurationText, ["до 45 мин", "45–60 мин", "60–90 мин"]),
    Choice(HealthText, ["Болят колени", "Болит надкостница", Other]),
    FreeText(LongestRunText),
    FreeText(CompetitionsText)
  ]

  /** Nine questions with pairwise different prompt texts. */
  lemma CatalogDistinct()
    ensures |Questions| == 9
    ensures DistinctTexts(Questions)
  {
    // the texts have pairwise different lengths
    assert |StartDateText| == 38;
    assert |DistanceText| == 16;
    assert |LevelText| == 23;
    assert |DaysText| == 40;
    assert |PlaceText| == 31;
    assert |DurationText| == 45;
    assert |HealthText| == 43;
    assert |LongestRunText| == 55;
    assert |CompetitionsText| == 78;
  }

  // ---------------------------------------------------------------------
  // Prompt for the language model
  // ---------------------------------------------------------------------

  const PromptTitle: Line := "Составь беговую программу " + "на основе следующих ответов:"

  /** The fixed start of every prompt: the title line, then an empty line. */
  const PromptHeader := PromptTitle + "\n\n"

  /** `answers.get(q['text'], '')` */
  function AnswerFor(answers: map<string, string>, q: Question): string
  {
    if q.text in answers then answers[q.text] else ""
  }

  /** One line per catalog question, in catalog order: the prompt text, a space, the answer. */
  function PromptLines(answers: map<string, string>): (r: seq<string>)
  {
    seq(|Questions|, k requires 0 <= k < |Questions| => Questions[k].text + " " + AnswerFor(answers, Questions[k]))
  }

  /** `generate_prompt`: the header followed by the lines joined with newlines. */
  function GeneratePrompt(answers: map<string, string>): (r: string)
    ensures PromptHeader <= r
  {
    PromptHeader + Join('\n', PromptLines(answers))
  }

  /** Every recorded answer fits on one line. */
  predicate SingleLineAnswers(answers: map<string, string>)
  {
    forall t :: t in answers ==> '\n' !in answers[t]
  }

  /** No prompt line holds a line break when no answer does. */
  lemma PromptLinesSingle(answers: map<string, string>)
    requires SingleLineAnswers(answers)
    ensures SeparatorFree('\n', PromptLines(answers))
  {
    var body := PromptLines(answers);
    forall k | 0 <= k < |body| ensures '\n' !in body[k] {
      assert Questions[k].text in answers ==> '\n' !in answers[Questions[k].text];
    }
  }

  /**
   * Read back line by line, the prompt is the title, an empty line, and then
   * exactly one line per catalog question in catalog order, from which the
   * answer to that question (or '' when there is none) is recovered by
   * dropping the question text and the space.
   */
  lemma PromptLayout(answers: map<string, string>)
    requires SingleLineAnswers(answers)
    ensures var lines := Split('\n', GeneratePrompt(answers));
      && |lines| == 2 + |Questions|
      && lines[0] == PromptTitle && lines[1] == ""
      && forall k :: 0 <= k < |Questions| ==>
           && lines[2 + k] == Questions[k].text + " " + AnswerFor(answers, Questions[k])
           && lines[2 + k][|Questions[k].text| + 1..] == AnswerFor(answers, Questions[k])
  {
    var body := PromptLines(answers);
    var all := [PromptTitle, ""] + body;
    assert GeneratePrompt(answers) == Join('\n', all) by {
      TitleThenJoin('\n', PromptTitle, body);
    }
    assert Split('\n', Join('\n', all)) == all by {
      PromptLinesSingle(answers);
      SplitJoin('\n', all);
    }
    forall k | 0 <= k < |Questions|
      ensures all[2 + k][|Questions[k].text| + 1..] == AnswerFor(answers, Questions[k])
    {
      var q := Questions[k];
      assert all[2 + k] == (q.text + " ") + AnswerFor(answers, q);
    }
  }

  /** Answers stored under keys that are not catalog texts never reach the prompt. */
  lemma PromptReadsOnlyCatalogAnswers(a: map<string, string>, b: map<string, string>)
    requires forall k :: 0 <= k < |Questions| ==> AnswerFor(a, Questions[k]) == AnswerFor(b, Questions[k])
    ensures GeneratePrompt(a) == GeneratePrompt(b)
  {
    assert PromptLines(a) == PromptLines(b);
  }

  const GeminiFallback := "⚠️ Не удалось получить ответ от Gemini. Попробуйте позже."

  /**
   * `generate_training_program`: the model's text for the prompt, or the
   * fixed apology when the call fails.
   */
  function TrainingProgram(answers: map<string, string>, llm: string -> Option<string>): (r: string)
    ensures r == GeminiFallback || llm(GeneratePrompt(answers)) == Some(r)
  {
    match llm(GeneratePrompt(answers))
    case Some(text) => text
    case None => GeminiFallback
  }

  // ---------------------------------------------------------------------
  // One user's dialogue state and the handlers' steps on it
  // ---------------------------------------------------------------------

  /**
   * `context.user_data`: each key either holds a value or is absent. A
   * missing `awaiting_clarification` reads as false, like False does.
   */
  datatype Context = Context(index: Option<nat>, question: Option<Question>, awaiting: bool)

  /** `context.user_data` after `clear()`. */
  const Cleared := Context(None, None, false)

  /** What the handlers see of one user: the `user_data` entry (if any) and the session. */
  datatype UserState = UserState(answers: Option<map<string, string>>, ctx: Context)

  /** The message a handler sends, abstracted from its Telegram form. */
  datatype Reply =
    | AskedQuestion(index: nat)   // the catalog question at index, with its option keyboard if it has one
    | ChooseFromOptions           // "Выберите из предложенных вариантов."
    | AskClarification            // "Пожалуйста, уточните:"
    | Program(text: string)       // the training program, then the closing hint
    | NoData                      // "Ошибка: нет данных для генерации."
    | CancelNotice                // "❌ Анкета отменена. ..."

  /** What a handler returns to the conversation handler; Unchanged is Python's None. */
  datatype Next = InQuestion | InClarification | Ended | Unchanged

  datatype Outcome = Outcome(reply: Reply, next: Next)

  /** `finish_questionnaire` */
  function FinishStep(s: UserState, llm: string -> Option<string>): (r: (UserState, Outcome))
    ensures r.0.answers == s.answers && r.1.next == Ended
  {
    var answers := if s.answers.Some? then s.answers.value else map[];
    if answers == map[] then (s, Outcome(NoData, Ended))
    else (s.(ctx := Cleared), Outcome(Program(TrainingProgram(answers, llm)), Ended))
  }

  /** `ask_question` */
  function AskStep(s: UserState, llm: string -> Option<string>): (r: (UserState, Outcome))
    ensures r.0.answers == s.answers
    ensures r.1.next == Unchanged || r.1.next == Ended
  {
    var i := if s.ctx.index.Some? then s.ctx.index.value + 1 else 0;
    if i >= |Questions| then FinishStep(s, llm)
    else (s.(ctx := s.ctx.(index := Some(i), question := Some(Questions[i]))), Outcome(AskedQuestion(i), Unchanged))
  }

  /** `start`: whatever came before, fresh answers and a cleared session, then the first question. */
  function StartStep(llm: string -> Option<string>): (r: (UserState, Outcome))
    ensures r.0.answers == Some(map[]) && r.1.next == InQuestion
  {
    var asked := AskStep(UserState(Some(map[]), Cleared), llm);
    (asked.0, Outcome(asked.1.reply, InQuestion))
  }

  /** `cancel`: the answers entry is dropped and the session cleared, from any state. */
  function CancelStep(): (r: (UserState, Outcome))
    ensures r.0.answers.None? && r.1.next == Ended
  {
    (UserState(None, Cleared), Outcome(CancelNotice, Ended))
  }

  /**
   * What `handle_answer` needs in order not to raise: a question in the
   * session and an answers entry. Within one chat, the conversation handler
   * only routes text to it between `start` and the end of the conversation,
   * where this holds.
   */
  predicate Active(s: UserState)
  {
    s.ctx.question.Some? && s.answers.Some?
  }

  /** `handle_answer` */
  function AnswerStep(s: UserState, text: string, llm: string -> Option<string>): (r: (UserState, Outcome))
    requires Active(s)
    ensures r.0.answers.Some?
    ensures r.0.answers.value.Keys == s.answers.value.Keys
         || r.0.answers.value.Keys == s.answers.value.Keys + {s.ctx.question.value.text}
  {
    var q := s.ctx.question.value;
    if s.ctx.awaiting then
      AskStep(UserState(Some(s.answers.value[q.text := "Другое: " + text]), s.ctx.(awaiting := false)), llm)
    else if q.Choice? && text !in q.options then
      (s, Outcome(ChooseFromOptions, InQuestion))
    else if text == Other && q.Choice? then
      (s.(ctx := s.ctx.(awaiting := true)), Outcome(AskClarification, InClarification))
    else
      AskStep(s.(answers := Some(s.answers.value[q.text := text])), llm)
  }

  /**
   * The shape of a conversation in progress: the session points at catalog
   * question i, the answers are keyed by exactly the texts of the questions
   * before it, and a pending clarification belongs to a question offering
   * the "other" option.
   */
  predicate InProgress(s: UserState)
  {
    && s.ctx.index.Some? && s.ctx.index.value < |Questions|
    && s.ctx.question == Some(Questions[s.ctx.index.value])
    && s.answers.Some? && s.answers.value.Keys == TextsBefore(Questions, s.ctx.index.value)
    && (s.ctx.awaiting ==> Questions[s.ctx.index.value].Choice? && Other in Questions[s.ctx.index.value].options)
  }

  // ---------------------------------------------------------------------
  // Properties of the steps
  // ---------------------------------------------------------------------

  /** `start` leaves no answers and asks question 0 (index -1 + 1). */
  lemma StartAsksFirstQuestion(llm: string -> Option<string>)
    ensures StartStep(llm).0 == UserState(Some(map[]), Context(Some(0), Some(Questions[0]), false))
    ensures StartStep(llm).1 == Outcome(AskedQuestion(0), InQuestion)
    ensures InProgress(StartStep(llm).0)
  {
    assert TextsBefore(Questions, 0) == {};
  }

  /**
   * `ask_question` moves the index to exactly one past the stored one (-1
   * when none is stored) and stores that question; once the index would
   * reach the catalog's length it finishes instead, storing neither.
   */
  lemma AskAdvancesIndex(s: UserState, llm: string -> Option<string>)
    ensures var i := if s.ctx.index.Some? then s.ctx.index.value + 1 else 0;
      var r := AskStep(s, llm);
      if i < |Questions| then
        && r.0.answers == s.answers && r.0.ctx.awaiting == s.ctx.awaiting
        && r.0.ctx.index == Some(i) && r.0.ctx.question == Some(Questions[i])
        && r.1 == Outcome(AskedQuestion(i), Unchanged)
      else
        r == FinishStep(s, llm) && r.0.ctx.index != Some(i)
  {
  }

  /** An answer outside the options of the current question changes nothing and re-prompts. */
  lemma InvalidOptionChangesNothing(s: UserState, text: string, llm: string -> Option<string>)
    requires Active(s) && !s.ctx.awaiting
    requires s.ctx.question.value.Choice? && text !in s.ctx.question.value.options
    ensures AnswerStep(s, text, llm) == (s, Outcome(ChooseFromOptions, InQuestion))
  {
  }

  /** Choosing "Другое" only raises the clarification flag. */
  lemma OtherAwaitsClarification(s: UserState, llm: string -> Option<string>)
    requires Active(s) && !s.ctx.awaiting
    requires s.ctx.question.value.Choice? && Other in s.ctx.question.value.options
    ensures var r := AnswerStep(s, Other, llm);
      && r.0.answers == s.answers
      && r.0.ctx == s.ctx.(awaiting := true)
      && r.1 == Outcome(AskClarification, InClarification)
  {
  }

  /**
   * While awaiting a clarification, any text is recorded as "Другое: " + text
   * under the current question, without option checking; the flag is
   * cleared and the dialogue moves on to the next question, or, after the
   * last one, sends the program.
   */
  lemma ClarificationRecorded(s: UserState, text: string, llm: string -> Option<string>)
    requires Active(s) && s.ctx.awaiting
    ensures var q := s.ctx.question.value;
      var i := if s.ctx.index.Some? then s.ctx.index.value + 1 else 0;
      var r := AnswerStep(s, text, llm);
      && r.0.answers == Some(s.answers.value[q.text := "Другое: " + text])
      && !r.0.ctx.awaiting
      && if i < |Questions| then
           r.0.ctx.index == Some(i) && r.0.ctx.question == Some(Questions[i])
           && r.1 == Outcome(AskedQuestion(i), Unchanged)
         else
           r.0.ctx == Cleared && r.1.next == Ended && r.1.reply.Program?
  {
    var q := s.ctx.question.value;
    assert q.text in s.answers.value[q.text := "Другое: " + text];
  }

  /**
   * A free-text answer, or an option other than "Другое", overwrites the
   * entry of the current question's text, and the dialogue moves on to the
   * next question, or, after the last one, sends the program.
   */
  lemma ValidAnswerRecorded(s: UserState, text: string, llm: string -> Option<string>)
    requires Active(s) && !s.ctx.awaiting
    requires var q := s.ctx.question.value; q.FreeText? || (text in q.options && text != Other)
    ensures var q := s.ctx.question.value;
      var i := if s.ctx.index.Some? then s.ctx.index.value + 1 else 0;
      var r := AnswerStep(s, text, llm);
      && r.0.answers == Some(s.answers.value[q.text := text])
      && !r.0.ctx.awaiting
      && if i < |Questions| then
           r.0.ctx.index == Some(i) && r.0.ctx.question == Some(Questions[i])
           && r.1 == Outcome(AskedQuestion(i), Unchanged)
         else
           r.0.ctx == Cleared && r.1.next == Ended && r.1.reply.Program?
  {
    var q := s.ctx.question.value;
    assert q.text in s.answers.value[q.text := text];
  }

  /** The catalog texts before i + 1 are those before i and question i's text. */
  lemma TextsBeforeStep(i: nat)
    requires i < |Questions|
    ensures TextsBefore(Questions, i + 1) == TextsBefore(Questions, i) + {Questions[i].text}
  {
  }

  /**
   * Once the answer to question i is recorded, `ask_question` either moves on
   * to question i + 1 with the conversation still in progress, or, after the
   * last question, sends the program and clears the session.
   */
  lemma AskAfterRecord(s: UserState, llm: string -> Option<string>)
    requires s.ctx.index.Some? && s.ctx.index.value < |Questions| && !s.ctx.awaiting
    requires s.answers.Some? && s.answers.value.Keys == TextsBefore(Questions, s.ctx.index.value + 1)
    ensures var r := AskStep(s, llm);
      if r.1.next == Ended then
        && r.1.reply.Program? && r.0.ctx == Cleared
        && r.0.answers == s.answers && s.ctx.index.value + 1 == |Questions|
      else
        InProgress(r.0) && r.0.ctx.index == Some(s.ctx.index.value + 1)
  {
    var i := s.ctx.index.value;
    if i + 1 == |Questions| {
      assert Questions[i].text in s.answers.value;
    }
  }

  /**
   * Every message keeps a conversation in progress, its index at most one
   * further; or it is the last answer, and then the session is cleared, the
   * answers hold one entry for every catalog question, and the program is
   * sent (so the no-data branch of `finish_questionnaire` is never taken).
   */
  lemma AnswerKeepsProgress(s: UserState, text: string, llm: string -> Option<string>)
    requires InProgress(s)
    ensures Active(s)
    ensures var r := AnswerStep(s, text, llm);
      if r.1.next == Ended then
        && r.1.reply.Program? && r.0.ctx == Cleared
        && r.0.answers.Some? && r.0.answers.value.Keys == TextsBefore(Questions, |Questions|)
      else
        && InProgress(r.0)
        && s.ctx.index.value <= r.0.ctx.index.value <= s.ctx.index.value + 1
  {
    var i := s.ctx.index.value;
    var q := Questions[i];
    if s.ctx.awaiting || (!(q.Choice? && text !in q.options) && !(text == Other && q.Choice?)) {
      var stored := if s.ctx.awaiting then "Другое: " + text else text;
      var answers := s.answers.value[q.text := stored];
      assert answers.Keys == TextsBefore(Questions, i + 1) by {
        TextsBeforeStep(i);
      }
      var moved := UserState(Some(answers), s.ctx.(awaiting := false));
      assert AnswerStep(s, text, llm) == AskStep(moved, llm);
      AskAfterRecord(moved, llm);
    }
  }

  /** A conversation at question i holds exactly i answers. */
  lemma AnswerCountIsIndex(s: UserState)
    requires InProgress(s)
    ensures |s.answers.value| == s.ctx.index.value
  {
    CatalogDistinct();
    TextsBeforeCount(Questions, s.ctx.index.value);
    assert |s.answers.value| == |s.answers.value.Keys|;
  }

  /**
   * `finish_questionnaire` with no answers only reports the error; otherwise
   * it clears the session and keeps the answers entry.
   */
  lemma FinishGuardsEmptyAnswers(s: UserState, llm: string -> Option<string>)
    ensures var r := FinishStep(s, llm);
      r.1.reply == NoData <==> s.answers.None? || s.answers.value == map[]
    ensures var r := FinishStep(s, llm);
      r.1.reply == NoData ==> r.0 == s
    ensures var r := FinishStep(s, llm);
      r.1.reply != NoData ==> && r.0.ctx == Cleared && r.0.answers == s.answers
                              && r.1.reply == Program(TrainingProgram(s.answers.value, llm))
  {
  }

  /** A failed model call yields the fixed apology; a successful one is relayed verbatim. */
  lemma ProgramFallsBack(answers: map<string, string>, llm: string -> Option<string>)
    ensures llm(GeneratePrompt(answers)).None? ==> TrainingProgram(answers, llm) == GeminiFallback
    ensures llm(GeneratePrompt(answers)).Some? ==> TrainingProgram(answers, llm) == llm(GeneratePrompt(answers)).value
  {
  }

  /** After `cancel` no answers remain, and a following `start` begins empty at question 0. */
  lemma CancelThenStart(llm: string -> Option<string>)
    ensures CancelStep().0.answers.None? && CancelStep().0.ctx == Cleared
    ensures StartStep(llm).0.answers == Some(map[]) && StartStep(llm).0.ctx.index == Some(0)
  {
  }

  // ---------------------------------------------------------------------
  // The handlers over the state of all users
  // ---------------------------------------------------------------------

  class Dialogue {
    /** `user_data`: the answers of each user who has started. */
    var userData: map<UserId, map<string, string>>
    /** `context.user_data` of each user; a user never seen has an empty one. */
    var contexts: map<UserId, Context>

    constructor ()
      ensures userData == map[] && contexts == map[]
    {
      userData := map[];
      contexts := map[];
    }

    /** The part of the state that belongs to user u. */
    function StateOf(u: UserId): UserState
      reads this
    {
      UserState(if u in userData then Some(userData[u]) else None,
                if u in contexts then contexts[u] else Cleared)
    }

    method Start(u: UserId, llm: string -> Option<string>) returns (o: Outcome)
      modifies this
      ensures StateOf(u) == StartStep(llm).0 && o == StartStep(llm).1
      ensures userData - {u} == old(userData) - {u} && contexts - {u} == old(contexts) - {u}
    {
      userData := userData[u := map[]];
      contexts := contexts[u := Cleared];
      var asked := AskQuestion(u, llm);
      o := Outcome(asked.reply, InQuestion);
    }

    method AskQuestion(u: UserId, llm: string -> Option<string>) returns (o: Outcome)
      modifies this
      ensures StateOf(u) == AskStep(old(StateOf(u)), llm).0 && o == AskStep(old(StateOf(u)), llm).1
      ensures userData - {u} == old(userData) - {u} && contexts - {u} == old(contexts) - {u}
    {
      var ctx := if u in contexts then contexts[u] else Cleared;
      var i: int := (if ctx.index.Some? then ctx.index.value else -1) + 1;
      if i >= |Questions| {
        o := FinishQuestionnaire(u, llm);
        return;
      }
      contexts := contexts[u := ctx.(index := Some(i), question := Some(Questions[i]))];
      o := Outcome(AskedQuestion(i), Unchanged);
    }

    method HandleAnswer(u: UserId, text: string, llm: string -> Option<string>) returns (o: Outcome)
      requires Active(StateOf(u))
      modifies this
      ensures StateOf(u) == AnswerStep(old(StateOf(u)), text, llm).0
      ensures o == AnswerStep(old(StateOf(u)), text, llm).1
      ensures userData - {u} == old(userData) - {u} && contexts - {u} == old(contexts) - {u}
    {
      var ctx := contexts[u];
      var q := ctx.question.value;
      if ctx.awaiting {
        userData := userData[u := userData[u][q.text := "Другое: " + text]];
        contexts := contexts[u := ctx.(awaiting := false)];
        o := AskQuestion(u, llm);
        return;
      }
      if q.Choice? && text !in q.options {
        o := Outcome(ChooseFromOptions, InQuestion);
        return;
      }
      if text == Other && q.Choice? {
        contexts := contexts[u := ctx.(awaiting := true)];
        o := Outcome(AskClarification, InClarification);
        return;
      }
      userData := userData[u := userData[u][q.text := text]];
      o := AskQuestion(u, llm);
    }

    method FinishQuestionnaire(u: UserId, llm: string -> Option<string>) returns (o: Outcome)
      modifies this
      ensures StateOf(u) == FinishStep(old(StateOf(u)), llm).0 && o == FinishStep(old(StateOf(u)), llm).1
      ensures userData == old(userData) && contexts - {u} == old(contexts) - {u}
    {
      var answers := if u in userData then userData[u] else map[];
      if answers == map[] {
        o := Outcome(NoData, Ended);
        return;
      }
      var program := TrainingProgram(answers, llm);
      contexts := contexts[u := Cleared];
      o := Outcome(Program(program), Ended);
    }

    method Cancel(u: UserId) returns (o: Outcome)
      modifies this
      ensures StateOf(u) == CancelStep().0 && o == CancelStep().1
      ensures userData - {u} == old(userData) - {u} && contexts - {u} == old(contexts) - {u}
    {
      userData := userData - {u};
      contexts := contexts[u := Cleared];
      o := Outcome(CancelNotice, Ended);
    }
  }
}

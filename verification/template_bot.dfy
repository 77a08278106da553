/**
 * The template revision of the questionnaire bot (bot.py).
 *
 * The module-level map `user_data` holds, per chat, a record with the
 * answers dictionary (insertion-ordered), the index of the current question
 * and the flag `awaiting_custom_input`. The class Bot keeps that map as a
 * field and its methods are the handlers. There is no conversation handler in
 * front of them: text from a chat that never sent /start raises KeyError, and
 * text after the last question raises IndexError; both leave the state as it
 * was, and are modelled as Raised replies.
 *
 * When the catalog is exhausted, the program is rendered locally from the
 * answers and the distance answer; nothing external is called.
 */
module TemplateBot {
  import opened Survey
  import opened Text
  import opened InsertionDict

  type ChatId = int

  // The prompt texts. Texts longer than forty characters are written as
  // concatenations of shorter literals: the value is the same, and the
  // verifier can then check that each is a Line.
  const StartDateText: Line := "Когда Ваш старт? (например: 20.06.2025)"
  const DistanceText: Line := "Какая дистанция?"
  const LevelText: Line := "Ваш уровень подготовки?"
  const DaysText: Line := "Сколько дней в неделю планируете бегать?"
  const PlaceText: Line := "Где будут проходить тренировки?"
  const DurationText: Line := "Сколько времени готовы тратить " + "на тренировку?"
  const InjuryText: Line := "Есть ли ограничения по здоровью " + "или травмы?"
  const LongestRunText: Line := "Сколько максимально пробегали " + "за тренировку?"
  const CompetitionsAsk: Line := "Какие соревнования бегали " + "последнее время? "
  const CompetitionsHint: Line := "(введите дистанцию и результат " + "или нажмите 'Не участвовал')"
  const CompetitionsText: Line := CompetitionsAsk + CompetitionsHint

  /** The questionnaire, in the order it is asked. */
  const Questions: seq<Question> := [
    FreeText(StartDateText),
    Choice(DistanceText, ["800–3000 м", "3–10 км", "21 км", "42 км"]),
    Choice(LevelText, ["Новичок", "Любитель", "Опытный"]),
    Choice(DaysText, ["1", "3", "5", "7"]),
    Choice(PlaceText, ["Парк", "Стадион", "Лес"]),
    Choice(DurationText, ["45 мин", "45–60 мин", "60–90 мин"]),
    Choice(InjuryText, ["Колени", "Надкостница", Other]),
    FreeText(LongestRunText),
    Choice(CompetitionsText, ["Не участвовал"])
  ]

  /** The extra key under which the injury clarification is also stored. */
  const InjuryDetailKey := "Уточнение по травме"

  /** Nine questions with pairwise different prompt texts, none of them the extra key. */
  lemma CatalogDistinct()
    ensures |Questions| == 9
    ensures DistinctTexts(Questions)
    ensures forall k :: 0 <= k < |Questions| ==> Questions[k].text != InjuryDetailKey
  {
    // the texts have pairwise different lengths, and none has the extra key's length
    assert |InjuryDetailKey| == 19;
    assert |StartDateText| == 39;
    assert |DistanceText| == 16;
    assert |LevelText| == 23;
    assert |DaysText| == 40;
    assert |PlaceText| == 31;
    assert |DurationText| == 45;
    assert |InjuryText| == 43;
    assert |LongestRunText| == 44;
    assert |CompetitionsText| == 102;
  }

  // ---------------------------------------------------------------------
  // The rendered program
  // ---------------------------------------------------------------------

  const ProgramTitle: Line := "\U{1F3C1} Ваша программа тренировок:"
  const WeekTitle: Line := "\U{1F4C5} Примерная структура недели:"

  /** The result starts with the title and an empty line. */
  const ProgramHeader := ProgramTitle + "\n\n"

  /** Between the answers and the bullets: an empty line, the week title, a line break. */
  const WeekHeader := "\n" + WeekTitle + "\n"

  /** The bullet lines chosen by the distance answer: four for "42 км", three otherwise. */
  function BulletLines(distance: Option<string>): (r: seq<Line>)
    ensures |r| == if distance == Some("42 км") then 4 else 3
  {
    if distance == Some("42 км") then MarathonBullets
    else if distance == Some("21 км") then HalfMarathonBullets
    else OtherBullets
  }

  const MarathonBullets: seq<Line> := ["- Темповый бег", "- Интервалы", "- Долгий бег", "- Восстановление"]
  const HalfMarathonBullets: seq<Line> := ["- Бег 3 раза в неделю", "- Кардио", "- Растяжка"]
  const OtherBullets: seq<Line> := ["- Бег 3–5 раз в неделю", "- Силовые", "- Интервалы"]

  /** Each block of bullets, as one text, is its lines joined by line breaks. */
  lemma MarathonBlock()
    ensures Join('\n', MarathonBullets) == "- Темповый бег\n- Интервалы\n" + "- Долгий бег\n- Восстановление"
  {
    var b := MarathonBullets;
    assert Join('\n', b[2..]) == b[2] + "\n" + b[3];
    assert Join('\n', b) == b[0] + "\n" + (b[1] + "\n" + Join('\n', b[2..]));
  }

  lemma HalfMarathonBlock()
    ensures Join('\n', HalfMarathonBullets) == "- Бег 3 раза в неделю\n" + "- Кардио\n- Растяжка"
  {
  }

  lemma OtherBlock()
    ensures Join('\n', OtherBullets) == "- Бег 3–5 раз в неделю\n" + "- Силовые\n- Интервалы"
  {
  }

  /** The closing block: the bullet lines with a line break between neighbours and none after the last. */
  function Bullets(distance: Option<string>): string
  {
    Join('\n', BulletLines(distance))
  }

  /** `f"{key}: {value}"` */
  function EntryText(e: Entry): string
  {
    e.key + ": " + e.value
  }

  /** The answer lines, in the dictionary's iteration order. */
  function EntryTexts(d: Entries): (r: seq<string>)
  {
    seq(|d|, i requires 0 <= i < |d| => EntryText(d[i]))
  }

  /** `generate_program`'s text for the answers d. */
  function ProgramText(d: Entries): (r: string)
    ensures ProgramHeader <= r
  {
    ProgramHeader + Terminated('\n', EntryTexts(d)) + WeekHeader + Bullets(Lookup(d, DistanceText))
  }

  /** Neither a key nor a value holds a line break. */
  predicate SingleLineEntries(d: Entries)
  {
    forall i :: 0 <= i < |d| ==> '\n' !in d[i].key && '\n' !in d[i].value
  }

  /** The program's lines: the title, an empty line, the answers, an empty line, the week title, the bullets. */
  function ProgramLines(d: Entries): seq<string>
  {
    [ProgramTitle, ""] + EntryTexts(d) + ["", WeekTitle] + BulletLines(Lookup(d, DistanceText))
  }

  /**
   * A title, an empty line, separator-terminated entries, an empty line, a
   * second title and joined bullets are the join of all those lines.
   */
  lemma {:induction false} LayoutJoin(title: string, entries: seq<string>, week: string, bullets: seq<string>)
    requires |bullets| > 0
    ensures title + "\n\n" + Terminated('\n', entries) + ("\n" + week + "\n") + Join('\n', bullets)
         == Join('\n', [title, ""] + entries + ["", week] + bullets)
  {
    var tail := ["", week] + bullets;
    var head, terminated, blank, joined := title + "\n\n", Terminated('\n', entries), "\n" + week + "\n", Join('\n', bullets);
    assert head + terminated + blank + joined == head + (terminated + (blank + joined));
    assert blank + joined == Join('\n', tail) by { BlankThenJoin('\n', week, bullets); }
    assert terminated + Join('\n', tail) == Join('\n', entries + tail) by { TerminatedJoin('\n', entries, tail); }
    assert head + Join('\n', entries + tail) == Join('\n', [title, ""] + (entries + tail)) by {
      TitleThenJoin('\n', title, entries + tail);
    }
    assert [title, ""] + (entries + tail) == [title, ""] + entries + ["", week] + bullets;
  }

  /** The rendered text is the join of its lines. */
  lemma ProgramIsJoin(d: Entries)
    ensures ProgramText(d) == Join('\n', ProgramLines(d))
  {
    LayoutJoin(ProgramTitle, EntryTexts(d), WeekTitle, BulletLines(Lookup(d, DistanceText)));
  }

  /** With single-line answers, no line of the program holds a line break. */
  lemma ProgramLinesSingle(d: Entries)
    requires SingleLineEntries(d)
    ensures SeparatorFree('\n', ProgramLines(d))
  {
    var all := ProgramLines(d);
    var bullets := BulletLines(Lookup(d, DistanceText));
    forall i | 0 <= i < |all| ensures '\n' !in all[i] {
      if 2 <= i < 2 + |d| {
        assert all[i] == d[i - 2].key + ": " + d[i - 2].value;
      } else if i == 2 + |d| + 1 {
        assert all[i] == WeekTitle;
      } else if i >= 2 + |d| + 2 {
        assert all[i] == bullets[i - 4 - |d|];
      }
    }
  }

  /**
   * Read back line by line, the program is the title, an empty line, one
   * "key: value" line per answer in insertion order, an empty line, the week
   * title, and the bullet lines chosen by the distance answer.
   */
  lemma ProgramLayout(d: Entries)
    requires SingleLineEntries(d)
    ensures Split('\n', ProgramText(d))
      == [ProgramTitle, ""] + EntryTexts(d) + ["", WeekTitle] + BulletLines(Lookup(d, DistanceText))
  {
    ProgramIsJoin(d);
    ProgramLinesSingle(d);
    SplitJoin('\n', ProgramLines(d));
  }

  // ---------------------------------------------------------------------
  // One chat's record and the handlers' steps on it
  // ---------------------------------------------------------------------

  /**
   * `user_data[chat]`. A missing `awaiting_custom_input` reads as false,
   * like False does.
   */
  datatype ChatRecord = ChatRecord(answers: Entries, current: nat, awaiting: bool)

  /** `{"answers": {}, "current_question": 0}` */
  const StartRecord := ChatRecord([], 0, false)

  datatype Failure = KeyError | IndexError

  /** The message a handler sends, abstracted from its Telegram form. */
  datatype Reply =
    | AskedQuestion(index: nat)   // the catalog question at index, with its option keyboard if it has one
    | AskClarification            // "Уточните, пожалуйста:"
    | Program(text: string)       // the rendered program, then the closing wish
    | Raised(failure: Failure)    // the handler raised before changing anything

  /** `ask_question`: the program once the index reaches the catalog's length, else the question. */
  function AskReply(rec: ChatRecord): (r: Reply)
    ensures r.Program? <==> rec.current >= |Questions|
    ensures r.AskedQuestion? ==> r.index == rec.current
  {
    if rec.current >= |Questions| then Program(ProgramText(rec.answers)) else AskedQuestion(rec.current)
  }

  /** "Другое" on the injury question: the one answer after which a detail is awaited. */
  predicate AwaitsDetail(rec: ChatRecord, text: string)
    requires rec.current < |Questions|
  {
    Questions[rec.current].text == InjuryText && text == Other
  }

  /** The record after `handle_answer` on a record whose index names a question. */
  function Answer(rec: ChatRecord, text: string): (r: ChatRecord)
    requires rec.current < |Questions|
    ensures rec.current <= r.current <= rec.current + 1
    ensures r.awaiting <==> r.current == rec.current
  {
    var answers := Put(rec.answers, Questions[rec.current].text, text);
    if AwaitsDetail(rec, text) then
      rec.(answers := answers, awaiting := true)
    else
      var answers' := if rec.awaiting then Put(answers, InjuryDetailKey, text) else answers;
      ChatRecord(answers', rec.current + 1, false)
  }

  /** The reply of `handle_answer` on a record whose index names a question. */
  function AnswerReply(rec: ChatRecord, text: string): (r: Reply)
    requires rec.current < |Questions|
    ensures r.AskClarification? <==> AwaitsDetail(rec, text)
    ensures !r.Raised?
  {
    if AwaitsDetail(rec, text) then AskClarification else AskReply(Answer(rec, text))
  }

  /** The record after `handle_answer` on any record: past the last question, `questions[index]` raises. */
  function HandleStep(rec: ChatRecord, text: string): (r: ChatRecord)
    ensures rec.current <= r.current <= rec.current + 1
  {
    if rec.current >= |Questions| then rec else Answer(rec, text)
  }

  /** The reply of `handle_answer` on any record. */
  function HandleReply(rec: ChatRecord, text: string): (r: Reply)
    ensures r.Raised? <==> rec.current >= |Questions|
    ensures r.Raised? ==> r == Raised(IndexError)
  {
    if rec.current >= |Questions| then Raised(IndexError) else AnswerReply(rec, text)
  }

  /** The record after a chat sends the texts one by one. */
  function Run(rec: ChatRecord, texts: seq<string>): ChatRecord
    decreases |texts|
  {
    if |texts| == 0 then rec else Run(HandleStep(rec, texts[0]), texts[1..])
  }

  /** The record holds at most one entry per key, and the flag only stands at the injury question. */
  predicate Consistent(rec: ChatRecord)
  {
    && rec.current <= |Questions|
    && UniqueKeys(rec.answers)
    && (rec.awaiting ==> rec.current < |Questions| && Questions[rec.current].text == InjuryText)
  }

  // ---------------------------------------------------------------------
  // Properties of the steps
  // ---------------------------------------------------------------------

  /** After `start` the chat is at question 0 with no answers, and question 0 is asked. */
  lemma StartAsksFirstQuestion()
    ensures StartRecord.answers == [] && StartRecord.current == 0 && Consistent(StartRecord)
    ensures AskReply(StartRecord) == AskedQuestion(0)
  {
  }

  /** `ask_question` renders the program exactly when the index has reached the catalog's length. */
  lemma AskRendersAtEnd(rec: ChatRecord)
    ensures AskReply(rec).Program? <==> rec.current >= |Questions|
    ensures AskReply(rec).Program? ==> AskReply(rec).text == ProgramText(rec.answers)
  {
  }

  /** The injury question is the seventh one and no other. */
  lemma InjuryAt(k: nat)
    requires k < |Questions|
    ensures Questions[k].text == InjuryText <==> k == 6
  {
    CatalogDistinct();
  }

  /**
   * The raw text is stored under the current question's text whatever it
   * is (no option check), overwriting an earlier value; no other key but the
   * injury clarification key changes.
   */
  lemma AnswerRecordsRawText(rec: ChatRecord, text: string)
    requires rec.current < |Questions|
    ensures var q := Questions[rec.current];
      var r := Answer(rec, text);
      && Lookup(r.answers, q.text) == Some(text)
      && forall k :: k != q.text && k != InjuryDetailKey ==> Lookup(r.answers, k) == Lookup(rec.answers, k)
  {
    var q := Questions[rec.current];
    var answers := Put(rec.answers, q.text, text);
    PutLookup(rec.answers, q.text, text);
    if !AwaitsDetail(rec, text) && rec.awaiting {
      assert q.text != InjuryDetailKey by {
        CatalogDistinct();
      }
      PutLookup(answers, InjuryDetailKey, text);
    }
  }

  /** "Другое" on the injury question raises the flag, keeps the index and asks for a clarification. */
  lemma InjuryOtherAwaitsDetail(rec: ChatRecord)
    requires rec.current < |Questions| && Questions[rec.current].text == InjuryText
    ensures var r := Answer(rec, Other);
      && r.current == rec.current && r.awaiting
      && r.answers == Put(rec.answers, InjuryText, Other)
      && AnswerReply(rec, Other) == AskClarification
  {
  }

  /**
   * The text after that is stored both under the injury question and under
   * the extra key; the flag is cleared and the index advances by one.
   */
  lemma InjuryDetailStoredTwice(rec: ChatRecord, text: string)
    requires rec.current < |Questions| && Questions[rec.current].text == InjuryText
    requires rec.awaiting && text != Other
    ensures var r := Answer(rec, text);
      && Lookup(r.answers, InjuryText) == Some(text)
      && Lookup(r.answers, InjuryDetailKey) == Some(text)
      && !r.awaiting && r.current == rec.current + 1
  {
    var answers := Put(rec.answers, InjuryText, text);
    PutLookup(rec.answers, InjuryText, text);
    assert InjuryText != InjuryDetailKey by {
      assert |InjuryText| == 43 && |InjuryDetailKey| == 19;
    }
    PutLookup(answers, InjuryDetailKey, text);
  }

  /**
   * Apart from "Другое" on the injury question, every answer moves the index
   * on by exactly one and clears the flag; the index never moves back.
   */
  lemma AnswerAdvancesByOne(rec: ChatRecord, text: string)
    requires rec.current < |Questions|
    ensures var r := Answer(rec, text);
      if Questions[rec.current].text == InjuryText && text == Other then r.current == rec.current
      else r.current == rec.current + 1 && !r.awaiting
  {
  }

  /** Every message, handled or raising, keeps a consistent record consistent. */
  lemma HandleKeepsConsistent(rec: ChatRecord, text: string)
    requires Consistent(rec)
    ensures Consistent(HandleStep(rec, text))
    ensures HandleStep(rec, text).current >= rec.current
  {
    if rec.current < |Questions| {
      var answers := Put(rec.answers, Questions[rec.current].text, text);
      PutKeepsKeysUnique(rec.answers, Questions[rec.current].text, text);
      if !AwaitsDetail(rec, text) {
        PutKeepsKeysUnique(answers, InjuryDetailKey, text);
        var answers' := if rec.awaiting then Put(answers, InjuryDetailKey, text) else answers;
        assert HandleStep(rec, text) == ChatRecord(answers', rec.current + 1, false);
      }
    }
  }

  /** The answers of question i onwards, paired with their prompt texts. */
  function Paired(qs: seq<Question>, texts: seq<string>): (r: Entries)
    requires |qs| == |texts|
  {
    seq(|qs|, k requires 0 <= k < |qs| => Entry(qs[k].text, texts[k]))
  }

  /** One more question and answer add one entry at the end. */
  lemma PairedSnoc(qs: seq<Question>, texts: seq<string>, i: nat)
    requires |qs| == |texts| && i < |qs|
    ensures Paired(qs[..i + 1], texts[..i + 1]) == Paired(qs[..i], texts[..i]) + [Entry(qs[i].text, texts[i])]
  {
  }

  lemma {:induction false} RunFrom(i: nat, texts: seq<string>)
    requires |texts| == |Questions| && i <= |Questions|
    requires forall k :: 0 <= k < |texts| ==> texts[k] != Other
    ensures Run(ChatRecord(Paired(Questions[..i], texts[..i]), i, false), texts[i..])
         == ChatRecord(Paired(Questions, texts), |Questions|, false)
    decreases |Questions| - i
  {
    var rec := ChatRecord(Paired(Questions[..i], texts[..i]), i, false);
    if i == |Questions| {
      assert Questions[..i] == Questions && texts[..i] == texts;
    } else {
      var q := Questions[i];
      assert q.text !in Keys(rec.answers) by {
        CatalogDistinct();
        forall k | 0 <= k < i ensures Keys(rec.answers)[k] != q.text {
          assert Keys(rec.answers)[k] == Questions[k].text;
        }
      }
      var next := HandleStep(rec, texts[i]);
      assert next == ChatRecord(rec.answers + [Entry(q.text, texts[i])], i + 1, false) by {
        assert !AwaitsDetail(rec, texts[i]);
      }
      PairedSnoc(Questions, texts, i);
      assert texts[i..][1..] == texts[i + 1..];
      RunFrom(i + 1, texts);
    }
  }

  /**
   * A chat that starts and then answers every question with anything but
   * "Другое" ends with exactly one entry per question, in catalog order, and
   * its program lists them in that order.
   */
  lemma PlainRunAnswersInCatalogOrder(texts: seq<string>)
    requires |texts| == |Questions|
    requires forall k :: 0 <= k < |texts| ==> texts[k] != Other
    ensures var last := Run(StartRecord, texts);
      && last == ChatRecord(Paired(Questions, texts), |Questions|, false)
      && AskReply(last) == Program(ProgramText(Paired(Questions, texts)))
  {
    assert Paired(Questions[..0], texts[..0]) == [];
    assert texts[0..] == texts;
    RunFrom(0, texts);
  }

  // ---------------------------------------------------------------------
  // The handlers over the records of all chats
  // ---------------------------------------------------------------------

  class Bot {
    /** `user_data`: the record of each chat that has sent /start. */
    var records: map<ChatId, ChatRecord>

    constructor ()
      ensures records == map[]
    {
      records := map[];
    }

    method Start(chat: ChatId) returns (reply: Reply)
      modifies this
      ensures records == old(records)[chat := StartRecord]
      ensures reply == AskedQuestion(0)
    {
      records := records[chat := ChatRecord([], 0, false)];
      reply := AskQuestion(chat);
    }

    method AskQuestion(chat: ChatId) returns (reply: Reply)
      requires chat in records
      ensures reply == AskReply(records[chat])
    {
      var index := records[chat].current;
      if index >= |Questions| {
        var program := GenerateProgram(chat);
        reply := Program(program);
        return;
      }
      reply := AskedQuestion(index);
    }

    method HandleAnswer(chat: ChatId, text: string) returns (reply: Reply)
      modifies this
      ensures chat !in old(records) ==> records == old(records) && reply == Raised(KeyError)
      ensures chat in old(records) ==>
        && records == old(records)[chat := HandleStep(old(records)[chat], text)]
        && reply == HandleReply(old(records)[chat], text)
    {
      if chat !in records {
        reply := Raised(KeyError);
        return;
      }
      var data := records[chat];
      ghost var before := data;
      var index := data.current;
      if index >= |Questions| {
        reply := Raised(IndexError);
        return;
      }
      var q := Questions[index];
      data := data.(answers := Put(data.answers, q.text, text));
      if q.text == InjuryText && text == Other {
        records := records[chat := data.(awaiting := true)];
        reply := AskClarification;
        assert AwaitsDetail(before, text);
        return;
      }
      if data.awaiting {
        data := data.(answers := Put(data.answers, InjuryDetailKey, text), awaiting := false);
      }
      data := data.(current := data.current + 1);
      assert data == Answer(before, text) && !AwaitsDetail(before, text);
      records := records[chat := data];
      reply := AskQuestion(chat);
    }

    method GenerateProgram(chat: ChatId) returns (result: string)
      requires chat in records
      ensures result == ProgramText(records[chat].answers)
    {
      var data := records[chat].answers;
      result := ProgramHeader;
      var i := 0;
      while i < |data|
        invariant 0 <= i <= |data|
        invariant result == ProgramHeader + Terminated('\n', EntryTexts(data[..i]))
      {
        assert EntryTexts(data[..i + 1])[..i] == EntryTexts(data[..i]);
        result := result + (data[i].key + ": " + data[i].value + "\n");
        i := i + 1;
      }
      assert data[..i] == data;
      var dist := Lookup(data, DistanceText);
      result := result + WeekHeader;
      if dist == Some("42 км") {
        MarathonBlock();
        result := result + ("- Темповый бег\n- Интервалы\n" + "- Долгий бег\n- Восстановление");
      } else if dist == Some("21 км") {
        HalfMarathonBlock();
        result := result + ("- Бег 3 раза в неделю\n" + "- Кардио\n- Растяжка");
      } else {
        OtherBlock();
        result := result + ("- Бег 3–5 раз в неделю\n" + "- Силовые\n- Интервалы");
      }
    }
  }
}

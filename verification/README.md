# Running-plan questionnaire bot: the dialogue engine in Dafny

The bot asks a runner a fixed list of questions, records the answers per user,
and then produces a training plan. Two revisions of the engine exist and are
modelled side by side:

- `app.py`, the Gemini revision (module `GeminiApp`). Answers to questions
  with an option keyboard are checked against the options. Choosing "Другое"
  ("other") on any such question asks for a clarification, which is then
  recorded as `"Другое: " + text`. When the catalog is exhausted, the answers
  are turned into a prompt. The prompt is sent to a language model, and the
  fixed apology is used when the call fails.
- `bot.py`, the template revision (module `TemplateBot`). Answers are
  recorded raw, with no option check. Only "Другое" on the injury question
  asks for a detail. That detail is stored under the injury question and also
  under the key "Уточнение по травме". When the catalog is exhausted, a plan
  is rendered locally from the answers. The week block of the plan depends on
  the distance answer. Text from a chat that never sent /start raises
  KeyError, and text after the last question raises IndexError. Both come
  from the source's direct indexing, change nothing, and are modelled as
  `Raised` replies.

Shared pieces:

- `Survey` holds the question record, the `Line` type of texts without a line
  break, and the "Другое" sentinel.
- `Text` holds Python's `"\n".join` and `str.split`, with the round trip
  between them.
- `InsertionDict` models a Python `dict` with insertion order. Assigning to
  an existing key keeps its place; a new key goes last. The template revision
  relies on this, because it renders its answers in dictionary order.

Each revision is modelled in two layers:

- Pure step functions on one user's state. In `GeminiApp` these are
  `StartStep`, `AskStep`, `AnswerStep`, `FinishStep` and `CancelStep`. In
  `TemplateBot` they are `Answer`, `AnswerReply`, `HandleStep`, `HandleReply`
  and `AskReply`. The lemmas about the steps carry the properties.
- A class whose fields are the module-level maps of the source. These are
  `Dialogue` with `userData` and `contexts`, and `Bot` with `records`. The
  methods are the handlers, and each method's postcondition ties the new
  state and the reply to the step function.

Telegram messages are abstracted to a `Reply` value. In `GeminiApp`, the
state returned to the conversation handler is abstracted to a `Next` value.

Three behaviours of the code worth knowing:

- An answer outside the options only gets the "choose from the options"
  message. The question is not sent again.
- The template revision checks no options at all.
- `finish_questionnaire` clears the session but keeps the user's answers
  entry. The template revision never clears a record.

## Model

| member | source | states |
|---|---|---|
| GeminiApp.GeneratePrompt | app.py:52-54 | defines `generate_prompt`: the fixed header followed by the joined lines; the result starts with the header, and PromptLayout carries its line structure |
| GeminiApp.TrainingProgram | app.py:56-64 | defines `generate_training_program` over the model call `llm`: the result is the fixed apology or exactly what the model returned for the prompt; ProgramFallsBack carries both cases |
| GeminiApp.StartStep | app.py:66-72 | defines `start` on one user: empty answers and state QUESTION; StartAsksFirstQuestion and CancelThenStart carry its properties |
| GeminiApp.AskStep | app.py:74-88 | defines `ask_question` on one user: it never touches the answers and returns either nothing (stay) or the end of the conversation; AskAdvancesIndex and AskAfterRecord carry its properties |
| GeminiApp.AnswerStep | app.py:90-110 | defines `handle_answer` on one user: the answer keys stay the same or gain exactly the current question's text; the lemmas from InvalidOptionChangesNothing to AnswerCountIsIndex carry its properties |
| GeminiApp.FinishStep | app.py:112-123 | defines `finish_questionnaire` on one user: the answers entry is never changed and the conversation ends; FinishGuardsEmptyAnswers carries its two cases |
| GeminiApp.CancelStep | app.py:125-130 | defines `cancel` on one user: no answers entry remains and the conversation ends; CancelThenStart carries its properties |
| GeminiApp.CatalogDistinct | app.py:37-47 | the catalog has nine questions, and no two share a prompt text, so the answer keys identify questions |
| GeminiApp.PromptLayout | app.py:52-54 | with single-line answers, the prompt split at line breaks is the header line, an empty line, then exactly one line per catalog question in catalog order; each line is the question text, a space and the answer ('' when unanswered), and the answer is recovered by dropping the text and the space |
| GeminiApp.PromptReadsOnlyCatalogAnswers | app.py:53 | two answer maps that agree on the catalog texts give the same prompt: entries under other keys never reach it |
| GeminiApp.ProgramFallsBack | app.py:56-64 | a failed model call yields exactly the fixed apology; a successful one is relayed verbatim |
| GeminiApp.StartAsksFirstQuestion | app.py:66-75 | after `start` the answers map is empty, the session holds index 0 (−1 + 1) and question 0, question 0 is asked, and the state is QUESTION; the result is a conversation in progress |
| GeminiApp.AskAdvancesIndex | app.py:74-81 | `ask_question` stores exactly the previous index plus one (−1 when absent) with that question, and leaves answers and the flag alone; at the catalog's length it finishes instead, storing neither index nor question |
| GeminiApp.AskAfterRecord | app.py:74-81 | once question i's answer is recorded, `ask_question` moves to question i + 1 with the conversation still in progress, or after the last question sends the program, clears the session and keeps the answers |
| GeminiApp.InvalidOptionChangesNothing | app.py:100-102 | on an options question, outside clarification, an answer not among the options changes nothing (answers, index, question, flag) and keeps the state QUESTION |
| GeminiApp.OtherAwaitsClarification | app.py:104-107 | "Другое" on an options question only raises the flag: answers and index unchanged, clarification asked, state CLARIFICATION |
| GeminiApp.ClarificationRecorded | app.py:95-98 | while awaiting, any text (no option check) is stored as "Другое: " + text under the current question and the flag is cleared; the index becomes the old one plus one with that question asked, or past the last question the session is cleared and the program sent |
| GeminiApp.ValidAnswerRecorded | app.py:109-110 | a free-text answer, or an option other than "Другое", overwrites the entry of the current question's text; the index becomes the old one plus one with that question asked, or past the last question the session is cleared and the program sent |
| GeminiApp.AnswerKeepsProgress | app.py:90-110 | from any conversation in progress, an answer either keeps it in progress (answers keyed by exactly the earlier questions' texts, index unchanged or one further) or ends it with the session cleared, one answer per catalog question and the program sent |
| GeminiApp.AnswerCountIsIndex | app.py:109 | in a conversation in progress, the number of recorded answers equals the current index: at most one entry per question |
| GeminiApp.FinishGuardsEmptyAnswers | app.py:112-123 | the error is sent exactly when the answers are empty or absent, and then nothing changes; otherwise only the session changes (it is cleared), the answers entry stays and the program of those answers is sent |
| GeminiApp.CancelThenStart | app.py:125-130 | after `cancel` no answers entry remains and the session is cleared; a following `start` begins with empty answers at index 0 |
| GeminiApp.Dialogue.constructor | app.py:50 | no user has answers or a session |
| GeminiApp.Dialogue.Start | app.py:66-72 | the user's state becomes the `start` step's result; other users' entries are untouched |
| GeminiApp.Dialogue.AskQuestion | app.py:74-88 | the user's state and the reply are the `ask_question` step's; other users untouched |
| GeminiApp.Dialogue.HandleAnswer | app.py:90-110 | the user's state and the reply are the `handle_answer` step's; other users untouched |
| GeminiApp.Dialogue.FinishQuestionnaire | app.py:112-123 | the user's state and the reply are the `finish_questionnaire` step's; no answers entry changes |
| GeminiApp.Dialogue.Cancel | app.py:125-130 | the user's answers entry is removed and the session cleared; other users untouched |
| Text.SplitJoin | app.py:54 | splitting a join at the separator gives the parts back when no part contains it |
| InsertionDict.Lookup | bot.py:69 | `d.get(k)` is absent exactly when k is not a key |
| InsertionDict.Put | bot.py:49 | `d[k] = v`: a new key is appended at the end of the iteration order; an existing key keeps its place, so the key order is unchanged |
| InsertionDict.PutLookup | bot.py:49 | after `d[k] = v`, `get(k)` is v and every other key reads as before |
| InsertionDict.PutKeepsKeysUnique | bot.py:49 | assignment never creates a second entry for a key |
| TemplateBot.BulletLines | bot.py:72-77 | the bullet lines chosen by the distance answer: four for "42 км", three for anything else (a missing answer included); the Block lemmas tie them to the source's literals |
| TemplateBot.ProgramText | bot.py:63-77 | defines the text `generate_program` builds; it starts with the header, and ProgramLayout carries its line structure |
| TemplateBot.AskReply | bot.py:28-42 | defines `ask_question`'s reply: the program exactly when the index has reached the catalog's length, otherwise the question at the index; AskRendersAtEnd carries it |
| TemplateBot.Answer | bot.py:45-60 | defines the record after `handle_answer` on a valid index: the index stays or advances by one, and it stays exactly when the flag is left raised; the lemmas from AnswerRecordsRawText to HandleKeepsConsistent carry its properties |
| TemplateBot.AnswerReply | bot.py:51-61 | defines `handle_answer`'s reply on a valid index: a clarification request exactly for "Другое" on the injury question, never an error |
| TemplateBot.HandleStep | bot.py:44-61 | defines the record after `handle_answer` on any record: the index never decreases and moves by at most one |
| TemplateBot.HandleReply | bot.py:44-61 | defines `handle_answer`'s reply on any record: a raised failure exactly when the index is past the last question, and that failure is IndexError |
| TemplateBot.CatalogDistinct | bot.py:10-20 | nine questions with pairwise different texts, none equal to the extra key "Уточнение по травме" |
| TemplateBot.InjuryAt | bot.py:17 | the injury question is question 6 and no other, so the detail path belongs to that question alone |
| TemplateBot.StartAsksFirstQuestion | bot.py:24-26 | `start` sets empty answers, index 0 and no flag (a consistent record), and question 0 is asked |
| TemplateBot.AskRendersAtEnd | bot.py:28-34 | `ask_question` renders the program exactly when the index has reached the catalog's length, and the program is rendered from the chat's answers |
| TemplateBot.AnswerRecordsRawText | bot.py:44-49 | the raw text is stored under the current question's text, with no option check and overwriting; no key other than the injury detail key changes |
| TemplateBot.InjuryOtherAwaitsDetail | bot.py:51-54 | "Другое" on the injury question raises the flag, keeps the index, leaves "Другое" as that question's answer, and asks for a clarification |
| TemplateBot.InjuryDetailStoredTwice | bot.py:49-60 | the next text overwrites the injury question's entry and is also stored under "Уточнение по травме"; the flag is cleared and the index advances by one |
| TemplateBot.AnswerAdvancesByOne | bot.py:51-60 | apart from "Другое" on the injury question, every answer advances the index by exactly one and clears the flag |
| TemplateBot.HandleKeepsConsistent | bot.py:44-61 | every message, handled or raising, keeps the index within the catalog, the keys unique and the flag only at the injury question, and never decreases the index |
| TemplateBot.RunFrom | bot.py:44-61 | from question i, answering the rest without "Другое" completes the catalog with one entry per question in catalog order |
| TemplateBot.PlainRunAnswersInCatalogOrder | bot.py:24-61 | a chat that starts and answers all nine questions without "Другое" holds exactly one entry per question in catalog order, and the program is then rendered from them |
| TemplateBot.MarathonBlock | bot.py:73 | the four "42 км" bullets are the block's lines |
| TemplateBot.HalfMarathonBlock | bot.py:75 | the three "21 км" bullets are the block's lines |
| TemplateBot.OtherBlock | bot.py:77 | the three generic bullets are the block's lines |
| TemplateBot.ProgramLayout | bot.py:63-77 | with single-line answers, the program read line by line is the header, an empty line, one "key: value" line per answer in insertion order, an empty line, the week header, then four bullets for "42 км", three for "21 км" and the three generic ones otherwise (a missing answer included) |
| TemplateBot.Bot.constructor | bot.py:22 | no chat has a record |
| TemplateBot.Bot.Start | bot.py:24-26 | the chat's record becomes empty answers at index 0, and question 0 is asked |
| TemplateBot.Bot.AskQuestion | bot.py:28-42 | the reply is the program rendered from the answers once the index reaches the catalog's length, and the question at the index otherwise |
| TemplateBot.Bot.HandleAnswer | bot.py:44-61 | a chat without a record raises KeyError with nothing changed; otherwise the record and the reply are the `handle_answer` step's (IndexError past the last question) |
| TemplateBot.Bot.GenerateProgram | bot.py:63-79 | the `result +=` loop over the answers, followed by the distance branch, builds exactly the program text of the answers |

## Left out

- Telegram I/O is left out. This covers `reply_text`, the keyboards, `ReplyKeyboardRemove` and the Markdown parse mode. Each message is a `Reply` value. The greeting of `start` and the closing messages after the program are not modelled.
- The `ConversationHandler` registration and routing are left out (app.py:132-145). Its effect is the `Next` value a handler returns.
- GeminiApp.Dialogue.HandleAnswer requires an active session: a current question and an answers entry. Within one chat, the routing passes text to `handle_answer` only between `start` and the end of the conversation, where this holds. Text outside that window would raise in Python; that case is not modelled. A user with conversations in two chats shares `user_data` and `context.user_data` across them, so text in one chat can reach `handle_answer` after the other chat cleared them; that raises and is not modelled.
- TemplateBot.Bot.AskQuestion and TemplateBot.Bot.GenerateProgram require the chat to have a record. The source calls them only after `start` or `handle_answer` has read that record.
- The Gemini call is a parameter `llm` (app.py:56-64). `None` stands for any exception, and `Some(text)` stands for the response text. The model name, `hasattr`/`str(response)` and the logging are not modelled.
- Environment and dotenv loading, import guards, `sys.exit` and logging are startup plumbing (app.py:10-34, bot.py:7-8). The Flask webhook (bot.py:82-93) is transport. The health web server is not part of this model.
- Async/await and concurrent updates for one user are left out. Each handler is one atomic step.
- The questions' `"type"` tag is never read by the handlers, so the model keeps only whether a question has options.
- A flag that is absent and a flag set to False read the same through `.get`, so both are `false`.
- The question texts longer than forty characters and the prompt title are written as concatenations of shorter literals, with the same values as the source's. Other texts, such as the fallback apology, are single literals.

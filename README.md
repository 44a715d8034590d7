# Etronics relay bot: draft confirmation and update dispatch

This project models the core of `bot.py`, a Telegram bot that relays posts to a
VK community wall. A user composes a post in one of two ways. The first is
`/post <text>`. The second is pressing the "📤 Пост в ВК" keyboard caption and
then typing the text. The bot shows the text with two inline buttons, confirm
and cancel. Confirm hands the stored draft to VK's `wall.post`; cancel discards
it.

The model has two kinds of state:
- `user_drafts`: one post text per user, shared by the whole process.
- `waiting_for_post`: a per-user flag, kept in `context.user_data`.

It also models the first-match dispatch of the six handler registrations.

Modules:
- `Common` (common.dfy): user ids and `Option`.
- `Texts` (texts.dfy): every reply string, byte for byte. It also builds the
  confirmation prompt, joins the `/post` arguments (`' '.join`), splits a
  text at whitespace as `str.split()` does, and formats the publish error.
- `Dispatch` (dispatch.dfy): the registration list and its filters. `Route`
  picks the first registration whose filter accepts the update.
- `Session` (session.dfy): the state machine as pure functions, one per
  handler, and `Step`, which applies one dispatched update. Lemmas cover short
  sequences of updates.
- `Runs` (runs.dfy): whole sequences of updates. It proves per-user isolation
  and bounds the number of `wall.post` calls.
- `Bot` (bot.dfy): the class `DraftBot`. Its `drafts` and `waiting` maps are
  updated in place by one method per handler. Each method is proved to act
  exactly as its `Session` function says.

The VK answer is an input (`VkResponse`). It is either a decoded JSON value
(`VkJson`) or an exception from the request or the decoding (`VkRaised`). Of a
decoded value only two things matter: whether `"response" in response` holds,
and what `response.get("error", {})` does. For an object, that is its `error`
member. A decoded list or string has no `.get`, so when `"response"` is not in
it the handler raises. That is the same outcome as `VkJson(false,
ErrorNotObject)`, so the two constructors cover every answer. Replies are values: nothing,
a new message, an edit of the prompt message, or an exception escaping the
handler.

Points where the code's behaviour is easy to misread:
- `/post <text>` shows the prompt but does not store a draft (bot.py:61-62).
  A confirm right after it reports "not found" unless an older draft exists
  (`Session.PostThenConfirm`). So `/post A`, `/post B`, confirm does not
  publish "B".
- Cancel always answers "🚫 Публикация отменена.", even without a draft
  (bot.py:127-129). It never answers "not found".
- A confirm only counts a draft that is truthy (bot.py:104). An empty-string
  draft is reported "not found", and the early return skips the removal.
- An exception while posting or reading VK's answer escapes the handler before
  `user_drafts.pop` (bot.py:117-125). One case is an `error` member that is not
  an object. The draft then survives, and the next confirm calls `wall.post`
  again with the same text (`Session.ConfirmRaisedPostsAgain`).
- The caption filter is `re.search` with `^…$` (bot.py:135). Python's `$` also
  matches before a final newline, so a caption followed by `"\n"` reaches
  `handle_buttons`. That handler then compares exactly and does nothing.
- A caption typed while the flag is armed reaches `handle_buttons`, not
  `handle_text`. It is never taken as the post body, and the flag stays armed.

## Model

| member | source | states |
|---|---|---|
| `Texts.Prompt` | bot.py:91 | the prompt is a fixed head, exactly the post text, then a fixed tail |
| `Texts.PromptRoundTrip` | bot.py:91 | the post text can be read back out of the prompt unchanged |
| `Texts.PromptInjective` | bot.py:91 | different post texts give different prompts |
| `Texts.PublishErrorText` | bot.py:123 | the failure report is the fixed prefix followed by VK's reason, and never equals the success text |
| `Texts.JoinArgs` | bot.py:61 | `' '.join(args)`: its length is the arguments' lengths plus one separator between each pair, and it starts with the first argument |
| `Texts.Words` | bot.py:57-61 | the whitespace split that yields `context.args` gives only non-empty, whitespace-free words |
| `Texts.WordsCollapse` | bot.py:57-61 | joining the split words with single spaces gives the text with its ends trimmed and each inner whitespace run replaced by one space, computed character by character |
| `Texts.WordsUnique` | bot.py:57-61 | the split is the only list of words whose join is that collapsed text, so together with `Texts.WordsCollapse` it fixes `context.args` completely |
| `Texts.WordsOfJoin` | bot.py:61 | splitting the joined arguments gives back exactly the arguments, so the prompt shows them unchanged with single spaces between |
| `Dispatch.FirstMatch` | bot.py:132-137 | it returns the first registration whose filter accepts the update; no earlier one accepts |
| `Dispatch.Route` | bot.py:132-137 | `start`/`help`/`post` reach their handlers and any other command reaches none; text matching the caption regex reaches `handle_buttons` and never `handle_text`; other non-empty text reaches `handle_text`; every callback reaches `handle_callback` |
| `Session.PublishReport` | bot.py:117-123 | success is reported iff the answer has `"response"`; otherwise `error.error_msg` is reported, defaulting to "Ошибка"; a non-object `error` or a failed request raises |
| `Session.PostSpec` | bot.py:56-62 | no arguments gives the usage error; otherwise the prompt for the joined arguments; the state is never changed |
| `Session.ButtonsSpec` | bot.py:65-73 | the compose caption arms the user's flag and asks for the text; the help caption repeats /help; neither touches the drafts |
| `Session.TextSpec` | bot.py:76-80 | with the flag armed: disarm it, store the text as the draft (replacing any older one), show its prompt; without the flag: no change and no reply |
| `Session.CallbackSpec` | bot.py:96-129 | `wall.post` is called iff the data is confirm and the user has a draft, and with exactly that draft; afterwards the draft is removed unless the answer raised; no draft means "not found" with no change; cancel always answers "cancelled" and removes the draft; other data changes nothing; flags are untouched |
| `Session.Step` | bot.py:132-137 | one dispatched update. Commands never change state. Other users' state is never changed. Only the sender's own text can create or replace a draft. Only the compose caption can arm the flag. A `wall.post` call only comes from a confirm of an existing draft |
| `Session.CaptionWhileWaiting` | bot.py:135-136 | a caption typed while the flag is armed is not taken as the post body: the drafts are unchanged and the flag stays armed |
| `Session.FlagSingleShot` | bot.py:76-80 | the first plain text after the flag becomes the draft and is shown back; a second plain text is ignored |
| `Session.LastWriteWins` | bot.py:79 | composing twice leaves only the second text as the draft |
| `Session.PostThenConfirm` | bot.py:56-62 | `/post` stores nothing, so a following confirm with no older draft reports "not found" and posts nothing |
| `Session.ConfirmTwice` | bot.py:103-125 | confirm posts exactly the stored text and removes it whatever VK answers, provided the answer can be read (see `Session.ConfirmRaisedPostsAgain`), so a second confirm reports "not found" |
| `Session.ConfirmRaisedPostsAgain` | bot.py:117-125 | when reading the answer raises, the draft survives and a second confirm posts the same text again |
| `Session.CancelIdempotent` | bot.py:127-129 | cancel answers "cancelled" and removes the draft; a second cancel gives the same answer and the same state |
| `Session.ComposeAndConfirm` | bot.py:71-80 | caption, then text, then a confirm VK accepts: posts exactly the typed text and leaves no draft |
| `Session.StepLocal` | bot.py:100-101 | the effect of an update on its sender depends only on that sender's draft and flag |
| `Runs.RunDependsOnlyOnView` | bot.py:100-129 | a sequence of one user's updates acts on that user only through that user's own draft and flag |
| `Runs.RunIsolation` | bot.py:37 | after any sequence of updates, a user's draft and flag are those that user's own updates alone would give |
| `Runs.PostBound` | bot.py:103-125 | `wall.post` calls for a user, plus a remaining draft, never exceed the initial draft plus the user's text messages plus the confirms whose answer raised |
| `Runs.AtMostOncePublication` | bot.py:103-125 | from a fresh process, a user's posts number at most the user's text messages plus the confirms whose answer raised |
| `Bot.DraftBot.constructor` | bot.py:37 | a fresh process has no drafts and no flags |
| `Bot.DraftBot.Start` | bot.py:40-46 | `/start` sends the greeting |
| `Bot.DraftBot.Help` | bot.py:49-53 | `/help` sends the command list |
| `Bot.DraftBot.Post` | bot.py:56-62 | acts as `Session.PostSpec`; the usage error comes iff there are no arguments |
| `Bot.DraftBot.HandleButtons` | bot.py:65-73 | updates the flags in place as `Session.ButtonsSpec` says, and leaves the drafts alone |
| `Bot.DraftBot.HandleText` | bot.py:76-80 | updates the drafts and flags in place as `Session.TextSpec` says |
| `Bot.DraftBot.HandleCallback` | bot.py:96-129 | updates the drafts in place as `Session.CallbackSpec` says; flags and other users are untouched |
| `Bot.DraftBot.Handle` | bot.py:132-137 | runs the handler `Dispatch.Route` picks; the new state and reply are those of `Session.Step` |

## Left out

- The FastAPI webhook endpoint, JSON decoding of updates and webhook registration at startup (bot.py:140-159): transport I/O.
- Reading tokens and URLs from the environment, and logging (bot.py:21-34, bot.py:108): no logic.
- Keyboard markup, `query.answer()` and the Telegram send/edit calls: a reply is modelled as its text and whether it is a new message or an edit.
- The HTTP request to `wall.post` and its parameters (bot.py:109-117): its answer is an input value. `posted` records the text the request carries.
- Exceptions raised by Telegram's own `reply_text`/`edit_message_text`: the model assumes these calls succeed.
- Texts.Words: its own contract fixes only the shape of each word. What the words are is stated by `Texts.WordsCollapse` and `Texts.WordsUnique`. The whitespace set is that of `str.isspace` in Python 3.12; changes in other versions' Unicode tables are not modelled.
- Session.PublishReport: a non-string `error_msg` would be shown through `str()`; the model takes the reason as a string.
- Command parsing by the telegram library (`/start@botname`, upper-case command names, which the library lowercases before comparing, edited messages): an update arrives already classified as a command with its name and arguments, a text or a callback.
- Concurrent handling of updates and races on the shared store: updates are handled one at a time.
- Image drafts, image upload and the generation flow belong to other revisions of the bot. They are not in `bot.py` and are not part of this model.

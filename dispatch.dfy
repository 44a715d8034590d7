/** The update dispatch of bot.py: six handlers registered in one group,
    tried in registration order, and the first whose filter accepts the
    update handles it. */
module Dispatch {
  import opened Texts

  /** An inbound update, already decoded: a command with its arguments
      (`context.args`), a plain text message, or an inline-button press. */
  datatype Event =
    | Command(name: string, args: seq<string>)
    | Text(text: string)
    | Callback(data: string)

  /** The handlers of bot.py, and `NoHandler` when no filter accepts. */
  datatype Handler =
    | StartHandler
    | HelpHandler
    | PostHandler
    | ButtonsHandler
    | TextHandler
    | CallbackHandler
    | NoHandler

  /** The filters used in the registrations. */
  datatype Filter =
    | CommandFilter(command: string)   // CommandHandler(command, ...)
    | CaptionRegex                     // filters.Regex("^(📤 Пост в ВК|ℹ️ Помощь)$")
    | TextNotCommand                   // filters.TEXT & ~filters.COMMAND
    | AnyCallbackQuery                 // CallbackQueryHandler(...) with no pattern

  datatype Registration = Registration(filter: Filter, handler: Handler)

  /** The registrations, in the order they are added. */
  const Registrations: seq<Registration> := [
    Registration(CommandFilter("start"), StartHandler),
    Registration(CommandFilter("help"), HelpHandler),
    Registration(CommandFilter("post"), PostHandler),
    Registration(CaptionRegex, ButtonsHandler),
    Registration(TextNotCommand, TextHandler),
    Registration(AnyCallbackQuery, CallbackHandler)
  ]

  /** Python's `re.search("^(A|B)$", s)`: without MULTILINE, `$` matches at
      the end of the string and also just before a final newline. */
  predicate CaptionPattern(s: string)
  {
    s == PostCaption || s == HelpCaption || s == PostCaption + "\n" || s == HelpCaption + "\n"
  }

  /** Whether a filter accepts an update. `filters.TEXT` needs a non-empty
      text; a `Text` update is never a command. */
  predicate Matches(f: Filter, e: Event)
  {
    match f
    case CommandFilter(c) => e.Command? && e.name == c
    case CaptionRegex => e.Text? && CaptionPattern(e.text)
    case TextNotCommand => e.Text? && e.text != ""
    case AnyCallbackQuery => e.Callback?
  }

  /** The position of the first registration whose filter accepts `e`,
      or `|regs|` when none does. */
  function FirstMatch(regs: seq<Registration>, e: Event): (k: nat)
    ensures k <= |regs|
    ensures forall i :: 0 <= i < k ==> !Matches(regs[i].filter, e)
    ensures k < |regs| ==> Matches(regs[k].filter, e)
  {
    if regs == [] then 0
    else if Matches(regs[0].filter, e) then 0
    else 1 + FirstMatch(regs[1..], e)
  }

  /** The handler an update reaches. */
  function Route(e: Event): (h: Handler)
    ensures e.Command? ==> (h == StartHandler <==> e.name == "start")
    ensures e.Command? ==> (h == HelpHandler <==> e.name == "help")
    ensures e.Command? ==> (h == PostHandler <==> e.name == "post")
    ensures e.Command? ==> (h == NoHandler <==> e.name != "start" && e.name != "help" && e.name != "post")
    ensures e.Text? ==> (h == ButtonsHandler <==> CaptionPattern(e.text))
    ensures e.Text? ==> (h == TextHandler <==> !CaptionPattern(e.text) && e.text != "")
    ensures e.Text? ==> (h == NoHandler <==> e.text == "")
    ensures e.Callback? <==> h == CallbackHandler
  {
    var r := Registrations;
    var k := FirstMatch(r, e);
    assert Matches(r[0].filter, e) <==> e.Command? && e.name == "start";
    assert Matches(r[1].filter, e) <==> e.Command? && e.name == "help";
    assert Matches(r[2].filter, e) <==> e.Command? && e.name == "post";
    assert Matches(r[3].filter, e) <==> e.Text? && CaptionPattern(e.text);
    assert Matches(r[4].filter, e) <==> e.Text? && e.text != "";
    assert Matches(r[5].filter, e) <==> e.Callback?;
    assert k <= 0 || !Matches(r[0].filter, e);
    assert k <= 1 || !Matches(r[1].filter, e);
    assert k <= 2 || !Matches(r[2].filter, e);
    assert k <= 3 || !Matches(r[3].filter, e);
    assert k <= 4 || !Matches(r[4].filter, e);
    assert k <= 5 || !Matches(r[5].filter, e);
    if k < |r| then r[k].handler else NoHandler
  }
}

/** The per-user draft/confirmation state machine of bot.py as pure
    functions: one function per handler, `Step` for one update after
    dispatch, and lemmas about short sequences of updates. */
module Session {
  import opened Common
  import opened Texts
  import opened Dispatch

  /** `user_drafts` (process-wide) and the `waiting_for_post` entry of each
      user's `context.user_data`. */
  datatype State = State(drafts: map<UserId, string>, waiting: map<UserId, bool>)

  /** The state when the process starts. */
  const Initial := State(map[], map[])

  /** `context.user_data.get("waiting_for_post")` is truthy. */
  predicate Waiting(s: State, u: UserId)
  {
    u in s.waiting && s.waiting[u]
  }

  /** `user_drafts.get(user_id)` is truthy: present and not the empty string. */
  predicate HasDraft(s: State, u: UserId)
  {
    u in s.drafts && s.drafts[u] != ""
  }

  /** Everything the state holds about one user. */
  datatype UserView = UserView(draft: Option<string>, waiting: Option<bool>)

  function View(s: State, u: UserId): UserView
  {
    UserView(if u in s.drafts then Some(s.drafts[u]) else None,
             if u in s.waiting then Some(s.waiting[u]) else None)
  }

  /** The `error` member of VK's JSON answer: missing, an object with or
      without `error_msg`, or some other JSON value (on which `.get` raises). */
  datatype ErrorField = NoErrorKey | ErrorObject(errorMsg: Option<string>) | ErrorNotObject

  /** What the `wall.post` call gives back: a decoded JSON object, of which
      only the presence of `"response"` and the `error` member are read, or
      an exception from the HTTP call or the JSON decoding. */
  datatype VkResponse = VkJson(hasResponse: bool, error: ErrorField) | VkRaised

  /** The one reply a handler produces: nothing, a new message, an edit of
      the prompt message, or an exception that escapes the handler (the
      library logs it and no reply is sent). */
  datatype Reply = NoReply | Send(text: string) | Edit(text: string) | Raised

  /** The new state, the reply, and the text handed to `wall.post`, if any. */
  datatype Outcome = Outcome(state: State, reply: Reply, posted: Option<string>)

  /** The text the prompt is edited to after `wall.post` answered, or None
      when reading the answer raises. */
  function PublishReport(vk: VkResponse): (r: Option<string>)
    ensures r == Some(PublishedText) <==> vk.VkJson? && vk.hasResponse
    ensures r.None? <==> vk.VkRaised? || (!vk.hasResponse && vk.error.ErrorNotObject?)
    ensures vk.VkJson? && !vk.hasResponse && vk.error.ErrorObject? && vk.error.errorMsg.Some? ==>
              r == Some(PublishErrorText(vk.error.errorMsg.value))
    ensures vk.VkJson? && !vk.hasResponse && (vk.error.NoErrorKey? || vk.error == ErrorObject(None)) ==>
              r == Some(PublishErrorText(DefaultErrorMessage))
  {
    match vk
    case VkRaised => None
    case VkJson(hasResponse, error) =>
      if hasResponse then Some(PublishedText)
      else
        match error
        case NoErrorKey => Some(PublishErrorText(DefaultErrorMessage))
        case ErrorObject(msg) =>
          Some(PublishErrorText(if msg.Some? then msg.value else DefaultErrorMessage))
        case ErrorNotObject => None
  }

  /** `post`: a usage error without arguments, otherwise the prompt for the
      joined arguments. The draft store is not written. */
  function PostSpec(s: State, args: seq<string>): (o: Outcome)
    ensures o.state == s && o.posted == None
    ensures args == [] <==> o.reply == Send(PostUsageText)
    ensures args != [] ==> o.reply == Send(Prompt(JoinArgs(args)))
  {
    if args == [] then Outcome(s, Send(PostUsageText), None)
    else
      assert Prompt(JoinArgs(args))[0] != PostUsageText[0];
      Outcome(s, Send(Prompt(JoinArgs(args))), None)
  }

  /** `handle_buttons`: the help caption repeats /help; the compose caption
      asks for the text and arms the user's flag; anything else the regex
      let through (a caption with a trailing newline) does nothing. */
  function ButtonsSpec(s: State, u: UserId, text: string): (o: Outcome)
    ensures o.state.drafts == s.drafts && o.posted == None
    ensures text == PostCaption ==> o.reply == Send(AskPostText) && o.state.waiting == s.waiting[u := true]
    ensures text == HelpCaption ==> o.reply == Send(HelpText) && o.state == s
    ensures text != PostCaption && text != HelpCaption ==> o == Outcome(s, NoReply, None)
  {
    if text == HelpCaption then Outcome(s, Send(HelpText), None)
    else if text == PostCaption then Outcome(State(s.drafts, s.waiting[u := true]), Send(AskPostText), None)
    else Outcome(s, NoReply, None)
  }

  /** `handle_text`: consumes the flag once, storing the message as the
      user's draft (replacing any older one) and showing the prompt for it;
      without the flag it does nothing. */
  function TextSpec(s: State, u: UserId, text: string): (o: Outcome)
    ensures o.posted == None
    ensures Waiting(s, u) ==> !Waiting(o.state, u) && u in o.state.drafts && o.state.drafts[u] == text
    ensures Waiting(s, u) ==> o.reply == Send(Prompt(text))
    ensures Waiting(s, u) ==> o.state == State(s.drafts[u := text], s.waiting[u := false])
    ensures !Waiting(s, u) ==> o == Outcome(s, NoReply, None)
  {
    if Waiting(s, u) then
      Outcome(State(s.drafts[u := text], s.waiting[u := false]), Send(Prompt(text)), None)
    else Outcome(s, NoReply, None)
  }

  /** `handle_callback`. Confirm without a draft reports "not found" and
      posts nothing; with a draft it posts exactly that text, reports VK's
      answer and removes the draft whatever the answer, unless reading the
      answer raises, which leaves the draft in place. Cancel always reports
      cancellation and removes the draft if there is one. Other data does
      nothing. Only the pressing user's draft is read or removed. */
  function CallbackSpec(s: State, u: UserId, data: string, vk: VkResponse): (o: Outcome)
    ensures o.state.waiting == s.waiting
    ensures o.state.drafts == s.drafts || o.state.drafts == s.drafts - {u}
    ensures o.posted.Some? <==> data == ConfirmToken && HasDraft(s, u)
    ensures o.posted.Some? ==> o.posted.value == s.drafts[u]
    ensures data == ConfirmToken && !HasDraft(s, u) ==> o == Outcome(s, Edit(NotFoundText), None)
    ensures data == ConfirmToken && HasDraft(s, u) && PublishReport(vk).Some? ==>
              u !in o.state.drafts && o.reply == Edit(PublishReport(vk).value)
    ensures data == ConfirmToken && HasDraft(s, u) && PublishReport(vk).None? ==>
              o.state == s && o.reply == Raised
    ensures data == CancelToken ==> o.reply == Edit(CancelledText) && o.state.drafts == s.drafts - {u}
    ensures data != ConfirmToken && data != CancelToken ==> o == Outcome(s, NoReply, None)
  {
    var message := if u in s.drafts then Some(s.drafts[u]) else None;
    if data == ConfirmToken then
      if message.None? || message.value == "" then Outcome(s, Edit(NotFoundText), None)
      else
        var report := PublishReport(vk);
        if report.None? then Outcome(s, Raised, message)
        else Outcome(State(s.drafts - {u}, s.waiting), Edit(report.value), message)
    else if data == CancelToken then
      Outcome(State(s.drafts - {u}, s.waiting), Edit(CancelledText), None)
    else Outcome(s, NoReply, None)
  }

  /** One update from user `u`, dispatched to the first matching handler.
      `vk` is what `wall.post` would answer; it is read only by a confirm. */
  function Step(s: State, u: UserId, e: Event, vk: VkResponse): (o: Outcome)
    ensures o.posted.Some? ==> e == Callback(ConfirmToken) && HasDraft(s, u) && o.posted.value == s.drafts[u]
    ensures e.Command? ==> o.state == s
    ensures forall v :: v != u ==> View(o.state, v) == View(s, v)
    ensures forall v :: v in o.state.drafts && !(v == u && e.Text?) ==>
              v in s.drafts && o.state.drafts[v] == s.drafts[v]
    ensures Waiting(o.state, u) ==> Waiting(s, u) || e == Text(PostCaption)
  {
    match Route(e)
    case StartHandler => Outcome(s, Send(StartText), None)
    case HelpHandler => Outcome(s, Send(HelpText), None)
    case PostHandler => PostSpec(s, e.args)
    case ButtonsHandler => ButtonsSpec(s, u, e.text)
    case TextHandler => TextSpec(s, u, e.text)
    case CallbackHandler => CallbackSpec(s, u, e.data, vk)
    case NoHandler => Outcome(s, NoReply, None)
  }

  /** A caption typed while the flag is armed goes to `handle_buttons`: it
      is not taken as the post body, the flag stays armed and the draft
      store is unchanged. */
  lemma CaptionWhileWaiting(s: State, u: UserId, caption: string, vk: VkResponse)
    requires Waiting(s, u)
    requires caption == PostCaption || caption == HelpCaption
    ensures var o := Step(s, u, Text(caption), vk);
      o.state.drafts == s.drafts && Waiting(o.state, u) && o.reply != Send(Prompt(caption))
  {
    var o := Step(s, u, Text(caption), vk);
    assert Route(Text(caption)) == ButtonsHandler;
    if caption == PostCaption {
      assert o.reply == Send(AskPostText);
      assert |Prompt(caption)| != |AskPostText|;
    } else {
      assert o.reply == Send(HelpText);
      assert |Prompt(caption)| != |HelpText|;
    }
  }

  /** The flag is single-shot: the first plain text after it becomes the
      draft and is shown back; a second plain text is ignored. */
  lemma FlagSingleShot(s: State, u: UserId, t1: string, t2: string, vk: VkResponse)
    requires Waiting(s, u)
    requires t1 != "" && !CaptionPattern(t1)
    requires t2 != "" && !CaptionPattern(t2)
    ensures var o1 := Step(s, u, Text(t1), vk);
            var o2 := Step(o1.state, u, Text(t2), vk);
      && o1.reply == Send(Prompt(t1))
      && u in o1.state.drafts && o1.state.drafts[u] == t1
      && !Waiting(o1.state, u)
      && o2 == Outcome(o1.state, NoReply, None)
  {
    assert Route(Text(t1)) == TextHandler;
    assert Route(Text(t2)) == TextHandler;
  }

  /** Drafts are last-write-wins: composing twice keeps only the second text. */
  lemma LastWriteWins(s: State, u: UserId, t1: string, t2: string, vk: VkResponse)
    requires t1 != "" && !CaptionPattern(t1)
    requires t2 != "" && !CaptionPattern(t2)
    ensures var o1 := Step(s, u, Text(PostCaption), vk);
            var o2 := Step(o1.state, u, Text(t1), vk);
            var o3 := Step(o2.state, u, Text(PostCaption), vk);
            var o4 := Step(o3.state, u, Text(t2), vk);
      u in o4.state.drafts && o4.state.drafts[u] == t2
  {
    var o1 := Step(s, u, Text(PostCaption), vk);
    assert Route(Text(PostCaption)) == ButtonsHandler;
    assert Waiting(o1.state, u);
    FlagSingleShot(o1.state, u, t1, t1, vk);
    var o2 := Step(o1.state, u, Text(t1), vk);
    var o3 := Step(o2.state, u, Text(PostCaption), vk);
    assert Waiting(o3.state, u);
    FlagSingleShot(o3.state, u, t2, t2, vk);
  }

  /** `/post <text>` shows the prompt but stores nothing, so a confirm right
      after it, with no older draft, reports "not found" and posts nothing. */
  lemma PostThenConfirm(s: State, u: UserId, args: seq<string>, vk: VkResponse)
    requires args != []
    requires !HasDraft(s, u)
    ensures var o1 := Step(s, u, Command("post", args), vk);
            var o2 := Step(o1.state, u, Callback(ConfirmToken), vk);
      && o1.reply == Send(Prompt(JoinArgs(args)))
      && o1.state == s
      && o2 == Outcome(s, Edit(NotFoundText), None)
  {
    assert Route(Command("post", args)) == PostHandler;
    assert Route(Callback(ConfirmToken)) == CallbackHandler;
  }

  /** Confirm posts exactly the stored text and removes the draft whatever
      VK answers, so an immediate second confirm reports "not found". */
  lemma ConfirmTwice(s: State, u: UserId, vk1: VkResponse, vk2: VkResponse)
    requires HasDraft(s, u)
    requires PublishReport(vk1).Some?
    ensures var o1 := Step(s, u, Callback(ConfirmToken), vk1);
            var o2 := Step(o1.state, u, Callback(ConfirmToken), vk2);
      && o1.posted == Some(s.drafts[u])
      && o1.reply == Edit(PublishReport(vk1).value)
      && (o1.reply == Edit(PublishedText) <==> vk1.hasResponse)
      && u !in o1.state.drafts
      && o2 == Outcome(o1.state, Edit(NotFoundText), None)
  {
    assert Route(Callback(ConfirmToken)) == CallbackHandler;
  }

  /** When reading VK's answer raises, the draft survives, so pressing
      confirm again calls `wall.post` a second time with the same text. */
  lemma ConfirmRaisedPostsAgain(s: State, u: UserId, vk2: VkResponse)
    requires HasDraft(s, u)
    ensures var o1 := Step(s, u, Callback(ConfirmToken), VkRaised);
            var o2 := Step(o1.state, u, Callback(ConfirmToken), vk2);
      && o1.reply == Raised && o1.state == s
      && o1.posted == Some(s.drafts[u]) && o2.posted == Some(s.drafts[u])
  {
    assert Route(Callback(ConfirmToken)) == CallbackHandler;
  }

  /** Cancel always answers "cancelled" and is idempotent: a second cancel
      leaves the same state and gives the same answer. */
  lemma CancelIdempotent(s: State, u: UserId, vk: VkResponse)
    ensures var o1 := Step(s, u, Callback(CancelToken), vk);
            var o2 := Step(o1.state, u, Callback(CancelToken), vk);
      && o1.reply == Edit(CancelledText) && u !in o1.state.drafts
      && o2.state == o1.state && o2.reply == o1.reply
      && o1.posted == None && o2.posted == None
  {
    assert Route(Callback(CancelToken)) == CallbackHandler;
  }

  /** The whole compose flow: caption, text, confirm with VK success posts
      exactly the typed text and leaves no draft behind. */
  lemma ComposeAndConfirm(s: State, u: UserId, t: string, vk: VkResponse)
    requires t != "" && !CaptionPattern(t)
    requires vk.VkJson? && vk.hasResponse
    ensures var o1 := Step(s, u, Text(PostCaption), vk);
            var o2 := Step(o1.state, u, Text(t), vk);
            var o3 := Step(o2.state, u, Callback(ConfirmToken), vk);
      && o2.reply == Send(Prompt(t))
      && o3.posted == Some(t) && o3.reply == Edit(PublishedText)
      && u !in o3.state.drafts
  {
    var o1 := Step(s, u, Text(PostCaption), vk);
    assert Route(Text(PostCaption)) == ButtonsHandler;
    FlagSingleShot(o1.state, u, t, t, vk);
    assert Route(Callback(ConfirmToken)) == CallbackHandler;
  }

  /** What one update does to its sender depends only on what the state
      holds about that sender. */
  lemma StepLocal(s: State, t: State, u: UserId, e: Event, vk: VkResponse)
    requires View(s, u) == View(t, u)
    ensures Step(s, u, e, vk).reply == Step(t, u, e, vk).reply
    ensures Step(s, u, e, vk).posted == Step(t, u, e, vk).posted
    ensures View(Step(s, u, e, vk).state, u) == View(Step(t, u, e, vk).state, u)
  {
    match Route(e)
    case ButtonsHandler =>
      assert u in s.waiting[u := true] && u in t.waiting[u := true];
    case TextHandler =>
      assert Waiting(s, u) == Waiting(t, u);
    case CallbackHandler =>
      assert HasDraft(s, u) == HasDraft(t, u);
      assert u !in s.drafts - {u} && u !in t.drafts - {u};
    case _ =>
  }
}

/** The running bot: the draft store and the per-user flags as fields that
    the handlers update in place, each handler proved to act as its
    specification in module Session says. */
module Bot {
  import opened Common
  import opened Texts
  import opened Dispatch
  import opened Session

  class DraftBot {
    /** `user_drafts`: at most one post text per user. */
    var drafts: map<UserId, string>
    /** `context.user_data["waiting_for_post"]` of each user who has one. */
    var waiting: map<UserId, bool>

    /** The abstract state the handlers are specified against. */
    function Snapshot(): State
      reads this
    {
      State(drafts, waiting)
    }

    /** A fresh process: no drafts, no flags. */
    constructor ()
      ensures Snapshot() == Initial
    {
      drafts := map[];
      waiting := map[];
    }

    /** `start`: greets and shows the caption keyboard; no state is read or written. */
    method Start() returns (reply: Reply)
      ensures reply == Send(StartText)
    {
      reply := Send(StartText);
    }

    /** `help_command`: lists the commands; no state is read or written. */
    method Help() returns (reply: Reply)
      ensures reply == Send(HelpText)
    {
      reply := Send(HelpText);
    }

    /** `post`: the usage error without arguments, otherwise the prompt for
        the arguments joined by single spaces. The store is left alone. */
    method Post(args: seq<string>) returns (reply: Reply)
      ensures Outcome(Snapshot(), reply, None) == PostSpec(Snapshot(), args)
      ensures args == [] <==> reply == Send(PostUsageText)
    {
      if args == [] {
        reply := Send(PostUsageText);
        return;
      }
      var message := JoinArgs(args);
      reply := Send(Prompt(message));
    }

    /** `handle_buttons`. */
    method HandleButtons(u: UserId, text: string) returns (reply: Reply)
      modifies this
      ensures Outcome(Snapshot(), reply, None) == ButtonsSpec(old(Snapshot()), u, text)
      ensures drafts == old(drafts)
    {
      if text == HelpCaption {
        reply := Help();
      } else if text == PostCaption {
        reply := Send(AskPostText);
        waiting := waiting[u := true];
      } else {
        reply := NoReply;
      }
    }

    /** `handle_text`. */
    method HandleText(u: UserId, text: string) returns (reply: Reply)
      modifies this
      ensures Outcome(Snapshot(), reply, None) == TextSpec(old(Snapshot()), u, text)
      ensures old(Waiting(Snapshot(), u)) ==> u in drafts && drafts[u] == text && !Waiting(Snapshot(), u)
    {
      if u in waiting && waiting[u] {
        waiting := waiting[u := false];
        drafts := drafts[u := text];
        reply := Send(Prompt(text));
      } else {
        reply := NoReply;
      }
    }

    /** `handle_callback`; `vk` stands for the answer of the `wall.post`
        request, and `posted` is the text that request carries. */
    method HandleCallback(u: UserId, data: string, vk: VkResponse) returns (reply: Reply, posted: Option<string>)
      modifies this
      ensures Outcome(Snapshot(), reply, posted) == CallbackSpec(old(Snapshot()), u, data, vk)
      ensures waiting == old(waiting)
      ensures forall v :: v != u ==> View(Snapshot(), v) == View(old(Snapshot()), v)
    {
      var message := if u in drafts then Some(drafts[u]) else None;
      posted := None;
      if data == ConfirmToken {
        if message.None? || message.value == "" {
          reply := Edit(NotFoundText);
          return;
        }
        posted := message;
        var report := PublishReport(vk);
        if report.None? {
          reply := Raised;
          return;
        }
        reply := Edit(report.value);
        drafts := drafts - {u};
      } else if data == CancelToken {
        reply := Edit(CancelledText);
        drafts := drafts - {u};
      } else {
        reply := NoReply;
      }
    }

    /** Handles one update: the first registration whose filter accepts it
        runs. */
    method Handle(u: UserId, e: Event, vk: VkResponse) returns (reply: Reply, posted: Option<string>)
      modifies this
      ensures Outcome(Snapshot(), reply, posted) == Step(old(Snapshot()), u, e, vk)
    {
      posted := None;
      match Route(e)
      case StartHandler =>
        reply := Start();
      case HelpHandler =>
        reply := Help();
      case PostHandler =>
        reply := Post(e.args);
      case ButtonsHandler =>
        reply := HandleButtons(u, e.text);
      case TextHandler =>
        reply := HandleText(u, e.text);
      case CallbackHandler =>
        reply, posted := HandleCallback(u, e.data, vk);
      case NoHandler =>
        reply := NoReply;
    }
  }
}

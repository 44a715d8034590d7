/** The strings the bot sends, and the pure text building of bot.py:
    joining the `/post` arguments, the confirmation prompt and the
    publish report. */
module Texts {
  import opened Common

  // Replies sent by the handlers, byte for byte as in bot.py.
  const StartText := "Привет! Я бот-помощник Etronics 🚀\n\nВыбери действие ниже:"
  const HelpText := "/start — запуск\n/help — помощь\n/post <текст> — пост в ВК\n\nИли воспользуйся кнопками ⬇️"
  const PostUsageText := "Укажи текст поста после /post"
  const AskPostText := "Напиши текст поста, и я предложу его опубликовать 👇"
  const NotFoundText := "❌ Ошибка: пост не найден."
  const PublishedText := "✅ Пост опубликован в ВКонтакте!"
  const PublishErrorPrefix := "❌ Ошибка при публикации: "
  const DefaultErrorMessage := "Ошибка"
  const CancelledText := "🚫 Публикация отменена."

  // The two reply-keyboard captions shown by /start.
  const PostCaption := "📤 Пост в ВК"
  const HelpCaption := "ℹ️ Помощь"

  // The callback data of the two inline buttons under the prompt.
  const ConfirmToken := "confirm_post"
  const CancelToken := "cancel_post"

  // The fixed parts of the confirmation prompt around the post text.
  const PromptHead := "Вот текст поста:\n\n"
  const PromptTail := "\n\nОпубликовать в ВК?"

  /** The confirmation prompt for `message`: the post text sits between a
      fixed head and a fixed tail. */
  function Prompt(message: string): (r: string)
    ensures |r| == |PromptHead| + |message| + |PromptTail|
    ensures r[..|PromptHead|] == PromptHead
    ensures r[|PromptHead|..|PromptHead| + |message|] == message
    ensures r[|PromptHead| + |message|..] == PromptTail
  {
    PromptHead + message + PromptTail
  }

  /** Reads the post text back out of a prompt; None for any other reply. */
  function PromptMessage(r: string): (m: Option<string>)
  {
    if |r| >= |PromptHead| + |PromptTail|
       && r[..|PromptHead|] == PromptHead
       && r[|r| - |PromptTail|..] == PromptTail
    then Some(r[|PromptHead|..|r| - |PromptTail|])
    else None
  }

  /** The prompt shows exactly the text it was built from. */
  lemma PromptRoundTrip(message: string)
    ensures PromptMessage(Prompt(message)) == Some(message)
  {
    var r := Prompt(message);
    assert r[|r| - |PromptTail|..] == PromptTail;
    assert r[|PromptHead|..|r| - |PromptTail|] == message;
  }

  /** Two different post texts never produce the same prompt. */
  lemma PromptInjective(a: string, b: string)
    requires Prompt(a) == Prompt(b)
    ensures a == b
  {
    PromptRoundTrip(a);
    PromptRoundTrip(b);
  }

  /** The text shown after a failed publish, carrying VK's reason. */
  function PublishErrorText(reason: string): (r: string)
    ensures |r| == |PublishErrorPrefix| + |reason|
    ensures r[..|PublishErrorPrefix|] == PublishErrorPrefix
    ensures r[|PublishErrorPrefix|..] == reason
    ensures r != PublishedText
  {
    assert (PublishErrorPrefix + reason)[0] == PublishErrorPrefix[0];
    PublishErrorPrefix + reason
  }

  /** Whitespace as Python's `str.split()` treats it (`str.isspace`): the
      ASCII controls U+0009..U+000D and U+001C..U+001F, the space, and the
      Unicode separators. */
  predicate IsSpace(c: char)
  {
    || c == ' '
    || '\U{0009}' <= c <= '\U{000D}'
    || '\U{001C}' <= c <= '\U{001F}'
    || c == '\U{0085}' || c == '\U{00A0}' || c == '\U{1680}'
    || '\U{2000}' <= c <= '\U{200A}'
    || c == '\U{2028}' || c == '\U{2029}' || c == '\U{202F}' || c == '\U{205F}' || c == '\U{3000}'
  }

  /** A non-empty run of non-whitespace characters: one element of `context.args`. */
  predicate IsWord(w: string)
  {
    w != [] && forall i :: 0 <= i < |w| ==> !IsSpace(w[i])
  }

  /** Total number of characters in a list of strings. */
  function SumLengths(ss: seq<string>): nat
  {
    if ss == [] then 0 else |ss[0]| + SumLengths(ss[1..])
  }

  /** Python's `' '.join(args)`: the arguments separated by single spaces. */
  function JoinArgs(args: seq<string>): (r: string)
    ensures args != [] ==> |r| == SumLengths(args) + |args| - 1
    ensures args == [] ==> r == ""
    ensures args != [] ==> r[..|args[0]|] == args[0]
  {
    if |args| == 0 then ""
    else if |args| == 1 then args[0]
    else args[0] + " " + JoinArgs(args[1..])
  }

  /** The longest whitespace-free prefix of `s`. */
  function FirstWord(s: string): (w: string)
    ensures |w| <= |s| && w == s[..|w|]
    ensures forall i :: 0 <= i < |w| ==> !IsSpace(w[i])
    ensures |w| < |s| ==> IsSpace(s[|w|])
    ensures s != [] && !IsSpace(s[0]) ==> w != []
  {
    if s == [] || IsSpace(s[0]) then [] else [s[0]] + FirstWord(s[1..])
  }

  /** Python's `str.split()` without arguments: the maximal whitespace-free
      runs of `s`, in order. The telegram library builds `context.args`
      from the message text this way. */
  function Words(s: string): (ws: seq<string>)
    ensures forall i :: 0 <= i < |ws| ==> IsWord(ws[i])
    decreases |s|
  {
    if s == [] then []
    else if IsSpace(s[0]) then Words(s[1..])
    else
      var w := FirstWord(s);
      [w] + Words(s[|w|..])
  }

  /** Where a character-by-character scan stands: before the first word,
      right after a non-whitespace character, or after whitespace that
      follows a word. */
  datatype ScanMode = Leading | InWord | Gap

  /** The text with leading and trailing whitespace dropped and every
      inner whitespace run replaced by one space, computed one character
      at a time. */
  function Collapse(s: string): string
  {
    CollapseFrom(s, Leading)
  }

  function CollapseFrom(s: string, mode: ScanMode): string
  {
    if s == [] then ""
    else if IsSpace(s[0]) then CollapseFrom(s[1..], if mode == Leading then Leading else Gap)
    else (if mode == Gap then " " else "") + [s[0]] + CollapseFrom(s[1..], InWord)
  }

  /** The joined words as they continue a text after a gap. */
  function AfterGap(ws: seq<string>): string
  {
    if ws == [] then "" else " " + JoinArgs(ws)
  }

  /** Scanning a word from `mode` emits the word (after one space if a gap
      was pending) and ends right after it. */
  lemma {:induction false} CollapseWord(w: string, t: string, mode: ScanMode)
    requires IsWord(w)
    ensures CollapseFrom(w + t, mode) == (if mode == Gap then " " else "") + w + CollapseFrom(t, InWord)
    decreases |w|
  {
    assert (w + t)[1..] == w[1..] + t;
    if |w| > 1 {
      CollapseWord(w[1..], t, InWord);
      assert w == [w[0]] + w[1..];
    } else {
      assert w == [w[0]];
    }
  }

  /** Joining a word in front of a list puts one space between. */
  lemma JoinCons(w: string, ws: seq<string>)
    ensures JoinArgs([w] + ws) == w + AfterGap(ws)
  {
    if ws != [] {
      assert ([w] + ws)[1..] == ws;
    }
  }

  /** The words of `s`, joined by single spaces, are `s` collapsed. The
      statement is generalised over where the scan starts. */
  lemma {:induction false} WordsCollapseFrom(s: string, mode: ScanMode)
    requires mode != InWord
    ensures CollapseFrom(s, mode) == if mode == Leading then JoinArgs(Words(s)) else AfterGap(Words(s))
    decreases |s|, 2
  {
    if s != [] {
      if IsSpace(s[0]) {
        var next := if mode == Leading then Leading else Gap;
        assert CollapseFrom(s, mode) == CollapseFrom(s[1..], next);
        assert Words(s) == Words(s[1..]);
        WordsCollapseFrom(s[1..], next);
      } else {
        WordsCollapseAtWord(s, mode);
      }
    }
  }

  /** A text that starts with a word splits into that word and a rest that
      is empty or starts with whitespace. */
  lemma SplitAtWord(s: string) returns (w: string, r: string)
    requires s != [] && !IsSpace(s[0])
    ensures s == w + r && IsWord(w)
    ensures r == [] || IsSpace(r[0])
    ensures Words(s) == [w] + Words(r)
  {
    w := FirstWord(s);
    r := s[|w|..];
    assert s == w + r;
  }

  /** The case of `WordsCollapseFrom` where `s` starts with a word. */
  lemma {:induction false} WordsCollapseAtWord(s: string, mode: ScanMode)
    requires s != [] && !IsSpace(s[0])
    requires mode != InWord
    ensures CollapseFrom(s, mode) == if mode == Leading then JoinArgs(Words(s)) else AfterGap(Words(s))
    decreases |s|, 1
  {
    var w, r := SplitAtWord(s);
    CollapseAfterWord(r);
    WordFirst(w, r, Words(r), mode);
  }

  /** The word case with the recursion on the rest already done. */
  lemma WordFirst(w: string, r: string, ws: seq<string>, mode: ScanMode)
    requires IsWord(w)
    requires mode != InWord
    requires CollapseFrom(r, InWord) == AfterGap(ws)
    ensures CollapseFrom(w + r, mode) == if mode == Leading then JoinArgs([w] + ws) else AfterGap([w] + ws)
  {
    JoinCons(w, ws);
    CollapseWord(w, r, mode);
    if mode == Gap {
      assert AfterGap([w] + ws) == " " + (w + AfterGap(ws));
    }
  }

  /** Once a word has been emitted, the rest of the scan emits the
      remaining words, each after one space. */
  lemma {:induction false} CollapseAfterWord(r: string)
    requires r == [] || IsSpace(r[0])
    ensures CollapseFrom(r, InWord) == AfterGap(Words(r))
    decreases |r|, 0
  {
    if r != [] {
      WordsCollapseFrom(r[1..], Gap);
    }
  }

  /** `Words` keeps exactly the non-whitespace text of `s`, in order, split
      where whitespace was: joining its result gives `Collapse(s)`. */
  lemma WordsCollapse(s: string)
    ensures JoinArgs(Words(s)) == Collapse(s)
  {
    WordsCollapseFrom(s, Leading);
  }

  /** `Words(s)` is the only list of words whose join is `Collapse(s)`: the
      contract of `Words` and this lemma pin its result down completely. */
  lemma WordsUnique(s: string, ws: seq<string>)
    requires forall i :: 0 <= i < |ws| ==> IsWord(ws[i])
    requires JoinArgs(ws) == Collapse(s)
    ensures ws == Words(s)
  {
    WordsOfJoin(ws);
    WordsCollapse(s);
    WordsOfJoin(Words(s));
  }

  /** The first word of a word followed by whitespace (or nothing) is that word. */
  lemma {:induction false} FirstWordOfWord(w: string, t: string)
    requires IsWord(w)
    requires t == [] || IsSpace(t[0])
    ensures FirstWord(w + t) == w
    decreases |w|
  {
    if |w| > 1 {
      FirstWordOfWord(w[1..], t);
      assert (w + t)[1..] == w[1..] + t;
    } else {
      assert (w + t)[1..] == t;
    }
  }

  /** Joining words with single spaces and splitting again gives the same
      words back: the prompt shown by /post holds the arguments unchanged,
      only the whitespace between them is normalised. */
  lemma {:induction false} WordsOfJoin(args: seq<string>)
    requires forall i :: 0 <= i < |args| ==> IsWord(args[i])
    ensures Words(JoinArgs(args)) == args
    decreases |args|
  {
    if |args| == 1 {
      FirstWordOfWord(args[0], []);
      assert args[0] + [] == args[0];
      assert args[0][|args[0]|..] == [];
    } else if |args| > 1 {
      var a, rest := args[0], JoinArgs(args[1..]);
      var s := a + " " + rest;
      FirstWordOfWord(a, " " + rest);
      assert s == a + (" " + rest);
      assert s[|a|..] == " " + rest;
      assert (" " + rest)[1..] == rest;
      WordsOfJoin(args[1..]);
      assert args == [a] + args[1..];
    }
  }
}

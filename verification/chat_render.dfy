/** `render_chat` and `reset_chat` of the three chat apps: the history
    rendered as chat bubbles inside the chat box (app.py:326-351,
    test2.py:307-337, app_add_image_generator.py:324-335). The three copies
    differ only in the whitespace of their bubble templates. The clock read
    by `get_current_time` is the parameter `time`. */
module ChatRender {
  import opened Text
  import opened Conversation

  /** Which copy's bubble template: the indented multi-line one of app.py,
      the same with a trailing line break (test2.py), or the single-line one
      of app_add_image_generator.py. */
  datatype BubbleStyle = Indented | IndentedTrailing | Compact

  const ChatboxOpen := "<div class='chatbox'>"
  const ChatboxClose := "</div>"
  const Indicator := "<div class='history-indicator'>이전 대화 기록이 모델에 전달됩니다</div>"

  /** The chat box `reset_chat` returns. */
  const ResetHtml := ChatboxOpen + Indicator + ChatboxClose

  /** The indentation run of `n` spaces. */
  function Spaces(n: nat): (r: string)
    ensures |r| == n
    ensures forall k :: 0 <= k < n ==> r[k] == ' '
  {
    if n == 0 then "" else " " + Spaces(n - 1)
  }

  /** The line break and indentation between two tags of a template. */
  function Break(style: BubbleStyle, indent: nat): string {
    if style == Compact then "" else "\n" + Spaces(indent)
  }

  /** What follows the closing tag of a bubble. */
  function Trailer(style: BubbleStyle): string {
    if style == IndentedTrailing then "\n" + Spaces(16) else ""
  }

  /** How a user bubble starts. */
  function UserOpen(style: BubbleStyle): string {
    Break(style, 16) + "<div class='message user-msg'>"
  }

  /** How an assistant bubble starts. */
  function AiOpen(style: BubbleStyle): string {
    Break(style, 16) + "<div class='message ai-msg'>"
  }

  function UserBubble(style: BubbleStyle, msg: string, time: string): string {
    UserOpen(style) + UserBody(style, msg, time)
  }

  function UserBody(style: BubbleStyle, msg: string, time: string): string {
    Break(style, 20) + "<div>"
    + Break(style, 24) + "<div class='bubble user-bubble'>" + msg + "</div>"
    + Break(style, 24) + "<div class='time'>" + time + "</div>"
    + Break(style, 20) + "</div>"
    + Break(style, 16) + "</div>"
    + Trailer(style)
  }

  function AiBubble(style: BubbleStyle, msg: string, time: string): string {
    AiOpen(style) + AiBody(style, msg, time)
  }

  function AiBody(style: BubbleStyle, msg: string, time: string): string {
    Break(style, 20) + "<div class='profile'></div>"
    + Break(style, 20) + "<div>"
    + Break(style, 24) + "<div class='sender'>AI 도우미</div>"
    + Break(style, 24) + "<div class='bubble ai-bubble'>" + msg + "</div>"
    + Break(style, 24) + "<div class='time'>" + time + "</div>"
    + Break(style, 20) + "</div>"
    + Break(style, 16) + "</div>"
    + Trailer(style)
  }

  /** The bubble of one turn: a user bubble for the role "사용자", an
      assistant bubble for any other role. */
  function Bubble(style: BubbleStyle, t: Turn, time: string): string {
    if t.role == UserRole then UserBubble(style, t.text, time) else AiBubble(style, t.text, time)
  }

  /** The bubbles of the turns, in history order. */
  function Bubbles(style: BubbleStyle, turns: seq<Turn>, time: string): string
    decreases |turns|
  {
    if turns == [] then ""
    else Bubbles(style, turns[..|turns| - 1], time) + Bubble(style, turns[|turns| - 1], time)
  }

  /** The chat box of a history: the indicator, then one bubble per turn. */
  function RenderedChat(style: BubbleStyle, turns: seq<Turn>, time: string): string {
    ChatboxOpen + Indicator + Bubbles(style, turns, time) + ChatboxClose
  }

  /** `render_chat`: the loop that appends one bubble per turn to
      `messages_html`, then the wrap in the chat box. */
  method RenderChat(style: BubbleStyle, history: seq<Turn>, time: string) returns (html: string)
    ensures html == RenderedChat(style, history, time)
  {
    var messagesHtml := Indicator;
    var i := 0;
    assert Bubbles(style, history[..0], time) == "";
    while i < |history|
      invariant 0 <= i <= |history|
      invariant messagesHtml == Indicator + Bubbles(style, history[..i], time)
    {
      var t := history[i];
      var bubble;
      if t.role == UserRole {
        bubble := UserBubble(style, t.text, time);
      } else {
        bubble := AiBubble(style, t.text, time);
      }
      MessagesStep(style, history, i, time, messagesHtml, bubble);
      messagesHtml := messagesHtml + bubble;
      i := i + 1;
    }
    assert history[..i] == history;
    ConcatAssoc(ChatboxOpen, Indicator, Bubbles(style, history, time));
    html := ChatboxOpen + messagesHtml + ChatboxClose;
  }

  /** Appending the bubble of turn `i` to the markup of the turns before it
      gives the markup of the turns up to `i`. */
  lemma MessagesStep(style: BubbleStyle, history: seq<Turn>, i: nat, time: string, messages: string, bubble: string)
    requires i < |history|
    requires messages == Indicator + Bubbles(style, history[..i], time)
    requires bubble == if history[i].role == UserRole then UserBubble(style, history[i].text, time)
                       else AiBubble(style, history[i].text, time)
    ensures messages + bubble == Indicator + Bubbles(style, history[..i + 1], time)
  {
    assert history[..i + 1][..i] == history[..i];
    assert bubble == Bubble(style, history[i], time);
    ConcatAssoc(Indicator, Bubbles(style, history[..i], time), bubble);
  }

  lemma ConcatAssoc(x: string, y: string, z: string)
    ensures (x + y) + z == x + (y + z)
  {
  }

  /** The bubbles of two stretches of history are the bubbles of the first
      followed by those of the second: one bubble per turn, in order. */
  lemma {:induction false} BubblesAppend(style: BubbleStyle, a: seq<Turn>, b: seq<Turn>, time: string)
    ensures Bubbles(style, a + b, time) == Bubbles(style, a, time) + Bubbles(style, b, time)
    decreases |b|
  {
    if b == [] {
      assert a + b == a;
    } else {
      var n := |b|;
      assert (a + b)[..|a + b| - 1] == a + b[..n - 1];
      assert (a + b)[|a + b| - 1] == b[n - 1];
      BubblesAppend(style, a, b[..n - 1], time);
      ConcatAssoc(Bubbles(style, a, time), Bubbles(style, b[..n - 1], time), Bubble(style, b[n - 1], time));
    }
  }

  /** The user and assistant openings differ at the first letter of the
      message class. */
  lemma OpeningsDiffer(style: BubbleStyle)
    ensures var k := |Break(style, 16)| + 20;
            k < |UserOpen(style)| && k < |AiOpen(style)| && UserOpen(style)[k] != AiOpen(style)[k]
  {
    var br := Break(style, 16);
    var u := "<div class='message user-msg'>";
    var a := "<div class='message ai-msg'>";
    assert u[20] == 'u' && a[20] == 'a';
    assert (br + u)[|br| + 20] == u[20];
    assert (br + a)[|br| + 20] == a[20];
  }

  /** A turn's bubble opens as a user bubble exactly when its role is the
      user role; otherwise it opens as an assistant bubble. */
  lemma BubbleKindFollowsRole(style: BubbleStyle, t: Turn, time: string)
    ensures StartsWith(Bubble(style, t, time), UserOpen(style)) <==> t.role == UserRole
    ensures StartsWith(Bubble(style, t, time), AiOpen(style)) <==> t.role != UserRole
  {
    var b := Bubble(style, t, time);
    var uo, ao := UserOpen(style), AiOpen(style);
    OpeningsDiffer(style);
    var k := |Break(style, 16)| + 20;
    if t.role == UserRole {
      var rest := UserBody(style, t.text, time);
      assert b == uo + rest;
      assert b[..|uo|] == uo;
      assert b[k] == uo[k];
    } else {
      var rest := AiBody(style, t.text, time);
      assert b == ao + rest;
      assert b[..|ao|] == ao;
      assert b[k] == ao[k];
    }
  }

  /** What `reset_chat` shows is what `render_chat` shows for an empty
      history, whatever the time. */
  lemma ResetIsEmptyRender(style: BubbleStyle, time: string)
    ensures ResetHtml == RenderedChat(style, [], time)
  {
  }
}

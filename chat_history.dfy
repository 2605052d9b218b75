/**
  The chat page's conversation list (frontend/app/chat/page.tsx): the open
  conversation, the list of saved conversations kept newest first and
  mirrored into the browser's storage, and the operations that change them.
 */
module ChatHistory {
  import opened Opt
  import opened Decimal

  datatype Role = User | Bot

  datatype Message = Message(role: Role, text: string)

  /** One saved conversation. */
  datatype Chat = Chat(id: string, title: string, messages: seq<Message>, timestamp: int)

  /** Saving keeps at most this many conversations. */
  const MaxChats := 20
  /** Titles are cut to this many characters. */
  const TitleLength := 30
  const DefaultTitle := "New Chat"
  const NoResponseText := "No response"
  const ConnectionErrorText := "Error connecting to AI"

  function Min(a: int, b: int): int {
    if a < b then a else b
  }

  /** `filter(c => c.id !== id)`: the list without the conversations carrying `id`. */
  function Without(h: seq<Chat>, id: string): (r: seq<Chat>)
    ensures |r| <= |h|
    ensures forall c :: c in r <==> c in h && c.id != id
  {
    if h == [] then []
    else (if h[0].id == id then [] else [h[0]]) + Without(h[1..], id)
  }

  /** Filtering out an id no conversation carries changes nothing. */
  lemma {:induction false} WithoutAbsent(h: seq<Chat>, id: string)
    requires forall c :: c in h ==> c.id != id
    ensures Without(h, id) == h
  {
    if h != [] {
      assert h[0] in h;
      assert forall c :: c in h[1..] ==> c in h;
      WithoutAbsent(h[1..], id);
      assert h == [h[0]] + h[1..];
    }
  }

  /**
    Filtering distributes over concatenation: it keeps the surviving
    conversations in their original relative order.
   */
  lemma {:induction false} WithoutAppend(a: seq<Chat>, b: seq<Chat>, id: string)
    ensures Without(a + b, id) == Without(a, id) + Without(b, id)
  {
    if a != [] {
      assert (a + b)[1..] == a[1..] + b;
      WithoutAppend(a[1..], b, id);
    } else {
      assert a + b == b;
    }
  }

  predicate UniqueIds(h: seq<Chat>) {
    forall i, j :: 0 <= i < j < |h| ==> h[i].id != h[j].id
  }

  /** Filtering keeps ids unique. */
  lemma {:induction false} WithoutUnique(h: seq<Chat>, id: string)
    requires UniqueIds(h)
    ensures UniqueIds(Without(h, id))
  {
    if h != [] {
      var rest := Without(h[1..], id);
      assert UniqueIds(h[1..]) by {
        forall i, j | 0 <= i < j < |h[1..]| ensures h[1..][i].id != h[1..][j].id {
          assert h[1..][i] == h[i + 1] && h[1..][j] == h[j + 1];
        }
      }
      WithoutUnique(h[1..], id);
      if h[0].id != id {
        forall k | 0 <= k < |rest| ensures rest[k].id != h[0].id {
          assert rest[k] in h[1..];
          var m :| 0 <= m < |h[1..]| && h[1..][m] == rest[k];
          assert h[m + 1] == rest[k];
        }
        assert Without(h, id) == [h[0]] + rest;
      }
    }
  }

  /**
    `messages[0]?.text?.substring(0, 30) || 'New Chat'`: the first thirty
    characters of the first message, or the default title when there is no
    first message or its text is empty.
   */
  function Title(messages: seq<Message>): (t: string)
    ensures 1 <= |t| <= TitleLength
    ensures messages != [] && messages[0].text != [] ==>
      t == messages[0].text[..Min(TitleLength, |messages[0].text|)]
    ensures messages == [] || messages[0].text == [] ==> t == DefaultTitle
  {
    if messages == [] || messages[0].text == [] then DefaultTitle
    else messages[0].text[..Min(TitleLength, |messages[0].text|)]
  }

  /**
    The list after saving `chat`: the conversation first, then the others
    without any older copy of it, in their previous order, cut to twenty.
   */
  function Saved(h: seq<Chat>, chat: Chat): (r: seq<Chat>)
    ensures |r| == Min(MaxChats, 1 + |Without(h, chat.id)|)
    ensures 1 <= |r| <= MaxChats && r[0] == chat
    ensures forall i :: 1 <= i < |r| ==> r[i] == Without(h, chat.id)[i - 1]
    ensures forall i :: 1 <= i < |r| ==> r[i].id != chat.id && r[i] in h
  {
    var w := Without(h, chat.id);
    var r := ([chat] + w)[..Min(MaxChats, 1 + |w|)];
    assert forall i :: 1 <= i < |r| ==> r[i] == w[i - 1];
    assert forall i :: 1 <= i < |r| ==> r[i] in w;
    r
  }

  /** Saving keeps ids unique: the saved conversation appears exactly once. */
  lemma SavedUnique(h: seq<Chat>, chat: Chat)
    requires UniqueIds(h)
    ensures UniqueIds(Saved(h, chat))
  {
    var w := Without(h, chat.id);
    WithoutUnique(h, chat.id);
    var r := Saved(h, chat);
    forall i, j | 0 <= i < j < |r| ensures r[i].id != r[j].id {
      if i > 0 {
        assert r[i] == w[i - 1] && r[j] == w[j - 1];
      }
    }
  }

  /** Saving the same conversation twice leaves the list as the first save did. */
  lemma SavedIdempotent(h: seq<Chat>, chat: Chat)
    ensures Saved(Saved(h, chat), chat) == Saved(h, chat)
  {
    var r := Saved(h, chat);
    var w := Without(h, chat.id);
    assert r == [chat] + w[..|r| - 1];
    assert forall c :: c in w[..|r| - 1] ==> c in w;
    WithoutAbsent(w[..|r| - 1], chat.id);
    assert Without(r, chat.id) == w[..|r| - 1];
  }

  /** The characters `String.prototype.trim` removes. */
  predicate IsWhitespace(c: char) {
    || c == '\t' || c == '\n' || c == '\U{B}' || c == '\U{C}' || c == '\r' || c == ' '
    || c == '\U{A0}' || c == '\U{1680}' || ('\U{2000}' <= c <= '\U{200A}')
    || c == '\U{2028}' || c == '\U{2029}' || c == '\U{202F}' || c == '\U{205F}'
    || c == '\U{3000}' || c == '\U{FEFF}'
  }

  /** `!input.trim()`: nothing but whitespace. */
  predicate Blank(s: string) {
    forall i :: 0 <= i < |s| ==> IsWhitespace(s[i])
  }

  /** How the chat request ended: a JSON answer with an optional `response`, or an exception. */
  datatype Reply = Answered(response: Option<string>) | Failed

  /** The bot's message text: the response, `'No response'` for a missing or empty one, or the connection error. */
  function BotText(reply: Reply): (t: string)
    ensures t != []
    ensures reply.Failed? ==> t == ConnectionErrorText
    ensures reply.Answered? && reply.response.Some? && reply.response.value != [] ==> t == reply.response.value
    ensures reply.Answered? && (reply.response.None? || reply.response.value == []) ==> t == NoResponseText
  {
    match reply
    case Failed => ConnectionErrorText
    case Answered(r) => if r.None? || r.value == [] then NoResponseText else r.value
  }

  /** `currentChatId || Date.now().toString()`: the open id, or a new one from the clock. */
  function ChatIdFor(current: Option<string>, now: nat): (id: string)
    ensures current.Some? && current.value != [] ==> id == current.value
    ensures current.None? || current.value == [] ==> id == NatToString(now) && AllDigits(id)
  {
    if current.Some? && current.value != [] then current.value else NatToString(now)
  }

  class ChatPage {
    /** The open conversation. */
    var msgs: seq<Message>
    /** The text box. */
    var input: string
    /** The saved conversations, newest first. */
    var history: seq<Chat>
    /** The id of the open conversation, if it was saved or loaded. */
    var current: Option<string>
    /** The `awg_chat_history` entry of the browser's storage. */
    var stored: Option<seq<Chat>>

    /** The list on the page and the stored copy agree. */
    ghost predicate Valid()
      reads this
    {
      (stored == None && history == []) || stored == Some(history)
    }

    /** The page on mount: empty conversation and text box, the list read back from storage. */
    constructor (saved: Option<seq<Chat>>)
      ensures Valid()
      ensures msgs == [] && input == [] && current == None && stored == saved
      ensures history == if saved.Some? then saved.value else []
    {
      msgs := [];
      input := [];
      current := None;
      stored := saved;
      history := if saved.Some? then saved.value else [];
    }

    /** Typing into the text box. */
    method SetInput(text: string)
      modifies this`input
      ensures input == text
    {
      input := text;
    }

    /**
      `saveToHistory`: nothing for an empty conversation; otherwise the
      conversation is saved at the head of the list under the open id (or a
      new one), the list is written to storage, and that id becomes the open one.
     */
    method SaveToHistory(messages: seq<Message>, now: nat)
      requires Valid()
      modifies this`history, this`stored, this`current
      ensures Valid()
      ensures messages == [] ==> history == old(history) && stored == old(stored) && current == old(current)
      ensures messages != [] ==>
        var id := ChatIdFor(old(current), now);
        && history == Saved(old(history), Chat(id, Title(messages), messages, now))
        && stored == Some(history)
        && current == Some(id)
    {
      if |messages| == 0 {
        return;
      }
      var chatId := ChatIdFor(current, now);
      var title := Title(messages);
      var chat := Chat(chatId, title, messages, now);
      var updated := Saved(history, chat);
      history := updated;
      stored := Some(updated);
      current := Some(chatId);
    }

    /** `loadChat`: the chosen conversation becomes the open one. */
    method LoadChat(chat: Chat)
      modifies this`msgs, this`current
      ensures msgs == chat.messages && current == Some(chat.id)
    {
      msgs := chat.messages;
      current := Some(chat.id);
    }

    /** `newChat`: an empty conversation with no id. */
    method NewChat()
      modifies this`msgs, this`current
      ensures msgs == [] && current == None
    {
      msgs := [];
      current := None;
    }

    /**
      `deleteChat`: every conversation with the id leaves the list and the
      stored copy; if it was the open one, an empty conversation is opened.
     */
    method DeleteChat(id: string)
      requires Valid()
      modifies this`history, this`stored, this`msgs, this`current
      ensures Valid()
      ensures history == Without(old(history), id) && stored == Some(history)
      ensures forall c :: c in history ==> c.id != id
      ensures old(current) == Some(id) ==> msgs == [] && current == None
      ensures old(current) != Some(id) ==> msgs == old(msgs) && current == old(current)
    {
      var updated := Without(history, id);
      history := updated;
      stored := Some(updated);
      if current == Some(id) {
        NewChat();
      }
    }

    /**
      `send`: a blank text box does nothing. Otherwise the user's message
      and the bot's answer (or the error text) are appended, the text box
      is cleared and the conversation is saved.
     */
    method Send(reply: Reply, now: nat)
      requires Valid()
      modifies this
      ensures Valid()
      ensures Blank(old(input)) ==>
        && msgs == old(msgs) && input == old(input) && history == old(history)
        && stored == old(stored) && current == old(current)
      ensures !Blank(old(input)) ==>
        var conversation := old(msgs) + [Message(User, old(input)), Message(Bot, BotText(reply))];
        var id := ChatIdFor(old(current), now);
        && msgs == conversation
        && input == []
        && history == Saved(old(history), Chat(id, Title(conversation), conversation, now))
        && stored == Some(history)
        && current == Some(id)
    {
      if Blank(input) {
        return;
      }
      var userMsg := Message(User, input);
      var updatedMsgs := msgs + [userMsg];
      msgs := updatedMsgs;
      input := [];
      var botMsg := Message(Bot, BotText(reply));
      var finalMsgs := updatedMsgs + [botMsg];
      msgs := finalMsgs;
      SaveToHistory(finalMsgs, now);
    }
  }

  /** Deleting leaves exactly the other conversations, and ids stay unique. */
  lemma DeleteKeepsOthers(h: seq<Chat>, id: string)
    requires UniqueIds(h)
    ensures UniqueIds(Without(h, id))
    ensures forall c :: c in h && c.id != id ==> c in Without(h, id)
    ensures |Without(h, id)| >= |h| - 1
  {
    WithoutUnique(h, id);
    WithoutAtMostOne(h, id);
  }

  /** With unique ids, filtering one id removes at most one conversation. */
  lemma {:induction false} WithoutAtMostOne(h: seq<Chat>, id: string)
    requires UniqueIds(h)
    ensures |Without(h, id)| >= |h| - 1
    ensures (forall c :: c in h ==> c.id != id) ==> |Without(h, id)| == |h|
  {
    if h != [] {
      assert UniqueIds(h[1..]) by {
        forall i, j | 0 <= i < j < |h[1..]| ensures h[1..][i].id != h[1..][j].id {
          assert h[1..][i] == h[i + 1] && h[1..][j] == h[j + 1];
        }
      }
      if h[0].id == id {
        assert forall c :: c in h[1..] ==> c.id != id by {
          forall c | c in h[1..] ensures c.id != id {
            var m :| 0 <= m < |h[1..]| && h[1..][m] == c;
            assert h[m + 1] == c;
          }
        }
        WithoutAbsent(h[1..], id);
      } else {
        assert h[0] in h;
        assert forall c :: c in h[1..] ==> c in h;
        WithoutAtMostOne(h[1..], id);
      }
    }
  }
}

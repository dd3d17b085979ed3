/**
 * The chat screen: a per-user transcript cached in local storage for seven
 * days, the send and clear actions, and the way a message's text is split
 * into paragraphs.
 */
module Chat {
  import opened Js
  import opened Strings
  import opened Storage

  // ------------------------------------------------------------ The cache

  /** The storage key of a user's transcript. */
  function ChatKey(username: string): string {
    "chat_" + username
  }

  lemma ChatKeyInjective(u: string, v: string)
    ensures ChatKey(u) == ChatKey(v) ==> u == v
  {
    if ChatKey(u) == ChatKey(v) {
      assert u == ChatKey(u)[5..];
      assert v == ChatKey(v)[5..];
    }
  }

  /** No transcript key collides with the two token keys. */
  lemma ChatKeyNotToken(u: string)
    ensures ChatKey(u) != TokenKey && ChatKey(u) != AdminTokenKey
  {
    assert ChatKey(u)[0] == 'c';
    assert TokenKey[0] == 't' && AdminTokenKey[0] == 'a';
  }

  /** Seven days in milliseconds. */
  const SevenDaysMs: int := 7 * 24 * 60 * 60 * 1000

  /** The greeting a fresh transcript starts with. */
  function Welcome(username: string): Message {
    Message(BotSender, "Welcome " + username + "! How can I support your wellness today?")
  }

  /** A transcript stored less than seven days before `now`, if there is one. */
  function Restored(saved: Option<Entry>, now: int): (r: Option<seq<Message>>)
    ensures r.Some? <==> saved.Some? && saved.value.Transcript? && now - saved.value.timestamp < SevenDaysMs
    ensures r.Some? ==> r.value == saved.value.messages
  {
    if saved.Some? && saved.value.Transcript? && now - saved.value.timestamp < SevenDaysMs
    then Some(saved.value.messages)
    else None
  }

  /** The transcript the mount effect shows for `username`. */
  function Loaded(entries: map<string, Entry>, username: string, now: int): seq<Message> {
    var saved := if ChatKey(username) in entries then Some(entries[ChatKey(username)]) else None;
    match Restored(saved, now)
    case Some(messages) => messages
    case None => [Welcome(username)]
  }

  /** A transcript saved at `t0` is restored exactly while less than seven days have passed. */
  lemma LoadAfterSave(entries: map<string, Entry>, username: string, messages: seq<Message>, t0: int, now: int)
    ensures Loaded(entries[ChatKey(username) := Transcript(messages, t0)], username, now) ==
      (if now - t0 < SevenDaysMs then messages else [Welcome(username)])
  {
  }

  /** At seven days exactly the transcript has expired. */
  lemma ExpiresAtSevenDays(entries: map<string, Entry>, username: string, messages: seq<Message>, t0: int)
    ensures Loaded(entries[ChatKey(username) := Transcript(messages, t0)], username, t0 + SevenDaysMs)
      == [Welcome(username)]
  {
    LoadAfterSave(entries, username, messages, t0, t0 + SevenDaysMs);
  }

  /** Writing another user's transcript, or a token, does not change what a user loads. */
  lemma LoadIgnoresOtherKeys(entries: map<string, Entry>, username: string, key: string, e: Entry, now: int)
    requires key != ChatKey(username)
    ensures Loaded(entries[key := e], username, now) == Loaded(entries, username, now)
  {
  }

  lemma LoadIgnoresOtherUsers(entries: map<string, Entry>, username: string, other: string, e: Entry, now: int)
    requires other != username
    ensures Loaded(entries[ChatKey(other) := e], username, now) == Loaded(entries, username, now)
  {
    ChatKeyInjective(other, username);
    LoadIgnoresOtherKeys(entries, username, ChatKey(other), e, now);
  }

  /** A transcript that opens with the user's greeting. */
  predicate StartsWithWelcome(messages: seq<Message>, username: string) {
    |messages| >= 1 && messages[0] == Welcome(username)
  }

  /** Every stored transcript is non-empty and opens with its owner's greeting. */
  ghost predicate ChatsWellFormed(entries: map<string, Entry>) {
    forall u :: ChatKey(u) in entries && entries[ChatKey(u)].Transcript? ==>
      StartsWithWelcome(entries[ChatKey(u)].messages, u)
  }

  /** Storing a transcript that opens with its owner's greeting keeps the store well formed. */
  lemma SaveKeepsWellFormed(entries: map<string, Entry>, username: string, messages: seq<Message>, t: int)
    requires ChatsWellFormed(entries) && StartsWithWelcome(messages, username)
    ensures ChatsWellFormed(entries[ChatKey(username) := Transcript(messages, t)])
  {
    var e' := entries[ChatKey(username) := Transcript(messages, t)];
    forall u | ChatKey(u) in e' && e'[ChatKey(u)].Transcript?
      ensures StartsWithWelcome(e'[ChatKey(u)].messages, u)
    {
      ChatKeyInjective(u, username);
    }
  }

  /** Appending to a transcript that opens with the greeting, and saving it, keeps the store well formed. */
  lemma AppendKeepsWellFormed(entries: map<string, Entry>, username: string,
                              before: seq<Message>, extra: seq<Message>, t: int)
    ensures StartsWithWelcome(before, username) && ChatsWellFormed(entries) ==>
      && StartsWithWelcome(before + extra, username)
      && ChatsWellFormed(entries[ChatKey(username) := Transcript(before + extra, t)])
  {
    if StartsWithWelcome(before, username) && ChatsWellFormed(entries) {
      assert (before + extra)[0] == before[0];
      SaveKeepsWellFormed(entries, username, before + extra, t);
    }
  }

  /** Writing a token never disturbs a transcript. */
  lemma TokenWriteKeepsWellFormed(entries: map<string, Entry>, key: string, token: string)
    requires ChatsWellFormed(entries) && (key == TokenKey || key == AdminTokenKey)
    ensures ChatsWellFormed(entries[key := Text(token)])
  {
    var e' := entries[key := Text(token)];
    forall u | ChatKey(u) in e' && e'[ChatKey(u)].Transcript?
      ensures StartsWithWelcome(e'[ChatKey(u)].messages, u)
    {
      ChatKeyNotToken(u);
    }
  }

  /** In a well-formed store every user loads a transcript that opens with the greeting. */
  lemma LoadedStartsWithWelcome(entries: map<string, Entry>, username: string, now: int)
    requires ChatsWellFormed(entries)
    ensures StartsWithWelcome(Loaded(entries, username, now), username)
  {
    var key := ChatKey(username);
    if key in entries && entries[key].Transcript? {
      assert StartsWithWelcome(entries[ChatKey(username)].messages, username);
    }
  }

  // ------------------------------------------------------------- Sending

  /** The chat request's reply: `res.data.response`, or a rejection. */
  datatype ChatOutcome = ChatReplied(response: Option<string>) | ChatFailed

  const FallbackReply: string := "I'm here to help!"
  const ErrorReply: string := "\U{26A0}\U{FE0F} Error contacting server."

  /** The bot's message text for a reply: the response, the fallback, or the error notice. */
  function BotReply(o: ChatOutcome): (r: string)
    ensures o.ChatReplied? && Truthy(o.response) ==> r == o.response.value
    ensures o.ChatReplied? && !Truthy(o.response) ==> r == FallbackReply
    ensures o.ChatFailed? ==> r == ErrorReply
    ensures r != ""
  {
    match o
    case ChatReplied(response) => OrElse(response, FallbackReply)
    case ChatFailed => ErrorReply
  }

  /** The chat request: the typed text and the bearer header built from "token". */
  datatype ChatRequest = ChatRequest(message: string, authorization: string)

  class ChatBox {
    const username: string
    var messages: seq<Message>
    var userInput: string
    var loading: bool

    /** The well-formedness the cache relies on: a shown transcript opens with the greeting. */
    predicate Valid()
      reads this
    {
      messages == [] || StartsWithWelcome(messages, username)
    }

    constructor (username: string)
      ensures this.username == username
      ensures messages == [] && userInput == "" && !loading
      ensures Valid()
    {
      this.username := username;
      messages := [];
      userInput := "";
      loading := false;
    }

    /** The persist effect: a non-empty transcript is saved with the current time. */
    method Persist(store: LocalStore, now: int)
      modifies store
      ensures messages == [] ==> store.entries == old(store.entries)
      ensures messages != [] ==>
        store.entries == old(store.entries)[ChatKey(username) := Transcript(messages, now)]
    {
      if |messages| == 0 {
        return;
      }
      store.SetItem(ChatKey(username), Transcript(messages, now));
    }

    /**
     * The mount effect and the persist effect its update triggers: a fresh
     * transcript is restored and re-saved with a new timestamp; otherwise the
     * greeting is shown and saved.
     */
    method Mount(store: LocalStore, now: int)
      modifies this, store
      ensures messages == Loaded(old(store.entries), username, now)
      ensures messages == [] ==> store.entries == old(store.entries)
      ensures messages != [] ==> store.entries == old(store.entries)[ChatKey(username) := Transcript(messages, now)]
      ensures ChatsWellFormed(old(store.entries)) ==>
        StartsWithWelcome(messages, username) && Valid() && ChatsWellFormed(store.entries)
      ensures userInput == old(userInput) && loading == old(loading)
    {
      var key := ChatKey(username);
      var saved := store.GetItem(key);
      if saved.Some? && saved.value.Transcript? && now - saved.value.timestamp < SevenDaysMs {
        messages := saved.value.messages;
      } else {
        messages := [Welcome(username)];
        store.SetItem(key, Transcript(messages, now));
        assert store.entries[key := Transcript(messages, now)] == store.entries;
      }
      Persist(store, now);
      if ChatsWellFormed(old(store.entries)) {
        LoadedStartsWithWelcome(old(store.entries), username, now);
        SaveKeepsWellFormed(old(store.entries), username, messages, now);
      }
    }

    /** The input field. */
    method ChangeInput(text: string)
      modifies this
      ensures userInput == text
      ensures messages == old(messages) && loading == old(loading)
    {
      userInput := text;
    }

    /**
     * `sendMessage` up to its `await`: blank input does nothing; otherwise the
     * user's line is appended and saved, `loading` is set, and the request is
     * sent. `sent` is the transcript the handler captured (`newMessages`),
     * which the reply half builds on. `sentAt` is the clock at the save.
     */
    method SendMessage(store: LocalStore, sentAt: int) returns (request: Option<ChatRequest>, sent: seq<Message>)
      modifies this, store
      ensures Trim(old(userInput)) == [] ==>
        && request == None && sent == old(messages)
        && messages == old(messages) && userInput == old(userInput) && loading == old(loading)
        && store.entries == old(store.entries)
      ensures Trim(old(userInput)) != [] ==>
        && request == Some(ChatRequest(old(userInput), Bearer(old(store.Token(TokenKey)))))
        && sent == old(messages) + [Message(UserSender, old(userInput))]
        && messages == sent && userInput == old(userInput) && loading
        && store.entries == old(store.entries)[ChatKey(username) := Transcript(sent, sentAt)]
      ensures StartsWithWelcome(old(messages), username) ==> StartsWithWelcome(sent, username)
      ensures StartsWithWelcome(old(messages), username) && ChatsWellFormed(old(store.entries)) ==>
        ChatsWellFormed(store.entries)
    {
      if Trim(userInput) == [] {
        return None, messages;
      }
      // `getItem("token")` runs before the first await, so before the first save
      var token := store.Token(TokenKey);
      var text := userInput;
      request := Some(ChatRequest(text, Bearer(token)));
      Append(store, Message(UserSender, text), sentAt);
      sent := messages;
      loading := true;
    }

    /**
     * `sendMessage` after its `await`, on a box still mounted: the bot's line
     * is appended to the captured transcript `sent`, not to the one shown now,
     * then saved; the input is cleared and `loading` ends. A box unmounted
     * while waiting drops the reply, which is not calling this at all.
     */
    method ReceiveReply(store: LocalStore, sent: seq<Message>, outcome: ChatOutcome, repliedAt: int)
      modifies this, store
      ensures messages == sent + [Message(BotSender, BotReply(outcome))]
      ensures store.entries == old(store.entries)[ChatKey(username) := Transcript(messages, repliedAt)]
      ensures userInput == "" && !loading
      ensures StartsWithWelcome(sent, username) ==> StartsWithWelcome(messages, username) && Valid()
      ensures StartsWithWelcome(sent, username) && ChatsWellFormed(old(store.entries)) ==>
        ChatsWellFormed(store.entries)
    {
      messages := sent + [Message(BotSender, BotReply(outcome))];
      Persist(store, repliedAt);
      AppendKeepsWellFormed(old(store.entries), username, sent, [Message(BotSender, BotReply(outcome))], repliedAt);
      userInput := "";
      loading := false;
    }

    /**
     * A send whose reply arrives before anything else happens: both lines
     * are appended, the transcript is saved with the reply's time, and the
     * input is cleared.
     */
    method SendAndReceive(store: LocalStore, outcome: ChatOutcome, sentAt: int, repliedAt: int)
      returns (request: Option<ChatRequest>)
      modifies this, store
      ensures Trim(old(userInput)) == [] ==>
        && request == None
        && messages == old(messages) && userInput == old(userInput) && loading == old(loading)
        && store.entries == old(store.entries)
      ensures Trim(old(userInput)) != [] ==>
        && request == Some(ChatRequest(old(userInput), Bearer(old(store.Token(TokenKey)))))
        && messages == old(messages) + [Message(UserSender, old(userInput)), Message(BotSender, BotReply(outcome))]
        && userInput == "" && !loading
        && store.entries == old(store.entries)[ChatKey(username) := Transcript(messages, repliedAt)]
      ensures StartsWithWelcome(old(messages), username) && ChatsWellFormed(old(store.entries)) ==>
        StartsWithWelcome(messages, username) && ChatsWellFormed(store.entries)
    {
      var sent;
      request, sent := SendMessage(store, sentAt);
      if request.Some? {
        ReceiveReply(store, sent, outcome, repliedAt);
        assert old(store.entries)[ChatKey(username) := Transcript(sent, sentAt)][ChatKey(username) := Transcript(messages, repliedAt)]
            == old(store.entries)[ChatKey(username) := Transcript(messages, repliedAt)];
      }
    }

    /**
     * The clear button, the input and the other screens' buttons stay live
     * while a reply is pending; only the send button is disabled. A clear and
     * new typing during the wait are both undone when the reply arrives: the
     * transcript becomes the captured one plus the reply, saved as such, and
     * the input is emptied.
     */
    method ClearAndTypeWhileWaiting(store: LocalStore, outcome: ChatOutcome, typed: string,
                                    sentAt: int, clearedAt: int, repliedAt: int)
      returns (request: Option<ChatRequest>)
      requires Trim(userInput) != []
      modifies this, store
      ensures request == Some(ChatRequest(old(userInput), Bearer(old(store.Token(TokenKey)))))
      ensures messages == old(messages) + [Message(UserSender, old(userInput)), Message(BotSender, BotReply(outcome))]
      ensures store.entries == old(store.entries)[ChatKey(username) := Transcript(messages, repliedAt)]
      ensures userInput == "" && !loading
    {
      var sent;
      request, sent := SendMessage(store, sentAt);
      HandleClear(store, clearedAt);
      assert messages == [Welcome(username)];
      ChangeInput(typed);
      ReceiveReply(store, sent, outcome, repliedAt);
      assert old(store.entries)[ChatKey(username) := Transcript(sent, sentAt)]
          [ChatKey(username) := Transcript([Welcome(username)], clearedAt)]
          [ChatKey(username) := Transcript(messages, repliedAt)]
          == old(store.entries)[ChatKey(username) := Transcript(messages, repliedAt)];
    }

    /**
     * Leaving the chat while a reply is pending unmounts the box and drops
     * the reply: the stored transcript ends with the user's line alone.
     */
    method LeaveWhileWaiting(store: LocalStore, sentAt: int) returns (request: Option<ChatRequest>)
      requires Trim(userInput) != []
      modifies this, store
      ensures request.Some?
      ensures store.entries == old(store.entries)[ChatKey(username) :=
        Transcript(old(messages) + [Message(UserSender, old(userInput))], sentAt)]
      ensures loading
    {
      var sent;
      request, sent := SendMessage(store, sentAt);
    }

    /** `setMessages([...messages, m])` followed by the persist effect it triggers. */
    method Append(store: LocalStore, m: Message, now: int)
      modifies this, store
      ensures messages == old(messages) + [m]
      ensures store.entries == old(store.entries)[ChatKey(username) := Transcript(messages, now)]
      ensures userInput == old(userInput) && loading == old(loading)
      ensures StartsWithWelcome(old(messages), username) ==> StartsWithWelcome(messages, username)
      ensures StartsWithWelcome(old(messages), username) && ChatsWellFormed(old(store.entries)) ==>
        ChatsWellFormed(store.entries)
    {
      messages := messages + [m];
      Persist(store, now);
      AppendKeepsWellFormed(old(store.entries), username, old(messages), [m], now);
    }

    /** `handleClear`: back to the greeting alone, saved at once. */
    method HandleClear(store: LocalStore, now: int)
      modifies this, store
      ensures messages == [Welcome(username)] && Valid()
      ensures store.entries == old(store.entries)[ChatKey(username) := Transcript([Welcome(username)], now)]
      ensures ChatsWellFormed(old(store.entries)) ==> ChatsWellFormed(store.entries)
      ensures userInput == old(userInput) && loading == old(loading)
    {
      messages := [Welcome(username)];
      store.SetItem(ChatKey(username), Transcript(messages, now));
      Persist(store, now);
      if ChatsWellFormed(old(store.entries)) {
        SaveKeepsWellFormed(old(store.entries), username, messages, now);
      }
    }
  }

  // ----------------------------------------------------------- Rendering

  /** The dash branch: each non-blank piece, trimmed, behind "- ". */
  function DashLines(pieces: seq<string>): (r: seq<string>)
    ensures |r| <= |pieces|
    ensures forall i :: 0 <= i < |r| ==>
      |r[i]| > 2 && r[i][..2] == "- " && IsTrimmed(r[i][2..])
  {
    if pieces == [] then []
    else
      var t := Trim(pieces[0]);
      var head := if t == [] then [] else ["- " + t];
      assert forall i :: 0 <= i < |head| ==> head[i][2..] == t;
      head + DashLines(pieces[1..])
  }

  /** A single piece gives its trimmed text as a bullet, or nothing when it is blank. */
  lemma DashLinesSingle(p: string)
    ensures DashLines([p]) == if Trim(p) == [] then [] else ["- " + Trim(p)]
  {
    assert [p][1..] == [];
  }

  /** The bullets of consecutive pieces are the bullets of each part, in order. */
  lemma {:induction false} DashLinesAppend(a: seq<string>, b: seq<string>)
    ensures DashLines(a + b) == DashLines(a) + DashLines(b)
    decreases |a|
  {
    if a != [] {
      assert (a + b)[0] == a[0];
      assert (a + b)[1..] == a[1..] + b;
      DashLinesAppend(a[1..], b);
    } else {
      assert a + b == b;
    }
  }

  /**
   * `renderMessageText`: the paragraphs shown for a message. Text with a
   * newline is split on newlines and every line trimmed; otherwise text with
   * "- " is split there and shown as trimmed, non-blank bullet lines;
   * anything else is one paragraph.
   */
  function RenderMessageText(text: string): (lines: seq<string>)
    ensures '\n' in text ==>
      && |lines| == multiset(text)['\n'] + 1
      && forall i :: 0 <= i < |lines| ==> IsTrimmed(lines[i]) && '\n' !in lines[i]
    ensures '\n' in text ==> lines == MapTrim(Split(text, "\n"))
    ensures '\n' !in text && Contains(text, "- ") ==>
      && |lines| <= |Split(text, "- ")|
      && forall i :: 0 <= i < |lines| ==> |lines[i]| > 2 && lines[i][..2] == "- " && IsTrimmed(lines[i][2..])
    ensures '\n' !in text && Contains(text, "- ") ==> lines == DashLines(Split(text, "- "))
    ensures '\n' !in text && !Contains(text, "- ") ==> lines == [text]
  {
    if '\n' in text then
      var pieces := Split(text, "\n");
      SplitCount(text, '\n');
      SplitPiecesFree(text, '\n');
      MapTrimFree(pieces, '\n');
      MapTrim(pieces)
    else if Contains(text, "- ") then
      DashLines(Split(text, "- "))
    else
      [text]
  }

  /**
   * Several trimmed lines without newlines, written one per line, are shown
   * as exactly those paragraphs.
   */
  lemma RenderLinesRoundTrip(ls: seq<string>)
    requires |ls| >= 2
    requires forall i :: 0 <= i < |ls| ==> '\n' !in ls[i] && IsTrimmed(ls[i])
    ensures RenderMessageText(Join(ls, "\n")) == ls
  {
    var text := Join(ls, "\n");
    assert text == ls[0] + "\n" + Join(ls[1..], "\n");
    assert text[|ls[0]|] == '\n';
    assert "\n" == ['\n'] + "";
    SplitJoinTrimRoundTrip(ls, '\n', "");
  }
}

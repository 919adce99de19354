/** The chat-session store (src/store/chatStore.ts): the Message, Citation
    and Chat records, the per-chat transforms that the store's mutators apply
    with `filter`, `map` and object spread, and the store itself as a class
    whose four fields the mutators replace. */
module ChatStore {
  import opened Wrappers

  datatype Role = User | Assistant

  datatype Mode = Academic | Clinical

  datatype Citation = Citation(chapter: string, page: int, text: string)

  /** `citations` is optional in the source (`citations?: Citation[]`). */
  datatype Message = Message(id: string, role: Role, content: string, timestamp: int,
                             citations: Option<seq<Citation>>)

  datatype Chat = Chat(id: string, title: string, messages: seq<Message>, mode: Mode,
                       createdAt: int, updatedAt: int)

  /** Title given to a chat before its first message. */
  const DefaultTitle: string := "Untitled"

  /** `slice(0, 50)` in the title derivation. */
  const TitleLimit: nat := 50

  const IdPrefix: string := "chat-"

  // ---------------------------------------------------------------------
  // Chat identifiers: `chat-${Date.now()}`
  // ---------------------------------------------------------------------

  function DigitChar(d: nat): (c: char)
    requires d < 10
    ensures '0' <= c <= '9' && (c as int) - ('0' as int) == d
  {
    ['0', '1', '2', '3', '4', '5', '6', '7', '8', '9'][d]
  }

  /** The decimal rendering a JavaScript template literal gives a
      non-negative integer: no sign, no leading zero. */
  function Decimal(n: nat): (s: string)
    ensures 1 <= |s|
    ensures forall i :: 0 <= i < |s| ==> '0' <= s[i] <= '9'
    ensures n >= 10 ==> s[0] != '0'
    ensures n < 10 <==> |s| == 1
    ensures |s| > 1 ==> s[0] != '0'
    decreases n
  {
    if n < 10 then [DigitChar(n)] else Decimal(n / 10) + [DigitChar(n % 10)]
  }

  /** Reads a string of decimal digits back into a number (the partner of
      Decimal). */
  function ParseDecimal(s: string): (r: nat)
  {
    if s == [] then 0
    else
      var c := s[|s| - 1];
      ParseDecimal(s[..|s| - 1]) * 10 + (if '0' <= c <= '9' then (c as int) - ('0' as int) else 0)
  }

  lemma {:induction false} ParseDecimalInvertsDecimal(n: nat)
    ensures ParseDecimal(Decimal(n)) == n
    decreases n
  {
    if n >= 10 {
      var s := Decimal(n);
      assert s[..|s| - 1] == Decimal(n / 10);
      ParseDecimalInvertsDecimal(n / 10);
    }
  }

  /** The identifier createChat gives a chat created at clock value `now`. */
  function ChatId(now: nat): (id: string)
    ensures |id| > |IdPrefix| && id[..|IdPrefix|] == IdPrefix
  {
    IdPrefix + Decimal(now)
  }

  /** Two chats receive the same identifier exactly when they were created
      at the same clock value. */
  lemma ChatIdInjective(a: nat, b: nat)
    ensures ChatId(a) == ChatId(b) <==> a == b
  {
    if ChatId(a) == ChatId(b) {
      assert ChatId(a)[|IdPrefix|..] == Decimal(a);
      assert ChatId(b)[|IdPrefix|..] == Decimal(b);
      ParseDecimalInvertsDecimal(a);
      ParseDecimalInvertsDecimal(b);
    }
  }

  // ---------------------------------------------------------------------
  // Title derivation: `message.content.split('\n')[0].slice(0, 50)`
  // ---------------------------------------------------------------------

  /** `split('\n')[0]`: everything before the first line feed, or the whole
      string when it has none. */
  function FirstLine(s: string): (r: string)
    ensures r <= s
    ensures '\n' !in r
    ensures |r| == |s| || s[|r|] == '\n'
  {
    if s == [] || s[0] == '\n' then [] else [s[0]] + FirstLine(s[1..])
  }

  /** `slice(0, n)`. */
  function Truncate(s: string, n: nat): (r: string)
    ensures r <= s && |r| <= n
    ensures |r| == n || r == s
  {
    if |s| <= n then s else s[..n]
  }

  /** The title a chat takes from its first message: the longest prefix of
      the content that holds no line feed and no more than 50 characters. */
  function DeriveTitle(content: string): (t: string)
    ensures t <= content
    ensures '\n' !in t
    ensures |t| <= TitleLimit
    ensures |t| == TitleLimit || |t| == |content| || content[|t|] == '\n'
  {
    Truncate(FirstLine(content), TitleLimit)
  }

  // ---------------------------------------------------------------------
  // Lookup: `chats.find((chat) => chat.id === id)`
  // ---------------------------------------------------------------------

  /** Index of the first chat with identifier `id`, or |chats| if none. */
  function FirstIndexOf(chats: seq<Chat>, id: string): (k: nat)
    ensures k <= |chats|
    ensures forall j :: 0 <= j < k ==> chats[j].id != id
    ensures k < |chats| ==> chats[k].id == id
  {
    if chats == [] then 0
    else if chats[0].id == id then 0
    else 1 + FirstIndexOf(chats[1..], id)
  }

  function FindChat(chats: seq<Chat>, id: string): (r: Option<Chat>)
    ensures r.None? <==> forall i :: 0 <= i < |chats| ==> chats[i].id != id
    ensures r.Some? ==> r.value in chats && r.value.id == id
    ensures r.Some? ==> r.value == chats[FirstIndexOf(chats, id)]
  {
    var k := FirstIndexOf(chats, id);
    if k < |chats| then Some(chats[k]) else None
  }

  // ---------------------------------------------------------------------
  // deleteChat's `filter`
  // ---------------------------------------------------------------------

  /** `chats.filter((chat) => chat.id !== id)`. */
  function WithoutChat(chats: seq<Chat>, id: string): (r: seq<Chat>)
    ensures |r| <= |chats|
    ensures forall c :: c in r ==> c in chats && c.id != id
    ensures forall c :: c in chats && c.id != id ==> c in r
  {
    if chats == [] then []
    else (if chats[0].id == id then [] else [chats[0]]) + WithoutChat(chats[1..], id)
  }

  /** Deleting an identifier no chat carries leaves the list as it was. */
  lemma {:induction false} WithoutAbsentChat(chats: seq<Chat>, id: string)
    requires forall c :: c in chats ==> c.id != id
    ensures WithoutChat(chats, id) == chats
  {
    if chats != [] {
      WithoutAbsentChat(chats[1..], id);
      assert [chats[0]] + chats[1..] == chats;
    }
  }

  /** The filter works piecewise, so the surviving chats keep their
      relative order. */
  lemma {:induction false} WithoutChatConcat(a: seq<Chat>, b: seq<Chat>, id: string)
    ensures WithoutChat(a + b, id) == WithoutChat(a, id) + WithoutChat(b, id)
  {
    if a != [] {
      var head := if a[0].id == id then [] else [a[0]];
      assert (a + b)[0] == a[0] && (a + b)[1..] == a[1..] + b;
      assert WithoutChat(a + b, id) == head + WithoutChat(a[1..] + b, id);
      WithoutChatConcat(a[1..], b, id);
      assert WithoutChat(a, id) == head + WithoutChat(a[1..], id);
    } else {
      assert a + b == b;
    }
  }

  /** Every chat with another identifier survives as many times as it
      occurred; no chat with the deleted identifier survives. */
  lemma {:induction false} WithoutChatMultiplicity(chats: seq<Chat>, id: string, c: Chat)
    ensures multiset(WithoutChat(chats, id))[c] == if c.id == id then 0 else multiset(chats)[c]
  {
    if chats != [] {
      var rest := WithoutChat(chats[1..], id);
      WithoutChatMultiplicity(chats[1..], id, c);
      assert chats == [chats[0]] + chats[1..];
      var before := multiset(chats[1..])[c] + multiset([chats[0]])[c];
      assert multiset(chats)[c] == before;
      if chats[0].id == id {
        assert WithoutChat(chats, id) == rest;
      } else {
        assert WithoutChat(chats, id) == [chats[0]] + rest;
        assert multiset(WithoutChat(chats, id))[c] == multiset([chats[0]])[c] + multiset(rest)[c];
      }
    }
  }

  /** After deleting `id`, looking it up finds nothing. */
  lemma DeletedChatNotFound(chats: seq<Chat>, id: string)
    ensures FindChat(WithoutChat(chats, id), id) == None
  {
  }

  // ---------------------------------------------------------------------
  // The `map` transforms of renameChat, addMessage and updateMessage
  // ---------------------------------------------------------------------

  /** The per-chat update one `map` callback applies to the matching chats. */
  datatype ChatEdit =
    | Rename(title: string, now: int)
    | Append(message: Message, now: int)
    | EditMessage(messageId: string, content: string, now: int)

  /** `msgs.map((msg) => msg.id === id ? { ...msg, content, timestamp } : msg)`. */
  function EditMessages(msgs: seq<Message>, messageId: string, content: string, now: int): (r: seq<Message>)
    ensures |r| == |msgs|
    ensures forall i :: 0 <= i < |msgs| ==>
      r[i] == if msgs[i].id == messageId then msgs[i].(content := content, timestamp := now) else msgs[i]
  {
    if msgs == [] then []
    else
      [if msgs[0].id == messageId then msgs[0].(content := content, timestamp := now) else msgs[0]]
      + EditMessages(msgs[1..], messageId, content, now)
  }

  /** The object spread `{ ...chat, ... }` of each mutator. Every edit
      keeps the chat's identifier, mode and creation time, stamps the chat
      with the edit's time, and adds at most one message. */
  function ApplyEdit(c: Chat, e: ChatEdit): (r: Chat)
    ensures r.id == c.id && r.mode == c.mode && r.createdAt == c.createdAt
    ensures r.updatedAt == e.now
    ensures |c.messages| <= |r.messages| <= |c.messages| + 1
    ensures e.Rename? ==> r.messages == c.messages && r.title == e.title
    ensures e.EditMessage? ==> r.title == c.title
  {
    match e
    case Rename(title, now) => c.(title := title, updatedAt := now)
    case Append(m, now) =>
      c.(messages := c.messages + [m],
         title := if |c.messages| == 0 then DeriveTitle(m.content) else c.title,
         updatedAt := now)
    case EditMessage(messageId, content, now) =>
      c.(messages := EditMessages(c.messages, messageId, content, now), updatedAt := now)
  }

  /** `chats.map((chat) => chat.id === id ? edit(chat) : chat)`. */
  function MapMatching(chats: seq<Chat>, id: string, e: ChatEdit): (r: seq<Chat>)
    ensures |r| == |chats|
    ensures forall i :: 0 <= i < |chats| ==>
      r[i] == if chats[i].id == id then ApplyEdit(chats[i], e) else chats[i]
  {
    if chats == [] then []
    else [if chats[0].id == id then ApplyEdit(chats[0], e) else chats[0]] + MapMatching(chats[1..], id, e)
  }

  /** addMessage on a matching chat: the message becomes the last one, the
      title is derived from it only when the chat had no messages, and the
      update time is refreshed. */
  lemma AppendedChat(c: Chat, m: Message, now: int)
    ensures ApplyEdit(c, Append(m, now)).messages == c.messages + [m]
    ensures |c.messages| == 0 ==> ApplyEdit(c, Append(m, now)).title == DeriveTitle(m.content)
    ensures |c.messages| > 0 ==> ApplyEdit(c, Append(m, now)).title == c.title
    ensures ApplyEdit(c, Append(m, now)).updatedAt == now
  {
  }

  /** updateMessage on a matching chat: its messages become the message
      map and the title is kept. */
  lemma EditedChat(c: Chat, messageId: string, content: string, now: int)
    ensures ApplyEdit(c, EditMessage(messageId, content, now)).messages
      == EditMessages(c.messages, messageId, content, now)
    ensures ApplyEdit(c, EditMessage(messageId, content, now)).title == c.title
  {
  }

  /** Once a chat has a message, further messages never overwrite the
      derived title. */
  lemma SecondMessageKeepsTitle(chats: seq<Chat>, id: string, m1: Message, m2: Message, t1: int, t2: int)
    ensures Ids(MapMatching(MapMatching(chats, id, Append(m1, t1)), id, Append(m2, t2))) == Ids(chats)
    ensures forall i :: 0 <= i < |chats| ==>
      MapMatching(MapMatching(chats, id, Append(m1, t1)), id, Append(m2, t2))[i].title
        == MapMatching(chats, id, Append(m1, t1))[i].title
  {
  }

  /** A first line of at most 50 characters, followed by a line feed,
      becomes the title whatever comes after it. */
  lemma TitleIsShortFirstLine(line: string, rest: string)
    requires '\n' !in line && |line| <= TitleLimit
    ensures DeriveTitle(line + "\n" + rest) == line
  {
    var s := line + "\n" + rest;
    assert s[|line|] == '\n';
    assert s[..|line|] == line;
  }

  /** The example of a question whose first line becomes the title. */
  lemma CroupTitle()
    ensures DeriveTitle("What is croup?\nDetails...") == "What is croup?"
  {
    TitleIsShortFirstLine("What is croup?", "Details...");
    assert "What is croup?" + "\n" + "Details..." == "What is croup?\nDetails...";
  }

  /** updateMessage keeps every message's identifier, role and citations,
      and the number and order of messages. */
  lemma EditKeepsMessageIdentity(msgs: seq<Message>, messageId: string, content: string, now: int)
    ensures |EditMessages(msgs, messageId, content, now)| == |msgs|
    ensures forall i :: 0 <= i < |msgs| ==>
      var r := EditMessages(msgs, messageId, content, now)[i];
      r.id == msgs[i].id && r.role == msgs[i].role && r.citations == msgs[i].citations
  {
  }

  /** updateMessage refreshes the chat's update time even when no message
      carries the identifier, and then leaves the messages as they were. */
  lemma EditRefreshesChat(c: Chat, messageId: string, content: string, now: int)
    ensures ApplyEdit(c, EditMessage(messageId, content, now)).updatedAt == now
    ensures (forall m :: m in c.messages ==> m.id != messageId) ==>
      ApplyEdit(c, EditMessage(messageId, content, now)).messages == c.messages
  {
  }

  function Ids(chats: seq<Chat>): (r: seq<string>)
    ensures |r| == |chats|
    ensures forall i :: 0 <= i < |chats| ==> r[i] == chats[i].id
  {
    if chats == [] then [] else [chats[0].id] + Ids(chats[1..])
  }

  /** No two chats share an identifier. */
  predicate UniqueIds(chats: seq<Chat>)
  {
    forall i, j :: 0 <= i < j < |chats| ==> chats[i].id != chats[j].id
  }

  /** The map transforms keep the list of identifiers, so they keep them
      unique. */
  lemma MapMatchingKeepsIds(chats: seq<Chat>, id: string, e: ChatEdit)
    ensures Ids(MapMatching(chats, id, e)) == Ids(chats)
    ensures UniqueIds(chats) ==> UniqueIds(MapMatching(chats, id, e))
  {
  }

  /** An edit aimed at an identifier no chat carries changes nothing. */
  lemma MapMatchingAbsent(chats: seq<Chat>, id: string, e: ChatEdit)
    requires forall c :: c in chats ==> c.id != id
    ensures MapMatching(chats, id, e) == chats
  {
  }

  /** The filter keeps identifiers unique. */
  lemma {:induction false} WithoutChatKeepsUnique(chats: seq<Chat>, id: string)
    requires UniqueIds(chats)
    ensures UniqueIds(WithoutChat(chats, id))
  {
    if chats != [] {
      WithoutChatKeepsUnique(chats[1..], id);
      var rest := WithoutChat(chats[1..], id);
      forall c | c in rest ensures c.id != chats[0].id {
        assert c in chats[1..];
      }
    }
  }

  /** The chat createChat prepends: untitled, empty, created and updated
      at the clock value its identifier is made from. */
  function NewChat(mode: Mode, now: nat): (c: Chat)
    ensures c.id == ChatId(now)
    ensures |c.id| > |IdPrefix| && c.id[..|IdPrefix|] == IdPrefix
    ensures c.title == DefaultTitle && c.messages == [] && c.mode == mode
    ensures c.createdAt == c.updatedAt == now
  {
    Chat(ChatId(now), DefaultTitle, [], mode, now, now)
  }

  /** A clock value that repeats yields a second chat with the same
      identifier: createChat does not check for collisions. */
  lemma ClockCollisionDuplicatesId(chats: seq<Chat>, mode: Mode, now: nat)
    requires exists c :: c in chats && c.id == ChatId(now)
    ensures !UniqueIds([NewChat(mode, now)] + chats)
  {
    var c :| c in chats && c.id == ChatId(now);
    var s := [NewChat(mode, now)] + chats;
    var j :| 0 <= j < |chats| && chats[j] == c;
    assert s[0].id == s[j + 1].id;
  }

  /** When every existing identifier came from an earlier clock value, the
      new chat's identifier is fresh and the list stays duplicate-free. */
  lemma CreateKeepsIdsUnique(chats: seq<Chat>, stamps: seq<nat>, mode: Mode, now: nat)
    requires |stamps| == |chats|
    requires forall i :: 0 <= i < |chats| ==> chats[i].id == ChatId(stamps[i]) && stamps[i] < now
    requires UniqueIds(chats)
    ensures UniqueIds([NewChat(mode, now)] + chats)
  {
    var s := [NewChat(mode, now)] + chats;
    forall j | 1 <= j < |s| ensures s[0].id != s[j].id {
      ChatIdInjective(stamps[j - 1], now);
    }
  }

  // ---------------------------------------------------------------------
  // The store
  // ---------------------------------------------------------------------

  /** `useChatStore`: the single state container. `Date.now()` is passed in
      as `now`. */
  class Store {
    /** Newest first. */
    var chats: seq<Chat>
    /** A lookup key that may dangle. */
    var currentChatId: Option<string>
    var showWelcome: bool
    var selectedMode: Mode

    constructor ()
      ensures chats == [] && currentChatId == None
      ensures showWelcome && selectedMode == Academic
    {
      chats := [];
      currentChatId := None;
      showWelcome := true;
      selectedMode := Academic;
    }

    method CreateChat(mode: Mode, now: nat) returns (id: string)
      modifies this
      ensures id == ChatId(now)
      ensures chats == [Chat(id, DefaultTitle, [], mode, now, now)] + old(chats)
      ensures currentChatId == Some(id) && !showWelcome
      ensures selectedMode == old(selectedMode)
    {
      id := ChatId(now);
      chats := [NewChat(mode, now)] + chats;
      currentChatId := Some(id);
      showWelcome := false;
    }

    method DeleteChat(id: string)
      modifies this
      ensures chats == WithoutChat(old(chats), id)
      ensures currentChatId == if old(currentChatId) == Some(id) then None else old(currentChatId)
      ensures showWelcome == (old(currentChatId) == Some(id))
      ensures selectedMode == old(selectedMode)
    {
      var wasCurrent := currentChatId == Some(id);
      chats := WithoutChat(chats, id);
      currentChatId := if wasCurrent then None else currentChatId;
      showWelcome := wasCurrent;
    }

    method RenameChat(id: string, title: string, now: nat)
      modifies this
      ensures chats == MapMatching(old(chats), id, Rename(title, now))
      ensures currentChatId == old(currentChatId) && showWelcome == old(showWelcome)
      ensures selectedMode == old(selectedMode)
    {
      chats := MapMatching(chats, id, Rename(title, now));
    }

    /** Stores the key without checking that a chat carries it. */
    method SetCurrentChat(id: string)
      modifies this
      ensures currentChatId == Some(id) && !showWelcome
      ensures chats == old(chats) && selectedMode == old(selectedMode)
    {
      currentChatId := Some(id);
      showWelcome := false;
    }

    /** getCurrentChat: a null or empty key (both falsy) and a dangling key
        give None; otherwise the first chat carrying the key. */
    function CurrentChat(): (r: Option<Chat>)
      reads this
      ensures r.None? <==>
        (currentChatId == None || currentChatId == Some("") ||
         forall i :: 0 <= i < |chats| ==> Some(chats[i].id) != currentChatId)
      ensures r.Some? ==> r.value in chats && currentChatId == Some(r.value.id)
      ensures r.Some? ==> r.value == chats[FirstIndexOf(chats, r.value.id)]
    {
      match currentChatId
      case None => None
      case Some(id) => if id == "" then None else FindChat(chats, id)
    }

    method AddMessage(chatId: string, message: Message, now: nat)
      modifies this
      ensures chats == MapMatching(old(chats), chatId, Append(message, now))
      ensures currentChatId == old(currentChatId) && showWelcome == old(showWelcome)
      ensures selectedMode == old(selectedMode)
    {
      chats := MapMatching(chats, chatId, Append(message, now));
    }

    method UpdateMessage(chatId: string, messageId: string, content: string, now: nat)
      modifies this
      ensures chats == MapMatching(old(chats), chatId, EditMessage(messageId, content, now))
      ensures currentChatId == old(currentChatId) && showWelcome == old(showWelcome)
      ensures selectedMode == old(selectedMode)
    {
      chats := MapMatching(chats, chatId, EditMessage(messageId, content, now));
    }

    method SetShowWelcome(show: bool)
      modifies this
      ensures showWelcome == show
      ensures chats == old(chats) && currentChatId == old(currentChatId)
      ensures selectedMode == old(selectedMode)
    {
      showWelcome := show;
    }

    method SetSelectedMode(mode: Mode)
      modifies this
      ensures selectedMode == mode
      ensures chats == old(chats) && currentChatId == old(currentChatId)
      ensures showWelcome == old(showWelcome)
    {
      selectedMode := mode;
    }
  }
}

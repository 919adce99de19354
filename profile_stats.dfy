/** The statistics the profile screen derives from the chat list
    (src/components/ProfileScreen.tsx): the total number of messages and the
    number of chats in each mode. */
module ProfileStats {
  import opened ChatStore

  /** `chats.reduce((sum, chat) => sum + chat.messages.length, acc)`: a left
      fold from the first chat to the last, which adds the message counts of
      all the chats to the starting value. */
  function ReduceMessages(acc: int, chats: seq<Chat>): (r: int)
    ensures r == acc + MessageSum(chats)
    decreases chats
  {
    if chats == [] then acc else ReduceMessages(acc + |chats[0].messages|, chats[1..])
  }

  /** `totalMessages`: the sum over all chats of their message counts. */
  function TotalMessages(chats: seq<Chat>): (r: int)
    ensures r == MessageSum(chats)
    ensures r >= 0
  {
    ReduceMessages(0, chats)
  }

  /** Reference definition: the number of messages summed over the chats. */
  function MessageSum(chats: seq<Chat>): (r: nat)
  {
    if chats == [] then 0 else |chats[0].messages| + MessageSum(chats[1..])
  }

  /** `chats.filter(chat => chat.mode === mode)`: every chat of the mode, as
      often as it occurs, and no other chat. */
  function OfMode(chats: seq<Chat>, mode: Mode): (r: seq<Chat>)
    ensures |r| <= |chats|
    ensures forall c :: c in r ==> c in chats && c.mode == mode
    ensures forall c :: c in chats && c.mode == mode ==> c in r
    ensures forall c :: multiset(r)[c] == if c.mode == mode then multiset(chats)[c] else 0
  {
    if chats == [] then []
    else
      assert multiset(chats) == multiset([chats[0]]) + multiset(chats[1..]) by {
        assert chats == [chats[0]] + chats[1..];
      }
      (if chats[0].mode == mode then [chats[0]] else []) + OfMode(chats[1..], mode)
  }

  /** `filter(...).length`: a single chat counts one in its own mode and
      zero in the other. */
  function ModeCount(chats: seq<Chat>, mode: Mode): (n: nat)
    ensures n <= |chats|
    ensures chats == [] ==> n == 0
    ensures |chats| == 1 ==> n == if chats[0].mode == mode then 1 else 0
  {
    |OfMode(chats, mode)|
  }

  /** The count of a concatenation is the sum of the counts; with the
      single-chat case of ModeCount this fixes the count of every list. */
  lemma {:induction false} ModeCountSplits(a: seq<Chat>, b: seq<Chat>, mode: Mode)
    ensures ModeCount(a + b, mode) == ModeCount(a, mode) + ModeCount(b, mode)
  {
    if a != [] {
      assert (a + b)[1..] == a[1..] + b;
      ModeCountSplits(a[1..], b, mode);
    } else {
      assert a + b == b;
    }
  }

  /** Because a chat's mode is one of two values, every chat is counted in
      exactly one of the two figures. */
  lemma {:induction false} ModesPartitionChats(chats: seq<Chat>)
    ensures ModeCount(chats, Academic) + ModeCount(chats, Clinical) == |chats|
  {
    if chats != [] {
      ModesPartitionChats(chats[1..]);
    }
  }

  /** `academicChats`: the chats not counted as clinical. */
  function AcademicChats(chats: seq<Chat>): (n: nat)
    ensures n + ModeCount(chats, Clinical) == |chats|
  {
    ModesPartitionChats(chats);
    ModeCount(chats, Academic)
  }

  /** `clinicalChats`: the chats not counted as academic. */
  function ClinicalChats(chats: seq<Chat>): (n: nat)
    ensures n + ModeCount(chats, Academic) == |chats|
  {
    ModesPartitionChats(chats);
    ModeCount(chats, Clinical)
  }

  /** An empty history shows zero for every figure. */
  lemma EmptyHistoryStats()
    ensures TotalMessages([]) == 0 && AcademicChats([]) == 0 && ClinicalChats([]) == 0
  {
  }

  /** `Math.max(chats.length, 1)`, the divisor of the percentages. */
  function PercentDivisor(chats: seq<Chat>): (d: nat)
    ensures d >= 1
    ensures d >= |chats|
    ensures |chats| > 0 ==> d == |chats|
  {
    if |chats| > 1 then |chats| else 1
  }

  // ---------------------------------------------------------------------
  // How the store's mutators move the figures
  // ---------------------------------------------------------------------

  /** addMessage adds one message to every chat carrying the identifier. */
  lemma {:induction false} AppendAddsToTotal(chats: seq<Chat>, id: string, m: Message, now: int)
    ensures TotalMessages(MapMatching(chats, id, Append(m, now)))
      == TotalMessages(chats) + |OfId(chats, id)|
  {
    AppendAddsToSum(chats, id, m, now);
  }

  lemma {:induction false} AppendAddsToSum(chats: seq<Chat>, id: string, m: Message, now: int)
    ensures MessageSum(MapMatching(chats, id, Append(m, now))) == MessageSum(chats) + |OfId(chats, id)|
  {
    if chats != [] {
      var r := MapMatching(chats, id, Append(m, now));
      assert r[1..] == MapMatching(chats[1..], id, Append(m, now));
      AppendAddsToSum(chats[1..], id, m, now);
    }
  }

  /** createChat adds one chat to its mode's figure and leaves the message
      total as it was. */
  lemma CreateCountsNewChat(chats: seq<Chat>, mode: Mode, now: nat)
    ensures ModeCount([NewChat(mode, now)] + chats, mode) == ModeCount(chats, mode) + 1
    ensures TotalMessages([NewChat(mode, now)] + chats) == TotalMessages(chats)
  {
  }

  /** deleteChat drops exactly the messages of the chats it removes. */
  lemma {:induction false} DeleteDropsMessages(chats: seq<Chat>, id: string)
    ensures MessageSum(WithoutChat(chats, id)) + MessageSum(OfId(chats, id)) == MessageSum(chats)
  {
    if chats != [] {
      DeleteDropsMessages(chats[1..], id);
      var c := chats[0];
      if c.id == id {
        assert WithoutChat(chats, id) == WithoutChat(chats[1..], id);
        assert OfId(chats, id) == [c] + OfId(chats[1..], id);
      } else {
        assert WithoutChat(chats, id) == [c] + WithoutChat(chats[1..], id);
        assert OfId(chats, id) == OfId(chats[1..], id);
      }
    }
  }

  /** The chats carrying `id`: those deleteChat removes, and those
      renameChat, addMessage and updateMessage edit. */
  function OfId(chats: seq<Chat>, id: string): (r: seq<Chat>)
    ensures |r| <= |chats|
    ensures forall c :: c in r ==> c in chats && c.id == id
  {
    if chats == [] then [] else (if chats[0].id == id then [chats[0]] else []) + OfId(chats[1..], id)
  }
}

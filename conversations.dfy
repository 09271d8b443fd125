/**
 * The per-chat transforms of the main page: the new-chat record, the
 * title rule, and the three message edits a send performs on the chat it
 * targets (user message, loading placeholder, settled reply), applied to
 * every chat of the list whose id matches (`chatHistory.map`), and the
 * removal of a chat (`chatHistory.filter`).
 */
module Conversations {
  import opened Base

  datatype Sender = User | Ai

  /** A chat message; `isLoading` marks the placeholder, `isError` the failure notice. */
  datatype Message = Message(id: int, text: string, sender: Sender, isLoading: bool, isError: bool)

  /** A conversation; `date` is the cosmetic relative-time label. */
  datatype Chat = Chat(id: int, title: string, date: string, messages: seq<Message>)

  /** How the awaited reply settled: the service's string, or a rejected promise. */
  datatype Outcome = Replied(text: string) | Failed

  /** An edit applied to the chats whose id matches. */
  datatype Edit =
    | AddUser(userId: int, userText: string)
    | AddLoading(loadingId: int)
    | Settle(reply: Message)
    | Retitle(newTitle: string)

  const NewConversationTitle := "New conversation"
  const NewChatDate := "Just now"
  const LoadingText := "..."
  const SendFailureText := "Sorry, I couldn't process your request. Please try again later."
  /** The longest derived title, and the length of the kept prefix when it is cut. */
  const TitleLimit := 30
  const TitleKept := 27
  const Ellipsis := "..."

  function NewChat(id: int): (c: Chat)
    ensures c.id == id && c.title == NewConversationTitle && c.messages == []
  {
    Chat(id, NewConversationTitle, NewChatDate, [])
  }

  /** The title taken from the first message of a fresh chat. */
  function FirstMessageTitle(text: string): (r: string)
    ensures |r| <= TitleLimit
    ensures |text| <= TitleLimit ==> r == text
    ensures |text| > TitleLimit ==> |r| == TitleLimit && r[..TitleKept] == text[..TitleKept] && r[TitleKept..] == Ellipsis
  {
    if |text| > TitleLimit then text[..TitleKept] + Ellipsis else text
  }

  /** The user's message as sent: the text unchanged, neither loading nor an error. */
  function UserMessage(id: int, text: string): (m: Message)
    ensures m.id == id && m.text == text && m.sender == User && !m.isLoading && !m.isError
  {
    Message(id, text, User, false, false)
  }

  /** The placeholder shown while the reply is awaited. */
  function LoadingMessage(id: int): (m: Message)
    ensures m.id == id && m.text == LoadingText && m.sender == Ai && m.isLoading && !m.isError
  {
    Message(id, LoadingText, Ai, true, false)
  }

  /** The message that replaces the placeholder once the reply settles. */
  function ReplyMessage(id: int, outcome: Outcome): (m: Message)
    ensures m.id == id && !m.isLoading && m.sender == Ai
    ensures m.isError <==> outcome.Failed?
    ensures m.text == if outcome.Replied? then outcome.text else SendFailureText
  {
    match outcome
    case Replied(text) => Message(id, text, Ai, false, false)
    case Failed => Message(id, SendFailureText, Ai, false, true)
  }

  /** Settling reads the last message, so the list must have one (otherwise the source throws). */
  predicate Applicable(c: Chat, e: Edit)
  {
    e.Settle? ==> |c.messages| > 0
  }

  function Apply(c: Chat, e: Edit): (r: Chat)
    requires Applicable(c, e)
    ensures r.id == c.id && r.date == c.date
  {
    match e
    case AddUser(id, text) =>
      var title := if c.title == NewConversationTitle && |c.messages| == 0 then FirstMessageTitle(text) else c.title;
      c.(title := title, messages := c.messages + [UserMessage(id, text)])
    case AddLoading(id) =>
      c.(messages := c.messages + [LoadingMessage(id)])
    case Settle(reply) =>
      var kept := if c.messages[|c.messages| - 1].isLoading then c.messages[..|c.messages| - 1] else c.messages;
      c.(messages := kept + [reply])
    case Retitle(title) =>
      c.(title := title)
  }

  /** `chats.map(chat => chat.id === target ? edit(chat) : chat)`; a null target matches nothing. */
  function UpdateMatching(chats: seq<Chat>, target: Option<int>, e: Edit): (r: seq<Chat>)
    requires forall k :: 0 <= k < |chats| && target == Some(chats[k].id) ==> Applicable(chats[k], e)
    ensures |r| == |chats|
    ensures forall k :: 0 <= k < |chats| ==>
      r[k] == if target == Some(chats[k].id) then Apply(chats[k], e) else chats[k]
  {
    if chats == [] then []
    else
      var head := if target == Some(chats[0].id) then Apply(chats[0], e) else chats[0];
      [head] + UpdateMatching(chats[1..], target, e)
  }

  /** `chats.filter(chat => chat.id !== id)`. */
  function Without(chats: seq<Chat>, id: int): (r: seq<Chat>)
    ensures |r| <= |chats|
    ensures forall c :: c in r <==> c in chats && c.id != id
    ensures (forall k :: 0 <= k < |chats| ==> chats[k].id != id) ==> r == chats
    ensures chats != [] && chats[0].id != id ==> r != [] && r[0] == chats[0]
  {
    if chats == [] then []
    else if chats[0].id == id then Without(chats[1..], id)
    else [chats[0]] + Without(chats[1..], id)
  }

  /** One chat on its own is kept exactly when its id differs. */
  lemma WithoutSingle(c: Chat, id: int)
    ensures Without([c], id) == if c.id == id then [] else [c]
  {
    assert [c][1..] == [];
  }

  /** `filter` works chat by chat: the kept chats of a concatenation, in order. */
  lemma {:induction false} WithoutConcat(a: seq<Chat>, b: seq<Chat>, id: int)
    ensures Without(a + b, id) == Without(a, id) + Without(b, id)
  {
    if a == [] {
      assert a + b == b;
    } else {
      assert (a + b)[0] == a[0] && (a + b)[1..] == a[1..] + b;
      WithoutConcat(a[1..], b, id);
    }
  }

  /** `chats[k]` is the first chat whose id is the target. */
  predicate FirstWithId(chats: seq<Chat>, target: Option<int>, k: int)
  {
    0 <= k < |chats| && target == Some(chats[k].id) &&
    forall i :: 0 <= i < k ==> target != Some(chats[i].id)
  }

  /** Past a head without the id, the first match moves one place along. */
  lemma FirstWithIdShift(chats: seq<Chat>, target: Option<int>)
    requires chats != [] && target != Some(chats[0].id)
    ensures forall k :: FirstWithId(chats[1..], target, k) ==> FirstWithId(chats, target, k + 1)
  {
    forall k | FirstWithId(chats[1..], target, k) ensures FirstWithId(chats, target, k + 1) {
      assert forall i :: 1 <= i <= k ==> chats[i] == chats[1..][i - 1];
    }
  }

  /** `chats.find(chat => chat.id === target)`: the first chat with that id. */
  function FindChat(chats: seq<Chat>, target: Option<int>): (r: Option<Chat>)
    ensures r.Some? <==> exists k :: 0 <= k < |chats| && target == Some(chats[k].id)
    ensures r.Some? ==> r.value in chats && target == Some(r.value.id)
    ensures r.Some? ==> exists k :: FirstWithId(chats, target, k) && r.value == chats[k]
    ensures chats != [] && target == Some(chats[0].id) ==> r == Some(chats[0])
  {
    if chats == [] then None
    else if target == Some(chats[0].id) then Some(chats[0])
    else
      var rest := FindChat(chats[1..], target);
      assert forall k :: 1 <= k < |chats| ==> chats[k] == chats[1..][k - 1];
      FirstWithIdShift(chats, target);
      rest
  }

  /** The chat an edit was applied to is found again, edited, under the same id. */
  lemma {:induction false} FindAfterUpdate(chats: seq<Chat>, target: Option<int>, e: Edit)
    requires forall k :: 0 <= k < |chats| && target == Some(chats[k].id) ==> Applicable(chats[k], e)
    ensures var before := FindChat(chats, target);
      FindChat(UpdateMatching(chats, target, e), target) == if before.Some? then Some(Apply(before.value, e)) else None
  {
    if chats != [] && target != Some(chats[0].id) {
      FindAfterUpdate(chats[1..], target, e);
      assert UpdateMatching(chats, target, e)[1..] == UpdateMatching(chats[1..], target, e);
    }
  }

  /** The id of the first chat, if any. */
  function FirstId(chats: seq<Chat>): (r: Option<int>)
    ensures r.Some? <==> chats != []
    ensures r.Some? ==> r.value == chats[0].id
  {
    if chats == [] then None else Some(chats[0].id)
  }

  /**
   * The placeholder discipline of one chat: a loading message is only ever
   * the last one, and only while the send that is awaited targets this chat.
   */
  predicate LoadingOnlyAtTail(c: Chat, awaited: Option<int>)
  {
    forall j :: 0 <= j < |c.messages| && c.messages[j].isLoading ==>
      j == |c.messages| - 1 && awaited == Some(c.id)
  }

  predicate NoLoading(c: Chat)
  {
    forall j :: 0 <= j < |c.messages| ==> !c.messages[j].isLoading
  }

  /** The first stage of a send followed by the settled reply adds exactly the user message and the reply. */
  lemma SendThenSettle(c: Chat, userId: int, text: string, loadingId: int, reply: Message)
    requires !reply.isLoading
    ensures var after := Apply(Apply(Apply(c, AddUser(userId, text)), AddLoading(loadingId)), Settle(reply));
      && after == Apply(c, AddUser(userId, text)).(messages := c.messages + [UserMessage(userId, text), reply])
      && after.messages == c.messages + [UserMessage(userId, text), reply]
      && |after.messages| == |c.messages| + 2
      && (NoLoading(c) ==> NoLoading(after))
  {
    var withUser := Apply(c, AddUser(userId, text));
    var withLoading := Apply(withUser, AddLoading(loadingId));
    assert withLoading.messages[..|withLoading.messages| - 1] == c.messages + [UserMessage(userId, text)];
  }

  /** Settling removes the placeholder at the tail and never leaves a loading message behind. */
  lemma SettleClearsLoading(c: Chat, reply: Message, awaited: Option<int>)
    requires |c.messages| > 0 && !reply.isLoading
    requires LoadingOnlyAtTail(c, awaited)
    ensures NoLoading(Apply(c, Settle(reply)))
    ensures c.messages[|c.messages| - 1].isLoading ==>
      Apply(c, Settle(reply)).messages == c.messages[..|c.messages| - 1] + [reply]
    ensures !c.messages[|c.messages| - 1].isLoading ==>
      Apply(c, Settle(reply)).messages == c.messages + [reply]
  {
  }

  /** Every edit except adding the placeholder keeps a chat free of loading messages. */
  lemma EditKeepsNoLoading(c: Chat, e: Edit)
    requires Applicable(c, e) && NoLoading(c) && !e.AddLoading?
    requires e.Settle? ==> !e.reply.isLoading
    ensures NoLoading(Apply(c, e))
  {
  }

  /** The placeholder discipline over the whole list. */
  predicate AllLoadingOnlyAtTail(chats: seq<Chat>, awaited: Option<int>)
  {
    forall k :: 0 <= k < |chats| ==> LoadingOnlyAtTail(chats[k], awaited)
  }

  predicate AllNoLoading(chats: seq<Chat>)
  {
    forall k :: 0 <= k < |chats| ==> NoLoading(chats[k])
  }

  /** `id` is null or the id of some chat of the list. */
  predicate Present(chats: seq<Chat>, id: Option<int>)
  {
    id.None? || exists k :: 0 <= k < |chats| && chats[k].id == id.value
  }

  /** Edits keep every chat's id, so they keep which ids are present. */
  lemma UpdateKeepsPresent(chats: seq<Chat>, target: Option<int>, e: Edit, id: Option<int>)
    requires forall k :: 0 <= k < |chats| && target == Some(chats[k].id) ==> Applicable(chats[k], e)
    ensures Present(UpdateMatching(chats, target, e), id) <==> Present(chats, id)
  {
    var r := UpdateMatching(chats, target, e);
    assert forall k :: 0 <= k < |chats| ==> r[k].id == chats[k].id;
  }

  /** Removing chats keeps every chat present except those with the id removed. */
  lemma WithoutKeepsPresent(chats: seq<Chat>, id: int, other: Option<int>)
    requires Present(chats, other) && other != Some(id)
    ensures Present(Without(chats, id), other)
  {
    if other.Some? {
      var k :| 0 <= k < |chats| && chats[k].id == other.value;
      var r := Without(chats, id);
      assert chats[k] in r;
      var j :| 0 <= j < |r| && r[j] == chats[k];
    }
  }

  lemma NoLoadingMeansDiscipline(chats: seq<Chat>, awaited: Option<int>)
    requires AllNoLoading(chats)
    ensures AllLoadingOnlyAtTail(chats, awaited)
  {
  }

  lemma DisciplineWithoutAwaitedMeansNoLoading(chats: seq<Chat>)
    requires AllLoadingOnlyAtTail(chats, None)
    ensures AllNoLoading(chats)
  {
  }

  /** The first stage of a send leaves one placeholder, at the tail of each targeted chat. */
  lemma {:induction false} StageOneDiscipline(chats: seq<Chat>, target: int, userId: int, text: string, loadingId: int)
    requires AllNoLoading(chats)
    ensures var r := UpdateMatching(UpdateMatching(chats, Some(target), AddUser(userId, text)), Some(target), AddLoading(loadingId));
      && AllLoadingOnlyAtTail(r, Some(target))
      && forall k :: 0 <= k < |r| && r[k].id == target ==> |r[k].messages| > 0
  {
    var withUser := UpdateMatching(chats, Some(target), AddUser(userId, text));
    forall k | 0 <= k < |withUser| ensures NoLoading(withUser[k]) {
      if chats[k].id == target {
        EditKeepsNoLoading(chats[k], AddUser(userId, text));
      }
    }
  }

  /** Settling the targeted chats leaves no loading message anywhere. */
  lemma {:induction false} SettleDiscipline(chats: seq<Chat>, target: int, reply: Message)
    requires AllLoadingOnlyAtTail(chats, Some(target)) && !reply.isLoading
    requires forall k :: 0 <= k < |chats| && chats[k].id == target ==> |chats[k].messages| > 0
    ensures AllNoLoading(UpdateMatching(chats, Some(target), Settle(reply)))
  {
    var r := UpdateMatching(chats, Some(target), Settle(reply));
    forall k | 0 <= k < |r| ensures NoLoading(r[k]) {
      if chats[k].id == target {
        SettleClearsLoading(chats[k], reply, Some(target));
      }
    }
  }

  /** Retitling keeps all messages, hence the placeholder discipline. */
  lemma RetitleDiscipline(chats: seq<Chat>, target: Option<int>, title: string, awaited: Option<int>)
    requires AllLoadingOnlyAtTail(chats, awaited)
    ensures AllLoadingOnlyAtTail(UpdateMatching(chats, target, Retitle(title)), awaited)
  {
    var r := UpdateMatching(chats, target, Retitle(title));
    assert forall k :: 0 <= k < |r| ==> r[k].messages == chats[k].messages && r[k].id == chats[k].id;
  }

  lemma WithoutDiscipline(chats: seq<Chat>, id: int, awaited: Option<int>)
    requires AllLoadingOnlyAtTail(chats, awaited)
    ensures AllLoadingOnlyAtTail(Without(chats, id), awaited)
  {
    var r := Without(chats, id);
    forall k | 0 <= k < |r| ensures LoadingOnlyAtTail(r[k], awaited) {
      assert r[k] in chats;
    }
  }

  /** Found by its id after a whole send, a chat has gained the user message and the reply. */
  lemma FindAfterSend(chats: seq<Chat>, target: Option<int>, userId: int, text: string, loadingId: int, reply: Message)
    requires !reply.isLoading && target.Some? && AllNoLoading(chats)
    ensures var staged := UpdateMatching(UpdateMatching(chats, target, AddUser(userId, text)), target, AddLoading(loadingId));
      && (forall k :: 0 <= k < |staged| && target == Some(staged[k].id) ==> |staged[k].messages| > 0)
      && var settled := UpdateMatching(staged, target, Settle(reply));
         var before := FindChat(chats, target);
         before.Some? ==>
           && FindChat(settled, target).Some?
           && FindChat(settled, target).value.messages == before.value.messages + [UserMessage(userId, text), reply]
           && FindChat(settled, target).value.title == Apply(before.value, AddUser(userId, text)).title
  {
    StageOneDiscipline(chats, target.value, userId, text, loadingId);
    var withUser := UpdateMatching(chats, target, AddUser(userId, text));
    var staged := UpdateMatching(withUser, target, AddLoading(loadingId));
    FindAfterUpdate(chats, target, AddUser(userId, text));
    FindAfterUpdate(withUser, target, AddLoading(loadingId));
    FindAfterUpdate(staged, target, Settle(reply));
    var before := FindChat(chats, target);
    if before.Some? {
      SendThenSettle(before.value, userId, text, loadingId, reply);
    }
  }

  /** The title changes only on the first message of a chat still called "New conversation". */
  lemma FirstMessageSetsTitle(c: Chat, id: int, text: string)
    ensures var r := Apply(c, AddUser(id, text));
      && (c.title == NewConversationTitle && c.messages == [] ==> r.title == FirstMessageTitle(text))
      && (c.title != NewConversationTitle || c.messages != [] ==> r.title == c.title)
  {
  }

  /**
   * The first stage of a send touches only the chats with the target id:
   * those gain the user message and the placeholder after their earlier
   * messages, and every other chat stays as it was.
   */
  lemma StageOneEffect(chats: seq<Chat>, target: int, userId: int, text: string, loadingId: int)
    ensures var r := UpdateMatching(UpdateMatching(chats, Some(target), AddUser(userId, text)), Some(target), AddLoading(loadingId));
      && |r| == |chats|
      && forall k :: 0 <= k < |chats| ==>
           if chats[k].id == target
           then r[k].id == target && r[k].messages == chats[k].messages + [UserMessage(userId, text), LoadingMessage(loadingId)]
           else r[k] == chats[k]
  {
    var withUser := UpdateMatching(chats, Some(target), AddUser(userId, text));
    assert forall k :: 0 <= k < |chats| ==> withUser[k].id == chats[k].id;
  }

  /**
   * `after` is `before` with one whole send to `target` applied: each chat
   * with that id is the chat the user message made (its title by the
   * first-message rule) holding its old messages, the user message and the
   * reply; every other chat is as it was.
   */
  predicate SentTo(before: seq<Chat>, after: seq<Chat>, target: int, userId: int, text: string, reply: Message)
  {
    && |after| == |before|
    && forall k :: 0 <= k < |before| ==>
         after[k] == if before[k].id == target
                     then Apply(before[k], AddUser(userId, text)).(messages := before[k].messages + [UserMessage(userId, text), reply])
                     else before[k]
  }

  /** A whole send, first stage and settled reply, over the list. */
  lemma SendEffect(chats: seq<Chat>, target: int, userId: int, text: string, loadingId: int, reply: Message)
    requires !reply.isLoading
    ensures var staged := UpdateMatching(UpdateMatching(chats, Some(target), AddUser(userId, text)), Some(target), AddLoading(loadingId));
      && (forall k :: 0 <= k < |staged| && Some(target) == Some(staged[k].id) ==> Applicable(staged[k], Settle(reply)))
      && SentTo(chats, UpdateMatching(staged, Some(target), Settle(reply)), target, userId, text, reply)
  {
    var withUser := UpdateMatching(chats, Some(target), AddUser(userId, text));
    var staged := UpdateMatching(withUser, Some(target), AddLoading(loadingId));
    assert forall k :: 0 <= k < |chats| ==> withUser[k].id == chats[k].id && staged[k].id == chats[k].id;
    var r := UpdateMatching(staged, Some(target), Settle(reply));
    forall k | 0 <= k < |chats| && chats[k].id == target
      ensures r[k] == Apply(chats[k], AddUser(userId, text)).(messages := chats[k].messages + [UserMessage(userId, text), reply])
    {
      assert r[k] == Apply(Apply(Apply(chats[k], AddUser(userId, text)), AddLoading(loadingId)), Settle(reply));
      SendThenSettle(chats[k], userId, text, loadingId, reply);
    }
  }

  /** A send to a new chat at the head of the list gives it the derived title and exactly two messages. */
  lemma SentToNewHead(before: seq<Chat>, after: seq<Chat>, id: int, userId: int, text: string, reply: Message)
    requires before != [] && before[0] == NewChat(id)
    requires SentTo(before, after, id, userId, text, reply)
    ensures after != [] && after[0].title == FirstMessageTitle(text)
    ensures after[0].messages == [UserMessage(userId, text), reply]
  {
    assert after[0] == Apply(before[0], AddUser(userId, text)).(messages := [] + [UserMessage(userId, text), reply]);
  }

  /** Looked up by its id after a whole send, the first chat with that id shows the send's effect. */
  lemma {:induction false} SentToFind(before: seq<Chat>, after: seq<Chat>, target: int, userId: int, text: string, reply: Message)
    requires SentTo(before, after, target, userId, text, reply)
    ensures var found := FindChat(before, Some(target));
      FindChat(after, Some(target)) ==
        if found.Some?
        then Some(Apply(found.value, AddUser(userId, text)).(messages := found.value.messages + [UserMessage(userId, text), reply]))
        else None
  {
    if before != [] && before[0].id != target {
      assert after[0] == before[0];
      assert SentTo(before[1..], after[1..], target, userId, text, reply) by {
        forall k | 0 <= k < |before| - 1 ensures before[1..][k] == before[k + 1] && after[1..][k] == after[k + 1] { }
      }
      SentToFind(before[1..], after[1..], target, userId, text, reply);
    }
  }
}

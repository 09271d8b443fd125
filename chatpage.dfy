/**
 * The main page's conversation state: the ordered chat list, the current
 * chat, the message input, the rename dialog and the one awaited send.
 * Each handler of the page is a method that overwrites these fields.
 */
module ChatPage {
  import opened Base
  import opened Text
  import opened Conversations

  /** `!currentChatId`: null, or the falsy id 0. */
  predicate NoCurrent(id: Option<int>)
  {
    id.None? || id.value == 0
  }

  /** The placeholder chats the page starts with. */
  function SeedChats(): (r: seq<Chat>)
    ensures |r| == 7 && forall k :: 0 <= k < 7 ==> r[k].id == k + 1 && r[k].messages == []
  {
    [ Chat(1, "COVID-19 vaccine questions", "2 hours ago", []),
      Chat(2, "Allergy symptoms consultation", "Yesterday", []),
      Chat(3, "Nutrition advice for diabetes", "2 days ago", []),
      Chat(4, "Exercise recommendations", "Last week", []),
      Chat(5, "Sleep disorder concerns", "Last week", []),
      Chat(6, "Mental health discussion", "2 weeks ago", []),
      Chat(7, "Child vaccination schedule", "3 weeks ago", []) ]
  }

  class ChatStore {
    var chatHistory: seq<Chat>
    var currentChatId: Option<int>
    var inputValue: string
    var isRenaming: bool
    var newChatTitle: string
    var contextMenuChatId: Option<int>
    var isLoading: bool
    /** The chat id captured by the send whose reply is still awaited. */
    var awaited: Option<int>

    /** A loading placeholder exists only at the tail of the chats the awaited send targets. */
    ghost predicate Valid()
      reads this`isLoading, this`awaited, this`chatHistory
    {
      && isLoading == awaited.Some?
      && AllLoadingOnlyAtTail(chatHistory, awaited)
    }

    /** The current id is null or names a chat of the list. */
    ghost predicate CurrentPresent()
      reads this`chatHistory, this`currentChatId
    {
      Present(chatHistory, currentChatId)
    }

    constructor ()
      ensures Valid() && CurrentPresent()
      ensures chatHistory == SeedChats() && currentChatId == None
      ensures inputValue == "" && newChatTitle == "" && contextMenuChatId == None
      ensures !isRenaming && !isLoading && awaited == None
    {
      chatHistory := SeedChats();
      currentChatId := None;
      inputValue := "";
      isRenaming := false;
      newChatTitle := "";
      contextMenuChatId := None;
      isLoading := false;
      awaited := None;
    }

    /** createNewChat: a blank chat with id `now` goes first and becomes current. */
    method CreateNewChat(now: int)
      requires Valid()
      modifies this`chatHistory, this`currentChatId
      ensures Valid() && CurrentPresent()
      ensures chatHistory == [NewChat(now)] + old(chatHistory)
      ensures currentChatId == Some(now)
    {
      chatHistory := [NewChat(now)] + chatHistory;
      currentChatId := Some(now);
      assert chatHistory[0].id == now;
      assert forall k :: 1 <= k < |chatHistory| ==> chatHistory[k] == old(chatHistory)[k - 1];
    }

    /** selectChat: the id is taken as given, without looking it up. */
    method SelectChat(chatId: int)
      modifies this`currentChatId
      ensures currentChatId == Some(chatId)
    {
      currentChatId := Some(chatId);
    }

    /** handleInputChange. */
    method SetInput(text: string)
      modifies this`inputValue
      ensures inputValue == text
    {
      inputValue := text;
    }

    /**
     * First stage of handleSendMessage. A blank input changes nothing; with
     * no current chat a new chat is created and the input is neither sent
     * nor cleared; otherwise the user message (id `now`) and the loading
     * placeholder (id `later + 1`) are appended to the current chat, the
     * input is cleared, and the returned text is what goes to the service.
     */
    method BeginSend(now: int, later: int) returns (request: Option<string>)
      requires Valid() && awaited == None
      modifies this`chatHistory, this`currentChatId, this`inputValue, this`isLoading, this`awaited
      ensures Valid() && (old(CurrentPresent()) ==> CurrentPresent())
      ensures Trim(old(inputValue)) == "" ==>
        && request == None && chatHistory == old(chatHistory) && currentChatId == old(currentChatId)
        && inputValue == old(inputValue) && awaited == None && !isLoading
      ensures Trim(old(inputValue)) != "" && NoCurrent(old(currentChatId)) ==>
        && request == None && chatHistory == [NewChat(now)] + old(chatHistory) && currentChatId == Some(now)
        && inputValue == old(inputValue) && awaited == None && !isLoading
      ensures Trim(old(inputValue)) != "" && !NoCurrent(old(currentChatId)) ==>
        && request == Some(old(inputValue))
        && chatHistory == UpdateMatching(UpdateMatching(old(chatHistory), old(currentChatId), AddUser(now, old(inputValue))),
                                old(currentChatId), AddLoading(later + 1))
        && currentChatId == old(currentChatId) && inputValue == ""
        && awaited == old(currentChatId) && isLoading
    {
      if Trim(inputValue) == "" {
        return None;
      }
      if NoCurrent(currentChatId) {
        CreateNewChat(now);
        return None;
      }
      var userMessage := inputValue;
      StartRequest(currentChatId.value, now, userMessage, later + 1);
      inputValue := "";
      request := Some(userMessage);
    }

    /** The two list updates of the first stage, and the request becoming awaited. */
    method StartRequest(target: int, userId: int, text: string, loadingId: int)
      requires Valid() && awaited == None
      modifies this`chatHistory, this`isLoading, this`awaited
      ensures Valid() && (old(CurrentPresent()) ==> CurrentPresent())
      ensures chatHistory == UpdateMatching(UpdateMatching(old(chatHistory), Some(target), AddUser(userId, text)), Some(target), AddLoading(loadingId))
      ensures awaited == Some(target) && isLoading
    {
      DisciplineWithoutAwaitedMeansNoLoading(chatHistory);
      StageOneDiscipline(chatHistory, target, userId, text, loadingId);
      var withUser := UpdateMatching(chatHistory, Some(target), AddUser(userId, text));
      UpdateKeepsPresent(chatHistory, Some(target), AddUser(userId, text), currentChatId);
      UpdateKeepsPresent(withUser, Some(target), AddLoading(loadingId), currentChatId);
      chatHistory := UpdateMatching(withUser, Some(target), AddLoading(loadingId));
      isLoading := true;
      awaited := Some(target);
    }

    /**
     * Second stage of handleSendMessage: in every chat with the captured id
     * the last message is dropped if it is the placeholder and the reply
     * (id `now + 2`) is appended; a rejected request appends the failure
     * notice instead.
     */
    method Resolve(outcome: Outcome, now: int)
      requires Valid() && awaited.Some?
      requires forall k :: 0 <= k < |chatHistory| && awaited == Some(chatHistory[k].id) ==> |chatHistory[k].messages| > 0
      modifies this`chatHistory, this`isLoading, this`awaited
      ensures Valid() && awaited == None && !isLoading
      ensures old(CurrentPresent()) ==> CurrentPresent()
      ensures chatHistory == UpdateMatching(old(chatHistory), old(awaited), Settle(ReplyMessage(now + 2, outcome)))
      ensures AllNoLoading(chatHistory)
    {
      var reply := ReplyMessage(now + 2, outcome);
      SettleDiscipline(chatHistory, awaited.value, reply);
      UpdateKeepsPresent(chatHistory, awaited, Settle(reply), currentChatId);
      chatHistory := UpdateMatching(chatHistory, awaited, Settle(reply));
      NoLoadingMeansDiscipline(chatHistory, None);
      isLoading := false;
      awaited := None;
    }

    /**
     * The whole of handleSendMessage when no other handler runs while the
     * reply is awaited: the current chat ends with the user message and the
     * reply (or the failure notice), nothing is left loading, and every
     * other chat is untouched.
     */
    method HandleSendMessage(now: int, later: int, settledAt: int, outcome: Outcome)
      requires Valid() && awaited == None
      modifies this`chatHistory, this`currentChatId, this`inputValue, this`isLoading, this`awaited
      ensures Valid() && awaited == None && !isLoading && (old(CurrentPresent()) ==> CurrentPresent())
      ensures Trim(old(inputValue)) == "" ==>
        chatHistory == old(chatHistory) && currentChatId == old(currentChatId) && inputValue == old(inputValue)
      ensures Trim(old(inputValue)) != "" && NoCurrent(old(currentChatId)) ==>
        chatHistory == [NewChat(now)] + old(chatHistory) && currentChatId == Some(now) && inputValue == old(inputValue)
      ensures Trim(old(inputValue)) != "" && !NoCurrent(old(currentChatId)) ==>
        && currentChatId == old(currentChatId) && inputValue == ""
        && SentTo(old(chatHistory), chatHistory, old(currentChatId).value, now, old(inputValue), ReplyMessage(settledAt + 2, outcome))
    {
      ghost var text := inputValue;
      ghost var target := currentChatId;
      ghost var before := chatHistory;
      var request := BeginSend(now, later);
      if request.Some? {
        DisciplineWithoutAwaitedMeansNoLoading(before);
        StageOneDiscipline(before, target.value, now, text, later + 1);
        Resolve(outcome, settledAt);
        SendEffect(before, target.value, now, text, later + 1, ReplyMessage(settledAt + 2, outcome));
      }
    }

    /** The auto-select effect: with no current chat, the first chat becomes current. */
    method AutoSelect()
      modifies this`currentChatId
      ensures NoCurrent(old(currentChatId)) && chatHistory != [] ==> currentChatId == Some(chatHistory[0].id)
      ensures !(NoCurrent(old(currentChatId)) && chatHistory != []) ==> currentChatId == old(currentChatId)
      ensures old(CurrentPresent()) ==> CurrentPresent()
    {
      if NoCurrent(currentChatId) && |chatHistory| > 0 {
        currentChatId := Some(chatHistory[0].id);
      }
    }

    /** handleRenameChat: opens the dialog, prefilled with the chat's title when the chat exists. */
    method OpenRename(chatId: int)
      modifies this`isRenaming, this`newChatTitle, this`contextMenuChatId
      ensures isRenaming
      ensures var chat := FindChat(chatHistory, Some(chatId));
        && (chat.Some? ==> newChatTitle == chat.value.title && contextMenuChatId == Some(chatId))
        && (chat.None? ==> newChatTitle == old(newChatTitle) && contextMenuChatId == old(contextMenuChatId))
    {
      isRenaming := true;
      var chat := FindChat(chatHistory, Some(chatId));
      if chat.Some? {
        newChatTitle := chat.value.title;
        contextMenuChatId := Some(chatId);
      }
    }

    /** The rename dialog's input field. */
    method EditRenameTitle(title: string)
      modifies this`newChatTitle
      ensures newChatTitle == title
    {
      newChatTitle := title;
    }

    /**
     * saveRenamedChat: a blank title is refused and nothing changes;
     * otherwise the chats with the dialog's id get the title as typed
     * (untrimmed) and the dialog is closed.
     */
    method SaveRename()
      requires Valid()
      modifies this`chatHistory, this`isRenaming, this`newChatTitle, this`contextMenuChatId
      ensures Valid() && (old(CurrentPresent()) ==> CurrentPresent())
      ensures Trim(old(newChatTitle)) == "" ==>
        && chatHistory == old(chatHistory) && isRenaming == old(isRenaming)
        && newChatTitle == old(newChatTitle) && contextMenuChatId == old(contextMenuChatId)
      ensures Trim(old(newChatTitle)) != "" ==>
        && chatHistory == UpdateMatching(old(chatHistory), old(contextMenuChatId), Retitle(old(newChatTitle)))
        && !isRenaming && newChatTitle == "" && contextMenuChatId == None
    {
      if Trim(newChatTitle) == "" {
        return;
      }
      RetitleDiscipline(chatHistory, contextMenuChatId, newChatTitle, awaited);
      UpdateKeepsPresent(chatHistory, contextMenuChatId, Retitle(newChatTitle), currentChatId);
      chatHistory := UpdateMatching(chatHistory, contextMenuChatId, Retitle(newChatTitle));
      isRenaming := false;
      newChatTitle := "";
      contextMenuChatId := None;
    }

    /**
     * deleteChat: every chat with the id goes; if it was the current one,
     * the first remaining chat becomes current, or none when none remains.
     */
    method DeleteChat(chatId: int)
      requires Valid()
      modifies this`chatHistory, this`currentChatId
      ensures Valid() && (old(CurrentPresent()) ==> CurrentPresent())
      ensures chatHistory == Without(old(chatHistory), chatId)
      ensures old(currentChatId) == Some(chatId) ==> currentChatId == FirstId(chatHistory)
      ensures old(currentChatId) != Some(chatId) ==> currentChatId == old(currentChatId)
    {
      WithoutDiscipline(chatHistory, chatId, awaited);
      if Some(chatId) != currentChatId && Present(chatHistory, currentChatId) {
        WithoutKeepsPresent(chatHistory, chatId, currentChatId);
      }
      chatHistory := Without(chatHistory, chatId);
      if Some(chatId) == currentChatId {
        currentChatId := FirstId(chatHistory);
      }
    }
  }

  /** A short first question sent to a fresh chat at the head of the list titles it and is answered. */
  method AskInNewChat(page: ChatStore, id: int, question: string, answer: string) returns (title: string, messages: seq<Message>)
    requires page.Valid() && page.awaited == None
    requires page.chatHistory != [] && page.chatHistory[0] == NewChat(id) && page.currentChatId == Some(id)
    requires id != 0 // a current id of 0 is falsy, and the send would open another chat instead
    requires question != [] && !IsJsSpace(question[0]) && |question| <= TitleLimit
    modifies page`chatHistory, page`currentChatId, page`inputValue, page`isLoading, page`awaited
    ensures title == question
    ensures messages == [UserMessage(100, question), ReplyMessage(103, Replied(answer))]
  {
    page.SetInput(question);
    VisibleStartNotBlank(question);
    ghost var before := page.chatHistory;
    page.HandleSendMessage(100, 100, 101, Replied(answer));
    SentToNewHead(before, page.chatHistory, id, 100, question, ReplyMessage(103, Replied(answer)));
    var chat := page.chatHistory[0];
    title, messages := chat.title, chat.messages;
  }

  /** On a fresh page, a new chat's first short question titles it and is answered. */
  method FirstQuestionScenario(answer: string) returns (title: string, messages: seq<Message>)
    ensures title == "What are flu symptoms?"
    ensures messages == [UserMessage(100, "What are flu symptoms?"), ReplyMessage(103, Replied(answer))]
  {
    var page := new ChatStore();
    page.CreateNewChat(50);
    title, messages := AskInNewChat(page, 50, "What are flu symptoms?", answer);
  }

  /** Deleting a chat put in front of chats with other ids leaves exactly those chats. */
  lemma WithoutFreshHead(c: Chat, rest: seq<Chat>)
    requires forall k :: 0 <= k < |rest| ==> rest[k].id != c.id
    ensures Without([c] + rest, c.id) == rest
  {
    assert ([c] + rest)[1..] == rest;
  }

  /** Deleting the current chat hands the selection to the chat that now comes first. */
  method DeleteCurrentScenario() returns (current: Option<int>, count: nat)
    ensures current == Some(1) && count == 7
  {
    var page := new ChatStore();
    page.CreateNewChat(50);
    ghost var seeds := SeedChats();
    WithoutFreshHead(NewChat(50), seeds);
    page.DeleteChat(50);
    current, count := page.currentChatId, |page.chatHistory|;
  }
}

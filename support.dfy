/** The support chat (app/screens/SupportScreen.tsx): the admin
    conversation is loaded, free text is sent, and the conversation is
    fetched again after a send the server accepts. */
module Support {
  import opened Js
  import opened Messaging

  /** `response.data` of `GET /conversations/admin_conversation`. */
  datatype SupportData = SupportData(id: int, currentUserId: Option<int>, messages: Option<seq<Message>>)

  /** The body of `POST /conversations/{id}/messages`. */
  datatype SendRequest = SendRequest(conversationId: int, body: string)

  /** The send button is disabled exactly when the input is blank. */
  predicate SendDisabled(inputText: string) {
    IsBlank(inputText)
  }

  /** A send the server accepted. */
  predicate Accepted(status: int) {
    status == 200 || status == 201
  }

  /** `conversationData?.id`, one of the dependencies of
      `fetchConversationData`. */
  function LoadedId(d: Option<SupportData>): Option<int> {
    if d.Some? then Some(d.value.id) else None
  }

  class Screen {
    var conversationData: Option<SupportData>
    var messages: seq<Message>
    var currentUserId: Option<int>
    var inputText: string
    var loading: bool

    constructor ()
      ensures conversationData.None? && messages == [] && currentUserId.None? && inputText == "" && loading
    {
      conversationData := None;
      messages := [];
      currentUserId := None;
      inputText := "";
      loading := true;
    }

    /** `fetchConversationData` up to its `await`. */
    method FetchConversationData()
      modifies this`loading
      ensures loading
    {
      loading := true;
    }

    /** The rest of `fetchConversationData`: a truthy body sets the user,
        the conversation and its messages (or none). When that changes the
        loaded conversation's id, `fetchConversationData` is a new callback,
        so the focus effect that depends on it runs again and a new fetch
        starts. */
    method FetchSettled(outcome: Outcome<Option<SupportData>>) returns (refetch: bool)
      modifies this`conversationData, this`messages, this`currentUserId, this`loading
      ensures outcome.Success? && outcome.data.Some? ==>
                currentUserId == outcome.data.value.currentUserId
                && conversationData == outcome.data
                && messages == (if outcome.data.value.messages.Some? then outcome.data.value.messages.value else [])
      ensures !(outcome.Success? && outcome.data.Some?) ==>
                conversationData == old(conversationData) && messages == old(messages)
                && currentUserId == old(currentUserId)
      ensures refetch <==> LoadedId(conversationData) != LoadedId(old(conversationData))
      ensures loading == refetch
    {
      var before := LoadedId(conversationData);
      if outcome.Success? && outcome.data.Some? {
        var data := outcome.data.value;
        currentUserId := data.currentUserId;
        conversationData := Some(data);
        messages := if data.messages.Some? then data.messages.value else [];
      }
      loading := false;
      refetch := LoadedId(conversationData) != before;
      if refetch {
        FetchConversationData();
      }
    }

    /** `handleInputChange`. */
    method HandleInputChange(text: string)
      modifies this`inputText
      ensures inputText == text
    {
      inputText := text;
    }

    /** `handleSendMessage` up to its `await`: nothing is sent for a blank
        input or before the conversation is loaded; the body is the trimmed
        input. */
    method HandleSendMessage() returns (request: Option<SendRequest>)
      ensures request.Some? <==> !IsBlank(inputText) && conversationData.Some?
      ensures request.Some? ==> request.value == SendRequest(conversationData.value.id, Trim(inputText))
      ensures request.Some? ==> request.value.body != "" && !SendDisabled(inputText)
    {
      if IsBlank(inputText) || conversationData.None? {
        return None;
      }
      request := Some(SendRequest(conversationData.value.id, Trim(inputText)));
    }

    /** The rest of `handleSendMessage`: on status 200 or 201 the input is
        cleared and a refetch starts; on any other status or a failure the
        input is kept. */
    method SendMessageSettled(outcome: Outcome<int>) returns (refetch: bool)
      modifies this`inputText, this`loading
      ensures refetch <==> outcome.Success? && Accepted(outcome.data)
      ensures refetch ==> inputText == "" && loading
      ensures !refetch ==> inputText == old(inputText) && loading == old(loading)
    {
      refetch := outcome.Success? && Accepted(outcome.data);
      if refetch {
        FetchConversationData();
        inputText := "";
      }
    }
  }

  /** The first load of the conversation on a focused screen fetches it
      twice: the first response changes the loaded id and so starts a second
      fetch; a second response for the same conversation starts none, and
      the spinner goes. */
  method FirstLoad(s: Screen, first: SupportData, second: SupportData)
      returns (refetchedAfterFirst: bool, refetchedAfterSecond: bool)
    requires s.conversationData.None? && second.id == first.id
    modifies s
    ensures refetchedAfterFirst && !refetchedAfterSecond
    ensures s.conversationData == Some(second) && !s.loading
  {
    s.FetchConversationData();
    refetchedAfterFirst := s.FetchSettled(Success(Some(first)));
    refetchedAfterSecond := s.FetchSettled(Success(Some(second)));
  }
}

/** The list of the user's conversations (app/screens/ConversationsScreen.tsx):
    loaded on focus, each shown with a preview of its last message. */
module Conversations {
  import opened Js

  const LOAD_FAILED := "Failed to load conversations"
  /** Previews longer than this are cut and marked with '...'. */
  const PREVIEW_LENGTH := 40

  /** `last_message`: missing, a string, an object whose `verse` and `time`
      may be missing, or any other value. */
  datatype LastMessage = NoLastMessage | TextMessage(text: string) | StructuredMessage(verse: Option<string>, time: Option<string>) | OtherValue

  datatype Conversation = Conversation(id: int, conversationName: Option<string>, lastMessage: LastMessage)

  /** What a row shows under the conversation's name. */
  datatype Preview = NoPreview | TextPreview(text: string) | VersePreview(verse: Option<string>, time: Option<string>)

  /** The preview of a last message: a string is cut to 40 characters plus
      '...' when longer; an object shows its verse, cut the same way, only
      when non-empty and its time only when non-empty; anything else shows
      nothing. */
  function PreviewOf(m: LastMessage): (r: Preview)
    ensures m.TextMessage? ==> r == TextPreview(Ellipsize(m.text, PREVIEW_LENGTH))
    ensures m.StructuredMessage? ==>
              r.VersePreview?
              && (r.verse.Some? <==> StrTruthy(m.verse))
              && (r.verse.Some? ==> r.verse.value == Ellipsize(m.verse.value, PREVIEW_LENGTH))
              && (r.time.Some? <==> StrTruthy(m.time))
              && (r.time.Some? ==> r.time == m.time)
    ensures m.NoLastMessage? || m.OtherValue? ==> r == NoPreview
  {
    match m
    case StructuredMessage(verse, time) =>
      var v := OrElse(verse, "");
      var t := OrElse(time, "");
      VersePreview(if v != "" then Some(Ellipsize(v, PREVIEW_LENGTH)) else None,
                   if t != "" then Some(t) else None)
    case TextMessage(text) => TextPreview(Ellipsize(text, PREVIEW_LENGTH))
    case _ => NoPreview
  }

  /** No preview text is longer than 43 characters, and a shown preview of
      a short message is the message itself. */
  lemma PreviewBounded(m: LastMessage)
    ensures PreviewOf(m).TextPreview? ==> |PreviewOf(m).text| <= PREVIEW_LENGTH + 3
    ensures PreviewOf(m).VersePreview? && PreviewOf(m).verse.Some? ==> |PreviewOf(m).verse.value| <= PREVIEW_LENGTH + 3
    ensures m.TextMessage? && |m.text| <= PREVIEW_LENGTH ==> PreviewOf(m) == TextPreview(m.text)
  {
  }

  /** What the screen shows. */
  datatype View = Spinner | ErrorText(message: string) | NoConversations | ConversationList(items: seq<Conversation>)

  /** In priority order: spinner, error, 'No conversations yet', list. */
  function Render(loading: bool, error: Option<string>, conversations: seq<Conversation>): (r: View)
    ensures r.Spinner? <==> loading
    ensures r.ErrorText? <==> !loading && StrTruthy(error)
    ensures r.ErrorText? ==> r.message == error.value
    ensures r.NoConversations? <==> !loading && !StrTruthy(error) && conversations == []
    ensures r.ConversationList? <==> !loading && !StrTruthy(error) && conversations != []
    ensures r.ConversationList? ==> r.items == conversations
  {
    if loading then Spinner
    else if StrTruthy(error) then ErrorText(error.value)
    else if |conversations| == 0 then NoConversations
    else ConversationList(conversations)
  }

  class Screen {
    var conversations: seq<Conversation>
    var loading: bool
    var error: Option<string>

    constructor ()
      ensures conversations == [] && loading && error.None?
    {
      conversations := [];
      loading := true;
      error := None;
    }

    /** `fetchConversations` up to its `await`. */
    method FetchConversations()
      modifies this`loading, this`error
      ensures loading && error.None?
    {
      loading := true;
      error := None;
    }

    /** The rest of `fetchConversations`: the list comes from an array body,
        else its `conversations`, else nothing; a falsy body keeps it; a
        failure sets the error and keeps it. */
    method FetchSettled(outcome: Outcome<Body<Conversation>>)
      modifies this`conversations, this`error, this`loading
      ensures outcome.Success? && !outcome.data.Falsy? ==> conversations == Normalise(outcome.data).value
      ensures outcome.Success? && outcome.data.Falsy? ==> conversations == old(conversations)
      ensures outcome.Success? ==> error == old(error)
      ensures outcome.Failure? ==> conversations == old(conversations) && error == Some(LOAD_FAILED)
      ensures !loading
    {
      if outcome.Success? {
        var found := Normalise(outcome.data);
        if found.Some? {
          conversations := found.value;
        }
      } else {
        error := Some(LOAD_FAILED);
      }
      loading := false;
    }

    /** Tapping a row opens the conversation with its id, when that id is
        truthy. */
    method OnPress(item: Conversation) returns (conversationId: Option<int>)
      ensures conversationId.Some? <==> item.id != 0
      ensures conversationId.Some? ==> conversationId.value == item.id
    {
      conversationId := if item.id != 0 then Some(item.id) else None;
    }
  }

  /** A load followed by its outcome: the screen then shows the failure's
      error, or the conversations loaded (or 'No conversations yet'), never
      an error left over from an earlier load. */
  method Load(s: Screen, outcome: Outcome<Body<Conversation>>) returns (v: View)
    modifies s
    ensures v == Render(s.loading, s.error, s.conversations)
    ensures outcome.Failure? ==> v == ErrorText(LOAD_FAILED)
    ensures outcome.Success? && !outcome.data.Falsy? ==>
              v == (if Normalise(outcome.data).value == [] then NoConversations else ConversationList(Normalise(outcome.data).value))
    ensures outcome.Success? && outcome.data.Falsy? ==>
              v == (if old(s.conversations) == [] then NoConversations else ConversationList(old(s.conversations)))
  {
    s.FetchConversations();
    s.FetchSettled(outcome);
    v := Render(s.loading, s.error, s.conversations);
  }
}

/** A one-to-one conversation (app/screens/ConversationScreen.tsx): the
    conversation is opened with another user, verses are searched with a
    debounced query and one selected verse is sent as a message. */
module ConversationScreen {
  import opened Js
  import opened Messaging

  /** A verse in the search results. */
  datatype SearchVerse = SearchVerse(id: int, book: string, chapter: int, verse: int, text: string)

  /** An entry of the verse dropdown. */
  datatype DropdownItem = DropdownItem(labelText: string, value: SearchVerse)

  datatype OtherUser = OtherUser(id: int, username: Option<string>, firstName: Option<string>, lastName: Option<string>)

  /** `response.data` of `POST /conversation/new`; `messages` may be
      missing. */
  datatype ConversationData = ConversationData(id: int, otherUser: Option<OtherUser>, messages: Option<seq<Message>>)

  /** `response.data` of a sent message: falsy, an object with a truthy
      `message`, or an object without one, which is then taken as the
      message itself. */
  datatype SendReply = EmptyReply | WithMessage(message: Message) | AsMessage(data: Message)

  /** The body of `POST /conversations/{id}/messages`. */
  datatype SendRequest = SendRequest(conversationId: int, body: string)

  /** `${book} ${chapter}:${verse} - ${text}`, the form a verse takes both in
      the dropdown and in the message sent. */
  function VerseLabel(v: SearchVerse): string {
    v.book + " " + IntToString(v.chapter) + ":" + IntToString(v.verse) + " - " + v.text
  }

  /** The label starts with the book, followed by a space, and ends with
      " - " and the verse text. */
  lemma VerseLabelParts(v: SearchVerse)
    ensures |VerseLabel(v)| > |v.book| + |v.text| + 3
    ensures VerseLabel(v)[..|v.book|] == v.book && VerseLabel(v)[|v.book|] == ' '
    ensures VerseLabel(v)[|VerseLabel(v)| - |v.text| - 3..] == " - " + v.text
  {
    var mid := IntToString(v.chapter) + ":" + IntToString(v.verse);
    assert VerseLabel(v) == v.book + " " + mid + " - " + v.text;
  }

  /** The dropdown built from search results: one item per verse, in order,
      labelled and carrying the verse. */
  function Dropdown(verses: seq<SearchVerse>): (r: seq<DropdownItem>)
    ensures |r| == |verses|
    ensures forall i | 0 <= i < |verses| :: r[i].value == verses[i] && r[i].labelText == VerseLabel(verses[i])
  {
    seq(|verses|, i requires 0 <= i < |verses| => DropdownItem(VerseLabel(verses[i]), verses[i]))
  }

  /** `otherUserName`: 'Unknown User' without another user; otherwise the
      "first last" pair with missing parts read as '', trimmed, and when
      that is empty the username, which may itself be missing. */
  function OtherUserName(data: Option<ConversationData>): (r: Option<string>)
    ensures data.None? || data.value.otherUser.None? ==> r == Some("Unknown User")
    ensures data.Some? && data.value.otherUser.Some? ==>
              var u := data.value.otherUser.value;
              var first := OrElse(u.firstName, "");
              var last := OrElse(u.lastName, "");
              (IsBlank(first) && IsBlank(last) ==> r == u.username)
              && (!IsBlank(first) || !IsBlank(last) ==>
                    r == Some(Trim(first + " " + last)) && r.value != ""
                    && !IsSpace(r.value[0]) && !IsSpace(r.value[|r.value| - 1]))
  {
    if data.None? || data.value.otherUser.None? then Some("Unknown User")
    else
      var u := data.value.otherUser.value;
      var first := OrElse(u.firstName, "");
      var last := OrElse(u.lastName, "");
      BlankJoin(first, last);
      var full := Trim(first + " " + last);
      if full != "" then Some(full) else u.username
  }

  /** The minimum trimmed length of a query worth searching. */
  const MIN_QUERY := 2

  class Screen {
    /** `route.params.other_user_id`. */
    const otherUserId: int
    var conversationData: Option<ConversationData>
    var messages: seq<Message>
    var currentUserId: Option<int>
    var searchQuery: string
    var verseDropdownData: seq<DropdownItem>
    var selectedVerse: Option<SearchVerse>
    var loading: bool
    /** The query of the search timer that has been set and not yet fired
        or cleared (`searchTimeoutRef`). */
    var pendingSearch: Option<string>

    constructor (otherUserId: int)
      ensures this.otherUserId == otherUserId
      ensures conversationData.None? && messages == [] && currentUserId.None?
      ensures searchQuery == "" && verseDropdownData == [] && selectedVerse.None?
      ensures loading && pendingSearch.None?
    {
      this.otherUserId := otherUserId;
      conversationData := None;
      messages := [];
      currentUserId := None;
      searchQuery := "";
      verseDropdownData := [];
      selectedVerse := None;
      loading := true;
      pendingSearch := None;
    }

    /** `fetchConversationData` after the user request: a truthy id becomes
        the current user; a failure ends the load before the conversation
        is requested. */
    method UserSettled(outcome: Outcome<Option<int>>) returns (requestConversation: bool)
      modifies this`currentUserId, this`loading
      ensures requestConversation <==> outcome.Success?
      ensures outcome.Success? && outcome.data.Some? && outcome.data.value != 0 ==> currentUserId == outcome.data
      ensures !(outcome.Success? && outcome.data.Some? && outcome.data.value != 0) ==> currentUserId == old(currentUserId)
      ensures loading == (old(loading) && outcome.Success?)
    {
      requestConversation := outcome.Success?;
      if outcome.Success? {
        if outcome.data.Some? && outcome.data.value != 0 {
          currentUserId := outcome.data;
        }
      } else {
        loading := false;
      }
    }

    /** The rest of `fetchConversationData`: a truthy body becomes the
        conversation and its messages (or none). */
    method ConversationSettled(outcome: Outcome<Option<ConversationData>>)
      modifies this`conversationData, this`messages, this`loading
      ensures outcome.Success? && outcome.data.Some? ==>
                conversationData == outcome.data
                && messages == (if outcome.data.value.messages.Some? then outcome.data.value.messages.value else [])
      ensures !(outcome.Success? && outcome.data.Some?) ==>
                conversationData == old(conversationData) && messages == old(messages)
      ensures !loading
    {
      if outcome.Success? && outcome.data.Some? {
        var data := outcome.data.value;
        conversationData := Some(data);
        messages := if data.messages.Some? then data.messages.value else [];
      }
      loading := false;
    }

    /** `handleSearchChange`: the query is always stored. A query of at
        least two characters after trimming replaces any pending search by
        one for the trimmed text; a shorter one empties the dropdown and
        leaves a pending search in place. */
    method HandleSearchChange(text: string)
      modifies this`searchQuery, this`pendingSearch, this`verseDropdownData
      ensures searchQuery == text
      ensures |Trim(text)| >= MIN_QUERY ==>
                pendingSearch == Some(Trim(text)) && verseDropdownData == old(verseDropdownData)
      ensures |Trim(text)| < MIN_QUERY ==>
                pendingSearch == old(pendingSearch) && verseDropdownData == []
    {
      searchQuery := text;
      if |Trim(text)| >= MIN_QUERY {
        pendingSearch := Some(Trim(text));
      } else {
        verseDropdownData := [];
      }
    }

    /** The search timer fires: its query is searched. */
    method DebounceElapsed() returns (query: Option<string>)
      modifies this`pendingSearch
      ensures query == old(pendingSearch)
      ensures pendingSearch.None?
    {
      query := pendingSearch;
      pendingSearch := None;
    }

    /** `searchVerses` after its `await`: results come from an array body,
        else its `verses`, else nothing, each labelled; a falsy body keeps
        the dropdown and a failure empties it. */
    method SearchSettled(outcome: Outcome<Body<SearchVerse>>)
      modifies this`verseDropdownData
      ensures outcome.Success? && !outcome.data.Falsy? ==>
                verseDropdownData == Dropdown(Normalise(outcome.data).value)
      ensures outcome.Success? && outcome.data.Falsy? ==> verseDropdownData == old(verseDropdownData)
      ensures outcome.Failure? ==> verseDropdownData == []
    {
      if outcome.Success? {
        var found := Normalise(outcome.data);
        if found.Some? {
          verseDropdownData := Dropdown(found.value);
        }
      } else {
        verseDropdownData := [];
      }
    }

    /** `handleVerseSelect`: the verse is selected and its label becomes the
        query. */
    method HandleVerseSelect(item: DropdownItem)
      modifies this`selectedVerse, this`searchQuery
      ensures selectedVerse == Some(item.value) && searchQuery == item.labelText
    {
      selectedVerse := Some(item.value);
      searchQuery := item.labelText;
    }

    /** `handleSendVerse` up to its `await`: nothing is sent unless a verse
        is selected, the signed-in user's id is truthy and the conversation
        is loaded; the body is the verse's label. */
    method HandleSendVerse() returns (request: Option<SendRequest>)
      ensures request.Some? <==>
                selectedVerse.Some? && currentUserId.Some? && currentUserId.value != 0 && conversationData.Some?
      ensures request.Some? ==>
                request.value == SendRequest(conversationData.value.id, VerseLabel(selectedVerse.value))
    {
      if selectedVerse.None? || currentUserId.None? || currentUserId.value == 0 || conversationData.None? {
        return None;
      }
      request := Some(SendRequest(conversationData.value.id, VerseLabel(selectedVerse.value)));
    }

    /** The rest of `handleSendVerse`: a truthy reply appends its message
        after every earlier one and resets the search; otherwise nothing
        changes. */
    method SendVerseSettled(outcome: Outcome<SendReply>)
      modifies this`messages, this`searchQuery, this`selectedVerse, this`verseDropdownData
      ensures outcome.Success? && !outcome.data.EmptyReply? ==>
                messages == old(messages) + [if outcome.data.WithMessage? then outcome.data.message else outcome.data.data]
                && searchQuery == "" && selectedVerse.None? && verseDropdownData == []
      ensures !(outcome.Success? && !outcome.data.EmptyReply?) ==>
                messages == old(messages) && searchQuery == old(searchQuery)
                && selectedVerse == old(selectedVerse) && verseDropdownData == old(verseDropdownData)
    {
      if outcome.Success? && !outcome.data.EmptyReply? {
        var m := if outcome.data.WithMessage? then outcome.data.message else outcome.data.data;
        messages := messages + [m];
        searchQuery := "";
        selectedVerse := None;
        verseDropdownData := [];
      }
    }
  }

  /** Typing two searchable queries before the timer fires searches only
      the second, trimmed. */
  method TypeTwiceThenElapse(s: Screen, first: string, second: string) returns (query: Option<string>)
    requires |Trim(first)| >= MIN_QUERY && |Trim(second)| >= MIN_QUERY
    modifies s
    ensures query == Some(Trim(second))
    ensures s.searchQuery == second && s.pendingSearch.None?
  {
    s.HandleSearchChange(first);
    s.HandleSearchChange(second);
    query := s.DebounceElapsed();
  }

  /** A short query typed after a searchable one does not cancel it. */
  method ShortQueryKeepsPending(s: Screen, first: string, second: string) returns (query: Option<string>)
    requires |Trim(first)| >= MIN_QUERY && |Trim(second)| < MIN_QUERY
    modifies s
    ensures query == Some(Trim(first))
    ensures s.searchQuery == second && s.verseDropdownData == []
  {
    s.HandleSearchChange(first);
    s.HandleSearchChange(second);
    query := s.DebounceElapsed();
  }
}

/** Starting a conversation (app/screens/NewConversationScreen.tsx): users
    are searched with a debounced query and tapping one opens the
    conversation. */
module NewConversation {
  import opened Js

  const SEARCH_FAILED := "Failed to search users"
  /** The minimum trimmed length of a query worth searching. */
  const MIN_QUERY := 2

  datatype User = User(id: int, email: string, firstName: Option<string>, lastName: Option<string>)

  /** `user.first_name && user.last_name`. */
  predicate HasFullName(u: User) {
    StrTruthy(u.firstName) && StrTruthy(u.lastName)
  }

  /** The row's title: "first last" when both names are truthy, else the
      email. */
  function ShownName(u: User): (r: string)
    ensures HasFullName(u) ==> r == u.firstName.value + " " + u.lastName.value
    ensures !HasFullName(u) ==> r == u.email
  {
    if HasFullName(u) then u.firstName.value + " " + u.lastName.value else u.email
  }

  /** The email subtitle is drawn only under a full name. */
  predicate ShowsEmailSubtitle(u: User) {
    HasFullName(u)
  }

  /** Every row shows its user's email: as the title when the user lacks a
      full name, otherwise as the subtitle under a title whose two names are
      separated by a space. */
  lemma EmailAlwaysShown(u: User)
    ensures ShowsEmailSubtitle(u) || ShownName(u) == u.email
    ensures HasFullName(u) ==> |ShownName(u)| >= 3 && ShownName(u)[|u.firstName.value|] == ' '
  {
  }

  /** What the results area shows. */
  datatype View = Spinner | ErrorText(message: string) | ShortQueryPrompt | NoUsers | UserList(users: seq<User>)

  /** The results area, in priority order: spinner, error, short-query
      prompt, 'No users found', list. */
  function Render(loading: bool, error: Option<string>, searchQuery: string, users: seq<User>): (r: View)
    ensures r.Spinner? <==> loading
    ensures r.ErrorText? <==> !loading && StrTruthy(error)
    ensures r.ErrorText? ==> r.message == error.value
    ensures r.ShortQueryPrompt? <==> !loading && !StrTruthy(error) && |Trim(searchQuery)| < MIN_QUERY
    ensures r.NoUsers? <==> !loading && !StrTruthy(error) && |Trim(searchQuery)| >= MIN_QUERY && users == []
    ensures r.UserList? <==> !loading && !StrTruthy(error) && |Trim(searchQuery)| >= MIN_QUERY && users != []
    ensures r.UserList? ==> r.users == users
  {
    if loading then Spinner
    else if StrTruthy(error) then ErrorText(error.value)
    else if |Trim(searchQuery)| < MIN_QUERY then ShortQueryPrompt
    else if |users| == 0 && !loading then NoUsers
    else UserList(users)
  }

  /** The parameters of the `Conversation` route. */
  datatype ConversationRoute = ConversationRoute(otherUserId: int, verseId: Option<int>)

  class Screen {
    /** `route.params.verse_id`. */
    const verseId: Option<int>
    var searchQuery: string
    var users: seq<User>
    var loading: bool
    var error: Option<string>
    /** The query of the search timer that has been set and not yet fired
        or cleared (`searchTimeoutRef`). */
    var pendingSearch: Option<string>

    constructor (verseId: Option<int>)
      ensures this.verseId == verseId
      ensures searchQuery == "" && users == [] && !loading && error.None? && pendingSearch.None?
    {
      this.verseId := verseId;
      searchQuery := "";
      users := [];
      loading := false;
      error := None;
      pendingSearch := None;
    }

    /** The query input's `onChangeText` and the effect it triggers: any
        pending search is cancelled; a query of at least two characters
        after trimming schedules a search of the query as typed, a shorter
        one clears the results and the error. */
    method SetSearchQuery(text: string)
      modifies this`searchQuery, this`pendingSearch, this`users, this`error
      ensures searchQuery == text
      ensures |Trim(text)| >= MIN_QUERY ==>
                pendingSearch == Some(text) && users == old(users) && error == old(error)
      ensures |Trim(text)| < MIN_QUERY ==> pendingSearch.None? && users == [] && error.None?
    {
      searchQuery := text;
      pendingSearch := None;
      if |Trim(text)| >= MIN_QUERY {
        pendingSearch := Some(text);
      } else {
        users := [];
        error := None;
      }
    }

    /** The search timer fires and `searchUsers` runs up to its `await`. */
    method DebounceElapsed() returns (query: Option<string>)
      modifies this`pendingSearch, this`loading, this`error
      ensures query == old(pendingSearch) && pendingSearch.None?
      ensures query.Some? ==> loading && error.None?
      ensures query.None? ==> loading == old(loading) && error == old(error)
    {
      query := pendingSearch;
      pendingSearch := None;
      if query.Some? {
        loading := true;
        error := None;
      }
    }

    /** The rest of `searchUsers`: results come from an array body, else its
        `users`, else nothing; a falsy body keeps them; a failure sets the
        error and empties them. */
    method SearchSettled(outcome: Outcome<Body<User>>)
      modifies this`users, this`error, this`loading
      ensures outcome.Success? && !outcome.data.Falsy? ==>
                users == Normalise(outcome.data).value && error == old(error)
      ensures outcome.Success? && outcome.data.Falsy? ==> users == old(users) && error == old(error)
      ensures outcome.Failure? ==> users == [] && error == Some(SEARCH_FAILED)
      ensures !loading
    {
      if outcome.Success? {
        var found := Normalise(outcome.data);
        if found.Some? {
          users := found.value;
        }
      } else {
        error := Some(SEARCH_FAILED);
        users := [];
      }
      loading := false;
    }

    /** `handleUserSelect`: the conversation opens with the tapped user and
        the verse this screen was opened with. */
    method HandleUserSelect(u: User) returns (route: ConversationRoute)
      ensures route.otherUserId == u.id && route.verseId == verseId
    {
      route := ConversationRoute(u.id, verseId);
    }
  }

  /** Typing a searchable query, the timer firing and the search settling:
      the query typed is the one searched, and the results area then shows
      the failure's error, or the users found (or 'No users found'). */
  method TypeAndSearch(s: Screen, text: string, outcome: Outcome<Body<User>>)
      returns (query: Option<string>, v: View)
    requires |Trim(text)| >= MIN_QUERY
    modifies s
    ensures query == Some(text)
    ensures v == Render(s.loading, s.error, s.searchQuery, s.users)
    ensures outcome.Failure? ==> v == ErrorText(SEARCH_FAILED)
    ensures outcome.Success? && !outcome.data.Falsy? ==>
              v == (if Normalise(outcome.data).value == [] then NoUsers else UserList(Normalise(outcome.data).value))
  {
    s.SetSearchQuery(text);
    query := s.DebounceElapsed();
    s.SearchSettled(outcome);
    v := Render(s.loading, s.error, s.searchQuery, s.users);
  }
}

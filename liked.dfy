/** The liked-verses screen (app/Liked.tsx): a list of the user's liked
    verses, and the verse feed opened on one of them. Exactly one of the two
    is visible at a time. */
module Liked {
  import opened Js
  import opened VerseModule
  import LineItem

  const LOAD_FAILED := "Failed to load liked verses"
  /** Row texts longer than this are cut and marked with '...'. */
  const ROW_TEXT := 30

  /** `${n || ''}`: a zero shows nothing. */
  function NumberOrEmpty(n: int): string {
    if n != 0 then IntToString(n) else ""
  }

  /** `${initial || ''}. ${chapter || ''}:${verse || ''}  `. */
  function RowLabel(v: Verse): string {
    LineItem.BookInitial(v.book) + ". " + NumberOrEmpty(v.chapter) + ":" + NumberOrEmpty(v.verse) + "  "
  }

  /** For a verse with a non-zero chapter and verse the row reads as a list
      row does elsewhere; a zero chapter or verse is left blank. */
  lemma RowLabelMatchesLineItem(v: Verse)
    ensures v.chapter != 0 && v.verse != 0 ==> RowLabel(v) == LineItem.Label(v.book, v.chapter, v.verse)
    ensures v.chapter == 0 ==> RowLabel(v) == LineItem.BookInitial(v.book) + ". :" + NumberOrEmpty(v.verse) + "  "
  {
  }

  /** The row text: '' for an empty text, else cut to 30 characters plus
      '...' when longer. */
  function RowText(text: string): (r: string)
    ensures |r| <= ROW_TEXT + 3
    ensures |text| <= ROW_TEXT ==> r == text
    ensures |text| > ROW_TEXT ==> r == text[..ROW_TEXT] + "..."
  {
    if text == "" then "" else Ellipsize(text, ROW_TEXT)
  }

  /** Position of the first verse with the given id, as `find` takes it. */
  function FirstWithId(vs: seq<Verse>, id: int): (k: int)
    ensures -1 <= k < |vs|
    ensures k >= 0 ==> vs[k].id == id && forall j | 0 <= j < k :: vs[j].id != id
    ensures k == -1 ==> forall j | 0 <= j < |vs| :: vs[j].id != id
  {
    if |vs| == 0 then -1
    else if vs[0].id == id then 0
    else
      var k := FirstWithId(vs[1..], id);
      if k == -1 then -1 else k + 1
  }

  /** The feed's props when it is opened on one verse: that verse alone,
      `active` 4 and an empty URL. */
  function ModuleProps(selected: Verse): FeedProps {
    FeedProps([selected], 4, Some(""))
  }

  class Screen {
    var verses: seq<Verse>
    var loading: bool
    var error: Option<string>
    var moduleVisible: bool
    var listVisible: bool
    var selectedVerse: Option<Verse>

    /** The list and the opened feed are never both shown, and one of them
        always is. */
    ghost predicate Valid()
      reads this
    {
      moduleVisible == !listVisible
    }

    constructor ()
      ensures verses == [] && loading && error.None?
      ensures !moduleVisible && listVisible && selectedVerse.None?
      ensures Valid()
    {
      verses := [];
      loading := true;
      error := None;
      moduleVisible := false;
      listVisible := true;
      selectedVerse := None;
    }

    /** `fetchLikedVerses` up to its `await`. */
    method FetchLikedVerses()
      modifies this`loading, this`error
      ensures loading && error.None?
    {
      loading := true;
      error := None;
    }

    /** The focus effect: the list is fetched only while it is visible. */
    method OnFocus() returns (fetching: bool)
      modifies this`loading, this`error
      ensures fetching == listVisible
      ensures fetching ==> loading && error.None?
      ensures !fetching ==> loading == old(loading) && error == old(error)
    {
      fetching := listVisible;
      if fetching {
        FetchLikedVerses();
      }
    }

    /** The rest of `fetchLikedVerses`: the list comes from an array body,
        else its `verses`, else nothing; a falsy body keeps it; a failure
        sets the error and keeps it. */
    method FetchSettled(outcome: Outcome<Body<Verse>>)
      modifies this`verses, this`error, this`loading
      ensures outcome.Success? && !outcome.data.Falsy? ==> verses == Normalise(outcome.data).value
      ensures outcome.Success? && outcome.data.Falsy? ==> verses == old(verses)
      ensures outcome.Success? ==> error == old(error)
      ensures outcome.Failure? ==> verses == old(verses) && error == Some(LOAD_FAILED)
      ensures !loading
    {
      if outcome.Success? {
        var found := Normalise(outcome.data);
        if found.Some? {
          verses := found.value;
        }
      } else {
        error := Some(LOAD_FAILED);
      }
      loading := false;
    }

    /** `showModule(id)`: the first verse with the id is opened in the feed
        and the list is hidden; with no such verse nothing changes. */
    method ShowModule(id: int)
      requires Valid()
      modifies this`selectedVerse, this`moduleVisible, this`listVisible
      ensures Valid()
      ensures var k := FirstWithId(verses, id);
              if k >= 0 then selectedVerse == Some(verses[k]) && moduleVisible && !listVisible
              else selectedVerse == old(selectedVerse) && moduleVisible == old(moduleVisible)
                   && listVisible == old(listVisible)
    {
      var k := FirstWithId(verses, id);
      if k >= 0 {
        selectedVerse := Some(verses[k]);
        moduleVisible := true;
        listVisible := false;
      }
    }

    /** `handleBackPress`: with the list showing it only navigates back;
        otherwise the feed is closed, the list shown and the selection
        cleared, and because the focus effect depends on the list's
        visibility it runs again and refetches the list. */
    method HandleBackPress() returns (goBack: bool)
      requires Valid()
      modifies this`moduleVisible, this`listVisible, this`selectedVerse, this`loading, this`error
      ensures Valid()
      ensures goBack == old(listVisible)
      ensures goBack ==>
                moduleVisible == old(moduleVisible) && listVisible == old(listVisible)
                && selectedVerse == old(selectedVerse) && loading == old(loading) && error == old(error)
      ensures !goBack ==>
                !moduleVisible && listVisible && selectedVerse.None? && loading && error.None?
    {
      goBack := listVisible;
      if !goBack {
        moduleVisible := false;
        listVisible := true;
        selectedVerse := None;
        var _ := OnFocus();
      }
    }
  }

  /** The feed opened on a selected verse shows exactly that verse, at index
      0 whatever `active` says, and requests nothing. */
  method OpenSelected(selected: Verse) returns (feed: Feed)
    ensures feed.verses == [selected] && feed.currentIndex == 0
    ensures !feed.loading && feed.inFlight.None? && feed.IndexClamped()
  {
    var props := ModuleProps(selected);
    feed := new Feed(props.data, props.active, props.url.value);
    var req := feed.OnUrl(props.url.value);
  }
}

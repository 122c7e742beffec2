/** The "Your choice" screen (app/screens/YourChoiceScreen.tsx): a dropdown
    whose opening hides the verse feed, and a favourite toggle over a local
    verse list. */
module YourChoiceScreen {
  import opened Js
  import opened VerseModule

  /** A verse of the local list; here `favorited` is always a boolean. */
  datatype BibleVerse = BibleVerse(book: string, chapter: int, verse: int, liked: bool, favorited: bool, text: string)

  /** An entry of the dropdown. */
  datatype Item = Item(name: string, value: string)

  /** `datos`: eight items whose values are the digits 1 to 8. */
  const ITEMS: seq<Item> := [
    Item("Item 1", "1"), Item("Item 2", "2"), Item("Item 3", "3"), Item("Item 4", "4"),
    Item("Item 5", "5"), Item("Item 6", "6"), Item("Item 7", "7"), Item("Item 8", "8")
  ]

  /** The dropdown's initial `value`. */
  const INITIAL_VALUE := "Item 1"

  /** The initial value is an item's label, not its value, so on first
      render the dropdown matches none of its items. */
  lemma InitialValueMatchesNoItem()
    ensures forall i | 0 <= i < |ITEMS| :: ITEMS[i].value != INITIAL_VALUE
    ensures ITEMS[0].name == INITIAL_VALUE
  {
  }

  /** `toggleFavorite(index)`: negates `favorited` at one index; length and
      every other verse are unchanged. */
  function ToggleFavoriteAt(vs: seq<BibleVerse>, index: int): (r: seq<BibleVerse>)
    ensures |r| == |vs|
    ensures forall j | 0 <= j < |vs| && j != index :: r[j] == vs[j]
    ensures 0 <= index < |vs| ==> r[index] == vs[index].(favorited := !vs[index].favorited)
  {
    seq(|vs|, i requires 0 <= i < |vs| =>
      if i == index then vs[i].(favorited := !vs[i].favorited) else vs[i])
  }

  /** With a boolean `favorited`, toggling twice at any index is the
      identity. */
  lemma ToggleTwice(vs: seq<BibleVerse>, index: int)
    ensures ToggleFavoriteAt(ToggleFavoriteAt(vs, index), index) == vs
  {
    var twice := ToggleFavoriteAt(ToggleFavoriteAt(vs, index), index);
    forall j | 0 <= j < |vs| ensures twice[j] == vs[j] {
      if j == index {
        assert twice[j].favorited == vs[j].favorited;
      }
    }
  }

  class Screen {
    var verses: seq<BibleVerse>
    var value: string
    var verseComponentVisible: bool

    /** The screen starts from its sample list (`datas`). */
    constructor (sample: seq<BibleVerse>)
      ensures verses == sample && value == INITIAL_VALUE && verseComponentVisible
    {
      verses := sample;
      value := INITIAL_VALUE;
      verseComponentVisible := true;
    }

    method ToggleFavorite(index: int)
      modifies this`verses
      ensures verses == ToggleFavoriteAt(old(verses), index)
    {
      verses := ToggleFavoriteAt(verses, index);
    }

    /** `toggleVerseComponent`, called on the dropdown's focus and blur. */
    method ToggleVerseComponent()
      modifies this`verseComponentVisible
      ensures verseComponentVisible == !old(verseComponentVisible)
    {
      verseComponentVisible := !verseComponentVisible;
    }

    /** The dropdown's `onChange`. */
    method OnDropdownChange(item: Item)
      modifies this`value
      ensures value == item.value
    {
      value := item.value;
    }

    /** The feed as the screen renders it while visible: no data, `active`
        0 and no `url` prop at all. */
    function FeedAsWritten(): (r: Option<FeedProps>)
      reads this
      ensures r.Some? <==> verseComponentVisible
      ensures r.Some? ==> r.value.data == [] && r.value.active == 0 && r.value.url.None?
    {
      if verseComponentVisible then Some(FeedProps([], 0, None)) else None
    }

    /** The feed with the `url` prop the feed requires: the empty string,
        which shows the feed's placeholder. */
    function Feed(): (r: Option<FeedProps>)
      reads this
      ensures r.Some? <==> verseComponentVisible
      ensures r.Some? ==> r.value == FeedProps([], 0, Some(""))
    {
      if verseComponentVisible then Some(FeedProps([], 0, Some(""))) else None
    }
  }

  /** As written, the visible feed is mounted without a `url` prop, so its
      first render throws. */
  lemma FeedAsWrittenThrows(s: Screen)
    requires s.verseComponentVisible
    ensures s.FeedAsWritten().Some? && FirstRender(s.FeedAsWritten().value) == Throws
  {
  }

  /** With the empty URL and no data the visible feed first renders its
      placeholder, requests nothing once mounted, and still shows the
      placeholder. */
  method MountFeed(s: Screen) returns (feed: Feed, request: Option<PageRequest>)
    requires s.verseComponentVisible
    ensures FirstRender(s.Feed().value) == Placeholder
    ensures request.None? && !feed.loading && feed.View() == Placeholder
  {
    var props := s.Feed().value;
    feed := new Feed(props.data, props.active, props.url.value);
    request := feed.OnUrl(props.url.value);
  }
}

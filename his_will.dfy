/** The "His will" screen (app/screens/HisWillScreen.tsx): the verse feed
    fixed on the his_will category, and a favourite toggle over a local
    list. */
module HisWill {
  import opened Js
  import opened VerseModule
  import YourChoiceContent

  /** A verse of the local list; `favorited` may be missing. */
  datatype FavVerse = FavVerse(book: string, chapter: int, verse: int, text: string,
                               liked: Option<bool>, favorited: Option<bool>)

  /** `!verse.favorited`: a missing value counts as false. */
  function Negated(favorited: Option<bool>): bool {
    !(favorited == Some(true))
  }

  /** `toggleFavorite(index)`: the `map` that negates `favorited` at one
      index. Length and every other verse are unchanged, an index outside
      the list changes nothing, and a missing value becomes true. */
  function ToggleFavoriteAt(vs: seq<FavVerse>, index: int): (r: seq<FavVerse>)
    ensures |r| == |vs|
    ensures forall j | 0 <= j < |vs| && j != index :: r[j] == vs[j]
    ensures 0 <= index < |vs| ==> r[index] == vs[index].(favorited := Some(Negated(vs[index].favorited)))
    ensures 0 <= index < |vs| && vs[index].favorited.None? ==> r[index].favorited == Some(true)
    ensures !(0 <= index < |vs|) ==> r == vs
  {
    seq(|vs|, i requires 0 <= i < |vs| =>
      if i == index then vs[i].(favorited := Some(Negated(vs[i].favorited))) else vs[i])
  }

  /** Toggling twice at one index restores a verse whose `favorited` was
      already a boolean. */
  lemma ToggleTwice(vs: seq<FavVerse>, index: int)
    requires 0 <= index < |vs| && vs[index].favorited.Some?
    ensures ToggleFavoriteAt(ToggleFavoriteAt(vs, index), index) == vs
  {
    var b := vs[index].favorited.value;
    var once := ToggleFavoriteAt(vs, index);
    assert once[index].favorited == Some(!b);
    var twice := ToggleFavoriteAt(once, index);
    assert twice[index] == vs[index].(favorited := Some(b));
  }

  /** A missing `favorited` does not come back: toggling twice leaves false. */
  lemma ToggleTwiceMissing(vs: seq<FavVerse>, index: int)
    requires 0 <= index < |vs| && vs[index].favorited.None?
    ensures ToggleFavoriteAt(ToggleFavoriteAt(vs, index), index)[index].favorited == Some(false)
  {
  }

  /** `API_URL_HIS_WILL`: the search URL of the his_will category. */
  function HisWillUrl(apiUrl: string): string {
    YourChoiceContent.CategoryUrl(apiUrl, "his_will")
  }

  /** The feed's props: the his_will URL, no data and `active` 0. */
  function FeedPropsFor(apiUrl: string): FeedProps {
    FeedProps([], 0, Some(HisWillUrl(apiUrl)))
  }

  /** On mount the feed asks for page 1 of the his_will category, with '&'
      before the page because the URL already has a query string. */
  method MountFeed(apiUrl: string) returns (feed: Feed, request: Option<PageRequest>)
    ensures request == Some(PageRequest(apiUrl + "/verses/search?category=his_will&page=1", 1, false))
    ensures feed.loading && feed.verses == [] && feed.currentIndex == 0
  {
    var props := FeedPropsFor(apiUrl);
    feed := new Feed(props.data, props.active, props.url.value);
    request := feed.OnUrl(props.url.value);
    YourChoiceContent.CategoryPageUrl(apiUrl, "his_will");
    assert apiUrl + "/verses/search?category=" + "his_will" + "&page=1"
        == apiUrl + "/verses/search?category=his_will&page=1";
  }
}

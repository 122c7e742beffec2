/** The category picker above the verse feed
    (app/sharedComponents/YourChoiceContent.tsx): picking a category points
    the feed at that category's search, and opening or closing the dropdown
    hides or shows the feed. */
module YourChoiceContent {
  import opened Js
  import opened VerseModule

  /** A dropdown entry. */
  datatype Category = Category(name: string, value: string)

  /** `categoriesToList`. */
  const CATEGORIES: seq<Category> := [
    Category("Anxiety", "Anxiety"),
    Category("Acceptance", "Acceptance"),
    Category("Belief", "Belief"),
    Category("Blessings", "Blessings"),
    Category("Courage", "Courage")
  ]

  /** `${API_URL}/verses/search?category=${category}`. */
  function CategoryUrl(apiUrl: string, category: string): string {
    apiUrl + "/verses/search?category=" + category
  }

  /** A category URL already has a query string, so the feed adds its page
      with '&': page 1 of a category is
      `${API_URL}/verses/search?category=${category}&page=1`. */
  lemma CategoryPageUrl(apiUrl: string, category: string)
    ensures Separator(CategoryUrl(apiUrl, category)) == '&'
    ensures PageUrl(CategoryUrl(apiUrl, category), 1) == apiUrl + "/verses/search?category=" + category + "&page=1"
  {
    var u := CategoryUrl(apiUrl, category);
    assert u[|apiUrl| + 14] == '?';
    assert IntToString(1) == "1";
  }

  class Content {
    /** `API_URL`, fixed for a build. */
    const apiUrl: string
    var verseComponentVisible: bool
    var url: string

    constructor (apiUrl: string)
      ensures this.apiUrl == apiUrl && verseComponentVisible && url == ""
    {
      this.apiUrl := apiUrl;
      verseComponentVisible := true;
      url := "";
    }

    /** `updateUrl`, the dropdown's `onChange`. */
    method UpdateUrl(category: string)
      modifies this`url
      ensures url == CategoryUrl(apiUrl, category)
    {
      url := CategoryUrl(apiUrl, category);
    }

    /** `toggleVerseComponent`. */
    method ToggleVerseComponent()
      modifies this`verseComponentVisible
      ensures verseComponentVisible == !old(verseComponentVisible)
    {
      verseComponentVisible := !verseComponentVisible;
    }

    /** The dropdown's `onFocus`. */
    method OnFocus()
      modifies this`verseComponentVisible
      ensures verseComponentVisible == !old(verseComponentVisible)
    {
      ToggleVerseComponent();
    }

    /** The dropdown's `onBlur`. */
    method OnBlur()
      modifies this`verseComponentVisible
      ensures verseComponentVisible == !old(verseComponentVisible)
    {
      ToggleVerseComponent();
    }

    /** The chevron is drawn only while the feed is visible. */
    predicate ChevronShown()
      reads this
    {
      verseComponentVisible
    }

    /** The feed, with its props, while visible: the current URL, no data
        and `active` 0. */
    function Feed(): (r: Option<FeedProps>)
      reads this
      ensures r.Some? <==> verseComponentVisible
      ensures r.Some? ==> r.value == FeedProps([], 0, Some(url))
    {
      if verseComponentVisible then Some(FeedProps([], 0, Some(url))) else None
    }
  }

  /** Opening and closing the dropdown without picking anything leaves the
      feed as it was. */
  method FocusThenBlur(c: Content)
    modifies c
    ensures c.verseComponentVisible == old(c.verseComponentVisible) && c.url == old(c.url)
    ensures c.Feed() == old(c.Feed())
  {
    c.OnFocus();
    c.OnBlur();
  }

  /** Picking a category while the dropdown is open: the dropdown's blur
      shows the feed again, and the feed then asks for page 1 of that
      category. */
  method PickCategory(c: Content, category: string) returns (feed: Feed, request: Option<PageRequest>)
    requires c.verseComponentVisible
    modifies c
    ensures c.verseComponentVisible && c.url == CategoryUrl(c.apiUrl, category)
    ensures request == Some(PageRequest(c.apiUrl + "/verses/search?category=" + category + "&page=1", 1, false))
    ensures feed.loading && feed.verses == []
  {
    c.OnFocus();
    c.UpdateUrl(category);
    c.OnBlur();
    var props := c.Feed().value;
    feed := new Feed(props.data, props.active, props.url.value);
    request := feed.OnUrl(props.url.value);
    CategoryPageUrl(c.apiUrl, category);
  }
}

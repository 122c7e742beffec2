/** The verse feed (app/VerseModule/VerseModule.tsx): a paged list of verses
    behind a carousel, with a page cursor, an in-flight guard, prefetch near
    the end of the list and optimistic like toggling with rollback.

    Every `async` handler is split at its first `await`: the method named
    after the handler runs up to the request and returns it, and a
    `...Settled` method runs the code after the request with its outcome. */
module VerseModule {
  import opened Js

  datatype Verse = Verse(id: int, book: string, chapter: int, verse: int, text: string, liked: Option<bool>)

  datatype Pagination = Pagination(page: int, pages: int, next: Option<int>, prev: Option<int>,
                                   count: int, items: int, last: int)

  /** `response.data` of a page request; either key may be missing. */
  datatype PageBody = PageBody(verses: Option<seq<Verse>>, pagination: Option<Pagination>)

  /** A page request in flight: the URL requested and the arguments the code
      after the `await` still uses. */
  datatype PageRequest = PageRequest(url: string, page: int, append: bool)

  /** A like request in flight: the endpoint path and what the rollback
      needs, the index and the value `liked` had before the flip. */
  datatype LikeRequest = LikeRequest(path: string, index: int, previous: Option<bool>)

  /** The props a screen passes to the feed; `url` is None when omitted. */
  datatype FeedProps = FeedProps(data: seq<Verse>, active: int, url: Option<string>)

  predicate LikedTruthy(liked: Option<bool>) {
    liked == Some(true)
  }

  /** `pagination.next` is truthy: present and not 0. */
  predicate NextTruthy(p: Pagination) {
    p.next.Some? && p.next.value != 0
  }

  // ---------------------------------------------------------------------
  // The page URL

  /** `&` when the URL already has a query string, else `?`. */
  function Separator(fetchUrl: string): char {
    if '?' in fetchUrl then '&' else '?'
  }

  /** `${fetchUrl}${separator}page=${page}`. */
  function PageUrl(fetchUrl: string, page: int): string {
    fetchUrl + [Separator(fetchUrl)] + "page=" + IntToString(page)
  }

  /** Length of the run of digits at the end of `s`. */
  function TrailingDigits(s: string): (k: nat)
    ensures k <= |s| && AllDigits(s[|s| - k..])
    ensures k < |s| ==> !IsDigit(s[|s| - 1 - k])
  {
    if |s| == 0 || !IsDigit(s[|s| - 1]) then 0
    else
      var j := TrailingDigits(s[..|s| - 1]);
      DigitsExtend(s, j);
      1 + j
  }

  /** One more digit at the end extends a run of digits ending just before it. */
  lemma DigitsExtend(s: string, j: nat)
    requires j < |s| && IsDigit(s[|s| - 1])
    requires AllDigits(s[..|s| - 1][|s| - 1 - j..])
    ensures AllDigits(s[|s| - 1 - j..])
  {
    var t := s[..|s| - 1];
    var u := s[|s| - 1 - j..];
    forall m | 0 <= m < |u| ensures IsDigit(u[m]) {
      if m < j {
        assert u[m] == t[|t| - j..][m];
      }
    }
  }

  /** Recovers the base URL and the page number from a URL built by PageUrl:
      the inverse of PageUrl. */
  function SplitPageUrl(r: string): Option<(string, int)> {
    var d := TrailingDigits(r);
    var head := r[..|r| - d];
    var sign := if |head| > 0 && head[|head| - 1] == '-' then 1 else 0;
    var rest := head[..|head| - sign];
    if d == 0 || |rest| < 6 || rest[|rest| - 5..] != "page=" then None
    else
      var base := rest[..|rest| - 6];
      if rest[|rest| - 6] != Separator(base) then None
      else match ParseInt(r[|rest|..])
        case Some(p) => Some((base, p))
        case None => None
  }

  lemma TrailingDigitsOfAppend(a: string, b: string)
    requires AllDigits(b)
    requires |a| > 0 && !IsDigit(a[|a| - 1])
    ensures TrailingDigits(a + b) == |b|
    decreases |b|
  {
    if b == [] {
      assert a + b == a;
    } else {
      var b' := b[..|b| - 1];
      assert (a + b)[..|a + b| - 1] == a + b';
      TrailingDigitsOfAppend(a, b');
    }
  }

  /** The requested URL determines the base URL and the page: SplitPageUrl
      undoes PageUrl for every base URL and page. */
  lemma PageUrlRoundTrip(fetchUrl: string, page: int)
    ensures SplitPageUrl(PageUrl(fetchUrl, page)) == Some((fetchUrl, page))
  {
    var num := IntToString(page);
    var digits := if page < 0 then NatToString(-page) else NatToString(page);
    var head := fetchUrl + [Separator(fetchUrl)] + "page=" + (if page < 0 then "-" else "");
    var r := PageUrl(fetchUrl, page);
    assert r == head + digits;
    TrailingDigitsOfAppend(head, digits);
    assert r[..|r| - |digits|] == head;
    var rest := fetchUrl + [Separator(fetchUrl)] + "page=";
    assert head[..|head| - (if page < 0 then 1 else 0)] == rest;
    assert rest[|rest| - 5..] == "page=";
    assert rest[..|rest| - 6] == fetchUrl;
    assert r[|rest|..] == num;
    IntToStringRoundTrip(page);
  }

  /** Two requests with the same URL asked for the same feed and page. */
  lemma PageUrlInjective(u1: string, p1: int, u2: string, p2: int)
    requires PageUrl(u1, p1) == PageUrl(u2, p2)
    ensures u1 == u2 && p1 == p2
  {
    PageUrlRoundTrip(u1, p1);
    PageUrlRoundTrip(u2, p2);
  }

  // ---------------------------------------------------------------------
  // Index and prefetch rules

  /** `len > 0 ? Math.max(0, Math.min(active, len - 1)) : 0`: the in-range
      index nearest to `active`. */
  function ClampIndex(active: int, len: int): (r: int)
    ensures len <= 0 ==> r == 0
    ensures len > 0 ==> 0 <= r < len
    ensures 0 <= active < len ==> r == active
    ensures len > 0 && active >= len ==> r == len - 1
    ensures active < 0 ==> r == 0
  {
    if len > 0 then (if active < 0 then 0 else if active > len - 1 then len - 1 else active) else 0
  }

  /** The test `onChange` applies before asking for the next page. */
  predicate ShouldPrefetch(count: int, index: int, pagination: Option<Pagination>, loading: bool, currentPage: int) {
    count - (index + 1) <= 2 && pagination.Some? && NextTruthy(pagination.value)
    && !loading && currentPage < pagination.value.pages
  }

  // ---------------------------------------------------------------------
  // Patching one verse

  /** The optimistic update: `liked` negated at index `i` (a missing value
      reads as false), every other verse as it was. */
  function FlipLikedAt(vs: seq<Verse>, i: int): (r: seq<Verse>)
    ensures |r| == |vs|
    ensures forall j | 0 <= j < |vs| && j != i :: r[j] == vs[j]
    ensures 0 <= i < |vs| ==> r[i] == vs[i].(liked := Some(!LikedTruthy(vs[i].liked)))
  {
    seq(|vs|, j requires 0 <= j < |vs| => if j == i then vs[j].(liked := Some(!LikedTruthy(vs[j].liked))) else vs[j])
  }

  /** The rollback: `liked` set to a given value at index `i`, every other
      verse as it was. */
  function SetLikedAt(vs: seq<Verse>, i: int, liked: Option<bool>): (r: seq<Verse>)
    ensures |r| == |vs|
    ensures forall j | 0 <= j < |vs| && j != i :: r[j] == vs[j]
    ensures 0 <= i < |vs| ==> r[i] == vs[i].(liked := liked)
  {
    seq(|vs|, j requires 0 <= j < |vs| => if j == i then vs[j].(liked := liked) else vs[j])
  }

  /** A like that fails restores the list exactly, even when further pages
      were appended while the request was in flight. */
  lemma RollbackRestores(vs: seq<Verse>, i: int, appended: seq<Verse>)
    requires 0 <= i < |vs|
    ensures SetLikedAt(FlipLikedAt(vs, i) + appended, i, vs[i].liked) == vs + appended
  {
    var r := SetLikedAt(FlipLikedAt(vs, i) + appended, i, vs[i].liked);
    forall j | 0 <= j < |vs + appended| ensures r[j] == (vs + appended)[j] {
      if j < |vs| {
        assert (FlipLikedAt(vs, i) + appended)[j] == FlipLikedAt(vs, i)[j];
      } else {
        assert (FlipLikedAt(vs, i) + appended)[j] == appended[j - |vs|];
      }
    }
  }

  /** Liking twice restores a verse whose `liked` was already a boolean. */
  lemma FlipTwice(vs: seq<Verse>, i: int)
    requires 0 <= i < |vs| && vs[i].liked.Some?
    ensures FlipLikedAt(FlipLikedAt(vs, i), i) == vs
  {
    var b := vs[i].liked.value;
    assert FlipLikedAt(vs, i)[i].liked == Some(!b);
    assert FlipLikedAt(FlipLikedAt(vs, i), i)[i] == vs[i].(liked := Some(b));
  }

  /** The endpoint a like is posted to, relative to the API base URL. */
  function TogglePath(id: int): string {
    "/verses/" + IntToString(id) + "/toggle_like"
  }

  /** What a render of the feed shows. */
  datatype FeedView = Throws | Placeholder | Carousel(shown: seq<Verse>)

  /** The feed's render: the placeholder prompt when the URL and the list
      are both empty, the carousel of the list otherwise. The test reads
      `url.length`, so an absent `url` prop makes the render throw a
      TypeError. */
  function RenderFeed(url: Option<string>, verses: seq<Verse>): (v: FeedView)
    ensures v.Throws? <==> url.None?
    ensures v.Placeholder? <==> url == Some("") && verses == []
    ensures v.Carousel? <==> url.Some? && (url.value != "" || verses != [])
    ensures v.Carousel? ==> v.shown == verses
  {
    if url.None? then Throws
    else if |url.value| == 0 && |verses| == 0 then Placeholder
    else Carousel(verses)
  }

  /** The first render of a newly mounted feed, before any effect has run:
      the list is still empty, so the `url` prop alone decides it. */
  function FirstRender(props: FeedProps): (v: FeedView)
    ensures v.Throws? <==> props.url.None?
    ensures v.Placeholder? <==> props.url == Some("")
    ensures v.Carousel? ==> props.url.Some? && props.url.value != "" && v.shown == []
  {
    RenderFeed(props.url, [])
  }

  // ---------------------------------------------------------------------
  // The feed component

  class Feed {
    /** The `data` and `active` props. */
    const data: seq<Verse>
    const active: int
    /** The `url` prop. */
    var url: string

    var verses: seq<Verse>
    var currentPage: int
    var pagination: Option<Pagination>
    var loading: bool
    var currentIndex: int
    /** The suspended `fetchVerses` call, if one is awaiting its response. */
    var inFlight: Option<PageRequest>

    /** `loading` is set exactly while a page request is awaited. */
    ghost predicate Valid()
      reads this
    {
      loading == inFlight.Some?
    }

    /** The visible index lies in the list, or is 0 for an empty list. */
    predicate IndexClamped()
      reads this
    {
      if |verses| == 0 then currentIndex == 0 else 0 <= currentIndex < |verses|
    }

    /** What the feed currently renders; a mounted feed has a URL string,
        so its render never throws. */
    function View(): (v: FeedView)
      reads this
      ensures !v.Throws?
      ensures v.Placeholder? <==> |url| == 0 && |verses| == 0
      ensures v.Carousel? ==> v.shown == verses
    {
      RenderFeed(Some(url), verses)
    }

    /** The initial state, before the URL effect first runs: it renders as
        the first render of its props. */
    constructor (data: seq<Verse>, active: int, url: string)
      ensures this.data == data && this.active == active && this.url == url
      ensures verses == [] && currentPage == 1 && pagination == None
      ensures !loading && currentIndex == 0 && inFlight == None
      ensures Valid() && IndexClamped()
      ensures View() == FirstRender(FeedProps(data, active, Some(url)))
    {
      this.data := data;
      this.active := active;
      this.url := url;
      verses := [];
      currentPage := 1;
      pagination := None;
      loading := false;
      currentIndex := 0;
      inFlight := None;
    }

    /** `fetchVerses` up to its request: nothing happens for an empty URL or
        while a request is in flight; otherwise `loading` is set and the page
        URL is requested. */
    method FetchVerses(fetchUrl: string, page: int, append: bool) returns (req: Option<PageRequest>)
      requires Valid()
      modifies this`loading, this`inFlight
      ensures Valid()
      ensures |fetchUrl| == 0 || old(loading) ==>
                req == None && loading == old(loading) && inFlight == old(inFlight)
      ensures |fetchUrl| > 0 && !old(loading) ==>
                req == Some(PageRequest(PageUrl(fetchUrl, page), page, append)) && loading && inFlight == req
    {
      req := None;
      if |fetchUrl| == 0 {
        return;
      }
      if loading {
        return;
      }
      loading := true;
      req := Some(PageRequest(PageUrl(fetchUrl, page), page, append));
      inFlight := req;
    }

    /** `fetchVerses` after its request. Only a response carrying both
        `verses` and `pagination` changes the list, pagination and page; it
        appends or replaces, and a replace moves the visible index to the
        clamped `active`. `loading` is cleared in every case. */
    method FetchSettled(outcome: Outcome<PageBody>)
      requires Valid() && inFlight.Some?
      modifies this`verses, this`currentIndex, this`pagination, this`currentPage, this`loading, this`inFlight
      ensures Valid() && !loading
      ensures var r := old(inFlight.value);
              if outcome.Success? && outcome.data.verses.Some? && outcome.data.pagination.Some? then
                var page := outcome.data.verses.value;
                pagination == outcome.data.pagination && currentPage == r.page
                && (r.append ==> verses == old(verses) + page && currentIndex == old(currentIndex))
                && (!r.append ==> verses == page && currentIndex == ClampIndex(active, |page|))
              else
                verses == old(verses) && pagination == old(pagination)
                && currentPage == old(currentPage) && currentIndex == old(currentIndex)
      ensures old(IndexClamped()) ==> IndexClamped()
    {
      var r := inFlight.value;
      if outcome.Success? && outcome.data.verses.Some? && outcome.data.pagination.Some? {
        var page := outcome.data.verses.value;
        if r.append {
          verses := verses + page;
        } else {
          verses := page;
          currentIndex := if |page| > 0 then ClampIndex(active, |page|) else 0;
        }
        pagination := outcome.data.pagination;
        currentPage := r.page;
      }
      loading := false;
      inFlight := None;
    }

    /** The effect that runs when `url` changes. A non-empty URL resets the
        feed and asks for page 1 in replace mode (dropped if a request is
        still in flight); an empty URL shows the `data` prop, if any. */
    method OnUrl(newUrl: string) returns (req: Option<PageRequest>)
      requires Valid()
      modifies this`url, this`verses, this`currentPage, this`pagination, this`currentIndex, this`loading, this`inFlight
      ensures Valid() && url == newUrl
      ensures loading == (old(loading) || |newUrl| > 0)
      ensures |newUrl| > 0 ==>
                verses == [] && currentPage == 1 && pagination == None && currentIndex == 0
                && req == (if old(loading) then None else Some(PageRequest(PageUrl(newUrl, 1), 1, false)))
                && inFlight == (if old(loading) then old(inFlight) else req)
      ensures |newUrl| == 0 ==>
                req == None && inFlight == old(inFlight)
                && currentPage == old(currentPage) && pagination == old(pagination)
                && (|data| > 0 ==> verses == data && currentIndex == 0)
                && (|data| == 0 ==> verses == old(verses) && currentIndex == old(currentIndex))
      ensures old(IndexClamped()) ==> IndexClamped()
    {
      url := newUrl;
      req := None;
      if |newUrl| > 0 {
        verses := [];
        currentPage := 1;
        pagination := None;
        currentIndex := 0;
        req := FetchVerses(newUrl, 1, false);
      } else if |data| > 0 {
        verses := data;
        currentIndex := 0;
      }
    }

    /** `onChange`: the carousel settled on `index`. The index is recorded,
        and the next page is fetched in append mode when the user is within
        two verses of the end, a next page exists, nothing is loading and the
        current page is below the page count. */
    method OnChange(index: int) returns (req: Option<PageRequest>)
      requires Valid()
      modifies this`currentIndex, this`loading, this`inFlight
      ensures Valid() && currentIndex == index
      ensures ShouldPrefetch(|verses|, index, pagination, old(loading), currentPage) && |url| > 0 ==>
                var next := pagination.value.next.value;
                req == Some(PageRequest(PageUrl(url, next), next, true)) && loading && inFlight == req
      ensures !(ShouldPrefetch(|verses|, index, pagination, old(loading), currentPage) && |url| > 0) ==>
                req == None && loading == old(loading) && inFlight == old(inFlight)
      ensures 0 <= index < |verses| ==> IndexClamped()
    {
      currentIndex := index;
      req := None;
      var itemsLeft := |verses| - (index + 1);
      if itemsLeft <= 2 && pagination.Some? && NextTruthy(pagination.value) {
        if !loading && currentPage < pagination.value.pages {
          req := FetchVerses(url, pagination.value.next.value, true);
        }
      }
    }

    /** `toggleLike` up to its request: for an index holding a verse with a
        truthy id, `liked` is flipped at that index only and the like is
        posted; otherwise nothing happens. */
    method ToggleLike(index: int) returns (pending: Option<LikeRequest>)
      modifies this`verses
      ensures 0 <= index < |old(verses)| && old(verses)[index].id != 0 ==>
                pending == Some(LikeRequest(TogglePath(old(verses)[index].id), index, old(verses)[index].liked))
                && verses == FlipLikedAt(old(verses), index)
      ensures !(0 <= index < |old(verses)| && old(verses)[index].id != 0) ==>
                pending == None && verses == old(verses)
    {
      pending := None;
      if !(0 <= index < |verses|) || verses[index].id == 0 {
        return;
      }
      var verse := verses[index];
      var previousLikedState := verse.liked;
      verses := FlipLikedAt(verses, index);
      pending := Some(LikeRequest(TogglePath(verse.id), index, previousLikedState));
    }

    /** `toggleLike` after its request: a failure writes the captured
        previous value back at the same index. */
    method ToggleLikeSettled(req: LikeRequest, ok: bool)
      modifies this`verses
      ensures verses == if ok then old(verses) else SetLikedAt(old(verses), req.index, req.previous)
    {
      if !ok {
        verses := SetLikedAt(verses, req.index, req.previous);
      }
    }
  }

  /** A like whose request fails leaves the feed as it was, whatever pages
      were appended in between. */
  method LikeThenFail(f: Feed, index: int, next: Outcome<PageBody>)
    requires f.Valid() && f.inFlight.Some? && f.inFlight.value.append
    modifies f
    ensures next.Success? && next.data.verses.Some? && next.data.pagination.Some? ==>
              f.verses == old(f.verses) + next.data.verses.value
    ensures !(next.Success? && next.data.verses.Some? && next.data.pagination.Some?) ==>
              f.verses == old(f.verses)
  {
    ghost var before := f.verses;
    var pending := f.ToggleLike(index);
    f.FetchSettled(next);
    if pending.Some? {
      ghost var added := if next.Success? && next.data.verses.Some? && next.data.pagination.Some?
                         then next.data.verses.value else [];
      assert f.verses == FlipLikedAt(before, index) + added;
      f.ToggleLikeSettled(pending.value, false);
      RollbackRestores(before, index, added);
    }
  }
}

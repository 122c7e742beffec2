/** One row of a verse list (app/LineItem.tsx): the book's initial, the
    chapter and verse, and the verse text cut short. */
module LineItem {
  import opened Js

  /** Texts longer than this are shortened. */
  const MAX_TEXT := 30
  /** How much of a long text is kept before the '...'. */
  const KEPT_TEXT := 20

  /** `book.charAt(0).toUpperCase()`: the first character, upper-cased, or
      '' for an empty book. */
  function BookInitial(book: string): (r: string)
    ensures book == "" ==> r == ""
    ensures book != "" ==> r == [UpperChar(book[0])]
  {
    if book == "" then "" else [UpperChar(book[0])]
  }

  /** A text over 30 characters becomes its first 20 plus '...', so what is
      shown never exceeds 30 characters; a shorter text is shown unchanged. */
  function TruncatedText(text: string): (r: string)
    ensures |r| <= MAX_TEXT
    ensures |text| <= MAX_TEXT ==> r == text
    ensures |text| > MAX_TEXT ==> |r| == KEPT_TEXT + 3 && r[..KEPT_TEXT] == text[..KEPT_TEXT] && r[KEPT_TEXT..] == "..."
  {
    if |text| > MAX_TEXT then text[..KEPT_TEXT] + "..." else text
  }

  /** `${bookInitial}. ${chapter}:${verse}  `, two trailing spaces
      included. */
  function Label(book: string, chapter: int, verse: int): string {
    BookInitial(book) + ". " + IntToString(chapter) + ":" + IntToString(verse) + "  "
  }

  /** For one book the label tells chapters and verses apart: two rows of
      the same book with the same label show the same chapter and verse. */
  lemma LabelDeterminesVerse(book: string, c1: int, v1: int, c2: int, v2: int)
    requires Label(book, c1, v1) == Label(book, c2, v2)
    ensures c1 == c2 && v1 == v2
  {
    var p := BookInitial(book) + ". ";
    var t1, t2 := IntToString(c1), IntToString(v1);
    var t3, t4 := IntToString(c2), IntToString(v2);
    assert Label(book, c1, v1) == p + (t1 + ":" + t2) + "  ";
    assert Label(book, c2, v2) == p + (t3 + ":" + t4) + "  ";
    StripAffixes(p, t1 + ":" + t2, t3 + ":" + t4, "  ");
    NoColon(c1);
    NoColon(c2);
    SplitAtColon(t1, t2, t3, t4);
    IntToStringRoundTrip(c1);
    IntToStringRoundTrip(c2);
    IntToStringRoundTrip(v1);
    IntToStringRoundTrip(v2);
  }

  lemma StripAffixes(p: string, m1: string, m2: string, q: string)
    requires p + m1 + q == p + m2 + q
    ensures m1 == m2
  {
    var s := p + m1 + q;
    assert |m1| == |m2|;
    assert m1 == s[|p|..|p| + |m1|];
    assert m2 == (p + m2 + q)[|p|..|p| + |m2|];
  }

  /** A rendered integer contains no ':'. */
  lemma NoColon(n: int)
    ensures ':' !in IntToString(n)
  {
    IntToStringShape(n);
    if n < 0 {
      assert IntToString(n) == [IntToString(n)[0]] + IntToString(n)[1..];
    }
  }

  /** A string with one ':' after a colon-free part splits uniquely. */
  lemma SplitAtColon(a1: string, b1: string, a2: string, b2: string)
    requires ':' !in a1 && ':' !in a2
    requires a1 + ":" + b1 == a2 + ":" + b2
    ensures a1 == a2 && b1 == b2
  {
    var s := a1 + ":" + b1;
    FirstColon(a1, b1);
    FirstColon(a2, b2);
    assert |a1| == |a2|;
    assert a1 == s[..|a1|] && a2 == s[..|a2|];
    assert b1 == s[|a1| + 1..] && b2 == s[|a2| + 1..];
  }

  lemma FirstColon(a: string, b: string)
    requires ':' !in a
    ensures IndexOf(a + ":" + b, ':') == |a|
  {
    var s := a + ":" + b;
    assert s[|a|] == ':';
    forall m | 0 <= m < |a| ensures s[m] != ':' {
      assert s[m] == a[m];
    }
  }
}

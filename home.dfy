/**
 * The home screen of components/Home.tsx: the parser that splits the daily
 * quote returned by the text model into text and author, the filter that
 * keeps the usable grounding sources, the once-a-day cache of the daily
 * quote, and the featured quotes and wallpapers looked up in the catalog.
 * The model call, `localStorage` and `new Date()` are not modelled: their
 * results are parameters (the response or an error, the stored entry, and
 * today's date as a string).
 */
module Home {
  import opened Types
  import opened JsString
  import opened JsArray
  import Catalog
  import QuoteCard

  /** `{ text, author }` as `parseQuote` returns it. */
  datatype ParsedQuote = ParsedQuote(text: string, author: string)

  const SEPARATOR: string := " - "
  const UNKNOWN_AUTHOR: string := "Unknown"

  /**
   * Where `parseQuote` splits: the last " - ", provided it lies past the
   * middle of the string (Home.tsx:15-16). Both the index and the length
   * are counted in UTF-16 code units there, so the test is made on
   * `Utf16Length`; `i > len / 2` over the reals is `2 * i > len` over the
   * integers.
   */
  function SplitIndex(s: string): (r: Option<nat>)
    ensures r.Some? ==> OccursAt(s, SEPARATOR, r.value)
    ensures r.Some? ==> 2 * Utf16Length(s[..r.value]) > Utf16Length(s)
    ensures r.Some? ==> forall j :: OccursAt(s, SEPARATOR, j) ==> j <= r.value
    ensures r.None? ==> forall j :: OccursAt(s, SEPARATOR, j) ==> 2 * Utf16Length(s[..j]) <= Utf16Length(s)
  {
    var i := LastIndexOf(s, SEPARATOR);
    if i > -1 && 2 * Utf16Length(s[..i]) > Utf16Length(s) then Some(i)
    else
      NoSplitPastMiddle(s, i);
      None
  }

  /** When the last separator is not past the middle, no separator is. */
  lemma NoSplitPastMiddle(s: string, i: int)
    requires i == LastIndexOf(s, SEPARATOR)
    requires !(i > -1 && 2 * Utf16Length(s[..i]) > Utf16Length(s))
    ensures forall j :: OccursAt(s, SEPARATOR, j) ==> 2 * Utf16Length(s[..j]) <= Utf16Length(s)
  {
    forall j | OccursAt(s, SEPARATOR, j)
      ensures 2 * Utf16Length(s[..j]) <= Utf16Length(s)
    {
      Utf16PrefixMonotone(s, j, i);
    }
  }

  /**
   * The result of `parseQuote` for a given split point: with one, the text
   * before it without double quotes and the rest after it, both trimmed
   * (Home.tsx:17-19); without one, the whole string without double quotes
   * and the author "Unknown" (Home.tsx:21).
   */
  function SplitAt(s: string, split: Option<nat>): (r: ParsedQuote)
    requires split.Some? ==> split.value + 3 <= |s|
    ensures '"' !in r.text && IsTrimmed(r.text) && IsTrimmed(r.author)
    ensures split.None? ==> r.author == UNKNOWN_AUTHOR
  {
    match split
    case Some(i) => ParsedQuote(Trim(RemoveAll(s[..i], '"')), Trim(s[i + 3..]))
    case None => ParsedQuote(Trim(RemoveAll(s, '"')), UNKNOWN_AUTHOR)
  }

  /** `parseQuote` (Home.tsx:14-22). */
  function ParseQuote(s: string): (r: ParsedQuote)
    ensures '"' !in r.text && IsTrimmed(r.text) && IsTrimmed(r.author)
    ensures SplitIndex(s).None? ==> r.author == UNKNOWN_AUTHOR
  {
    SplitAt(s, SplitIndex(s))
  }

  /**
   * The returned text never contains a double quote; when the separator was
   * accepted, the author never contains " - ", because the separator taken
   * is the last one.
   */
  lemma ParseQuoteClean(s: string)
    ensures '"' !in ParseQuote(s).text
    ensures SplitIndex(s).Some? ==> !Includes(ParseQuote(s).author, SEPARATOR)
  {
    match SplitIndex(s)
    case Some(i) => NothingAfterLast(s, i);
    case None =>
  }

  /** Splitting at the last " - " leaves an author without " - ". */
  lemma NothingAfterLast(s: string, i: nat)
    requires i + 3 <= |s|
    requires forall j :: OccursAt(s, SEPARATOR, j) ==> j <= i
    ensures !Includes(SplitAt(s, Some(i)).author, SEPARATOR)
  {
    var tail := s[i + 3..];
    forall j | 0 <= j ensures !OccursAt(tail, SEPARATOR, j) {
      if OccursAt(tail, SEPARATOR, j) {
        assert s[i + 3 + j..i + 3 + j + 3] == tail[j..j + 3];
        assert OccursAt(s, SEPARATOR, i + 3 + j);
      }
    }
    TrimKeepsExcluded(tail, SEPARATOR);
  }

  /** Removing a character distributes over concatenation. */
  lemma {:induction false} RemoveAllConcat(a: string, b: string, c: char)
    ensures RemoveAll(a + b, c) == RemoveAll(a, c) + RemoveAll(b, c)
  {
    if a == [] {
      assert a + b == b;
    } else {
      assert (a + b)[0] == a[0] && (a + b)[1..] == a[1..] + b;
      RemoveAllConcat(a[1..], b, c);
    }
  }

  /** The string the daily-quote prompt asks for (Home.tsx:63): `"<text>" - <author>`. */
  function Formatted(text: string, author: string): (s: string)
    ensures |s| == |text| + |author| + 5
  {
    "\"" + text + "\" - " + author
  }

  /**
   * What an author must avoid for the separator written by `Formatted` to
   * be the last one: containing " - " itself, or starting with "- ", which
   * would make " - " out of the space before it. A dash elsewhere, as in
   * "Saint-Exupéry", is harmless.
   */
  predicate NoSeparatorIn(author: string) {
    !Includes(author, SEPARATOR) && !(|author| >= 2 && author[..2] == "- ")
  }

  /**
   * Parsing undoes formatting: for a trimmed text without double quotes, a
   * trimmed author that cannot form a later separator, and a text long
   * enough, in code units, that the separator lies past the middle,
   * `parseQuote` recovers both.
   */
  lemma ParseFormatted(text: string, author: string)
    requires IsTrimmed(text) && '"' !in text
    requires IsTrimmed(author) && NoSeparatorIn(author)
    requires Utf16Length(text) > Utf16Length(author) + 1
    ensures ParseQuote(Formatted(text, author)) == ParsedQuote(text, author)
  {
    FormattedSplitsAtSeparator(text, author);
    SplitFormatted(text, author);
  }

  /**
   * The separator written by `Formatted` is the one `parseQuote` splits at
   * exactly when the text is longer than the author by more than one code
   * unit.
   */
  lemma FormattedSplitsAtSeparator(text: string, author: string)
    requires '"' !in text && NoSeparatorIn(author)
    ensures SplitIndex(Formatted(text, author)) == Some(|text| + 2)
        <==> Utf16Length(text) > Utf16Length(author) + 1
  {
    FormattedLastSeparator(text, author);
    FormattedCodeUnits(text, author);
  }

  /** The separator written by `Formatted` is the last " - " in it. */
  lemma FormattedLastSeparator(text: string, author: string)
    requires '"' !in text && NoSeparatorIn(author)
    ensures LastIndexOf(Formatted(text, author), SEPARATOR) == |text| + 2
  {
    var s := Formatted(text, author);
    var k := |text| + 2;
    assert s[k..k + 3] == SEPARATOR;
    assert OccursAt(s, SEPARATOR, k);
    assert s[k + 3..] == author;
    forall j | k < j && j + 3 <= |s| ensures !OccursAt(s, SEPARATOR, j) {
      if j == k + 1 {
        assert s[j..j + 3][0] == '-';
      } else if j == k + 2 {
        assert s[j..j + 3][1..] == author[..2];
      } else {
        assert s[j..j + 3] == author[j - k - 3..j - k];
        assert !OccursAt(author, SEPARATOR, j - k - 3);
      }
    }
  }

  /** The code-unit lengths of a formatted quote and of its part before the separator. */
  lemma FormattedCodeUnits(text: string, author: string)
    ensures Utf16Length(Formatted(text, author)[..|text| + 2]) == Utf16Length(text) + 2
    ensures Utf16Length(Formatted(text, author)) == Utf16Length(text) + Utf16Length(author) + 5
  {
    var s := Formatted(text, author);
    var q: string := ['"'];
    var mid: string := ['"', ' ', '-', ' '];
    assert s[..|text| + 2] == q + text + q;
    assert s == q + text + mid + author;
    Utf16LengthConcat(q, text);
    Utf16LengthConcat(q + text, q);
    Utf16LengthConcat(q + text, mid);
    Utf16LengthConcat(q + text + mid, author);
    assert Utf16Length(mid) == 4 by {
      assert mid[1..] == [' ', '-', ' '] && mid[1..][1..] == ['-', ' '];
      assert mid[1..][1..][1..] == [' '];
    }
  }

  /**
   * Three characters above U+FFFF count six code units: `"😀😀😀" - Al` is
   * 13 code units long with its separator at code unit 8, past the middle,
   * although it is at character 5 of 10.
   */
  lemma AstralTextSplits()
    ensures ParseQuote(Formatted("\U{1F600}\U{1F600}\U{1F600}", "Al"))
         == ParsedQuote("\U{1F600}\U{1F600}\U{1F600}", "Al")
  {
    var text := "\U{1F600}\U{1F600}\U{1F600}";
    assert Utf16Length(text) == 6 by {
      assert text[1..][1..][1..] == [];
    }
    assert !Includes("Al", SEPARATOR);
    ParseFormatted(text, "Al");
  }

  /** Splitting a formatted quote at its separator gives back text and author. */
  lemma SplitFormatted(text: string, author: string)
    requires IsTrimmed(text) && '"' !in text
    requires IsTrimmed(author)
    ensures SplitAt(Formatted(text, author), Some(|text| + 2)) == ParsedQuote(text, author)
  {
    var s := Formatted(text, author);
    var k := |text| + 2;
    assert s[..k] == ['"'] + text + ['"'];
    RemoveAllConcat(['"'] + text, ['"'], '"');
    RemoveAllConcat(['"'], text, '"');
    RemoveAbsent(text, '"');
    assert RemoveAll(s[..k], '"') == text;
    TrimTrimmed(text);
    assert s[k + 3..] == author;
    TrimTrimmed(author);
  }

  /** The copy/share text of a quote card has the same format, so it parses back the same way. */
  lemma ParseShareText(q: Quote)
    requires IsTrimmed(q.text) && '"' !in q.text
    requires IsTrimmed(q.author) && NoSeparatorIn(q.author)
    requires Utf16Length(q.text) > Utf16Length(q.author) + 1
    ensures ParseQuote(QuoteCard.ShareText(q)) == ParsedQuote(q.text, q.author)
  {
    assert QuoteCard.ShareText(q) == Formatted(q.text, q.author);
    ParseFormatted(q.text, q.author);
  }

  /** A grounding chunk's `web` part; its fields may be missing. */
  datatype WebRef = WebRef(uri: Option<string>, title: Option<string>)
  datatype GroundingChunk = GroundingChunk(web: Option<WebRef>)

  /** `GroundingSource`: a link shown under the daily quote. */
  datatype GroundingSource = GroundingSource(uri: string, title: string)

  /** A chunk the source list keeps: it has `web` with a truthy `uri` and `title` (Home.tsx:73-74). */
  predicate Usable(c: GroundingChunk) {
    c.web.Some? && c.web.value.uri.Some? && c.web.value.uri.value != ""
    && c.web.value.title.Some? && c.web.value.title.value != ""
  }

  /** The sources of the usable chunks, in order (Home.tsx:72-74). */
  function SourcesOf(chunks: seq<GroundingChunk>): (r: seq<GroundingSource>)
    ensures |r| <= |chunks|
    ensures forall g :: g in r ==> g.uri != "" && g.title != ""
    ensures forall g :: g in r <==>
              GroundingChunk(Some(WebRef(Some(g.uri), Some(g.title)))) in chunks && g.uri != "" && g.title != ""
  {
    if chunks == [] then []
    else
      var rest := SourcesOf(chunks[1..]);
      assert chunks == [chunks[0]] + chunks[1..];
      if Usable(chunks[0]) then
        [GroundingSource(chunks[0].web.value.uri.value, chunks[0].web.value.title.value)] + rest
      else rest
  }

  /** Sources keep the chunks' order: the sources of two runs of chunks are the sources of each, in turn. */
  lemma {:induction false} SourcesConcat(a: seq<GroundingChunk>, b: seq<GroundingChunk>)
    ensures SourcesOf(a + b) == SourcesOf(a) + SourcesOf(b)
  {
    if a == [] {
      assert a + b == b;
    } else {
      assert (a + b)[0] == a[0] && (a + b)[1..] == a[1..] + b;
      SourcesConcat(a[1..], b);
    }
  }

  /** `response.candidates?.[0]?.groundingMetadata?.groundingChunks ... || []`: missing chunks give no sources. */
  function Sources(chunks: Option<seq<GroundingChunk>>): (r: seq<GroundingSource>)
    ensures chunks.None? ==> r == []
    ensures chunks.Some? ==> r == SourcesOf(chunks.value)
  {
    if chunks.None? then [] else SourcesOf(chunks.value)
  }

  /** `DailyQuote`: the parsed quote and its sources. */
  datatype DailyQuote = DailyQuote(text: string, author: string, sources: seq<GroundingSource>)

  /** The text model's answer: its text and its grounding chunks, if any. */
  datatype TextResponse = TextResponse(text: string, chunks: Option<seq<GroundingChunk>>)

  /**
   * The 'dailyQuote' entry of `localStorage` as `fetchDailyQuote` reads it:
   * absent or empty, present but not parseable into `{ date, quote }`, or a
   * stored quote with the date it was fetched.
   */
  datatype StoredEntry = Missing | Unreadable | Stored(date: string, quote: DailyQuote)

  const FETCH_ERROR: string := "Could not fetch today's inspiration. Please try again later."

  /** The cached quote, used iff it was stored on `today` (Home.tsx:42-49). */
  function CachedQuote(entry: StoredEntry, today: string): (r: Option<DailyQuote>)
    ensures r.Some? <==> entry.Stored? && entry.date == today
    ensures r.Some? ==> r.value == entry.quote
  {
    if entry.Stored? && entry.date == today then Some(entry.quote) else None
  }

  /** What a successful fetch shows and stores (Home.tsx:69-78). */
  function QuoteFrom(response: TextResponse): (q: DailyQuote)
    ensures '"' !in q.text
    ensures forall g :: g in q.sources ==> g.uri != "" && g.title != ""
  {
    var p := ParseQuote(response.text);
    DailyQuote(p.text, p.author, Sources(response.chunks))
  }

  /** A quote written today is found again today, and on no other day. */
  lemma CacheRoundTrip(q: DailyQuote, today: string, day: string)
    ensures CachedQuote(Stored(today, q), day) == if day == today then Some(q) else None
  {
  }

  /** The daily-quote panel's state and the stored entry it reads and writes. */
  class DailyQuotePanel {
    var dailyQuote: Option<DailyQuote>
    var isFetchingQuote: bool
    var quoteError: Option<string>
    var storage: StoredEntry

    /** The panel on mount (Home.tsx:25-27), over whatever is stored. */
    constructor (storage: StoredEntry)
      ensures dailyQuote.None? && isFetchingQuote && quoteError.None? && this.storage == storage
    {
      dailyQuote := None;
      isFetchingQuote := true;
      quoteError := None;
      this.storage := storage;
    }

    /**
     * The part of `fetchDailyQuote` before the request (Home.tsx:36-54):
     * a quote stored today is shown and no request is made; otherwise a
     * request is needed, and an unreadable entry is removed first.
     */
    method BeginFetch(today: string) returns (needsRequest: bool)
      modifies this
      ensures needsRequest <==> CachedQuote(old(storage), today).None?
      ensures quoteError.None?
      ensures !needsRequest ==> dailyQuote == CachedQuote(old(storage), today) && !isFetchingQuote
                                && storage == old(storage)
      ensures needsRequest ==> dailyQuote == old(dailyQuote) && isFetchingQuote
                               && storage == if old(storage).Unreadable? then Missing else old(storage)
    {
      isFetchingQuote := true;
      quoteError := None;
      var cached := CachedQuote(storage, today);
      if cached.Some? {
        dailyQuote := cached;
        isFetchingQuote := false;
        return false;
      }
      if storage.Unreadable? {
        storage := Missing;
      }
      needsRequest := true;
    }

    /**
     * The part after the request (Home.tsx:69-84): on success the parsed
     * quote is shown and stored with today's date; on failure the error is
     * shown and nothing is stored. Loading ends either way.
     */
    method CompleteFetch(today: string, response: Result<TextResponse>)
      modifies this
      ensures !isFetchingQuote
      ensures response.Success? ==>
                && dailyQuote == Some(QuoteFrom(response.value))
                && storage == Stored(today, QuoteFrom(response.value))
                && quoteError == old(quoteError)
      ensures response.Failure? ==>
                dailyQuote == old(dailyQuote) && storage == old(storage) && quoteError == Some(FETCH_ERROR)
    {
      match response {
        case Success(r) =>
          var q := QuoteFrom(r);
          dailyQuote := Some(q);
          storage := Stored(today, q);
        case Failure(_) =>
          quoteError := Some(FETCH_ERROR);
      }
      isFetchingQuote := false;
    }
  }

  /** The lookup `find(x => x.id === id)` used for the featured content. */
  function HasId(id: string): Quote -> bool {
    (q: Quote) => q.id == id
  }

  function WallpaperHasId(id: string): Wallpaper -> bool {
    (w: Wallpaper) => w.id == id
  }

  /** `quotes.find(q => q.id === id)`. */
  function LookupQuote(quotes: seq<Quote>, id: string): (r: Option<Quote>)
    ensures r.Some? ==> r.value in quotes && r.value.id == id
    ensures r.Some? <== exists q :: q in quotes && q.id == id
  {
    var r := Find(quotes, HasId(id));
    assert forall q :: HasId(id)(q) <==> q.id == id;
    r
  }

  /** `wallpapers.find(w => w.id === id)`. */
  function LookupWallpaper(wallpapers: seq<Wallpaper>, id: string): (r: Option<Wallpaper>)
    ensures r.Some? ==> r.value in wallpapers && r.value.id == id
    ensures r.Some? <== exists w :: w in wallpapers && w.id == id
  {
    var r := Find(wallpapers, WallpaperHasId(id));
    assert forall w :: WallpaperHasId(id)(w) <==> w.id == id;
    r
  }

  /** Looking up the id of a quote of the list finds a quote. */
  lemma QuoteFound(quotes: seq<Quote>, q: Quote, id: string)
    requires q in quotes && q.id == id
    ensures LookupQuote(quotes, id).Some?
  {
  }

  /** Looking up the id of a wallpaper of the list finds a wallpaper. */
  lemma WallpaperFound(wallpapers: seq<Wallpaper>, w: Wallpaper, id: string)
    requires w in wallpapers && w.id == id
    ensures LookupWallpaper(wallpapers, id).Some?
  {
  }

  /** The ids of `featuredQuotes` and `featuredWallpapers`, in display order (Home.tsx:31-32). */
  const FEATURED_QUOTE_IDS: seq<string> := ["q40", "q33", "q44"]
  const FEATURED_WALLPAPER_IDS: seq<string> := ["w37", "w28", "w33", "w25"]

  /** Every id names a quote of `quotes`: the non-null assertions of Home.tsx:31 hold. */
  predicate AllQuotesFound(quotes: seq<Quote>, ids: seq<string>) {
    forall i :: 0 <= i < |ids| ==> LookupQuote(quotes, ids[i]).Some?
  }

  /** Every id names a wallpaper of `wallpapers`: the non-null assertions of Home.tsx:32 hold. */
  predicate AllWallpapersFound(wallpapers: seq<Wallpaper>, ids: seq<string>) {
    forall i :: 0 <= i < |ids| ==> LookupWallpaper(wallpapers, ids[i]).Some?
  }

  /** The catalog has every featured quote. */
  lemma CatalogHasFeaturedQuotes()
    ensures AllQuotesFound(Catalog.QUOTES, FEATURED_QUOTE_IDS)
  {
    var ids := FEATURED_QUOTE_IDS;
    forall i | 0 <= i < |ids| ensures LookupQuote(Catalog.QUOTES, ids[i]).Some? {
      if i == 0 {
        QuoteFound(Catalog.QUOTES, Catalog.AMBITION_QUOTES[2], ids[i]);
      } else if i == 1 {
        QuoteFound(Catalog.QUOTES, Catalog.MINDFULNESS_QUOTES[0], ids[i]);
      } else {
        QuoteFound(Catalog.QUOTES, Catalog.WANDERLUST_QUOTES[1], ids[i]);
      }
    }
  }

  /** The catalog has every featured wallpaper. */
  lemma CatalogHasFeaturedWallpapers()
    ensures AllWallpapersFound(Catalog.WALLPAPERS, FEATURED_WALLPAPER_IDS)
  {
    var ids := FEATURED_WALLPAPER_IDS;
    forall i | 0 <= i < |ids| ensures LookupWallpaper(Catalog.WALLPAPERS, ids[i]).Some? {
      if i == 0 {
        WallpaperFound(Catalog.WALLPAPERS, Catalog.WANDERLUST_WALLPAPERS[0], ids[i]);
      } else if i == 1 {
        WallpaperFound(Catalog.WALLPAPERS, Catalog.MINDFULNESS_WALLPAPERS[1], ids[i]);
      } else if i == 2 {
        WallpaperFound(Catalog.WALLPAPERS, Catalog.AMBITION_WALLPAPERS[1], ids[i]);
      } else {
        WallpaperFound(Catalog.WALLPAPERS, Catalog.INSPIRATION_WALLPAPERS[3], ids[i]);
      }
    }
  }

  /** `featuredQuotes` (Home.tsx:31): the quote of each id, in the order of the ids. */
  function FeaturedQuotes(quotes: seq<Quote>, ids: seq<string>): (r: seq<Quote>)
    requires AllQuotesFound(quotes, ids)
    ensures |r| == |ids|
    ensures forall i :: 0 <= i < |ids| ==> r[i].id == ids[i] && r[i] in quotes
  {
    seq(|ids|, i requires 0 <= i < |ids| => LookupQuote(quotes, ids[i]).value)
  }

  /** `featuredWallpapers` (Home.tsx:32): the wallpaper of each id, in the order of the ids. */
  function FeaturedWallpapers(wallpapers: seq<Wallpaper>, ids: seq<string>): (r: seq<Wallpaper>)
    requires AllWallpapersFound(wallpapers, ids)
    ensures |r| == |ids|
    ensures forall i :: 0 <= i < |ids| ==> r[i].id == ids[i] && r[i] in wallpapers
  {
    seq(|ids|, i requires 0 <= i < |ids| => LookupWallpaper(wallpapers, ids[i]).value)
  }
}

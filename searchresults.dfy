/**
 * The search-results screen of components/SearchResults.tsx: an if-chain
 * over the loading flag, the error and the results decides between the
 * loading skeleton, the error text, the "no recommendations" message and the
 * recommendation sections. The generator card offered with the last two
 * hands the search query to the wallpaper generator.
 */
module SearchResultsScreen {
  import opened Types
  import QuoteCard
  import WallpaperCard

  /** `AIGeneratorCard` (SearchResults.tsx:21-33): its button calls `onGenerate` with `prompt`. */
  datatype GeneratorCard = GeneratorCard(prompt: string)

  datatype Screen =
    | LoadingSkeleton
    | ErrorText(message: string)
    | NoRecommendations(query: string, generator: GeneratorCard)
    | Recommendations(query: string, generator: GeneratorCard,
                      quotes: Option<seq<QuoteCard.Props>>, wallpapers: Option<seq<WallpaperCard.Props>>)

  /** JavaScript truthiness of `error: string | null`: null and the empty string are false. */
  predicate Truthy(error: Option<string>) {
    error.Some? && error.value != ""
  }

  /** `!results || (results.quotes.length === 0 && results.wallpapers.length === 0)` (SearchResults.tsx:64). */
  predicate NothingFound(results: Option<SearchResults>) {
    results.None? || (|results.value.quotes| == 0 && |results.value.wallpapers| == 0)
  }

  /** The quote cards of the results, with lock and favorite flags read from the two sets (SearchResults.tsx:85-94). */
  function QuoteCards(qs: seq<Quote>, unlocked: set<string>, favorited: set<string>): (r: seq<QuoteCard.Props>)
    ensures |r| == |qs|
    ensures forall i :: 0 <= i < |qs| ==> r[i] == QuoteCard.Props(qs[i], qs[i].id in unlocked, qs[i].id in favorited)
  {
    seq(|qs|, i requires 0 <= i < |qs| => QuoteCard.Props(qs[i], qs[i].id in unlocked, qs[i].id in favorited))
  }

  /** The wallpaper cards of the results (SearchResults.tsx:103-113). */
  function WallpaperCards(ws: seq<Wallpaper>, unlocked: set<string>, favorited: set<string>): (r: seq<WallpaperCard.Props>)
    ensures |r| == |ws|
    ensures forall i :: 0 <= i < |ws| ==>
              r[i] == WallpaperCard.Props(ws[i], ws[i].id in unlocked, ws[i].id in favorited)
  {
    seq(|ws|, i requires 0 <= i < |ws| => WallpaperCard.Props(ws[i], ws[i].id in unlocked, ws[i].id in favorited))
  }

  /**
   * `SearchResultsComponent` (SearchResults.tsx:55-119): loading wins over
   * everything; then a truthy error is shown alone, without a generator
   * card; then an absent or empty result shows the "no recommendations"
   * message with the generator card; otherwise each non-empty list gets its
   * section.
   */
  function Render(query: string, results: Option<SearchResults>, isLoading: bool, error: Option<string>,
                  unlocked: set<string>, favorited: set<string>): (s: Screen)
    ensures s.LoadingSkeleton? <==> isLoading
    ensures s.ErrorText? <==> !isLoading && Truthy(error)
    ensures s.ErrorText? ==> s.message == error.value
    ensures s.NoRecommendations? <==> !isLoading && !Truthy(error) && NothingFound(results)
    ensures s.Recommendations? <==> !isLoading && !Truthy(error) && !NothingFound(results)
    ensures (s.NoRecommendations? || s.Recommendations?) ==> s.generator == GeneratorCard(query) && s.query == query
    ensures s.Recommendations? ==>
              && (s.quotes.Some? <==> |results.value.quotes| > 0)
              && (s.wallpapers.Some? <==> |results.value.wallpapers| > 0)
              && (s.quotes.Some? ==> s.quotes.value == QuoteCards(results.value.quotes, unlocked, favorited))
              && (s.wallpapers.Some? ==>
                    s.wallpapers.value == WallpaperCards(results.value.wallpapers, unlocked, favorited))
  {
    if isLoading then LoadingSkeleton
    else if Truthy(error) then ErrorText(error.value)
    else if NothingFound(results) then NoRecommendations(query, GeneratorCard(query))
    else
      var r := results.value;
      Recommendations(query, GeneratorCard(query),
                      if |r.quotes| > 0 then Some(QuoteCards(r.quotes, unlocked, favorited)) else None,
                      if |r.wallpapers| > 0 then Some(WallpaperCards(r.wallpapers, unlocked, favorited)) else None)
  }

  /**
   * The four screens partition the inputs, and a recommendations screen
   * always shows at least one section; an error, however results look,
   * never offers the generator.
   */
  lemma ScreensPartition(query: string, results: Option<SearchResults>, isLoading: bool, error: Option<string>,
                         unlocked: set<string>, favorited: set<string>)
    ensures var s := Render(query, results, isLoading, error, unlocked, favorited);
            s.Recommendations? ==> s.quotes.Some? || s.wallpapers.Some?
    ensures !isLoading && Truthy(error) ==>
              forall r :: Render(query, r, isLoading, error, unlocked, favorited) == ErrorText(error.value)
  {
  }
}

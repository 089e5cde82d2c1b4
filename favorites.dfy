/**
 * The favorites screen of components/Favorites.tsx: the favorited quotes and
 * wallpapers are the known ones whose id is in the favorites set, in the
 * order they are listed, and the empty-collection message is shown exactly
 * when both lists are empty.
 */
module Favorites {
  import opened Types
  import opened JsArray
  import QuoteCard
  import WallpaperCard

  /** `favoritedQuotes` (Favorites.tsx:19). */
  function FavoritedQuotes(allQuotes: seq<Quote>, favorited: set<string>): (r: seq<Quote>)
    ensures forall q :: q in r <==> q in allQuotes && q.id in favorited
    ensures |r| <= |allQuotes|
  {
    Filter(allQuotes, (q: Quote) => q.id in favorited)
  }

  /** `favoritedWallpapers` (Favorites.tsx:20). */
  function FavoritedWallpapers(allWallpapers: seq<Wallpaper>, favorited: set<string>): (r: seq<Wallpaper>)
    ensures forall w :: w in r <==> w in allWallpapers && w.id in favorited
    ensures |r| <= |allWallpapers|
  {
    Filter(allWallpapers, (w: Wallpaper) => w.id in favorited)
  }

  /** `hasFavorites` (Favorites.tsx:22). */
  predicate HasFavorites(allQuotes: seq<Quote>, allWallpapers: seq<Wallpaper>, favorited: set<string>): (has: bool)
    ensures has <==> (exists q :: q in allQuotes && q.id in favorited)
                     || (exists w :: w in allWallpapers && w.id in favorited)
  {
    var qs := FavoritedQuotes(allQuotes, favorited);
    var ws := FavoritedWallpapers(allWallpapers, favorited);
    assert |qs| > 0 ==> qs[0] in qs;
    assert |ws| > 0 ==> ws[0] in ws;
    |qs| > 0 || |ws| > 0
  }

  /** The screen: the empty-collection message, or a quotes and a wallpapers section, each shown only when non-empty. */
  datatype Screen =
    | EmptyCollection
    | Collection(quotes: Option<seq<QuoteCard.Props>>, wallpapers: Option<seq<WallpaperCard.Props>>)

  /** The cards of a section: each marked favorited, unlocked by membership in `unlocked` (Favorites.tsx:42-73). */
  function QuoteCards(qs: seq<Quote>, unlocked: set<string>): (r: seq<QuoteCard.Props>)
    ensures |r| == |qs|
    ensures forall i :: 0 <= i < |qs| ==> r[i] == QuoteCard.Props(qs[i], qs[i].id in unlocked, true)
  {
    seq(|qs|, i requires 0 <= i < |qs| => QuoteCard.Props(qs[i], qs[i].id in unlocked, true))
  }

  function WallpaperCards(ws: seq<Wallpaper>, unlocked: set<string>): (r: seq<WallpaperCard.Props>)
    ensures |r| == |ws|
    ensures forall i :: 0 <= i < |ws| ==> r[i] == WallpaperCard.Props(ws[i], ws[i].id in unlocked, true)
  {
    seq(|ws|, i requires 0 <= i < |ws| => WallpaperCard.Props(ws[i], ws[i].id in unlocked, true))
  }

  /**
   * The rendered screen (Favorites.tsx:24-80): the empty state exactly when
   * nothing is favorited, otherwise a section per non-empty list.
   */
  function Render(allQuotes: seq<Quote>, allWallpapers: seq<Wallpaper>, favorited: set<string>,
                  unlocked: set<string>): (s: Screen)
    ensures s.EmptyCollection? <==> !HasFavorites(allQuotes, allWallpapers, favorited)
    ensures s.Collection? ==> (s.quotes.Some? <==> exists q :: q in allQuotes && q.id in favorited)
    ensures s.Collection? ==> (s.wallpapers.Some? <==> exists w :: w in allWallpapers && w.id in favorited)
    ensures s.Collection? && s.quotes.Some? ==>
              forall c :: c in s.quotes.value ==>
                c.isFavorited && c.quote in allQuotes && c.quote.id in favorited && (c.isUnlocked <==> c.quote.id in unlocked)
    ensures s.Collection? && s.wallpapers.Some? ==>
              forall c :: c in s.wallpapers.value ==>
                c.isFavorited && c.wallpaper in allWallpapers && c.wallpaper.id in favorited
                && (c.isUnlocked <==> c.wallpaper.id in unlocked)
    ensures s.Collection? && s.quotes.Some? ==>
              s.quotes.value == QuoteCards(FavoritedQuotes(allQuotes, favorited), unlocked)
    ensures s.Collection? && s.wallpapers.Some? ==>
              s.wallpapers.value == WallpaperCards(FavoritedWallpapers(allWallpapers, favorited), unlocked)
  {
    var qs := FavoritedQuotes(allQuotes, favorited);
    var ws := FavoritedWallpapers(allWallpapers, favorited);
    if !HasFavorites(allQuotes, allWallpapers, favorited) then EmptyCollection
    else
      assert |qs| > 0 ==> qs[0] in qs;
      assert |ws| > 0 ==> ws[0] in ws;
      Collection(if |qs| > 0 then Some(QuoteCards(qs, unlocked)) else None,
                 if |ws| > 0 then Some(WallpaperCards(ws, unlocked)) else None)
  }

  /**
   * Filtering keeps the listed order: the favorited wallpapers of the
   * catalog followed by generated ones are the catalog's favorites followed
   * by the generated favorites.
   */
  lemma FavoritedWallpapersInOrder(catalog: seq<Wallpaper>, generated: seq<Wallpaper>, favorited: set<string>)
    ensures FavoritedWallpapers(catalog + generated, favorited)
            == FavoritedWallpapers(catalog, favorited) + FavoritedWallpapers(generated, favorited)
  {
    FilterConcat(catalog, generated, (w: Wallpaper) => w.id in favorited);
  }

  /** A favorited id that names no known quote or wallpaper shows nothing: the lists ignore it. */
  lemma UnknownIdsIgnored(allQuotes: seq<Quote>, allWallpapers: seq<Wallpaper>, favorited: set<string>, id: string)
    requires forall q :: q in allQuotes ==> q.id != id
    requires forall w :: w in allWallpapers ==> w.id != id
    ensures FavoritedQuotes(allQuotes, favorited + {id}) == FavoritedQuotes(allQuotes, favorited)
    ensures FavoritedWallpapers(allWallpapers, favorited + {id}) == FavoritedWallpapers(allWallpapers, favorited)
  {
    FilterSameKeep(allQuotes, (q: Quote) => q.id in favorited + {id}, (q: Quote) => q.id in favorited);
    FilterSameKeep(allWallpapers, (w: Wallpaper) => w.id in favorited + {id}, (w: Wallpaper) => w.id in favorited);
  }
}

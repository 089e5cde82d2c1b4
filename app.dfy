/**
 * The application shell of App.tsx: the navigation state machine over
 * `View`, the favorites and unlocked-item registries, the pending ad reward,
 * the search flow and the list of generated wallpapers. Each handler is a
 * method of `App` that updates the fields React keeps in `useState`; the
 * model call of `handleSearch` is split in two, the part before the request
 * and the part that receives its outcome. The resolution of a search answer
 * to catalog records is pure and lives in functions.
 */
module App {
  import opened Types
  import opened JsString
  import opened JsArray
  import Catalog

  const REMOVED_FROM_FAVORITES: string := "Removed from favorites"
  const ADDED_TO_FAVORITES: string := "Added to favorites!"
  const CONTENT_UNLOCKED: string := "Content unlocked!"
  const SEARCH_ERROR: string := "Sorry, we couldn't find recommendations. Try a different search."

  /** All the state App.tsx keeps with `useState` (App.tsx:21-41), except the loading flag. */
  datatype AppState = AppState(
    theme: Theme,
    currentView: View,
    selectedCategory: Option<Category>,
    contentType: ContentType,
    toastMessage: Option<string>,
    unlockedItems: set<string>,
    isAdVisible: bool,
    itemToUnlock: Option<string>,
    selectedWallpaper: Option<Wallpaper>,
    isWallpaperDetailVisible: bool,
    searchQuery: string,
    searchResults: Option<SearchResults>,
    isSearching: bool,
    searchError: Option<string>,
    favoritedItems: set<string>,
    generatedWallpapers: seq<Wallpaper>,
    aiPrompt: string)

  /** The header shows a back button on every view but home (App.tsx:323). */
  predicate ShowBackButton(v: View) {
    v != HomeView
  }

  /** `handleBack` (App.tsx:115-122) as a transition of the state. */
  function Back(s: AppState): (t: AppState)
    ensures (s.currentView == QuotesView || s.currentView == WallpapersView) ==>
              t == s.(currentView := CategoriesView, selectedCategory := None)
    ensures s.currentView !in {QuotesView, WallpapersView, HomeView} ==> t == s.(currentView := HomeView)
    ensures s.currentView == HomeView ==> t == s
  {
    match s.currentView
    case QuotesView => s.(currentView := CategoriesView, selectedCategory := None)
    case WallpapersView => s.(currentView := CategoriesView, selectedCategory := None)
    case HomeView => s
    case _ => s.(currentView := HomeView)
  }

  /**
   * Back changes the state exactly on the views that show a back button, and
   * pressing it at most twice always reaches home.
   */
  lemma BackReachesHome(s: AppState)
    ensures Back(s) != s <==> ShowBackButton(s.currentView)
    ensures Back(Back(s)).currentView == HomeView
  {
  }

  /** `handleToggleFavorite`'s updater (App.tsx:96-106): `id` changes membership, nothing else does. */
  function Toggle(items: set<string>, id: string): (r: set<string>)
    ensures id in r <==> id !in items
    ensures forall x :: x != id ==> (x in r <==> x in items)
  {
    if id in items then items - {id} else items + {id}
  }

  /** Toggling twice restores the set. */
  lemma ToggleTwice(items: set<string>, id: string)
    ensures Toggle(Toggle(items, id), id) == items
  {
    assert forall x :: x in Toggle(Toggle(items, id), id) <==> x in items;
  }

  /** The toast `handleToggleFavorite` shows: it names the direction of the change. */
  function FavoriteToast(items: set<string>, id: string): (m: string)
    ensures m == REMOVED_FROM_FAVORITES <==> id in items
    ensures m == ADDED_TO_FAVORITES <==> id !in items
  {
    if id in items then REMOVED_FROM_FAVORITES else ADDED_TO_FAVORITES
  }

  /** `toggleTheme` (App.tsx:84-86). */
  function Flip(t: Theme): (r: Theme)
    ensures r != t
  {
    if t == Light then Dark else Light
  }

  /** Flipping the theme twice restores it. */
  lemma FlipTwice(t: Theme)
    ensures Flip(Flip(t)) == t
  {
  }

  /** `allWallpapers` (App.tsx:43): the catalog, then the generated wallpapers. */
  function AllWallpapers(generated: seq<Wallpaper>): (r: seq<Wallpaper>)
    ensures |r| == |Catalog.WALLPAPERS| + |generated|
    ensures r[..|Catalog.WALLPAPERS|] == Catalog.WALLPAPERS && r[|Catalog.WALLPAPERS|..] == generated
  {
    Catalog.WALLPAPERS + generated
  }

  /**
   * An id that starts with "ai-", as every generated wallpaper's does, is no
   * catalog id: generated wallpapers share the favorites set without
   * clashing with the catalog.
   */
  lemma GeneratedIdsAreFresh(id: string)
    requires |id| >= 3 && id[..3] == "ai-"
    ensures id !in Catalog.QuoteIds(Catalog.QUOTES) && id !in Catalog.WallpaperIds(Catalog.WALLPAPERS)
  {
    Catalog.QuoteIdsDistinct();
    Catalog.WallpaperIdsDistinct();
    assert id[0] == 'a';
  }

  /** The search answer of the text model: quote ids by relevance and category ids. */
  datatype SearchAnswer = SearchAnswer(quoteIds: seq<string>, categoryIds: seq<string>)

  /**
   * The recommended quotes (App.tsx:228-229): the catalog quotes whose id the
   * answer lists, sorted by the position of that id in the answer.
   */
  function ResolveQuotes(catalog: seq<Quote>, quoteIds: seq<string>): (r: seq<Quote>)
    ensures forall q :: q in r <==> q in catalog && q.id in quoteIds
    ensures forall i, j :: 0 <= i < j < |r| ==> IndexOf(quoteIds, r[i].id) <= IndexOf(quoteIds, r[j].id)
    ensures multiset(r) <= multiset(catalog)
  {
    var listed := Filter(catalog, (q: Quote) => q.id in quoteIds);
    var r := SortBy(listed, (q: Quote) => IndexOf(quoteIds, q.id));
    assert forall q :: q in r <==> q in listed by {
      forall q ensures q in r <==> q in listed {
        assert q in r <==> q in multiset(r);
        assert q in listed <==> q in multiset(listed);
      }
    }
    r
  }

  /**
   * When catalog ids are distinct, every recommended quote appears once and
   * the recommendations follow the answer's order strictly: the quote whose
   * id comes first in the answer comes first.
   */
  lemma ResolvedQuotesFollowAnswer(catalog: seq<Quote>, quoteIds: seq<string>)
    requires Catalog.DistinctIds(Catalog.QuoteIds(catalog))
    ensures var r := ResolveQuotes(catalog, quoteIds);
            forall i, j :: 0 <= i < j < |r| ==> IndexOf(quoteIds, r[i].id) < IndexOf(quoteIds, r[j].id)
  {
    var r := ResolveQuotes(catalog, quoteIds);
    DistinctIdsNoDuplicates(catalog);
    NoDuplicatesSub(catalog, r);
    forall i, j | 0 <= i < j < |r|
      ensures IndexOf(quoteIds, r[i].id) < IndexOf(quoteIds, r[j].id)
    {
      if r[i].id == r[j].id {
        SameIdSameQuote(catalog, r[i], r[j]);
      }
      IndexOfInjective(quoteIds, r[i].id, r[j].id);
    }
  }

  /** Quotes with distinct ids are distinct quotes. */
  lemma DistinctIdsNoDuplicates(catalog: seq<Quote>)
    requires Catalog.DistinctIds(Catalog.QuoteIds(catalog))
    ensures NoDuplicates(catalog)
  {
    var ids := Catalog.QuoteIds(catalog);
    forall i, j | 0 <= i < j < |catalog| ensures catalog[i] != catalog[j] {
      assert ids[i] != ids[j];
    }
  }

  /** In a catalog with distinct ids, the id determines the quote. */
  lemma SameIdSameQuote(catalog: seq<Quote>, x: Quote, y: Quote)
    requires Catalog.DistinctIds(Catalog.QuoteIds(catalog))
    requires x in catalog && y in catalog && x.id == y.id
    ensures x == y
  {
    var ids := Catalog.QuoteIds(catalog);
    var k :| 0 <= k < |catalog| && catalog[k] == x;
    var l :| 0 <= l < |catalog| && catalog[l] == y;
  }

  /** The catalog's quote ids are distinct, so search results over it follow the answer strictly. */
  lemma CatalogResultsFollowAnswer(quoteIds: seq<string>)
    ensures var r := ResolveQuotes(Catalog.QUOTES, quoteIds);
            forall i, j :: 0 <= i < j < |r| ==> IndexOf(quoteIds, r[i].id) < IndexOf(quoteIds, r[j].id)
  {
    Catalog.QuoteIdsDistinct();
    ResolvedQuotesFollowAnswer(Catalog.QUOTES, quoteIds);
  }

  /**
   * The recommended wallpapers (App.tsx:231): the wallpapers of `catalog`
   * whose category the answer lists, in catalog order.
   */
  function ResolveWallpapers(catalog: seq<Wallpaper>, categoryIds: seq<string>): (r: seq<Wallpaper>)
    ensures forall w :: w in r <==> w in catalog && w.categoryId in categoryIds
    ensures |r| <= |catalog|
  {
    Filter(catalog, (w: Wallpaper) => w.categoryId in categoryIds)
  }

  /** Catalog order is kept: resolving two runs of wallpapers resolves each in turn. */
  lemma ResolveWallpapersInOrder(a: seq<Wallpaper>, b: seq<Wallpaper>, categoryIds: seq<string>)
    ensures ResolveWallpapers(a + b, categoryIds) == ResolveWallpapers(a, categoryIds) + ResolveWallpapers(b, categoryIds)
  {
    FilterConcat(a, b, (w: Wallpaper) => w.categoryId in categoryIds);
  }

  /** What a successful search stores (App.tsx:228-233): resolved against the catalog only. */
  function Recommendations(quotes: seq<Quote>, wallpapers: seq<Wallpaper>, answer: SearchAnswer): (r: SearchResults)
    ensures forall q :: q in r.quotes <==> q in quotes && q.id in answer.quoteIds
    ensures forall w :: w in r.wallpapers <==> w in wallpapers && w.categoryId in answer.categoryIds
  {
    SearchResults(ResolveQuotes(quotes, answer.quoteIds), ResolveWallpapers(wallpapers, answer.categoryIds))
  }

  /** The application's state, updated in place by its handlers. */
  class App {
    var theme: Theme
    var currentView: View
    var selectedCategory: Option<Category>
    var contentType: ContentType
    var toastMessage: Option<string>
    var unlockedItems: set<string>
    var isAdVisible: bool
    var itemToUnlock: Option<string>
    var selectedWallpaper: Option<Wallpaper>
    var isWallpaperDetailVisible: bool
    var searchQuery: string
    var searchResults: Option<SearchResults>
    var isSearching: bool
    var searchError: Option<string>
    var favoritedItems: set<string>
    var generatedWallpapers: seq<Wallpaper>
    var aiPrompt: string
    /** The catalog the screens and the search read: data.ts's QUOTES and WALLPAPERS. */
    const quotes: seq<Quote>
    const wallpapers: seq<Wallpaper>

    /** The fields as a value. */
    function State(): AppState
      reads this
    {
      AppState(theme, currentView, selectedCategory, contentType, toastMessage, unlockedItems,
               isAdVisible, itemToUnlock, selectedWallpaper, isWallpaperDetailVisible, searchQuery,
               searchResults, isSearching, searchError, favoritedItems, generatedWallpapers, aiPrompt)
    }

    /** The initial state (App.tsx:21-41), with the theme and favorites loaded from storage. */
    constructor (theme: Theme, favorites: set<string>)
      ensures quotes == Catalog.QUOTES && wallpapers == Catalog.WALLPAPERS
      ensures State() == AppState(theme, HomeView, None, QuotesContent, None, {}, false, None, None, false,
                                  "", None, false, None, favorites, [], "")
    {
      this.theme := theme;
      currentView := HomeView;
      selectedCategory := None;
      contentType := QuotesContent;
      toastMessage := None;
      unlockedItems := {};
      isAdVisible := false;
      itemToUnlock := None;
      selectedWallpaper := None;
      isWallpaperDetailVisible := false;
      searchQuery := "";
      searchResults := None;
      isSearching := false;
      searchError := None;
      favoritedItems := favorites;
      generatedWallpapers := [];
      aiPrompt := "";
      quotes := Catalog.QUOTES;
      wallpapers := Catalog.WALLPAPERS;
    }

    /** `toggleTheme` (App.tsx:84-86). */
    method ToggleTheme()
      modifies this
      ensures theme != old(theme)
      ensures State() == old(State()).(theme := Flip(old(theme)))
    {
      theme := Flip(theme);
    }

    /** `handleToggleFavorite` (App.tsx:95-107): flips `id` and says which way in a toast. */
    method HandleToggleFavorite(id: string)
      modifies this
      ensures id in favoritedItems <==> id !in old(favoritedItems)
      ensures forall x :: x != id ==> (x in favoritedItems <==> x in old(favoritedItems))
      ensures State() == old(State()).(favoritedItems := Toggle(old(favoritedItems), id),
                                       toastMessage := Some(FavoriteToast(old(favoritedItems), id)))
    {
      toastMessage := Some(FavoriteToast(favoritedItems, id));
      favoritedItems := Toggle(favoritedItems, id);
    }

    /** `handleCategorySelect` (App.tsx:109-113): the view named by the content type. */
    method HandleCategorySelect(category: Category, t: ContentType)
      modifies this
      ensures currentView == ViewOf(t) && contentType == t && selectedCategory == Some(category)
      ensures State() == old(State()).(currentView := ViewOf(t), contentType := t, selectedCategory := Some(category))
    {
      selectedCategory := Some(category);
      contentType := t;
      currentView := ViewOf(t);
    }

    /** `handleBack` (App.tsx:115-122). */
    method HandleBack()
      modifies this
      ensures State() == Back(old(State()))
      ensures ShowBackButton(old(currentView)) <==> State() != old(State())
    {
      BackReachesHome(State());
      if currentView == QuotesView || currentView == WallpapersView {
        currentView := CategoriesView;
        selectedCategory := None;
      } else if currentView != HomeView {
        currentView := HomeView;
      }
    }

    /** `navigateToCategories` (App.tsx:124-126). */
    method NavigateToCategories()
      modifies this
      ensures State() == old(State()).(currentView := CategoriesView)
    {
      currentView := CategoriesView;
    }

    /** `navigateToFavorites` (App.tsx:128-130). */
    method NavigateToFavorites()
      modifies this
      ensures State() == old(State()).(currentView := FavoritesView)
    {
      currentView := FavoritesView;
    }

    /** `navigateToAIGenerator` (App.tsx:132-135): the prompt is handed to the generator screen. */
    method NavigateToAIGenerator(prompt: string)
      modifies this
      ensures State() == old(State()).(currentView := AiGeneratorView, aiPrompt := prompt)
    {
      aiPrompt := prompt;
      currentView := AiGeneratorView;
    }

    /** `addGeneratedWallpapers` (App.tsx:137-139): the list only grows, at its end. */
    method AddGeneratedWallpapers(batch: seq<Wallpaper>)
      modifies this
      ensures |generatedWallpapers| == |old(generatedWallpapers)| + |batch|
      ensures generatedWallpapers[..|old(generatedWallpapers)|] == old(generatedWallpapers)
      ensures generatedWallpapers[|old(generatedWallpapers)|..] == batch
      ensures State() == old(State()).(generatedWallpapers := old(generatedWallpapers) + batch)
    {
      generatedWallpapers := generatedWallpapers + batch;
    }

    /** `handleWatchAd` (App.tsx:141-144): the item waits for the reward and the ad opens. */
    method HandleWatchAd(id: string)
      modifies this
      ensures State() == old(State()).(itemToUnlock := Some(id), isAdVisible := true)
    {
      itemToUnlock := Some(id);
      isAdVisible := true;
    }

    /**
     * `handleAdComplete` (App.tsx:146-153): a pending item (a non-empty
     * string, as `if (itemToUnlock)` requires) is unlocked with a toast;
     * either way the ad closes and nothing is pending any more.
     */
    method HandleAdComplete()
      modifies this
      ensures old(unlockedItems) <= unlockedItems
      ensures old(itemToUnlock).Some? && old(itemToUnlock).value != "" ==>
                && unlockedItems == old(unlockedItems) + {old(itemToUnlock).value}
                && toastMessage == Some(CONTENT_UNLOCKED)
      ensures !(old(itemToUnlock).Some? && old(itemToUnlock).value != "") ==>
                unlockedItems == old(unlockedItems) && toastMessage == old(toastMessage)
      ensures State() == old(State()).(unlockedItems := unlockedItems, toastMessage := toastMessage,
                                       isAdVisible := false, itemToUnlock := None)
    {
      if itemToUnlock.Some? && itemToUnlock.value != "" {
        unlockedItems := unlockedItems + {itemToUnlock.value};
        toastMessage := Some(CONTENT_UNLOCKED);
      }
      isAdVisible := false;
      itemToUnlock := None;
    }

    /** The ad modal's `onClose` (App.tsx:331): the ad hides, nothing is unlocked. */
    method CloseAd()
      modifies this
      ensures unlockedItems == old(unlockedItems)
      ensures State() == old(State()).(isAdVisible := false)
    {
      isAdVisible := false;
    }

    /** `handleWallpaperSelect` (App.tsx:155-158). */
    method HandleWallpaperSelect(w: Wallpaper)
      modifies this
      ensures State() == old(State()).(selectedWallpaper := Some(w), isWallpaperDetailVisible := true)
    {
      selectedWallpaper := Some(w);
      isWallpaperDetailVisible := true;
    }

    /**
     * `handleSearch` up to the request (App.tsx:167-173): a query that is
     * blank once trimmed changes nothing and makes no request; any other
     * query opens the search view in its loading state.
     */
    method BeginSearch(query: string) returns (started: bool)
      modifies this
      ensures started <==> !IsBlank(query)
      ensures !started ==> State() == old(State())
      ensures started ==> State() == old(State()).(searchQuery := query, currentView := SearchView,
                                                  isSearching := true, searchError := None,
                                                  searchResults := None)
    {
      started := !IsBlank(query);
      if started {
        searchQuery := query;
        currentView := SearchView;
        isSearching := true;
        searchError := None;
        searchResults := None;
      }
    }

    /**
     * `handleSearch` after the request (App.tsx:225-240): a parsed answer is
     * resolved against the catalog; any failure (no key, the call, the JSON)
     * shows the search error. Loading ends either way.
     */
    method FinishSearch(outcome: Result<SearchAnswer>)
      modifies this
      ensures outcome.Success? ==>
                State() == old(State()).(searchResults := Some(Recommendations(quotes, wallpapers, outcome.value)), isSearching := false)
      ensures outcome.Failure? ==>
                State() == old(State()).(searchError := Some(SEARCH_ERROR), isSearching := false)
    {
      match outcome {
        case Success(answer) =>
          searchResults := Some(Recommendations(quotes, wallpapers, answer));
        case Failure(_) =>
          searchError := Some(SEARCH_ERROR);
      }
      isSearching := false;
    }
  }
}

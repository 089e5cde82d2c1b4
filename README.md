# InspireHub, modelled in Dafny

InspireHub is a small React front-end. It offers quotes and wallpapers by
category, lets the user favorite items, and unlocks premium items after a
rewarded ad. It also shows a daily quote fetched from a text model, answers
free-text searches with recommended catalog items, and generates wallpapers
from a prompt with an image model.

This project models the rules under the rendering:

- **App shell** (`App.tsx`), as the class `App.App`:
  - navigation over the screens (`View`) and the back button;
  - the favorites set and the session's unlocked set;
  - the pending ad reward;
  - the two halves of a search, and the resolution of the model's answer to catalog records;
  - the append-only list of generated wallpapers.
- **Home screen** (`components/Home.tsx`), in the module `Home`:
  - the parser that splits `"text" - author`;
  - the filter for grounding sources;
  - the once-a-day cache of the daily quote (class `Home.DailyQuotePanel`);
  - the featured quotes and wallpapers.
- **Wallpaper studio** (`components/AIGenerator.tsx`), in the module `AIGenerator`:
  - the blank-prompt guard and the state reset;
  - the mapping from returned images to wallpaper records with ids like `ai-<time>-<index>`;
  - the classification of quota errors;
  - the rule that disables the Generate button;
  - the mount trigger (class `AIGenerator.Studio`).
- **Ad modal** (`components/AdModal.tsx`): a tick counter from 0 to 100 that fires completion once. It is the class `AdModal.Modal`, with a pure `Step` function to specify it.
- **Display decisions:**
  - the order in which the search screen tries loading, error, empty and results (`SearchResultsScreen`);
  - the favorites filter (`Favorites`);
  - the premium lock and the controls it gates on the two cards (`QuoteCard`, `WallpaperCard`).
- **Catalog** (`data.ts`), in the module `Catalog`: the categories, quotes and wallpapers as constant sequences. Lemmas prove that every reference points to a category and that ids are unique.

Two support modules hold the JavaScript built-ins the source relies on:

- `JsString`: `trim`, `lastIndexOf`, `includes`, `replace(/"/g, '')`, ASCII `toUpperCase`, and the decimal rendering of a number.
- `JsArray`: `filter`, `find`, `indexOf`, and a stable sort by key.

Calls to external services and browser state are not modelled. Their results
are parameters instead:

- the text model's answer is a `Result<TextResponse>` or `Result<SearchAnswer>`;
- the image model's answer is a `Result<seq<string>>` of base64 payloads;
- the stored daily-quote entry is a `StoredEntry`;
- today's date is a string;
- `Date.now()` is a function from the image index to a timestamp.

A handler that awaits such a call is split in two: a method for the part
before the request, and a method that receives the outcome.

## Model

| member | source | states |
|---|---|---|
| Types.ViewOf | types.ts:38-40 | the view selected for a content type is `quotes` or `wallpapers`, and it is `quotes` exactly for quote content |
| JsString.Trim | components/Home.tsx:17-21 | the result is trimmed on both sides, no longer than the input, and empty exactly when the input is all whitespace (so `!s.trim()` tests blankness, as at AIGenerator.tsx:23-24 and App.tsx:168) |
| JsString.TrimKeepsExcluded | components/Home.tsx:18 | trimming cannot create an occurrence of a pattern |
| JsString.TrimSlice | components/Home.tsx:17-18 | the trimmed string is one contiguous slice of the input, and everything outside that slice is whitespace |
| JsString.LastIndexOf | components/Home.tsx:15 | the result is -1 or a position where the pattern occurs, and no occurrence lies after it (positions count characters; `Utf16Length` of the prefix gives JavaScript's index) |
| JsString.LastIndexOfAbsent | components/Home.tsx:15-16 | the result is -1 exactly when the pattern does not occur |
| JsString.CodeUnits | components/Home.tsx:16 | a character takes two UTF-16 code units exactly when it lies above U+FFFF, and one otherwise |
| JsString.Utf16Length | components/Home.tsx:16 | `s.length` in code units lies between the number of characters and twice that |
| JsString.Utf16LengthConcat | components/Home.tsx:16 | code-unit lengths add up over concatenation |
| JsString.Utf16PrefixMonotone | components/Home.tsx:15-16 | a later index never has a shorter code-unit prefix, so a later occurrence is never nearer the start in code units |
| JsString.Utf16LengthBmp | components/Home.tsx:16 | for text without characters above U+FFFF, `length` equals the number of characters |
| JsString.RemoveAll | components/Home.tsx:17-21 | `replace(/"/g, '')` leaves no occurrence of the character, keeps every other character that occurs and adds none, and never lengthens the string |
| JsString.ToUpperCase | components/AIGenerator.tsx:59 | upper-casing keeps the length and maps each position on its own: ASCII lower-case letters to upper case, everything else unchanged |
| JsString.IncludesUpperCase | components/AIGenerator.tsx:59 | an occurrence of a pattern stays an occurrence, of the upper-cased pattern, after upper-casing |
| JsString.RemoveAbsent | components/Home.tsx:17 | removing a character that does not occur leaves the string unchanged |
| JsString.NumberToString | components/AIGenerator.tsx:48 | `${n}` is non-empty, all digits, has no leading zero unless it is "0", and reads back as n |
| JsString.NumberToStringInjective | components/AIGenerator.tsx:48 | different numbers give different decimal strings |
| JsArray.Filter | App.tsx:228 | the result keeps exactly the elements that satisfy the predicate, and is a sub-multiset of the input |
| JsArray.FilterConcat | App.tsx:231 | filtering keeps order: filtering a concatenation gives the concatenation of the filtered parts |
| JsArray.Find | components/Home.tsx:31-32 | the result is the first element satisfying the predicate; it is None exactly when no element does |
| JsArray.SortBy | App.tsx:229 | the result is sorted by the key and is a permutation of the input |
| JsArray.IndexOf | App.tsx:229 | -1 exactly when the value is absent; otherwise an index holding the value with no earlier one holding it |
| JsArray.IndexOfInjective | App.tsx:229 | two different values that both occur have different first indexes |
| Catalog.CategoryIdsDistinct | data.ts:5-14 | there are eight categories and their ids are pairwise distinct |
| Catalog.QuotesReferToCategories | data.ts:16-79 | every quote's category id is the id of a category |
| Catalog.WallpapersReferToCategories | data.ts:81-138 | every wallpaper's category id is the id of a category |
| Catalog.QuoteIdsDistinct | data.ts:16-79 | quote ids are pairwise distinct and all start with 'q' |
| Catalog.WallpaperIdsDistinct | data.ts:81-138 | wallpaper ids are pairwise distinct and all start with 'w' |
| Catalog.CatalogIdsUnique | data.ts:16-138 | no id occurs twice among all quote and wallpaper ids, the one namespace shared by favorites and unlocks |
| Catalog.QuoteIdDetermines | data.ts:16-79 | two catalog quotes with the same id are the same quote |
| AdModal.Step | components/AdModal.tsx:14-21 | a tick keeps progress within [0, 100] and never lowers it; completion fires, once, exactly on a running tick that finds progress at 100 or more, and the interval is then cleared; a cleared interval changes nothing |
| AdModal.RunState | components/AdModal.tsx:10-21 | after n ticks the progress is min(n, 100); the interval runs exactly for n <= 100; completion has fired exactly when n > 100, and then exactly once |
| AdModal.RunProgressMonotone | components/AdModal.tsx:13-21 | progress stays within [0, 100] and never decreases from one tick to the next |
| AdModal.Close | components/AdModal.tsx:24 | closing clears the interval and keeps the progress and the completion count |
| AdModal.ClosedStaysClosed | components/AdModal.tsx:24 | once the modal is closed, no number of ticks changes it: no further progress and no completion |
| AdModal.Modal.constructor | components/AdModal.tsx:10-13 | a mounted modal starts at progress 0 with the interval set and nothing completed |
| AdModal.Modal.Tick | components/AdModal.tsx:14-21 | one tick is `Step` on the fields; it reports completion exactly when the interval ran with progress >= 100; progress never decreases; the modal stays valid |
| AdModal.Modal.Unmount | components/AdModal.tsx:23-25 | unmounting is `Close` on the fields |
| QuoteCard.IsLocked | components/QuoteCard.tsx:16 | only premium quotes are ever locked, an unlocked quote never is, and a premium quote is open only once unlocked |
| QuoteCard.ShareText | components/QuoteCard.tsx:19 | the copy/share text is `"`, the quote text, `" - `, then the author, at exact positions |
| QuoteCard.Render | components/QuoteCard.tsx:60-102 | the badge follows `premium`; blurred iff locked; a locked card offers only watch-ad with the quote's id; an unlocked one offers favorite, copy and share in that order |
| QuoteCard.WatchAdIffLocked | components/QuoteCard.tsx:16 | the watch-ad button is present exactly on locked cards, and a non-premium quote is never locked |
| QuoteCard.ControlsTargetQuote | components/QuoteCard.tsx:79-100 | every control passes this quote's id or its share text |
| WallpaperCard.IsLocked | components/WallpaperCard.tsx:16 | only premium wallpapers are ever locked, an unlocked wallpaper never is, and a premium wallpaper is open only once unlocked |
| WallpaperCard.Click | components/WallpaperCard.tsx:27 | a click selects the wallpaper exactly when it is not locked |
| WallpaperCard.Render | components/WallpaperCard.tsx:23-66 | the badge follows `premium`; blurred iff locked; the favorite button (toggling the wallpaper's id) exists iff unlocked; the unlock overlay (passing the id) exists iff locked |
| WallpaperCard.ExactlyOneControl | components/WallpaperCard.tsx:18-63 | every card has exactly one of the favorite button and the unlock overlay; a click selects iff the favorite button is there; a free wallpaper is always selectable |
| Favorites.FavoritedQuotes | components/Favorites.tsx:19 | the result holds exactly the given quotes whose id is favorited |
| Favorites.FavoritedWallpapers | components/Favorites.tsx:20 | the result holds exactly the given wallpapers whose id is favorited |
| Favorites.HasFavorites | components/Favorites.tsx:22 | there are favorites to show exactly when some given quote or wallpaper has a favorited id |
| Favorites.QuoteCards | components/Favorites.tsx:42-53 | one card per quote, in order, each marked favorited and unlocked iff its id is unlocked |
| Favorites.WallpaperCards | components/Favorites.tsx:58-73 | one card per wallpaper, in order, each marked favorited and unlocked iff its id is unlocked |
| Favorites.Render | components/Favorites.tsx:22-80 | the empty state is shown iff nothing is favorited; each section appears iff something of its kind is favorited; a shown section holds one card for every favorited item of its kind, in list order, marked favorited, with the unlock flag from the unlocked set |
| Favorites.FavoritedWallpapersInOrder | components/Favorites.tsx:20 | favorites of the catalog followed by generated wallpapers are the catalog's favorites followed by the generated ones |
| Favorites.UnknownIdsIgnored | components/Favorites.tsx:19-20 | adding a favorited id that names no known item changes neither list |
| SearchResultsScreen.QuoteCards | components/SearchResults.tsx:85-94 | one card per quote, in order, with lock and favorite flags given by membership of its id |
| SearchResultsScreen.WallpaperCards | components/SearchResults.tsx:103-113 | one card per wallpaper, in order, with lock and favorite flags given by membership of its id |
| SearchResultsScreen.Render | components/SearchResults.tsx:55-119 | skeleton iff loading; otherwise a truthy error alone; otherwise "no recommendations" iff the results are absent or both empty; otherwise the results, with a section per non-empty list; the generator card carries exactly the query |
| SearchResultsScreen.ScreensPartition | components/SearchResults.tsx:60-81 | a results screen always shows a section, and a shown error ignores the results and offers no generator |
| AIGenerator.GeneratedId | components/AIGenerator.tsx:48 | a generated id starts with "ai-" |
| AIGenerator.GeneratedIdInjective | components/AIGenerator.tsx:48 | distinct (timestamp, index) pairs give distinct ids |
| AIGenerator.MakeWallpapers | components/AIGenerator.tsx:47-52 | one record per image in order: id `ai-<time>-<k>`, the image as a JPEG data URL, category "ai-generated", not premium |
| AIGenerator.BatchWellFormed | components/AIGenerator.tsx:47-52 | the ids in one batch are pairwise distinct, whatever the clock does; every record starts with "ai-", is free and is in the AI category |
| AIGenerator.IsQuotaError | components/AIGenerator.tsx:59 | a message holding "RESOURCE_EXHAUSTED" in upper or in lower case is a quota error |
| AIGenerator.QuotaMarkerAnyCase | components/AIGenerator.tsx:59 | a message holding the resource marker in any mix of letter cases passes the upper-cased test |
| AIGenerator.QuotaMarkerSpellings | components/AIGenerator.tsx:59 | both the lower-case and the upper-case spelling of the marker upper-case to "RESOURCE_EXHAUSTED" |
| AIGenerator.Classify | components/AIGenerator.tsx:58-65 | the quota flag is set iff the message has a quota marker, and the quota message is shown iff it is set; otherwise the generic message |
| AIGenerator.ClassifyExamples | components/AIGenerator.tsx:59 | sanity check on three messages: "429" and a lower-case "resource_exhausted" count as quota errors, and a plain network error does not |
| AIGenerator.GenerateDisabled | components/AIGenerator.tsx:133 | the button is disabled exactly while a generation runs or when the prompt is all whitespace |
| AIGenerator.GenerateEnabledIff | components/AIGenerator.tsx:133 | the Generate button is enabled iff no generation runs and the prompt has a non-whitespace character |
| AIGenerator.Studio.constructor | components/AIGenerator.tsx:15-20 | the studio starts with the given prompt, no images, not generating, no error, and the quota flag unset |
| AIGenerator.Studio.SetPrompt | components/AIGenerator.tsx:125 | typing replaces the prompt and nothing else |
| AIGenerator.Studio.BeginGenerate | components/AIGenerator.tsx:22-29 | a prompt that is blank once trimmed changes nothing and sends nothing; otherwise the trimmed prompt is sent, generation starts, and the error, quota flag and shown images are cleared |
| AIGenerator.Studio.FinishGenerate | components/AIGenerator.tsx:47-68 | on success the new batch is shown and returned for appending; on failure nothing is returned, the shown list is kept and the error is classified; generating ends either way |
| AIGenerator.Studio.Mount | components/AIGenerator.tsx:72-76 | an empty initial prompt does nothing; a non-blank one starts a generation with it trimmed |
| Home.SplitIndex | components/Home.tsx:15-16 | the split point is an occurrence of " - " past the middle, measured in UTF-16 code units, and no occurrence follows it; with no split point, every occurrence lies at or before the middle |
| Home.NoSplitPastMiddle | components/Home.tsx:15-16 | when the last " - " is not past the middle, no occurrence is |
| Home.SplitAt | components/Home.tsx:17-21 | for any split point the text has no `"` and both parts are trimmed; without a split point the author is "Unknown" |
| Home.ParseQuote | components/Home.tsx:14-22 | the text has no `"` and is trimmed; the author is trimmed, and is "Unknown" when no split point exists |
| Home.ParseQuoteClean | components/Home.tsx:15-21 | the text never contains `"`; on an accepted split the author never contains " - " |
| Home.NothingAfterLast | components/Home.tsx:15-18 | splitting at an occurrence of " - " after which none follows leaves an author without " - " |
| Home.RemoveAllConcat | components/Home.tsx:17 | removing `"` distributes over concatenation |
| Home.ParseFormatted | components/Home.tsx:14-22 | for a trimmed text without `"`, a trimmed author that neither contains " - " nor starts with "- ", and a text longer than the author by more than one code unit, parsing `"text" - author` (the format asked for at Home.tsx:63) gives back text and author |
| Home.FormattedSplitsAtSeparator | components/Home.tsx:15-16 | in `"text" - author` with such an author, the separator written is the split point accepted exactly when the text is longer than the author by more than one code unit |
| Home.FormattedLastSeparator | components/Home.tsx:15 | in `"text" - author` with such an author, the separator written is the last " - " |
| Home.FormattedCodeUnits | components/Home.tsx:16 | `"text" - author` is five code units longer than text and author together, and its part before the separator is two longer than the text |
| Home.AstralTextSplits | components/Home.tsx:15-19 | `"😀😀😀" - Al` parses back into its text and author, because its separator lies past the middle in code units |
| Home.SplitFormatted | components/Home.tsx:17-19 | splitting `"text" - author` at its separator gives back a trimmed, quote-free text and a trimmed author |
| Home.ParseShareText | components/QuoteCard.tsx:19 | a quote card's share text parses back into the quote's text and author under the same conditions |
| Home.SourcesOf | components/Home.tsx:72-74 | the sources are exactly the chunks with a web part that has a non-empty uri and title; there are never more of them than chunks |
| Home.SourcesConcat | components/Home.tsx:72-74 | sources keep the chunks' order |
| Home.Sources | components/Home.tsx:72 | missing grounding metadata gives no sources |
| Home.CachedQuote | components/Home.tsx:42-49 | a stored quote is reused iff it was stored with today's date |
| Home.QuoteFrom | components/Home.tsx:69-78 | the fetched quote's text has no `"` and every source has a uri and a title |
| Home.CacheRoundTrip | components/Home.tsx:44-46 | a quote stored today is found again today and on no other day |
| Home.DailyQuotePanel.constructor | components/Home.tsx:25-27 | the panel starts loading, with no quote and no error |
| Home.DailyQuotePanel.BeginFetch | components/Home.tsx:36-54 | a request is needed iff no quote was stored today; a cached quote is shown at once; an unreadable entry is removed before the request |
| Home.DailyQuotePanel.CompleteFetch | components/Home.tsx:69-84 | on success the parsed quote is shown and stored with today's date; on failure the error is shown and nothing is stored; loading ends either way |
| Home.LookupQuote | components/Home.tsx:31 | the lookup finds a quote of the list with that id iff one exists |
| Home.LookupWallpaper | components/Home.tsx:32 | the lookup finds a wallpaper of the list with that id iff one exists |
| Home.CatalogHasFeaturedQuotes | data.ts:60-75 | q40, q33 and q44 are all catalog quotes, so the non-null lookups at Home.tsx:31 hold |
| Home.CatalogHasFeaturedWallpapers | data.ts:115-133 | w37, w28, w33 and w25 are all catalog wallpapers, so the non-null lookups at Home.tsx:32 hold |
| Home.FeaturedQuotes | components/Home.tsx:31 | one quote of the list per featured id, in the order of the ids, each carrying that id |
| Home.FeaturedWallpapers | components/Home.tsx:32 | one wallpaper of the list per featured id, in the order of the ids, each carrying that id |
| App.Back | App.tsx:115-122 | from quotes/wallpapers back goes to categories and clears the category; from any other view but home it goes home; at home it does nothing |
| App.ShowBackButton | App.tsx:323 | the header shows the back button on every view but home; its meaning is stated by App.BackReachesHome |
| App.BackReachesHome | App.tsx:323 | back changes the state exactly on the views that show the back button, and two presses always reach home |
| App.Toggle | App.tsx:96-106 | toggling flips the membership of the id and of no other id |
| App.ToggleTwice | App.tsx:96-106 | toggling twice restores the set |
| App.FavoriteToast | App.tsx:100-104 | the toast says "removed" iff the id was favorited and "added" iff it was not |
| App.Flip | App.tsx:84-86 | the theme always changes |
| App.FlipTwice | App.tsx:84-86 | flipping twice restores the theme |
| App.AllWallpapers | App.tsx:43 | all wallpapers are the catalog followed by the generated ones |
| App.GeneratedIdsAreFresh | App.tsx:43 | an id starting with "ai-" is neither a catalog quote id nor a catalog wallpaper id |
| App.ResolveQuotes | App.tsx:228-229 | the recommended quotes are exactly the catalog quotes whose id the answer lists, ordered by the position of that id in the answer, each at most as often as in the catalog |
| App.ResolvedQuotesFollowAnswer | App.tsx:228-229 | with distinct catalog ids, the order follows the answer strictly |
| App.CatalogResultsFollowAnswer | App.tsx:228-229 | over data.ts's quotes, recommendations follow the answer strictly |
| App.ResolveWallpapers | App.tsx:231 | the recommended wallpapers are exactly those whose category the answer lists |
| App.ResolveWallpapersInOrder | App.tsx:231 | recommended wallpapers keep catalog order |
| App.Recommendations | App.tsx:228-233 | the stored results hold exactly the listed catalog quotes and the catalog wallpapers of the listed categories |
| App.App.constructor | App.tsx:21-41 | the shell starts at home with nothing selected, unlocked, pending or searched, with the stored theme and favorites, over data.ts's catalog |
| App.App.ToggleTheme | App.tsx:84-86 | the theme flips and nothing else changes |
| App.App.HandleToggleFavorite | App.tsx:95-107 | only the id's membership flips, and the toast names the direction |
| App.App.HandleCategorySelect | App.tsx:109-113 | the view named by the content type opens, with that content type and category |
| App.App.HandleBack | App.tsx:115-122 | the new state is `Back` of the old one, and it changes iff the back button was shown |
| App.App.NavigateToCategories | App.tsx:124-126 | only the view changes, to categories |
| App.App.NavigateToFavorites | App.tsx:128-130 | only the view changes, to favorites |
| App.App.NavigateToAIGenerator | App.tsx:132-135 | the generator view opens with the prompt handed over |
| App.App.AddGeneratedWallpapers | App.tsx:137-139 | the old list is a prefix of the new one, which ends with the batch |
| App.App.HandleWatchAd | App.tsx:141-144 | the item is pending and the ad is shown |
| App.App.HandleAdComplete | App.tsx:146-153 | a pending item is unlocked with a toast, and no unlocked item is lost; without one nothing is unlocked; either way the ad hides and nothing stays pending |
| App.App.CloseAd | App.tsx:331 | closing the ad hides it and never changes the unlocked items |
| App.App.HandleWallpaperSelect | App.tsx:155-158 | the wallpaper is selected and its detail view shown |
| App.App.BeginSearch | App.tsx:167-173 | a blank query changes nothing; any other query opens the search view in its loading state, with no results or error |
| App.App.FinishSearch | App.tsx:225-240 | an answer is resolved against data.ts's catalog only (never generated wallpapers); any failure sets the search error; searching ends either way |

## Left out

- Model calls (`generateContent`, `generateImages`): they are foreign library calls. Their answers are parameters, and async interleaving of overlapping requests is not modelled.
- `JSON.parse` of the search answer, and a missing API key: both surface as a `Failure` outcome of `FinishSearch`. An answer whose fields are not arrays is not distinguished.
- `localStorage`:
  - The theme and favorites loaded at start-up (App.tsx:52-82) are constructor parameters. Writing them back is I/O and not modelled.
  - The daily-quote entry is the `StoredEntry` field of `Home.DailyQuotePanel`.
  - A write to storage that throws is not modelled.
- `matchMedia`: it only picks the initial theme, which is a constructor parameter.
- Timers: the loading screen (1200 ms), the toast clearing (3000 ms), the 300 ms delay before the wallpaper detail closes, and the 30 ms ad period are not modelled. The ad advances by discrete `Tick` calls.
- `handleWallpaperDetailClose` and WallpaperDetailModal.tsx are not part of this model. They only download, copy and share through browser APIs.
- Executing copy and share on a quote card (clipboard, Web Share API) is I/O. Only the text is modelled.
- JSX, CSS, icons, and the components that only forward props (CategoryGrid, QuoteList, WallpaperGrid, Header, Toast, LoadingScreen, AdBanner) are not modelled. The category screens of `renderContent` are not modelled either.
- Strings are sequences of Unicode scalar values. Where Home.tsx:16 compares a position with `length`, both are converted to UTF-16 code units with `JsString.Utf16Length`. Strings holding unpaired surrogates, which JavaScript allows, cannot be written.
- `JsString.Trim` and `JsString.ToUpperCase` cover ASCII whitespace and a few Unicode spaces, and ASCII letters. Unicode case mapping and the full whitespace class of JavaScript are out of scope.
- AIGenerator.Studio.Mount models only the first run of the mount effect. The effect at AIGenerator.tsx:72-76 depends on `handleGenerate`, which changes identity whenever the prompt or the parent's callback changes. Later runs are not modelled.
- App.App.NavigateToAIGenerator takes a string prompt. The home screen's button (Home.tsx:199) passes its click event in that position; that call is not modelled.
- The ad modal never calls its own `onClose`. `App.App.CloseAd` models the callback that App.tsx:331 passes, even though no caller in the source triggers it.
- Home.FeaturedQuotes and Home.FeaturedWallpapers take the catalog and the id list as parameters. `Home.CatalogHasFeaturedQuotes` and `Home.CatalogHasFeaturedWallpapers` show that the lookups succeed for data.ts's catalog and the ids of Home.tsx:31-32.

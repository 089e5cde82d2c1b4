/**
 * The records of InspireHub (types.ts): categories, quotes and wallpapers,
 * the screens of the application and the shape of a search result, plus the
 * Option/Result wrappers used for `null` and for calls that can fail.
 */
module Types {

  /** `T | null` in the source. */
  datatype Option<+T> = None | Some(value: T)

  /** The outcome of a call to an external service: a payload or an error message. */
  datatype Result<+T> = Success(value: T) | Failure(message: string)

  /** The category icon is a rendering component in the source; here it is a symbolic tag. */
  datatype Icon = Bolt | Heart | Fire | Beaker | Sparkles | Leaf | RocketLaunch | GlobeAlt

  datatype Category = Category(id: string, name: string, icon: Icon)

  datatype Quote = Quote(id: string, text: string, author: string, categoryId: string, premium: bool)

  datatype Wallpaper = Wallpaper(id: string, imageUrl: string, categoryId: string, premium: bool)

  /** `View` of types.ts:38: 'home' | 'categories' | 'quotes' | 'wallpapers' | 'search' | 'favorites' | 'ai-generator'. */
  datatype View =
    | HomeView
    | CategoriesView
    | QuotesView
    | WallpapersView
    | SearchView
    | FavoritesView
    | AiGeneratorView

  /** `ContentType` of types.ts:40: 'quotes' | 'wallpapers'. */
  datatype ContentType = QuotesContent | WallpapersContent

  /** The view that shares its name with a content type ('quotes' or 'wallpapers'). */
  function ViewOf(t: ContentType): (v: View)
    ensures v == QuotesView || v == WallpapersView
    ensures (v == QuotesView) <==> (t == QuotesContent)
  {
    match t
    case QuotesContent => QuotesView
    case WallpapersContent => WallpapersView
  }

  datatype SearchResults = SearchResults(quotes: seq<Quote>, wallpapers: seq<Wallpaper>)

  datatype Theme = Light | Dark
}

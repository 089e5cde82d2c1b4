/**
 * The wallpaper card of components/WallpaperCard.tsx: whether a wallpaper is
 * locked, what a click on the card does, and which of the favorite button
 * and the unlock overlay is present.
 */
module WallpaperCard {
  import opened Types

  /** The inputs the card is rendered from. */
  datatype Props = Props(wallpaper: Wallpaper, isUnlocked: bool, isFavorited: bool)

  /**
   * What the card shows: the premium badge, whether the image is blurred,
   * the favorite button (the id it toggles and whether its heart is filled)
   * and the unlock overlay (the id it passes to `onWatchAd`).
   */
  datatype View = View(premiumBadge: bool, blurred: bool, favoriteButton: Option<(string, bool)>,
                       unlockOverlay: Option<string>)

  /** `isLocked` (WallpaperCard.tsx:16). */
  predicate IsLocked(w: Wallpaper, isUnlocked: bool): (locked: bool)
    ensures locked ==> w.premium
    ensures isUnlocked ==> !locked
    ensures w.premium && !locked ==> isUnlocked
  {
    w.premium && !isUnlocked
  }

  /** A click on the card: `!isLocked && onSelect(wallpaper)` (WallpaperCard.tsx:27). */
  function Click(p: Props): (selected: Option<Wallpaper>)
    ensures selected.Some? <==> !IsLocked(p.wallpaper, p.isUnlocked)
    ensures selected.Some? ==> selected.value == p.wallpaper
  {
    if IsLocked(p.wallpaper, p.isUnlocked) then None else Some(p.wallpaper)
  }

  /** The rendered card (WallpaperCard.tsx:23-66). */
  function Render(p: Props): (v: View)
    ensures v.premiumBadge == p.wallpaper.premium
    ensures v.blurred == IsLocked(p.wallpaper, p.isUnlocked)
    ensures v.favoriteButton.Some? <==> !IsLocked(p.wallpaper, p.isUnlocked)
    ensures v.favoriteButton.Some? ==> v.favoriteButton.value == (p.wallpaper.id, p.isFavorited)
    ensures v.unlockOverlay.Some? <==> IsLocked(p.wallpaper, p.isUnlocked)
    ensures v.unlockOverlay.Some? ==> v.unlockOverlay.value == p.wallpaper.id
  {
    var locked := IsLocked(p.wallpaper, p.isUnlocked);
    View(p.wallpaper.premium, locked,
         if locked then None else Some((p.wallpaper.id, p.isFavorited)),
         if locked then Some(p.wallpaper.id) else None)
  }

  /**
   * Every card carries exactly one of the favorite button and the unlock
   * overlay, and a click selects the wallpaper exactly when the card has the
   * favorite button.
   */
  lemma ExactlyOneControl(p: Props)
    ensures Render(p).favoriteButton.Some? != Render(p).unlockOverlay.Some?
    ensures Click(p).Some? <==> Render(p).favoriteButton.Some?
    ensures !p.wallpaper.premium ==> Click(p) == Some(p.wallpaper)
  {
  }
}

/**
 * The quote card of components/QuoteCard.tsx: whether a quote is locked, the
 * controls a locked or unlocked card offers, and the text that copying and
 * sharing put on the clipboard or the share sheet. The clipboard and the Web
 * Share API themselves are not modelled.
 */
module QuoteCard {
  import opened Types

  /** The inputs the card is rendered from. */
  datatype Props = Props(quote: Quote, isUnlocked: bool, isFavorited: bool)

  /** A control on the card, with what it hands to its callback. */
  datatype Control =
    | WatchAdButton(itemId: string)
    | FavoriteButton(itemId: string, filled: bool)
    | CopyButton(text: string)
    | ShareButton(text: string)

  /** What the card shows: the premium badge, whether the quote is blurred, and its controls in order. */
  datatype View = View(premiumBadge: bool, blurred: bool, controls: seq<Control>)

  /** `isLocked` (QuoteCard.tsx:16). */
  predicate IsLocked(q: Quote, isUnlocked: bool): (locked: bool)
    ensures locked ==> q.premium
    ensures isUnlocked ==> !locked
    ensures q.premium && !locked ==> isUnlocked
  {
    q.premium && !isUnlocked
  }

  /**
   * The copy and share text `"<text>" - <author>` (QuoteCard.tsx:19, 52): the
   * text between double quotes, then a spaced dash, then the author.
   */
  function ShareText(q: Quote): (r: string)
    ensures |r| == |q.text| + |q.author| + 5
    ensures r[0] == '"' && r[1..|q.text| + 1] == q.text
    ensures r[|q.text| + 1..|q.text| + 5] == "\" - " && r[|q.text| + 5..] == q.author
  {
    "\"" + q.text + "\" - " + q.author
  }

  /**
   * The rendered card (QuoteCard.tsx:60-102). A locked card offers only the
   * "Watch Ad to Unlock" button, which passes the quote's id; an unlocked one
   * offers favorite, copy and share, in that order. The badge depends on
   * `premium` alone.
   */
  function Render(p: Props): (v: View)
    ensures v.premiumBadge == p.quote.premium
    ensures v.blurred == IsLocked(p.quote, p.isUnlocked)
    ensures IsLocked(p.quote, p.isUnlocked) ==> v.controls == [WatchAdButton(p.quote.id)]
    ensures !IsLocked(p.quote, p.isUnlocked) ==>
              v.controls == [FavoriteButton(p.quote.id, p.isFavorited), CopyButton(ShareText(p.quote)),
                             ShareButton(ShareText(p.quote))]
  {
    var locked := IsLocked(p.quote, p.isUnlocked);
    View(p.quote.premium, locked,
         if locked then [WatchAdButton(p.quote.id)]
         else [FavoriteButton(p.quote.id, p.isFavorited), CopyButton(ShareText(p.quote)), ShareButton(ShareText(p.quote))])
  }

  /**
   * The watch-ad button appears exactly on locked cards, and a card without
   * the premium flag is never locked, whatever the unlocked set holds.
   */
  lemma WatchAdIffLocked(p: Props)
    ensures (exists c :: c in Render(p).controls && c.WatchAdButton?) <==> IsLocked(p.quote, p.isUnlocked)
    ensures !p.quote.premium ==> !IsLocked(p.quote, p.isUnlocked)
  {
    if IsLocked(p.quote, p.isUnlocked) {
      assert Render(p).controls[0].WatchAdButton?;
    }
  }

  /** Every control acts on this quote: the ids are the quote's id and the texts are its share text. */
  lemma ControlsTargetQuote(p: Props)
    ensures forall c :: c in Render(p).controls ==>
              match c
              case WatchAdButton(id) => id == p.quote.id
              case FavoriteButton(id, _) => id == p.quote.id
              case CopyButton(t) => t == ShareText(p.quote)
              case ShareButton(t) => t == ShareText(p.quote)
  {
  }
}

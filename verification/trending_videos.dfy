/** The trending-video card: its title capitalisation and its wishlist and cart toggles. */
module TrendingVideos {
  import opened Wrappers
  import opened JsStrings

  /**
   * `capitalizeFirstLetter(s)`: `s.charAt(0).toUpperCase() + s.slice(1)` on ASCII text.
   * The length is kept, the first character is upper-cased and the rest is untouched.
   */
  function CapitalizeFirstLetter(s: string): (r: string)
    ensures |r| == |s|
    ensures |s| > 0 ==> r[0] == UpperChar(s[0]) && r[1..] == s[1..]
    ensures |s| > 0 && 'a' <= s[0] <= 'z' ==> 'A' <= r[0] <= 'Z'
    ensures |s| > 0 && !('a' <= s[0] <= 'z') ==> r == s
  {
    ToUpper(if |s| > 0 then s[..1] else "") + (if |s| > 0 then s[1..] else "")
  }

  /** Capitalising an already capitalised title changes nothing. */
  lemma CapitalizeIdempotent(s: string)
    ensures CapitalizeFirstLetter(CapitalizeFirstLetter(s)) == CapitalizeFirstLetter(s)
  {
    if |s| > 0 {
      var r := CapitalizeFirstLetter(s);
      assert UpperChar(UpperChar(s[0])) == UpperChar(s[0]);
      assert CapitalizeFirstLetter(r)[0] == r[0];
    }
  }

  /** A purchasable variant of a product, as the card sees it. */
  datatype VariantRef = VariantRef(id: string)

  /** The fields of a product the card's toggles read. */
  datatype TrendingItem = TrendingItem(id: string, variants: seq<VariantRef>, isWhitelisted: bool, isInCart: bool)

  /** The request a toggle sends. */
  datatype ListAction = Remove(productId: string) | Add(productId: string, variantId: string)

  /** Reading `data.variants[0]._id` on an empty variant list throws a TypeError. */
  datatype ToggleError = NoVariant

  /**
   * The decision both toggles share: remove by product id when the item is already in the
   * list, otherwise add it with the product id and the first variant's id.
   */
  function Toggle(item: TrendingItem, inList: bool): (r: Result<ListAction, ToggleError>)
    ensures inList ==> r == Success(Remove(item.id))
    ensures !inList && |item.variants| > 0 ==> r == Success(Add(item.id, item.variants[0].id))
    ensures !inList && |item.variants| == 0 ==> r == Failure(NoVariant)
  {
    if inList then Success(Remove(item.id))
    else if |item.variants| == 0 then Failure(NoVariant)
    else Success(Add(item.id, item.variants[0].id))
  }

  /** `handleeWishlist`: the wishlist toggle, driven by `isWhitelisted`. */
  function WishlistAction(item: TrendingItem): (r: Result<ListAction, ToggleError>)
    ensures item.isWhitelisted <==> r.Success? && r.value.Remove?
    ensures !item.isWhitelisted ==> (r.Failure? <==> |item.variants| == 0)
    ensures r.Success? ==> r.value.productId == item.id
    ensures r.Success? && r.value.Add? ==> |item.variants| > 0 && r.value.variantId == item.variants[0].id
  {
    Toggle(item, item.isWhitelisted)
  }

  /** `handleCart`: the cart toggle, driven by `isInCart`. */
  function CartAction(item: TrendingItem): (r: Result<ListAction, ToggleError>)
    ensures item.isInCart <==> r.Success? && r.value.Remove?
    ensures !item.isInCart ==> (r.Failure? <==> |item.variants| == 0)
    ensures r.Success? ==> r.value.productId == item.id
    ensures r.Success? && r.value.Add? ==> |item.variants| > 0 && r.value.variantId == item.variants[0].id
  {
    Toggle(item, item.isInCart)
  }

  /** Each toggle reads only its own flag: the cart flag never changes the wishlist request, nor the reverse. */
  lemma TogglesIndependent(item: TrendingItem, b: bool)
    ensures WishlistAction(item.(isInCart := b)) == WishlistAction(item)
    ensures CartAction(item.(isWhitelisted := b)) == CartAction(item)
  {
  }
}

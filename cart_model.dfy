/** The cart as the storefront keeps it, and `mapCart`, the pure normaliser
    that turns whatever the commerce backend returns into that shape
    (context/CartContext.tsx). Money amounts are integers in minor units;
    the backend computes them and the client only copies or falls back. */
module CartModel {
  import opened Js

  /** A line item as the backend sends it; `None` is an absent field. */
  datatype ServerLineItem = ServerLineItem(
    id: string,
    title: Option<string>,
    productTitle: Option<string>,
    description: Option<string>,
    productDescription: Option<string>,
    thumbnail: Option<string>,
    productThumbnail: Option<string>,   // item.product?.thumbnail
    variantId: string,
    variantTitle: Option<string>,       // item.variant?.title
    variantTitleFlat: Option<string>,   // item.variant_title
    quantity: int,
    unitPrice: int,
    total: Option<int>,
    subtotal: Option<int>)

  /** A cart as the backend sends it. `regionId` is "" when absent. */
  datatype ServerCart = ServerCart(
    id: string,
    items: Option<seq<ServerLineItem>>,
    subtotal: Option<int>,
    itemSubtotal: Option<int>,
    total: Option<int>,
    regionId: string,
    currencyCode: Option<string>,
    regionCurrencyCode: Option<string>, // region?.currency_code
    email: Option<string>,
    completed: bool,                    // completed_at is set
    paymentCollection: Option<string>)  // id of payment_collection

  /** A line of the client's cart. */
  datatype LineItem = LineItem(
    id: string,
    title: string,
    description: string,
    thumbnail: Option<string>,
    variantId: string,
    variantTitle: string,
    quantity: int,
    unitPrice: int,
    total: int)

  /** The client's cart. */
  datatype Cart = Cart(
    id: string,
    items: seq<LineItem>,
    subtotal: int,
    total: int,
    regionId: string,
    currencyCode: string,
    email: Option<string>)

  const DefaultCurrency: string := "usd"

  /** `item.thumbnail || item.product?.thumbnail || null` */
  function ThumbnailOf(i: ServerLineItem): Option<string> {
    if Truthy(i.thumbnail) then i.thumbnail
    else if Truthy(i.productThumbnail) then i.productThumbnail
    else None
  }

  /** `item.total || item.subtotal || item.unit_price * item.quantity`.
      A total or subtotal of 0 is falsy and falls through to the next
      candidate, so a line total of 0 can only come from price times quantity. */
  function LineTotal(i: ServerLineItem): (t: int)
    ensures TruthyNum(i.total) ==> t == i.total.value
    ensures !TruthyNum(i.total) && TruthyNum(i.subtotal) ==> t == i.subtotal.value
    ensures t == 0 ==> i.unitPrice * i.quantity == 0
    ensures !TruthyNum(i.total) && !TruthyNum(i.subtotal) ==> t == i.unitPrice * i.quantity
  {
    if TruthyNum(i.total) then i.total.value
    else if TruthyNum(i.subtotal) then i.subtotal.value
    else i.unitPrice * i.quantity
  }

  /** One line of `mapCart`. */
  function MapItem(i: ServerLineItem): (l: LineItem)
    ensures l.id == i.id && l.variantId == i.variantId
    ensures l.quantity == i.quantity && l.unitPrice == i.unitPrice
    ensures l.total == LineTotal(i)
    ensures l.title == OrStr3(i.title, i.productTitle, "")
    ensures l.description == OrStr3(i.description, i.productDescription, "")
    ensures l.variantTitle == OrStr3(i.variantTitle, i.variantTitleFlat, "")
    ensures Truthy(i.thumbnail) ==> l.thumbnail == i.thumbnail
    ensures !Truthy(i.thumbnail) && Truthy(i.productThumbnail) ==> l.thumbnail == i.productThumbnail
    ensures !Truthy(i.thumbnail) && !Truthy(i.productThumbnail) ==> l.thumbnail == None
    ensures NormalItem(l)
  {
    LineItem(
      i.id,
      OrStr3(i.title, i.productTitle, ""),
      OrStr3(i.description, i.productDescription, ""),
      ThumbnailOf(i),
      i.variantId,
      OrStr3(i.variantTitle, i.variantTitleFlat, ""),
      i.quantity,
      i.unitPrice,
      LineTotal(i))
  }

  /** `(medusaCart.items || []).map(...)` */
  function MapItems(items: seq<ServerLineItem>): (ls: seq<LineItem>)
    ensures |ls| == |items|
    ensures forall k :: 0 <= k < |items| ==> ls[k] == MapItem(items[k])
  {
    seq(|items|, k requires 0 <= k < |items| => MapItem(items[k]))
  }

  /** The items of a server cart, `[]` when the field is absent. */
  function ServerItems(s: ServerCart): seq<ServerLineItem> {
    s.items.GetOr([])
  }

  /** `mapCart`: the server cart in the client's shape. Identity, region and
      email are copied; every line keeps its quantity and price; the result
      is always a normalised cart. */
  function MapCart(s: ServerCart): (c: Cart)
    ensures c.id == s.id && c.regionId == s.regionId && c.email == s.email
    ensures c.items == MapItems(ServerItems(s))
    ensures |c.items| == |ServerItems(s)|
    ensures forall k :: 0 <= k < |c.items| ==>
      c.items[k].id == ServerItems(s)[k].id && c.items[k].quantity == ServerItems(s)[k].quantity
    ensures TruthyNum(s.subtotal) ==> c.subtotal == s.subtotal.value
    ensures !TruthyNum(s.subtotal) && TruthyNum(s.itemSubtotal) ==> c.subtotal == s.itemSubtotal.value
    ensures !TruthyNum(s.subtotal) && !TruthyNum(s.itemSubtotal) ==> c.subtotal == 0
    ensures TruthyNum(s.total) ==> c.total == s.total.value
    ensures !TruthyNum(s.total) ==> c.total == 0
    ensures Truthy(s.currencyCode) ==> c.currencyCode == s.currencyCode.value
    ensures !Truthy(s.currencyCode) && Truthy(s.regionCurrencyCode) ==> c.currencyCode == s.regionCurrencyCode.value
    ensures !Truthy(s.currencyCode) && !Truthy(s.regionCurrencyCode) ==> c.currencyCode == DefaultCurrency
    ensures Normalised(c)
  {
    Cart(
      s.id,
      MapItems(ServerItems(s)),
      if TruthyNum(s.subtotal) then s.subtotal.value
      else if TruthyNum(s.itemSubtotal) then s.itemSubtotal.value
      else 0,
      if TruthyNum(s.total) then s.total.value else 0,
      s.regionId,
      OrStr3(s.currencyCode, s.regionCurrencyCode, DefaultCurrency),
      s.email)
  }

  /** A line that `mapCart` could have produced: its thumbnail is absent or
      non-empty, and a zero total means price times quantity is zero. */
  predicate NormalItem(l: LineItem) {
    && (l.thumbnail.Some? ==> l.thumbnail.value != "")
    && (l.total == 0 ==> l.unitPrice * l.quantity == 0)
  }

  /** A cart that `mapCart` could have produced. */
  predicate Normalised(c: Cart) {
    && c.currencyCode != ""
    && forall k :: 0 <= k < |c.items| ==> NormalItem(c.items[k])
  }

  /** The line as the backend would echo it back. */
  function ItemToServer(l: LineItem): ServerLineItem {
    ServerLineItem(l.id, Some(l.title), None, Some(l.description), None,
      l.thumbnail, None, l.variantId, Some(l.variantTitle), None,
      l.quantity, l.unitPrice, Some(l.total), None)
  }

  /** The cart as the backend would echo it back. */
  function ToServer(c: Cart): ServerCart {
    ServerCart(c.id, Some(seq(|c.items|, k requires 0 <= k < |c.items| => ItemToServer(c.items[k]))),
      Some(c.subtotal), None, Some(c.total), c.regionId, Some(c.currencyCode), None,
      c.email, false, None)
  }

  /** A normalised line survives a trip through the backend's shape unchanged. */
  lemma ItemRoundTrip(l: LineItem)
    requires NormalItem(l)
    ensures MapItem(ItemToServer(l)) == l
  {
  }

  /** Every normalised cart is a fixpoint of `mapCart`: echoing it back in
      the backend's shape and mapping again changes nothing. */
  lemma {:induction false} CartRoundTrip(c: Cart)
    requires Normalised(c)
    ensures MapCart(ToServer(c)) == c
  {
    var items := MapItems(ServerItems(ToServer(c)));
    assert |items| == |c.items|;
    forall k | 0 <= k < |c.items|
      ensures items[k] == c.items[k]
    {
      ItemRoundTrip(c.items[k]);
    }
    assert items == c.items;
  }

  /** `mapCart` is idempotent: re-normalising a cart the client already
      holds never alters it. */
  lemma {:induction false} MapCartIdempotent(s: ServerCart)
    ensures MapCart(ToServer(MapCart(s))) == MapCart(s)
  {
    CartRoundTrip(MapCart(s));
  }

  /** A zero total on a line counts as absent: the line total is the same
      as if the backend had not sent a total at all. */
  lemma ZeroTotalFallsThrough(i: ServerLineItem)
    requires i.total == Some(0)
    ensures MapItem(i).total == MapItem(i.(total := None)).total
  {
  }

  /** Reference definition: the total quantity of a list of lines. */
  function SumQuantities(items: seq<LineItem>): int {
    if items == [] then 0 else items[0].quantity + SumQuantities(items[1..])
  }

  /** `items.reduce((acc, item) => acc + item.quantity, acc)` */
  function FoldQuantities(items: seq<LineItem>, acc: int): int
    decreases |items|
  {
    if items == [] then acc else FoldQuantities(items[1..], acc + items[0].quantity)
  }

  /** The provider's left fold agrees with the reference sum. */
  lemma {:induction false} FoldIsSum(items: seq<LineItem>, acc: int)
    ensures FoldQuantities(items, acc) == acc + SumQuantities(items)
    decreases |items|
  {
    if items != [] {
      FoldIsSum(items[1..], acc + items[0].quantity);
    }
  }

  /** `cart?.items.reduce((acc, item) => acc + item.quantity, 0) || 0`:
      the number of units in the cart, 0 without a cart. */
  function ItemCount(cart: Option<Cart>): (n: int)
    ensures cart.None? ==> n == 0
    ensures cart.Some? ==> n == SumQuantities(cart.value.items)
  {
    match cart
    case None => 0
    case Some(c) =>
      FoldIsSum(c.items, 0);
      FoldQuantities(c.items, 0)
  }

  /** With positive quantities, the count is positive exactly when the cart
      has a line. */
  lemma {:induction false} CountPositiveIffItems(items: seq<LineItem>)
    requires forall k :: 0 <= k < |items| ==> items[k].quantity > 0
    ensures SumQuantities(items) >= 0
    ensures SumQuantities(items) > 0 <==> items != []
  {
    if items != [] {
      CountPositiveIffItems(items[1..]);
    }
  }

  /** Reference sum over the backend's lines. */
  function SumServerQuantities(items: seq<ServerLineItem>): int {
    if items == [] then 0 else items[0].quantity + SumServerQuantities(items[1..])
  }

  /** The item count of a mapped cart is the total quantity the backend
      reported; `mapCart` drops and invents no units. */
  lemma {:induction false} CountOfMappedCart(s: ServerCart)
    ensures ItemCount(Some(MapCart(s))) == SumServerQuantities(ServerItems(s))
  {
    MappedSum(ServerItems(s));
  }

  lemma {:induction false} MappedSum(items: seq<ServerLineItem>)
    ensures SumQuantities(MapItems(items)) == SumServerQuantities(items)
    decreases |items|
  {
    if items != [] {
      assert MapItems(items)[1..] == MapItems(items[1..]);
      MappedSum(items[1..]);
    }
  }
}

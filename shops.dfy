/**
 * The shop part of the customer app: the shared cart store and the three
 * pages that read it (cart and checkout, shop detail, shop list).
 * Prices and quantities are whole numbers (CFA and units).
 */
module ShopsContext {
  import opened Seqs

  datatype CartItem = CartItem(productId: string, shopId: string, name: string, price: int, quantity: int)

  /** No two items share a product id. */
  predicate UniqueProducts(items: seq<CartItem>) {
    forall i, j :: 0 <= i < j < |items| ==> items[i].productId != items[j].productId
  }

  predicate HasProduct(items: seq<CartItem>, productId: string) {
    exists i :: 0 <= i < |items| && items[i].productId == productId
  }

  /** The sum of the quantities (`reduce((sum, item) => sum + item.quantity, 0)`). */
  function TotalQuantity(items: seq<CartItem>): int {
    if |items| == 0 then 0 else items[0].quantity + TotalQuantity(items[1..])
  }

  /** The sum of price times quantity. */
  function TotalPrice(items: seq<CartItem>): int {
    if |items| == 0 then 0 else items[0].price * items[0].quantity + TotalPrice(items[1..])
  }

  /** `addToCart`: an item for a product already in the cart adds its quantity there; otherwise it is appended. */
  function AddItem(items: seq<CartItem>, newItem: CartItem): (r: seq<CartItem>)
    ensures !HasProduct(items, newItem.productId) ==> r == items + [newItem]
    ensures HasProduct(items, newItem.productId) ==>
      && |r| == |items|
      && forall i :: 0 <= i < |items| ==>
           r[i] == if items[i].productId == newItem.productId
                   then items[i].(quantity := items[i].quantity + newItem.quantity) else items[i]
  {
    if exists i :: 0 <= i < |items| && items[i].productId == newItem.productId then
      Replace(items, (it: CartItem) => it.productId == newItem.productId,
        (it: CartItem) => it.(quantity := it.quantity + newItem.quantity))
    else items + [newItem]
  }

  /** `removeFromCart`: exactly the items of that product go; the rest keep their order. */
  function RemoveItems(items: seq<CartItem>, productId: string): (r: seq<CartItem>)
    ensures forall it :: it in r <==> it in items && it.productId != productId
    ensures !HasProduct(r, productId)
    ensures IsSubsequence(r, items)
  {
    var keep := (it: CartItem) => it.productId != productId;
    FilterIsSubsequence(items, keep);
    Filter(items, keep)
  }

  /** `updateQuantity`: zero or less removes the product; otherwise its quantity is set. */
  function SetQuantity(items: seq<CartItem>, productId: string, quantity: int): (r: seq<CartItem>)
    ensures quantity <= 0 ==> r == RemoveItems(items, productId)
    ensures quantity > 0 ==> |r| == |items| && forall i :: 0 <= i < |items| ==>
      r[i] == if items[i].productId == productId then items[i].(quantity := quantity) else items[i]
  {
    if quantity <= 0 then RemoveItems(items, productId)
    else Replace(items, (it: CartItem) => it.productId == productId, (it: CartItem) => it.(quantity := quantity))
  }

  /** Updating a product the cart does not hold, to a positive quantity, changes nothing. */
  lemma SetQuantityAbsent(items: seq<CartItem>, productId: string, quantity: int)
    requires !HasProduct(items, productId) && quantity > 0
    ensures SetQuantity(items, productId, quantity) == items
  {
  }

  /** Adding keeps product ids unique. */
  lemma AddKeepsUnique(items: seq<CartItem>, newItem: CartItem)
    requires UniqueProducts(items)
    ensures UniqueProducts(AddItem(items, newItem))
  {
    var r := AddItem(items, newItem);
    if !HasProduct(items, newItem.productId) {
      forall i, j | 0 <= i < j < |r|
        ensures r[i].productId != r[j].productId
      {
        if j == |items| {
          assert r[i] == items[i];
        }
      }
    }
  }

  /** Two carts that differ only at position k differ in their totals by that position's difference. */
  lemma {:induction false} TotalsDifferAt(a: seq<CartItem>, b: seq<CartItem>, k: nat)
    requires |a| == |b| && k < |a|
    requires forall i :: 0 <= i < |a| && i != k ==> a[i] == b[i]
    ensures TotalQuantity(b) == TotalQuantity(a) - a[k].quantity + b[k].quantity
    ensures TotalPrice(b) == TotalPrice(a) - a[k].price * a[k].quantity + b[k].price * b[k].quantity
    decreases |a|
  {
    if k > 0 {
      TotalsDifferAt(a[1..], b[1..], k - 1);
    } else {
      assert a[1..] == b[1..];
    }
  }

  lemma {:induction false} TotalsOfAppend(items: seq<CartItem>, x: CartItem)
    ensures TotalQuantity(items + [x]) == TotalQuantity(items) + x.quantity
    ensures TotalPrice(items + [x]) == TotalPrice(items) + x.price * x.quantity
    decreases |items|
  {
    if |items| == 0 {
      assert TotalQuantity([x]) == x.quantity + TotalQuantity([]);
      assert TotalPrice([x]) == x.price * x.quantity + TotalPrice([]);
    } else {
      assert (items + [x])[1..] == items[1..] + [x];
      TotalsOfAppend(items[1..], x);
    }
  }

  /** In a cart with unique products, adding raises the item count by exactly the added quantity. */
  lemma AddRaisesTotalQuantity(items: seq<CartItem>, newItem: CartItem)
    requires UniqueProducts(items)
    ensures TotalQuantity(AddItem(items, newItem)) == TotalQuantity(items) + newItem.quantity
  {
    if HasProduct(items, newItem.productId) {
      var k :| 0 <= k < |items| && items[k].productId == newItem.productId;
      TotalsDifferAt(items, AddItem(items, newItem), k);
    } else {
      TotalsOfAppend(items, newItem);
    }
  }

  /** The cart store: one list of items, replaced by each operation. */
  class Cart {
    var cartItems: seq<CartItem>

    constructor ()
      ensures cartItems == []
    {
      cartItems := [];
    }

    method AddToCart(newItem: CartItem)
      modifies this
      ensures cartItems == AddItem(old(cartItems), newItem)
    {
      cartItems := AddItem(cartItems, newItem);
    }

    method RemoveFromCart(productId: string)
      modifies this
      ensures cartItems == RemoveItems(old(cartItems), productId)
    {
      cartItems := RemoveItems(cartItems, productId);
    }

    /** `updateQuantity`: a non-positive quantity delegates to `removeFromCart`. */
    method UpdateQuantity(productId: string, quantity: int)
      modifies this
      ensures cartItems == SetQuantity(old(cartItems), productId, quantity)
    {
      if quantity <= 0 {
        RemoveFromCart(productId);
        return;
      }
      cartItems := Replace(cartItems, (it: CartItem) => it.productId == productId,
        (it: CartItem) => it.(quantity := quantity));
    }

    method ClearCart()
      modifies this
      ensures cartItems == []
    {
      cartItems := [];
    }
  }
}

/** The cart page: order summary arithmetic and the checkout flow. */
module ShopsCart {
  import opened ShopsContext

  const DeliveryFeeAmount := 500
  const DiscountThreshold := 10000

  function Subtotal(items: seq<CartItem>): int {
    TotalPrice(items)
  }

  /** 500 for a non-empty order value, 0 otherwise. */
  function DeliveryFee(subtotal: int): (fee: int)
    ensures fee == 500 <==> subtotal > 0
    ensures fee == 0 <==> subtotal <= 0
  {
    if subtotal > 0 then DeliveryFeeAmount else 0
  }

  /** 5 % of the subtotal, rounded down, above 10000; nothing at or below it. */
  function Discount(subtotal: int): (d: int)
    ensures subtotal <= DiscountThreshold ==> d == 0
    ensures subtotal > DiscountThreshold ==> d * 20 <= subtotal < (d + 1) * 20
    ensures 0 <= d && (subtotal > DiscountThreshold ==> 500 <= d < subtotal)
  {
    if subtotal > DiscountThreshold then subtotal * 5 / 100 else 0
  }

  function Total(subtotal: int): int {
    subtotal + DeliveryFee(subtotal) - Discount(subtotal)
  }

  /** The amount due never exceeds the subtotal plus the fee, and is positive for any non-empty order value. */
  lemma TotalBounds(subtotal: int)
    requires subtotal > 0
    ensures subtotal < Total(subtotal) + Discount(subtotal) == subtotal + 500
    ensures 0 < Total(subtotal) <= subtotal + 500
  {
  }

  /** The checkout part of the page; `completionPending` is the 2 s timeout that finishes the order. */
  datatype CheckoutPage = CheckoutPage(
    deliveryAddress: string, isProcessing: bool, orderComplete: bool, completionPending: bool, items: seq<CartItem>)

  /** The "Order Now" button is enabled only when not processing and the cart is not empty. */
  predicate CheckoutEnabled(p: CheckoutPage) {
    !p.isProcessing && |p.items| > 0
  }

  /** Pressing "Order Now": an empty address is refused without processing; otherwise processing starts. */
  function PressCheckout(p: CheckoutPage): (r: CheckoutPage)
    ensures !CheckoutEnabled(p) || p.deliveryAddress == "" ==> r == p
    ensures CheckoutEnabled(p) && p.deliveryAddress != "" ==>
      r == p.(isProcessing := true, completionPending := true)
  {
    if !CheckoutEnabled(p) || p.deliveryAddress == "" then p
    else p.(isProcessing := true, completionPending := true)
  }

  /** The checkout timeout: processing ends, the order is complete and the cart is cleared. */
  function CompletionFires(p: CheckoutPage): (r: CheckoutPage)
    ensures !p.completionPending ==> r == p
    ensures p.completionPending ==> r.items == [] && r.orderComplete && !r.isProcessing
  {
    if !p.completionPending then p
    else p.(isProcessing := false, orderComplete := true, completionPending := false, items := [])
  }

  /** A checkout with an address ends with an empty cart and a completed order; without one nothing happens. */
  lemma CheckoutOutcome(p: CheckoutPage)
    requires CheckoutEnabled(p) && !p.completionPending
    ensures p.deliveryAddress == "" ==> CompletionFires(PressCheckout(p)) == p
    ensures p.deliveryAddress != "" ==>
      var r := CompletionFires(PressCheckout(p));
      r.items == [] && r.orderComplete && !r.isProcessing && r.deliveryAddress == p.deliveryAddress
  {
  }
}

/** The shop page: product categories, the category filter, per-product quantities and adding to the cart. */
module ShopDetail {
  import opened Wrappers
  import opened Seqs
  import opened ShopsContext

  datatype Product = Product(id: string, name: string, price: int, category: string)
  datatype Shop = Shop(id: string, name: string, category: string, products: seq<Product>)

  /** `shops.find(s => s.id === shopId)`; `None` is the "Shop not found" view. */
  function FindShop(shops: seq<Shop>, shopId: Option<string>): (r: Option<Shop>)
    ensures r.None? <==> forall s :: s in shops ==> Some(s.id) != shopId
    ensures r.Some? ==> r.value in shops && Some(r.value.id) == shopId
    ensures forall i :: 0 <= i < |shops| && Some(shops[i].id) == shopId && (forall j :: 0 <= j < i ==> Some(shops[j].id) != shopId) ==>
      r == Some(shops[i])
  {
    if |shops| == 0 then None
    else if Some(shops[0].id) == shopId then Some(shops[0])
    else FindShop(shops[1..], shopId)
  }

  /** The position of the first occurrence of `x` in `s`. */
  function FirstIndex(s: seq<string>, x: string): (i: nat)
    requires x in s
    ensures i < |s| && s[i] == x && x !in s[..i]
  {
    if s[0] == x then 0 else 1 + FirstIndex(s[1..], x)
  }

  lemma FirstIndexOfPrefix(s: seq<string>, n: nat, x: string)
    requires n <= |s| && x in s[..n]
    ensures FirstIndex(s, x) == FirstIndex(s[..n], x) < n
  {
    var i := FirstIndex(s[..n], x);
    var j := FirstIndex(s, x);
    assert s[..n][..i] == s[..i];
    assert forall k :: 0 <= k < j ==> s[..j][k] == s[k];
    assert forall k :: 0 <= k < i ==> s[..i][k] == s[k];
    assert s[i] == x && s[j] == x;
  }

  /** `Array.from(new Set(values))`: each value once, in order of first appearance. */
  function Distinct(s: seq<string>): (r: seq<string>)
    ensures forall x :: x in r <==> x in s
    ensures forall i, j :: 0 <= i < j < |r| ==> r[i] != r[j]
    ensures forall i, j :: 0 <= i < j < |r| ==> FirstIndex(s, r[i]) < FirstIndex(s, r[j])
    decreases |s|
  {
    if |s| == 0 then []
    else
      var init := s[..|s| - 1];
      var last := s[|s| - 1];
      var prev := Distinct(init);
      assert s == init + [last];
      FirstIndicesKept(s, prev);
      if last in prev then prev
      else
        assert FirstIndex(s, last) == |s| - 1 by {
          assert last !in init;
        }
        prev + [last]
  }

  /** For values already seen in all but the last position, first indices are unchanged by the last. */
  lemma FirstIndicesKept(s: seq<string>, prev: seq<string>)
    requires |s| > 0 && forall x :: x in prev ==> x in s[..|s| - 1]
    ensures forall x :: x in prev ==> FirstIndex(s, x) == FirstIndex(s[..|s| - 1], x) < |s| - 1
  {
    var n := |s| - 1;
    forall x | x in prev
      ensures FirstIndex(s, x) == FirstIndex(s[..n], x) < n
    {
      assert x in s[..n];
      FirstIndexOfPrefix(s, n, x);
    }
  }

  function Categories(products: seq<Product>): seq<string> {
    Distinct(seq(|products|, i requires 0 <= i < |products| => products[i].category))
  }

  /** `selectedCategory || categories[0]`: no (or an empty) selection falls back to the first category, if any. */
  function DisplayedCategory(selected: Option<string>, categories: seq<string>): (c: Option<string>)
    ensures selected.Some? && selected.value != "" ==> c == selected
    ensures (selected.None? || selected.value == "") && |categories| > 0 ==> c == Some(categories[0])
    ensures (selected.None? || selected.value == "") && |categories| == 0 ==> c.None?
  {
    if selected.Some? && selected.value != "" then selected
    else if |categories| > 0 then Some(categories[0]) else None
  }

  /** The products of the displayed category, in shop order. */
  function FilteredProducts(products: seq<Product>, displayed: Option<string>): (r: seq<Product>)
    ensures forall p :: p in r <==> p in products && Some(p.category) == displayed
    ensures IsSubsequence(r, products)
  {
    var p := (x: Product) => Some(x.category) == displayed;
    FilterIsSubsequence(products, p);
    Filter(products, p)
  }

  /** Without a selection the page opens on the first product's category, and that product is listed. */
  lemma DefaultShowsFirstProduct(products: seq<Product>)
    requires |products| > 0
    ensures DisplayedCategory(None, Categories(products)) == Some(products[0].category)
    ensures products[0] in FilteredProducts(products, DisplayedCategory(None, Categories(products)))
  {
    var cats := seq(|products|, i requires 0 <= i < |products| => products[i].category);
    var c := Categories(products);
    assert cats[0] in c;
    var k :| 0 <= k < |c| && c[k] == cats[0];
    assert FirstIndex(cats, c[k]) == 0;
    assert FirstIndex(cats, c[0]) >= 0;
    assert k == 0;
  }

  /** `quantities[id] || 0`. */
  function Selected(quantities: map<string, int>, id: string): int {
    if id in quantities then quantities[id] else 0
  }

  /** The per-product quantity pickers and the "Add" buttons of one shop page. */
  class ShopPage {
    const shop: Shop
    var quantities: map<string, int>

    constructor (s: Shop)
      ensures shop == s && quantities == map[]
    {
      shop := s;
      quantities := map[];
    }

    /** "−": one less, never below 0. */
    method Decrement(productId: string)
      modifies this
      ensures quantities == old(quantities)[productId := if Selected(old(quantities), productId) - 1 < 0 then 0
                                                        else Selected(old(quantities), productId) - 1]
      ensures Selected(quantities, productId) >= 0
    {
      var q := Selected(quantities, productId) - 1;
      quantities := quantities[productId := if q < 0 then 0 else q];
    }

    /** "+": one more. */
    method Increment(productId: string)
      modifies this
      ensures quantities == old(quantities)[productId := Selected(old(quantities), productId) + 1]
    {
      quantities := quantities[productId := Selected(quantities, productId) + 1];
    }

    /** `handleAddToCart(product, quantity)`: only a positive quantity is added, after which the picker resets to 0. */
    method HandleAddToCart(cart: Cart, product: Product, quantity: int)
      modifies this, cart
      ensures quantity > 0 ==>
        && cart.cartItems == AddItem(old(cart.cartItems),
                                     CartItem(product.id, shop.id, product.name, product.price, quantity))
        && quantities == old(quantities)[product.id := 0]
      ensures quantity <= 0 ==> cart.cartItems == old(cart.cartItems) && quantities == old(quantities)
    {
      if quantity > 0 {
        cart.AddToCart(CartItem(product.id, shop.id, product.name, product.price, quantity));
        quantities := quantities[product.id := 0];
      }
    }
  }

  /** The sticky cart preview appears only when the cart holds at least one unit. */
  predicate CartPreviewShown(items: seq<CartItem>) {
    TotalQuantity(items) > 0
  }

  /** Starting from an empty cart, a positive add makes the preview appear with exactly that many items. */
  lemma AddShowsPreview(product: Product, shopId: string, quantity: int)
    requires quantity > 0
    ensures var items := AddItem([], CartItem(product.id, shopId, product.name, product.price, quantity));
      CartPreviewShown(items) && TotalQuantity(items) == quantity
  {
    AddRaisesTotalQuantity([], CartItem(product.id, shopId, product.name, product.price, quantity));
  }
}

/** The shop list: search and category filter, and the floating cart button. */
module ShopsHome {
  import opened Seqs
  import opened Text
  import opened ShopsContext

  datatype ShopEntry = ShopEntry(id: string, name: string, category: string)

  /** Listed when the lower-cased name or category contains the lower-cased term, and the category is selected or "all" is. */
  predicate Listed(shop: ShopEntry, searchTerm: string, selectedCategory: string) {
    && (Contains(ToLower(shop.name), ToLower(searchTerm)) || Contains(ToLower(shop.category), ToLower(searchTerm)))
    && (selectedCategory == "all" || shop.category == selectedCategory)
  }

  function FilteredShops(shops: seq<ShopEntry>, searchTerm: string, selectedCategory: string): (r: seq<ShopEntry>)
    ensures forall s :: s in r <==> s in shops && Listed(s, searchTerm, selectedCategory)
    ensures IsSubsequence(r, shops)
  {
    var p := (s: ShopEntry) => Listed(s, searchTerm, selectedCategory);
    FilterIsSubsequence(shops, p);
    Filter(shops, p)
  }

  /** An empty search with "all" lists every shop, in the original order. */
  lemma EmptySearchListsAll(shops: seq<ShopEntry>)
    ensures FilteredShops(shops, "", "all") == shops
  {
    forall s | s in shops
      ensures Listed(s, "", "all")
    {
      EmptyIsContained(ToLower(s.name));
    }
    FilterAll(shops, (s: ShopEntry) => Listed(s, "", "all"));
  }

  /** The floating cart button is shown only with at least one unit in the cart. */
  predicate FloatingCartShown(items: seq<CartItem>) {
    TotalQuantity(items) > 0
  }
}

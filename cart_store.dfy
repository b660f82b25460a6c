/** The cart store of `src/store/cartStore.js`: a list of line items keyed by a composite
    id, five actions that replace the list and hand it to a 1500 ms trailing-edge debounce,
    and three derived getters that tolerate a missing cart. */
module CartStore {
  import opened Js
  import Debounce
  import Grouping
  import Api

  /** Delay of the debounced full-snapshot sync, in ticks of one millisecond. */
  const SYNC_WAIT: nat := 1500
  const PLACEHOLDER_IMAGE: string := "https://placehold.co/100x100/f4f4f5/a1a1aa?text=Sadesa"
  /** Bucket key and name for items without a seller. */
  const FALLBACK_SELLER_KEY: string := "toko_lain"
  const FALLBACK_SELLER_NAME: string := "Toko Lain"
  const SYNC_ERROR_PREFIX: string := "Gagal sinkronisasi keranjang: "

  /** The shop a product belongs to (`product.toko`). */
  datatype Toko = Toko(idPedagang: Option<string>, namaToko: Option<string>)

  datatype Variation = Variation(id: string, hargaVariasi: int, deskripsi: string)

  /** The product record handed to `addItem`; `gambarUnggulan` and the entries of
      `galeriFoto` are thumbnail URLs. */
  datatype Product = Product(
    id: string, namaProduk: string, hargaDasar: int,
    gambarUnggulan: Option<string>, galeriFoto: seq<Option<string>>,
    toko: Option<Toko>)

  datatype ItemVariation = ItemVariation(id: string, deskripsi: string)

  /** One cart entry. Prices and quantities are JavaScript numbers, modelled as integers. */
  datatype LineItem = LineItem(
    id: string, productId: string, name: string, price: int, quantity: int,
    image: string, variation: Option<ItemVariation>, toko: Option<Toko>, sellerId: Option<string>)

  // ---------------------------------------------------------------------------------
  // Building a line item

  /** The composite id: `<productId>_<variationId>`, or `<productId>_0` without a variation. */
  function ItemId(product: Product, variation: Option<Variation>): (id: string)
    ensures |id| > |product.id| && id[..|product.id|] == product.id && id[|product.id|] == '_'
    ensures variation.None? ==> id[|product.id| + 1..] == "0"
    ensures variation.Some? ==> id[|product.id| + 1..] == variation.value.id
  {
    if variation.Some? then product.id + "_" + variation.value.id else product.id + "_0"
  }

  /** Thumbnail of the featured image, else of the first gallery photo, else the placeholder. */
  function ProductImage(product: Product): string {
    if Truthy(product.gambarUnggulan) then product.gambarUnggulan.value
    else if |product.galeriFoto| > 0 && Truthy(product.galeriFoto[0]) then product.galeriFoto[0].value
    else PLACEHOLDER_IMAGE
  }

  /** The item `addItem` builds. The source reads `product.toko.id_pedagang` without a
      null check, so a product without a shop is excluded. */
  function NewItem(product: Product, variation: Option<Variation>, quantity: int): (item: LineItem)
    requires product.toko.Some?
    ensures item.id == ItemId(product, variation)
    ensures item.price == if variation.Some? then variation.value.hargaVariasi else product.hargaDasar
    ensures item.quantity == quantity && item.sellerId == product.toko.value.idPedagang
  {
    LineItem(
      ItemId(product, variation), product.id, product.namaProduk,
      if variation.Some? then variation.value.hargaVariasi else product.hargaDasar,
      quantity, ProductImage(product),
      if variation.Some? then Some(ItemVariation(variation.value.id, variation.value.deskripsi)) else None,
      product.toko, product.toko.value.idPedagang)
  }

  predicate NoUnderscore(s: string) {
    '_' !in s
  }

  /** In `a + "_" + b` with no `_` in `a`, the first `_` is the separator. */
  lemma SeparatorIsFirstUnderscore(a: string, b: string)
    requires NoUnderscore(a)
    ensures forall j :: 0 <= j <= |a| ==> ((a + "_" + b)[j] == '_' <==> j == |a|)
  {
    forall j | 0 <= j < |a| ensures (a + "_" + b)[j] == a[j] && a[j] in a {
    }
  }

  lemma UnderscoreSplit(a: string, b: string, c: string, d: string)
    requires NoUnderscore(a) && NoUnderscore(c)
    requires a + "_" + b == c + "_" + d
    ensures a == c && b == d
  {
    var s := a + "_" + b;
    SeparatorIsFirstUnderscore(a, b);
    SeparatorIsFirstUnderscore(c, d);
    assert s[|a|] == '_' && s[|c|] == '_';
    assert |a| == |c|;
    assert a == s[..|a|] == c;
    assert b == s[|a| + 1..] == d;
  }

  /** When product and variation ids contain no `_` and no variation has id `0`, the
      composite id determines the product and the variation. */
  lemma ItemIdDeterminesProductAndVariation(p1: Product, v1: Option<Variation>, p2: Product, v2: Option<Variation>)
    requires NoUnderscore(p1.id) && NoUnderscore(p2.id)
    requires v1.Some? ==> NoUnderscore(v1.value.id) && v1.value.id != "0"
    requires v2.Some? ==> NoUnderscore(v2.value.id) && v2.value.id != "0"
    requires ItemId(p1, v1) == ItemId(p2, v2)
    ensures p1.id == p2.id
    ensures v1.Some? == v2.Some? && (v1.Some? ==> v1.value.id == v2.value.id)
  {
    var b := if v1.Some? then v1.value.id else "0";
    var d := if v2.Some? then v2.value.id else "0";
    assert ItemId(p1, v1) == p1.id + "_" + b;
    assert ItemId(p2, v2) == p2.id + "_" + d;
    UnderscoreSplit(p1.id, b, p2.id, d);
  }

  /** A variation whose id is `0` shares its id with the product's variation-free entry. */
  lemma {:induction false} VariationZeroSharesId(p: Product, v: Variation)
    requires v.id == "0"
    ensures ItemId(p, Some(v)) == ItemId(p, None)
  {
  }

  // ---------------------------------------------------------------------------------
  // The new carts the actions build

  predicate HasId(cart: seq<LineItem>, id: string) {
    exists i | 0 <= i < |cart| :: cart[i].id == id
  }

  ghost predicate UniqueIds(cart: seq<LineItem>) {
    forall i, j :: 0 <= i < j < |cart| ==> cart[i].id != cart[j].id
  }

  /** `cart.map(i => i.id === id ? { ...i, quantity: i.quantity + delta } : i)` */
  function BumpQuantity(cart: seq<LineItem>, id: string, delta: int): (r: seq<LineItem>)
    ensures |r| == |cart|
    ensures forall i :: 0 <= i < |cart| ==>
              r[i] == if cart[i].id == id then cart[i].(quantity := cart[i].quantity + delta) else cart[i]
  {
    seq(|cart|, i requires 0 <= i < |cart| =>
      if cart[i].id == id then cart[i].(quantity := cart[i].quantity + delta) else cart[i])
  }

  /** `cart.map(i => i.id === id ? { ...i, quantity } : i)` */
  function SetQuantity(cart: seq<LineItem>, id: string, quantity: int): (r: seq<LineItem>)
    ensures |r| == |cart|
    ensures forall i :: 0 <= i < |cart| ==>
              r[i] == if cart[i].id == id then cart[i].(quantity := quantity) else cart[i]
  {
    seq(|cart|, i requires 0 <= i < |cart| =>
      if cart[i].id == id then cart[i].(quantity := quantity) else cart[i])
  }

  /** `cart.filter(i => i.id !== id)`: never longer, and every entry left is an entry
      of `cart` with another id. */
  function Without(cart: seq<LineItem>, id: string): (r: seq<LineItem>)
    ensures |r| <= |cart|
    ensures forall i :: 0 <= i < |r| ==> r[i] in cart && r[i].id != id
    decreases |cart|
  {
    if cart == [] then []
    else Without(cart[..|cart| - 1], id) + (if cart[|cart| - 1].id == id then [] else [cart[|cart| - 1]])
  }

  /** The cart `addItem` produces: merged into the entry with the same id, or appended.
      Either way the id is then in the cart, and every old entry keeps its place and id. */
  function WithItem(cart: seq<LineItem>, item: LineItem, quantity: int): (r: seq<LineItem>)
    ensures HasId(r, item.id)
    ensures |r| == if HasId(cart, item.id) then |cart| else |cart| + 1
    ensures forall i :: 0 <= i < |cart| ==> r[i].id == cart[i].id
  {
    if HasId(cart, item.id) then BumpQuantity(cart, item.id, quantity)
    else
      var r := cart + [item];
      assert r[|cart|] == item;
      r
  }

  /** The cart `updateQuantity` produces: a quantity of 0 or less removes the entry;
      a positive one keeps every entry in its place with its id. */
  function WithQuantity(cart: seq<LineItem>, id: string, quantity: int): (r: seq<LineItem>)
    ensures quantity <= 0 ==> !HasId(r, id) && |r| <= |cart|
    ensures quantity > 0 ==> |r| == |cart| && forall i :: 0 <= i < |cart| ==> r[i].id == cart[i].id
  {
    if quantity <= 0 then Without(cart, id) else SetQuantity(cart, id, quantity)
  }

  // ---------------------------------------------------------------------------------
  // Properties of the new carts

  /** Adding an id already present: exactly that entry changes, by `quantity`; order,
      length and every other entry are unchanged. */
  lemma AddExisting(cart: seq<LineItem>, item: LineItem, quantity: int, k: nat)
    requires UniqueIds(cart) && k < |cart| && cart[k].id == item.id
    ensures var r := WithItem(cart, item, quantity);
            && |r| == |cart|
            && r[k] == cart[k].(quantity := cart[k].quantity + quantity)
            && (forall i :: 0 <= i < |cart| && i != k ==> r[i] == cart[i])
            && (forall i :: 0 <= i < |r| && r[i].id == item.id ==> i == k)
  {
  }

  /** Adding a new id appends the item at the end. */
  lemma AddNew(cart: seq<LineItem>, item: LineItem, quantity: int)
    requires !HasId(cart, item.id)
    ensures WithItem(cart, item, quantity) == cart + [item]
  {
  }

  lemma {:induction false} AddKeepsIdsUnique(cart: seq<LineItem>, item: LineItem, quantity: int)
    requires UniqueIds(cart)
    ensures UniqueIds(WithItem(cart, item, quantity))
  {
    if !HasId(cart, item.id) {
      var r := cart + [item];
      forall i, j | 0 <= i < j < |r| ensures r[i].id != r[j].id {
        if j == |cart| {
          assert r[i] == cart[i];
        }
      }
    }
  }

  /** What the filter keeps: every entry without the id, and nothing else. */
  lemma {:induction false} WithoutMembers(cart: seq<LineItem>, id: string)
    ensures forall x :: x in Without(cart, id) <==> x in cart && x.id != id
    decreases |cart|
  {
    if cart != [] {
      var init := cart[..|cart| - 1];
      WithoutMembers(init, id);
      assert cart == init + [cart[|cart| - 1]];
    }
  }

  /** The filter works piecewise, so it keeps the surviving entries in their order. */
  lemma {:induction false} WithoutAppend(a: seq<LineItem>, b: seq<LineItem>, id: string)
    ensures Without(a + b, id) == Without(a, id) + Without(b, id)
    decreases |b|
  {
    if b == [] {
      assert a + b == a;
    } else {
      var binit := b[..|b| - 1];
      assert (a + b)[..|a + b| - 1] == a + binit;
      WithoutAppend(a, binit, id);
    }
  }

  /** Removing an absent id changes nothing. */
  lemma {:induction false} WithoutAbsent(cart: seq<LineItem>, id: string)
    requires !HasId(cart, id)
    ensures Without(cart, id) == cart
    decreases |cart|
  {
    if cart != [] {
      var init := cart[..|cart| - 1];
      assert !HasId(init, id) by {
        forall i | 0 <= i < |init| ensures init[i].id != id { assert init[i] == cart[i]; }
      }
      WithoutAbsent(init, id);
    }
  }

  /** `removeItem` is idempotent. */
  lemma RemoveIdempotent(cart: seq<LineItem>, id: string)
    ensures Without(Without(cart, id), id) == Without(cart, id)
  {
    WithoutMembers(cart, id);
    var r := Without(cart, id);
    assert !HasId(r, id) by {
      forall i | 0 <= i < |r| ensures r[i].id != id { assert r[i] in r; }
    }
    WithoutAbsent(r, id);
  }

  /** Removal leaves no entry with the id and keeps ids unique. */
  lemma {:induction false} RemoveKeepsIdsUnique(cart: seq<LineItem>, id: string)
    requires UniqueIds(cart)
    ensures UniqueIds(Without(cart, id)) && !HasId(Without(cart, id), id)
    decreases |cart|
  {
    if cart != [] {
      var init, x := cart[..|cart| - 1], cart[|cart| - 1];
      RemoveKeepsIdsUnique(init, id);
      WithoutMembers(init, id);
      var w := Without(init, id);
      if x.id != id {
        forall i | 0 <= i < |w| ensures w[i].id != x.id {
          assert w[i] in w;
          var j :| 0 <= j < |init| && init[j] == w[i];
        }
      }
    }
  }

  /** `updateQuantity` with a quantity of 0 or less is `removeItem`; with a positive
      quantity it sets the matching entry's quantity and nothing else, and does nothing
      when the id is absent. */
  lemma UpdateQuantitySpec(cart: seq<LineItem>, id: string, quantity: int)
    ensures quantity <= 0 ==> WithQuantity(cart, id, quantity) == Without(cart, id)
    ensures quantity > 0 ==>
              var r := WithQuantity(cart, id, quantity);
              |r| == |cart| &&
              forall i :: 0 <= i < |cart| ==>
                (cart[i].id == id ==> r[i] == cart[i].(quantity := quantity)) &&
                (cart[i].id != id ==> r[i] == cart[i])
    ensures !HasId(cart, id) ==> WithQuantity(cart, id, quantity) == cart
  {
    if !HasId(cart, id) {
      WithoutAbsent(cart, id);
      if quantity > 0 {
        assert SetQuantity(cart, id, quantity) == cart;
      }
    }
  }

  lemma UpdateKeepsIdsUnique(cart: seq<LineItem>, id: string, quantity: int)
    requires UniqueIds(cart)
    ensures UniqueIds(WithQuantity(cart, id, quantity))
  {
    if quantity <= 0 {
      RemoveKeepsIdsUnique(cart, id);
    }
  }

  // ---------------------------------------------------------------------------------
  // Getters

  function PriceSum(items: seq<LineItem>): int
    decreases |items|
  {
    if items == [] then 0
    else PriceSum(items[..|items| - 1]) + items[|items| - 1].price * items[|items| - 1].quantity
  }

  function QuantitySum(items: seq<LineItem>): int
    decreases |items|
  {
    if items == [] then 0 else QuantitySum(items[..|items| - 1]) + items[|items| - 1].quantity
  }

  /** `getTotalPrice`: `(cart || []).reduce((t, i) => t + i.price * i.quantity, 0)`. */
  function TotalPrice(cart: Option<seq<LineItem>>): (t: int)
    ensures cart.None? ==> t == 0
  {
    PriceSum(OrEmpty(cart))
  }

  /** `getTotalItems`: `(cart || []).reduce((t, i) => t + i.quantity, 0)`. */
  function TotalItems(cart: Option<seq<LineItem>>): (n: int)
    ensures cart.None? ==> n == 0
  {
    QuantitySum(OrEmpty(cart))
  }

  /** Both totals are additive over concatenation and are the product (resp. the
      quantity) on one entry, so they are the sums over the entries. */
  lemma {:induction false} TotalsAppend(a: seq<LineItem>, b: seq<LineItem>)
    ensures PriceSum(a + b) == PriceSum(a) + PriceSum(b)
    ensures QuantitySum(a + b) == QuantitySum(a) + QuantitySum(b)
    decreases |b|
  {
    if b == [] {
      assert a + b == a;
    } else {
      var binit := b[..|b| - 1];
      assert (a + b)[..|a + b| - 1] == a + binit;
      TotalsAppend(a, binit);
    }
  }

  /** Zero-state tolerance: an undefined and an empty cart both total 0. */
  lemma TotalsOfEmptyCart()
    ensures TotalPrice(None) == 0 && TotalItems(None) == 0
    ensures TotalPrice(Some([])) == 0 && TotalItems(Some([])) == 0
  {
  }

  /** Changing one entry changes the sums by the difference on that entry. */
  lemma {:induction false} SumsPointwise(a: seq<LineItem>, b: seq<LineItem>, k: nat)
    requires |a| == |b| && k < |a|
    requires forall i :: 0 <= i < |a| && i != k ==> a[i] == b[i]
    ensures PriceSum(b) == PriceSum(a) - a[k].price * a[k].quantity + b[k].price * b[k].quantity
    ensures QuantitySum(b) == QuantitySum(a) - a[k].quantity + b[k].quantity
    decreases |a|
  {
    var n := |a| - 1;
    if k < n {
      SumsPointwise(a[..n], b[..n], k);
    } else {
      assert a[..n] == b[..n];
    }
  }

  lemma PriceStep(before: int, after: int, p: int, q: int, p': int, q': int, d: int)
    requires after == before - p * q + p' * q' && p' == p && q' == q + d
    ensures after == before + p * d
  {
  }

  /** `addItem` of an id already present (ids unique) raises the item count by
      `quantity` and the total price by `quantity` times that entry's price. */
  lemma TotalsAfterAddExisting(cart: seq<LineItem>, item: LineItem, quantity: int, k: nat)
    requires UniqueIds(cart) && k < |cart| && cart[k].id == item.id
    ensures QuantitySum(WithItem(cart, item, quantity)) == QuantitySum(cart) + quantity
    ensures PriceSum(WithItem(cart, item, quantity)) == PriceSum(cart) + cart[k].price * quantity
  {
    assert HasId(cart, item.id);
    var r := BumpQuantity(cart, item.id, quantity);
    assert forall i :: 0 <= i < |cart| && i != k ==> r[i] == cart[i];
    assert r[k] == cart[k].(quantity := cart[k].quantity + quantity);
    SumsPointwise(cart, r, k);
    PriceStep(PriceSum(cart), PriceSum(r), cart[k].price, cart[k].quantity, r[k].price, r[k].quantity, quantity);
  }

  /** `addItem` of a new id raises the item count by the new item's quantity and the
      total price by its price times its quantity. */
  lemma TotalsAfterAddNew(cart: seq<LineItem>, item: LineItem, quantity: int)
    requires !HasId(cart, item.id)
    ensures QuantitySum(WithItem(cart, item, quantity)) == QuantitySum(cart) + item.quantity
    ensures PriceSum(WithItem(cart, item, quantity)) == PriceSum(cart) + item.price * item.quantity
  {
    TotalsAppend(cart, [item]);
    assert [item][..0] == [];
  }

  // ---------------------------------------------------------------------------------
  // Grouping by seller

  /** `item.sellerId || 'toko_lain'` */
  function SellerKey(item: LineItem): string {
    if Truthy(item.sellerId) then item.sellerId.value else FALLBACK_SELLER_KEY
  }

  /** `item.toko?.nama_toko || 'Toko Lain'` */
  function SellerName(item: LineItem): string {
    if item.toko.Some? then Or(item.toko.value.namaToko, FALLBACK_SELLER_NAME) else FALLBACK_SELLER_NAME
  }

  /** `getCartGroupedBySeller`: no group for a missing cart; otherwise one group per
      key, holding all the items between them. */
  function GroupedBySeller(cart: Option<seq<LineItem>>): (g: seq<Grouping.Bucket<LineItem>>)
    ensures cart.None? ==> g == []
    ensures Grouping.DistinctKeys(g) && Grouping.TotalSize(g) == |OrEmpty(cart)|
  {
    Grouping.GroupPartition(OrEmpty(cart), SellerKey, SellerName);
    Grouping.Group(OrEmpty(cart), SellerKey, SellerName)
  }

  /** Every item lands in exactly one group: the one keyed by its `sellerId`, or by
      `'toko_lain'` when it has none; items keep their order within a group, each group is
      named after its first item's shop (or `'Toko Lain'`), there is one group per
      distinct key, the sizes add up to the cart length, and a missing cart gives no
      groups. */
  lemma GroupedBySellerPartition(cart: Option<seq<LineItem>>)
    ensures var g := GroupedBySeller(cart);
            var items := OrEmpty(cart);
            && (cart.None? ==> g == [])
            && Grouping.DistinctKeys(g)
            && |g| == |Grouping.KeySet(items, SellerKey)|
            && Grouping.TotalSize(g) == |items|
            && (forall x :: x in items ==> exists i :: 0 <= i < |g| && g[i].key == SellerKey(x) && x in g[i].items)
            && (forall i :: 0 <= i < |g| ==> g[i].items == Grouping.Filter(items, SellerKey, g[i].key))
            && (forall i :: 0 <= i < |g| ==>
                  var f := Grouping.FirstIndex(items, SellerKey, g[i].key);
                  f < |items| && g[i].name == SellerName(items[f]))
  {
    Grouping.GroupPartition(OrEmpty(cart), SellerKey, SellerName);
  }

  function LinePrice(item: LineItem): int {
    item.price * item.quantity
  }

  function LineQuantity(item: LineItem): int {
    item.quantity
  }

  lemma {:induction false} SumsAreGroupingSums(items: seq<LineItem>)
    ensures PriceSum(items) == Grouping.Sum(items, LinePrice)
    ensures QuantitySum(items) == Grouping.Sum(items, LineQuantity)
    decreases |items|
  {
    if items != [] {
      SumsAreGroupingSums(items[..|items| - 1]);
    }
  }

  /** No cart value is lost to grouping: the groups' subtotals add up to
      `getTotalPrice()` and their quantities to `getTotalItems()`. */
  lemma GroupedBySellerKeepsTotals(cart: Option<seq<LineItem>>)
    ensures Grouping.BucketSum(GroupedBySeller(cart), LinePrice) == TotalPrice(cart)
    ensures Grouping.BucketSum(GroupedBySeller(cart), LineQuantity) == TotalItems(cart)
  {
    SumsAreGroupingSums(OrEmpty(cart));
    Grouping.GroupSum(OrEmpty(cart), SellerKey, SellerName, LinePrice);
    Grouping.GroupSum(OrEmpty(cart), SellerKey, SellerName, LineQuantity);
  }

  // ---------------------------------------------------------------------------------
  // The store

  /** What a sync that fires leaves behind: the `apiSyncMyCart` request, made with the
      token current at that moment, and the toast a failure shows. */
  datatype SyncEffect = SyncRequest(request: Api.Request<LineItem>) | SyncErrorToast(message: string)

  /** The body of the debounced function: nothing unless a call fired and a token is
      present; otherwise one full-snapshot `POST /pembeli/cart/sync` carrying the token
      and, when it fails, one toast. */
  function FireEffects(fired: Option<seq<LineItem>>, token: Option<string>, outcome: Outcome): (e: seq<SyncEffect>)
    ensures fired.None? || !Truthy(token) ==> e == []
    ensures fired.Some? && Truthy(token) ==>
              && |e| >= 1 && e[0].SyncRequest?
              && e[0].request.verb == Api.Post && e[0].request.path == "/pembeli/cart/sync"
              && e[0].request.payload == Api.CartPayload(fired.value)
              && e[0].request.authorization == Some(Api.BearerValue(token.value))
    ensures fired.Some? && Truthy(token) ==> (|e| == 2 <==> outcome.Failed?)
    ensures forall i :: 1 <= i < |e| ==> outcome.Failed? && e[i] == SyncErrorToast(SYNC_ERROR_PREFIX + outcome.message)
  {
    if fired.None? || !Truthy(token) then []
    else [SyncRequest(Api.SyncMyCartRequest(fired.value, token))] +
         (if outcome.Failed? then [SyncErrorToast(SYNC_ERROR_PREFIX + outcome.message)] else [])
  }

  class Store {
    /** The authoritative cart. */
    var cart: seq<LineItem>
    /** The closure state of `debouncedSyncCart`. */
    var timer: Debounce.Timer<seq<LineItem>>
    /** Remote sync requests made and toasts shown, oldest first. */
    var effects: seq<SyncEffect>

    constructor ()
      ensures cart == [] && timer == Debounce.Timer(0, None) && effects == []
    {
      cart := [];
      timer := Debounce.Timer(0, None);
      effects := [];
    }

    /** `debouncedSyncCart(c)`: cancel the pending sync and schedule one for `c`. */
    method DebouncedSync(c: seq<LineItem>)
      modifies this`timer
      ensures timer == Debounce.Schedule(old(timer), c, SYNC_WAIT)
    {
      timer := Debounce.Schedule(timer, c, SYNC_WAIT);
    }

    /** `addItem(product, variation = null, quantity = 1)`; no check on `quantity`. */
    method AddItem(product: Product, variation: Option<Variation> := None, quantity: int := 1)
      requires product.toko.Some?
      modifies this
      ensures cart == WithItem(old(cart), NewItem(product, variation, quantity), quantity)
      ensures timer == Debounce.Schedule(old(timer), cart, SYNC_WAIT)
      ensures effects == old(effects)
    {
      var item := NewItem(product, variation, quantity);
      var newCart;
      if HasId(cart, item.id) {
        newCart := BumpQuantity(cart, item.id, quantity);
      } else {
        newCart := cart + [item];
      }
      cart := newCart;
      DebouncedSync(newCart);
    }

    /** `removeItem(itemId)` */
    method RemoveItem(itemId: string)
      modifies this
      ensures cart == Without(old(cart), itemId)
      ensures timer == Debounce.Schedule(old(timer), cart, SYNC_WAIT)
      ensures effects == old(effects)
    {
      var newCart := Without(cart, itemId);
      cart := newCart;
      DebouncedSync(newCart);
    }

    /** `updateQuantity(itemId, quantity)` */
    method UpdateQuantity(itemId: string, quantity: int)
      modifies this
      ensures cart == WithQuantity(old(cart), itemId, quantity)
      ensures timer == Debounce.Schedule(old(timer), cart, SYNC_WAIT)
      ensures effects == old(effects)
    {
      if quantity <= 0 {
        RemoveItem(itemId);
      } else {
        var newCart := SetQuantity(cart, itemId, quantity);
        cart := newCart;
        DebouncedSync(newCart);
      }
    }

    /** `clearCart()`: empties the cart and, unlike the other paths that empty it, also
        schedules a sync of `[]`. */
    method ClearCart()
      modifies this
      ensures cart == []
      ensures timer == Debounce.Schedule(old(timer), [], SYNC_WAIT)
      ensures effects == old(effects)
    {
      cart := [];
      DebouncedSync([]);
    }

    /** One tick of the clock, with the token the auth store holds at that moment and the
        outcome the remote would give a request. A failed sync is only reported: the cart
        is never rolled back. */
    method Tick(token: Option<string>, outcome: Outcome)
      modifies this
      ensures timer == Debounce.Advance(old(timer)).timer
      ensures effects == old(effects) + FireEffects(Debounce.Advance(old(timer)).fired, token, outcome)
      ensures cart == old(cart)
    {
      var step := Debounce.Advance(timer);
      timer := step.timer;
      effects := effects + FireEffects(step.fired, token, outcome);
    }
  }

  /** Coalescing on the store itself: two additions and a `clearCart`, then 1500 quiet
      ticks while signed in, send exactly one sync, and it carries `[]`. */
  method EditsThenClearSyncOnce(product: Product, token: string) returns (sent: seq<SyncEffect>)
    requires product.toko.Some? && token != ""
    ensures sent == [SyncRequest(Api.SyncMyCartRequest([], Some(token)))]
  {
    var s := new Store();
    s.AddItem(product);
    s.AddItem(product, None, 2);
    s.ClearCart();
    var k: nat := 0;
    while k < SYNC_WAIT
      invariant k <= SYNC_WAIT
      invariant s.timer.now == k
      invariant s.timer.pending == if k < SYNC_WAIT then Some(Debounce.Pending([], SYNC_WAIT)) else None
      invariant s.effects == if k < SYNC_WAIT then [] else [SyncRequest(Api.SyncMyCartRequest([], Some(token)))]
    {
      s.Tick(Some(token), Done);
      k := k + 1;
    }
    sent := s.effects;
  }
}

/** The cart page of `src/pages/keranjang.js`: the cart grouped by shop, the empty
    state, the quantity and remove buttons, and the displayed total. */
module Keranjang {
  import opened Js
  import Grouping
  import CartStore
  import Debounce

  /** The page's own fallback key (the store uses `'toko_lain'`). */
  const PAGE_FALLBACK_KEY: string := "toko-lain"

  /** `item.sellerId || 'toko-lain'` */
  function PageKey(item: CartStore.LineItem): string {
    if Truthy(item.sellerId) then item.sellerId.value else PAGE_FALLBACK_KEY
  }

  /** `itemsByToko`: `(cart || []).reduce(…)` pushing each item into `acc[tokoId].items`,
      the group named `item.toko?.nama_toko || 'Toko Lain'`. */
  method ItemsByToko(cart: Option<seq<CartStore.LineItem>>) returns (groups: seq<Grouping.Bucket<CartStore.LineItem>>)
    ensures groups == Grouping.Group(OrEmpty(cart), PageKey, CartStore.SellerName)
  {
    var items := OrEmpty(cart);
    groups := [];
    var i := 0;
    while i < |items|
      invariant 0 <= i <= |items|
      invariant groups == Grouping.Group(items[..i], PageKey, CartStore.SellerName)
    {
      assert items[..i + 1][..i] == items[..i];
      groups := Grouping.PushInto(groups, items[i], PageKey, CartStore.SellerName);
      i := i + 1;
    }
    assert items[..|items|] == items;
  }

  /** `(cart || []).length === 0` */
  predicate ShowEmpty(cart: Option<seq<CartStore.LineItem>>) {
    |OrEmpty(cart)| == 0
  }

  /** The empty state is shown exactly when there is no shop group to list; otherwise
      every item is listed once, under its seller (or `'toko-lain'`), and the group
      subtotals add up to the displayed `getTotalPrice()`. */
  lemma PageGroupsSpec(cart: Option<seq<CartStore.LineItem>>)
    ensures var g := Grouping.Group(OrEmpty(cart), PageKey, CartStore.SellerName);
            && (ShowEmpty(cart) <==> g == [])
            && Grouping.DistinctKeys(g)
            && Grouping.TotalSize(g) == |OrEmpty(cart)|
            && (forall x :: x in OrEmpty(cart) ==> exists i :: 0 <= i < |g| && g[i].key == PageKey(x) && x in g[i].items)
            && (forall i :: 0 <= i < |g| ==> g[i].items == Grouping.Filter(OrEmpty(cart), PageKey, g[i].key))
            && Grouping.BucketSum(g, CartStore.LinePrice) == CartStore.TotalPrice(cart)
  {
    var items := OrEmpty(cart);
    Grouping.GroupPartition(items, PageKey, CartStore.SellerName);
    Grouping.GroupSum(items, PageKey, CartStore.SellerName, CartStore.LinePrice);
    CartStore.SumsAreGroupingSums(items);
  }

  /** The page and the store disagree on the fallback key: an item without a seller is
      listed under `'toko-lain'` here and under `'toko_lain'` by
      `getCartGroupedBySeller`; and a seller whose id is literally `'toko-lain'` shares
      its group here with the items that have no seller. */
  lemma FallbackKeyDiffersFromStore(a: CartStore.LineItem, b: CartStore.LineItem)
    requires a.sellerId.None? && b.sellerId == Some(PAGE_FALLBACK_KEY)
    ensures PageKey(a) == PAGE_FALLBACK_KEY && CartStore.SellerKey(a) == CartStore.FALLBACK_SELLER_KEY
    ensures PageKey(a) != CartStore.SellerKey(a)
    ensures PageKey(a) == PageKey(b) && CartStore.SellerKey(a) != CartStore.SellerKey(b)
  {
  }

  // ---------------------------------------------------------------------------------
  // Buttons

  /** What a click asks the store to do. */
  datatype Action = Remove(id: string) | Update(id: string, quantity: int)

  /** The minus button is disabled at a quantity of 1 or less. */
  predicate MinusEnabled(item: CartStore.LineItem) {
    !(item.quantity <= 1)
  }

  /** The click on a button, `None` when the button is disabled. */
  function MinusClick(item: CartStore.LineItem): (a: Option<Action>)
    ensures a.Some? <==> item.quantity > 1
    ensures a.Some? ==> a.value == Update(item.id, item.quantity - 1) && a.value.quantity >= 1
  {
    if MinusEnabled(item) then Some(Update(item.id, item.quantity - 1)) else None
  }

  /** The plus button is never disabled; it asks for one more of that line. */
  function PlusClick(item: CartStore.LineItem): (a: Action)
    ensures a.Update? && a.id == item.id && a.quantity == item.quantity + 1
  {
    Update(item.id, item.quantity + 1)
  }

  /** The remove button is never disabled; it names that line. */
  function RemoveClick(item: CartStore.LineItem): (a: Action)
    ensures a.Remove? && a.id == item.id
  {
    Remove(item.id)
  }

  /** The cart the store ends up with after an action. */
  function Apply(cart: seq<CartStore.LineItem>, a: Action): seq<CartStore.LineItem> {
    match a
    case Remove(id) => CartStore.Without(cart, id)
    case Update(id, q) => CartStore.WithQuantity(cart, id, q)
  }

  /** Dispatches a click to the store action it names. */
  method Click(store: CartStore.Store, a: Action)
    modifies store
    ensures store.cart == Apply(old(store.cart), a)
    ensures store.timer == Debounce.Schedule(old(store.timer), store.cart, CartStore.SYNC_WAIT)
    ensures store.effects == old(store.effects)
  {
    match a
    case Remove(id) => store.RemoveItem(id);
    case Update(id, q) => store.UpdateQuantity(id, q);
  }

  /** The minus button never removes a line: an enabled click lowers that entry's
      quantity by one and leaves the rest of the cart as it was. */
  lemma MinusNeverRemoves(cart: seq<CartStore.LineItem>, k: nat)
    requires CartStore.UniqueIds(cart) && k < |cart|
    ensures var a := MinusClick(cart[k]);
            a.Some? ==>
              var r := Apply(cart, a.value);
              && |r| == |cart|
              && r[k] == cart[k].(quantity := cart[k].quantity - 1)
              && (forall i :: 0 <= i < |cart| && i != k ==> r[i] == cart[i])
  {
    var a := MinusClick(cart[k]);
    if a.Some? {
      CartStore.UpdateQuantitySpec(cart, cart[k].id, cart[k].quantity - 1);
    }
  }

  /** Plus raises that entry's quantity by one and changes nothing else, for every
      quantity of 0 or more. `addItem` does not check the quantity it is given, so an
      entry can hold a negative one; for such an entry the new quantity is 0 or less
      and plus removes the entry instead. */
  lemma PlusRaisesByOne(cart: seq<CartStore.LineItem>, k: nat)
    requires CartStore.UniqueIds(cart) && k < |cart|
    ensures cart[k].quantity >= 0 ==>
              var r := Apply(cart, PlusClick(cart[k]));
              && |r| == |cart|
              && r[k] == cart[k].(quantity := cart[k].quantity + 1)
              && (forall i :: 0 <= i < |cart| && i != k ==> r[i] == cart[i])
    ensures cart[k].quantity < 0 ==>
              var r := Apply(cart, PlusClick(cart[k]));
              && r == CartStore.Without(cart, cart[k].id)
              && !CartStore.HasId(r, cart[k].id)
  {
    CartStore.UpdateQuantitySpec(cart, cart[k].id, cart[k].quantity + 1);
    if cart[k].quantity < 0 {
      CartStore.RemoveKeepsIdsUnique(cart, cart[k].id);
    }
  }

  /** Remove takes the line out, and only that line. */
  lemma RemoveTakesLineOut(cart: seq<CartStore.LineItem>, k: nat)
    requires k < |cart|
    ensures var r := Apply(cart, RemoveClick(cart[k]));
            && !CartStore.HasId(r, cart[k].id)
            && (forall x :: x in cart && x.id != cart[k].id ==> x in r)
            && (forall x :: x in r ==> x in cart)
  {
    CartStore.WithoutMembers(cart, cart[k].id);
    var r := Apply(cart, RemoveClick(cart[k]));
    forall i | 0 <= i < |r| ensures r[i].id != cart[k].id {
      assert r[i] in r;
    }
  }
}

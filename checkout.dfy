/** The checkout page of `src/pages/checkout.js`: the access guard, grouping of the
    items by seller with the subtotal, the choice of the default address, shipping
    options per seller and their total, and the checks that precede placing an order. */
module Checkout {
  import opened Js
  import Grouping
  import JsObject
  import CartStore
  import Debounce

  const LOGIN_PATH: string := "/akun"
  const CART_PATH: string := "/keranjang"
  const ORDER_PATH_PREFIX: string := "/pesanan/"
  const FALLBACK_SHOP_NAME: string := "Toko"
  /** The property name `acc[undefined]` writes to. */
  const UNDEFINED_KEY: string := "undefined"
  const DEFAULT_PAYMENT: string := "manual_transfer"

  const ADDRESS_ERROR: string := "Gagal mengambil data alamat."
  const SHIPPING_ERROR_PREFIX: string := "Gagal mengambil opsi pengiriman: "
  const NO_ADDRESS_ERROR: string := "Silakan pilih alamat pengiriman."
  const NO_SHIPPING_ERROR: string := "Silakan pilih metode pengiriman untuk semua toko."
  const NO_PAYMENT_ERROR: string := "Silakan pilih metode pembayaran."
  const ORDER_ERROR: string := "Gagal membuat pesanan."

  /** An item as this page reads it: `seller_id`, `nama_toko`, `price`, `quantity`. */
  datatype CheckoutItem = CheckoutItem(sellerId: Option<string>, namaToko: Option<string>, price: int, quantity: int)

  /** `acc[item.seller_id]`: a missing `seller_id` becomes the key `"undefined"`. */
  function GroupKey(item: CheckoutItem): string {
    if item.sellerId.Some? then item.sellerId.value else UNDEFINED_KEY
  }

  /** `item.nama_toko || 'Toko'` */
  function ShopName(item: CheckoutItem): string {
    Or(item.namaToko, FALLBACK_SHOP_NAME)
  }

  function LineSubtotal(item: CheckoutItem): int {
    item.price * item.quantity
  }

  // ---------------------------------------------------------------------------------
  // Guard, grouping and subtotal

  datatype Access = ToLogin | ToCart | Proceed

  /** Without a token the page goes to the account page; with a token but no items, to
      the cart page; only otherwise does it group and fetch. */
  function Guard(token: Option<string>, items: seq<CheckoutItem>): (g: Access)
    ensures g == ToLogin <==> !Truthy(token)
    ensures g == ToCart <==> Truthy(token) && |items| == 0
    ensures g == Proceed <==> Truthy(token) && |items| > 0
  {
    if !Truthy(token) then ToLogin else if |items| == 0 then ToCart else Proceed
  }

  /** The `reduce` that pushes every item into `acc[item.seller_id]` while adding
      `price * quantity` to `currentSubtotal`. */
  method GroupSellers(items: seq<CheckoutItem>) returns (groups: seq<Grouping.Bucket<CheckoutItem>>, subtotal: int)
    ensures groups == Grouping.Group(items, GroupKey, ShopName)
    ensures subtotal == Grouping.Sum(items, LineSubtotal)
  {
    groups, subtotal := [], 0;
    var i := 0;
    while i < |items|
      invariant 0 <= i <= |items|
      invariant groups == Grouping.Group(items[..i], GroupKey, ShopName)
      invariant subtotal == Grouping.Sum(items[..i], LineSubtotal)
    {
      assert items[..i + 1][..i] == items[..i];
      groups := Grouping.PushInto(groups, items[i], GroupKey, ShopName);
      subtotal := subtotal + items[i].price * items[i].quantity;
      i := i + 1;
    }
    assert items[..|items|] == items;
  }

  /** The seller groups partition the items: one group per distinct `seller_id`, each
      item in its seller's group in original order, each group named after its first
      item, and the group subtotals add up to the page subtotal. */
  lemma SellerGroupsPartition(items: seq<CheckoutItem>)
    ensures var g := Grouping.Group(items, GroupKey, ShopName);
            && Grouping.DistinctKeys(g)
            && |g| == |Grouping.KeySet(items, GroupKey)|
            && Grouping.TotalSize(g) == |items|
            && (forall x :: x in items ==> exists i :: 0 <= i < |g| && g[i].key == GroupKey(x) && x in g[i].items)
            && (forall i :: 0 <= i < |g| ==> g[i].items == Grouping.Filter(items, GroupKey, g[i].key))
            && (forall i :: 0 <= i < |g| ==>
                  var f := Grouping.FirstIndex(items, GroupKey, g[i].key);
                  f < |items| && g[i].name == ShopName(items[f]))
            && Grouping.BucketSum(g, LineSubtotal) == Grouping.Sum(items, LineSubtotal)
  {
    Grouping.GroupPartition(items, GroupKey, ShopName);
    Grouping.GroupSum(items, GroupKey, ShopName, LineSubtotal);
  }

  /** Each seller key names one group. */
  lemma SellerGroupsDistinct(items: seq<CheckoutItem>)
    ensures Grouping.DistinctKeys(Grouping.Group(items, GroupKey, ShopName))
  {
    Grouping.GroupPartition(items, GroupKey, ShopName);
  }

  /** A cart-store line read under this page's property names: the store's items carry
      `sellerId` and `toko`, so `seller_id` and `nama_toko` are both undefined. */
  function StoreLineAsRead(item: CartStore.LineItem): CheckoutItem {
    CheckoutItem(None, None, item.price, item.quantity)
  }

  function StoreCartAsRead(cart: seq<CartStore.LineItem>): (r: seq<CheckoutItem>)
    ensures |r| == |cart| && forall i :: 0 <= i < |cart| ==> r[i] == StoreLineAsRead(cart[i])
  {
    seq(|cart|, i requires 0 <= i < |cart| => StoreLineAsRead(cart[i]))
  }

  /** Read that way, a non-empty store cart forms ONE group keyed `"undefined"` and
      named `'Toko'`, whatever the sellers, so one shipping choice satisfies the
      per-seller check; the subtotal is still the cart's total price. */
  lemma StoreItemsFormOneGroup(cart: seq<CartStore.LineItem>)
    requires |cart| > 0
    ensures Grouping.Group(StoreCartAsRead(cart), GroupKey, ShopName)
            == [Grouping.Bucket(UNDEFINED_KEY, FALLBACK_SHOP_NAME, StoreCartAsRead(cart))]
    ensures Grouping.Sum(StoreCartAsRead(cart), LineSubtotal) == CartStore.TotalPrice(Some(cart))
  {
    var items := StoreCartAsRead(cart);
    Grouping.GroupOneKey(items, GroupKey, ShopName, UNDEFINED_KEY);
    StoreSubtotal(cart);
  }

  lemma {:induction false} StoreSubtotal(cart: seq<CartStore.LineItem>)
    ensures Grouping.Sum(StoreCartAsRead(cart), LineSubtotal) == CartStore.PriceSum(cart)
    decreases |cart|
  {
    if cart != [] {
      var init := cart[..|cart| - 1];
      StoreSubtotal(init);
      assert StoreCartAsRead(cart)[..|cart| - 1] == StoreCartAsRead(init);
    }
  }

  // ---------------------------------------------------------------------------------
  // Addresses

  datatype Address = Address(id: string, name: string)

  /** The body of the address reply. */
  datatype AddressData = AddressData(addresses: Option<seq<Address>>, defaultAddressId: Option<string>)

  /** `addr.id === data.default_address_id`; an undefined default matches nothing. */
  predicate IsDefault(a: Address, defaultId: Option<string>) {
    defaultId.Some? && a.id == defaultId.value
  }

  /** Index of the first default address, or `|addresses|`. */
  function FindDefault(addresses: seq<Address>, defaultId: Option<string>): (i: nat)
    ensures i <= |addresses|
    ensures i < |addresses| ==> IsDefault(addresses[i], defaultId)
    ensures forall j :: 0 <= j < i ==> !IsDefault(addresses[j], defaultId)
  {
    if addresses == [] then 0
    else if IsDefault(addresses[0], defaultId) then 0
    else 1 + FindDefault(addresses[1..], defaultId)
  }

  /** The address selected after a fetch, if any: the first with the default id,
      otherwise the first address; none for an empty list. */
  function DefaultAddress(addresses: seq<Address>, defaultId: Option<string>): (a: Option<Address>)
    ensures a.Some? <==> |addresses| > 0
    ensures a.Some? ==> a.value in addresses
    ensures forall i :: 0 <= i < |addresses| && IsDefault(addresses[i], defaultId) ==>
              a.Some? && IsDefault(a.value, defaultId)
    ensures (forall i :: 0 <= i < |addresses| ==> !IsDefault(addresses[i], defaultId)) && |addresses| > 0 ==>
              a == Some(addresses[0])
  {
    var i := FindDefault(addresses, defaultId);
    if i < |addresses| then Some(addresses[i])
    else if |addresses| > 0 then Some(addresses[0])
    else None
  }

  /** The default address is the FIRST one with the default id. */
  lemma DefaultAddressIsFirstMatch(addresses: seq<Address>, defaultId: Option<string>, k: nat)
    requires k < |addresses| && IsDefault(addresses[k], defaultId)
    requires forall j :: 0 <= j < k ==> !IsDefault(addresses[j], defaultId)
    ensures DefaultAddress(addresses, defaultId) == Some(addresses[k])
  {
    var i := FindDefault(addresses, defaultId);
    assert !(i < k) && !(k < i);
  }

  // ---------------------------------------------------------------------------------
  // Shipping

  /** One shipping option as offered, and as stored by `handleShippingSelect`
      (`metode`, `harga`, `nama`). */
  datatype Shipping = Shipping(metode: string, harga: Option<int>, nama: string)

  /** `selectedShipping[sellerId].harga || 0` */
  function Harga(s: Shipping): int {
    if s.harga.Some? then s.harga.value else 0
  }

  /** `for (const sellerId in selectedShipping) newTotalShipping += …harga || 0` */
  method TotalShipping(selected: seq<JsObject.Entry<Shipping>>) returns (total: int)
    ensures total == JsObject.SumValues(selected, Harga)
  {
    total := 0;
    var i := 0;
    while i < |selected|
      invariant 0 <= i <= |selected|
      invariant total == JsObject.SumValues(selected[..i], Harga)
    {
      assert selected[..i + 1][..i] == selected[..i];
      total := total + Harga(selected[i].value);
      i := i + 1;
    }
    assert selected[..|selected|] == selected;
  }

  function Choose(option: Shipping): Shipping {
    Shipping(option.metode, option.harga, option.nama)
  }

  /** `handleShippingSelect(sellerId, option)` rewrites exactly that seller's choice:
      every other seller keeps its choice, and the shipping total changes by the
      difference between the new price and the old one. */
  lemma ShippingSelectSpec(selected: seq<JsObject.Entry<Shipping>>, sellerId: string, option: Shipping)
    requires JsObject.UniqueKeys(selected)
    ensures var r := JsObject.Put(selected, sellerId, Choose(option));
            && JsObject.Get(r, sellerId) == Some(Choose(option))
            && (forall k :: k != sellerId ==> JsObject.Get(r, k) == JsObject.Get(selected, k))
            && JsObject.UniqueKeys(r)
            && JsObject.Keys(r) == JsObject.Keys(selected) + {sellerId}
            && JsObject.SumValues(r, Harga) == JsObject.SumValues(selected, Harga)
                 - (if JsObject.Get(selected, sellerId).Some? then Harga(JsObject.Get(selected, sellerId).value) else 0)
                 + Harga(option)
  {
    JsObject.PutGet(selected, sellerId, Choose(option));
    forall k | k != sellerId
      ensures JsObject.Get(JsObject.Put(selected, sellerId, Choose(option)), k) == JsObject.Get(selected, k)
    {
      JsObject.PutOther(selected, sellerId, Choose(option), k);
    }
    JsObject.PutKeys(selected, sellerId, Choose(option));
    JsObject.PutSum(selected, sellerId, Choose(option), Harga);
  }

  // ---------------------------------------------------------------------------------
  // Placing an order

  /** The first failing check, in the page's order: address, then one shipping choice
      per seller group (compared by count), then a payment method. */
  function OrderCheck(address: Option<Address>, selected: seq<JsObject.Entry<Shipping>>,
                      groups: seq<Grouping.Bucket<CheckoutItem>>, paymentMethod: string): (e: Option<string>)
    ensures e.None? <==> address.Some? && |selected| == |groups| && paymentMethod != ""
    ensures address.None? ==> e == Some(NO_ADDRESS_ERROR)
    ensures address.Some? && |selected| != |groups| ==> e == Some(NO_SHIPPING_ERROR)
    ensures address.Some? && |selected| == |groups| && paymentMethod == "" ==> e == Some(NO_PAYMENT_ERROR)
  {
    if address.None? then Some(NO_ADDRESS_ERROR)
    else if |selected| != |groups| then Some(NO_SHIPPING_ERROR)
    else if paymentMethod == "" then Some(NO_PAYMENT_ERROR)
    else None
  }

  /** A choice for every seller group passes the shipping check. */
  lemma EveryGroupChosenPasses(selected: seq<JsObject.Entry<Shipping>>, groups: seq<Grouping.Bucket<CheckoutItem>>)
    requires JsObject.UniqueKeys(selected) && Grouping.DistinctKeys(groups)
    requires JsObject.Keys(selected) == Grouping.KeysOf(groups)
    ensures |selected| == |groups|
  {
    JsObject.KeyCount(selected);
    Grouping.DistinctKeysCount(groups);
  }

  /** With each key once in both objects, the entry counts the check compares are the
      `Object.keys(...).length` of the page's two objects. */
  lemma CountCheckIsKeyCount(selected: seq<JsObject.Entry<Shipping>>, groups: seq<Grouping.Bucket<CheckoutItem>>)
    requires JsObject.UniqueKeys(selected) && Grouping.DistinctKeys(groups)
    ensures |JsObject.Keys(selected)| == |selected| && |Grouping.KeysOf(groups)| == |groups|
  {
    JsObject.KeyCount(selected);
    Grouping.DistinctKeysCount(groups);
  }

  /** The check compares counts only: a choice left over for a seller that is no longer
      in the cart makes up for a seller without a choice. */
  lemma CountCheckIgnoresWhichSellers(address: Address, s: Shipping, it: CheckoutItem)
    ensures var selected := [JsObject.Entry("a", s), JsObject.Entry("c", s)];
            var groups := [Grouping.Bucket("a", "A", [it]), Grouping.Bucket("b", "B", [it])];
            && "b" !in JsObject.Keys(selected)
            && OrderCheck(Some(address), selected, groups, DEFAULT_PAYMENT).None?
  {
    var selected := [JsObject.Entry("a", s), JsObject.Entry("c", s)];
    assert selected[0].key == "a" && selected[1].key == "c";
  }

  /** `{ cart_items, shipping_address_id, seller_shipping_choices, payment_method }` */
  datatype OrderPayload = OrderPayload(
    cartItems: seq<CheckoutItem>, shippingAddressId: string,
    sellerShippingChoices: seq<JsObject.Entry<Shipping>>, paymentMethod: string)

  datatype OrderData = OrderData(orderId: string)

  // ---------------------------------------------------------------------------------
  // The page

  class CheckoutPage {
    var isLoading: bool
    var isPlacingOrder: bool
    var error: Option<string>
    var addresses: seq<Address>
    var selectedAddress: Option<Address>
    var sellerGroups: seq<Grouping.Bucket<CheckoutItem>>
    var shippingOptions: seq<JsObject.Entry<seq<Shipping>>>
    var selectedShipping: seq<JsObject.Entry<Shipping>>
    var paymentMethod: string
    var subtotal: int
    var totalShipping: int
    var grandTotal: int
    /** `router.push` targets, oldest first. */
    var redirects: seq<string>
    /** Bodies sent to `apiCreateOrder`. */
    var orders: seq<OrderPayload>

    /** The shipping choices and the seller groups are objects: each key occurs once. */
    ghost predicate KeysValid()
      reads this
    {
      JsObject.UniqueKeys(selectedShipping) && Grouping.DistinctKeys(sellerGroups)
    }

    constructor ()
      ensures KeysValid()
      ensures isLoading && !isPlacingOrder && error == None
      ensures addresses == [] && selectedAddress == None && sellerGroups == []
      ensures shippingOptions == [] && selectedShipping == [] && paymentMethod == DEFAULT_PAYMENT
      ensures subtotal == 0 && totalShipping == 0 && grandTotal == 0
      ensures redirects == [] && orders == []
    {
      isLoading, isPlacingOrder, error := true, false, None;
      addresses, selectedAddress, sellerGroups := [], None, [];
      shippingOptions, selectedShipping, paymentMethod := [], [], DEFAULT_PAYMENT;
      subtotal, totalShipping, grandTotal := 0, 0, 0;
      redirects, orders := [], [];
    }

    /** The first effect: the guard, then grouping and the address fetch. */
    method Mount(token: Option<string>, items: seq<CheckoutItem>, addressReply: Result<AddressData>)
      requires KeysValid()
      modifies this`redirects, this`sellerGroups, this`subtotal
      modifies this`isLoading, this`addresses, this`selectedAddress, this`error
      ensures KeysValid()
      ensures Guard(token, items) == ToLogin ==> redirects == old(redirects) + [LOGIN_PATH]
      ensures Guard(token, items) == ToCart ==> redirects == old(redirects) + [CART_PATH]
      ensures Guard(token, items) != Proceed ==>
                && sellerGroups == old(sellerGroups) && subtotal == old(subtotal)
                && addresses == old(addresses) && selectedAddress == old(selectedAddress)
                && error == old(error) && isLoading == old(isLoading)
      ensures Guard(token, items) == Proceed ==>
                && redirects == old(redirects)
                && sellerGroups == Grouping.Group(items, GroupKey, ShopName)
                && subtotal == Grouping.Sum(items, LineSubtotal)
                && AddressesFetched(old(addresses), old(selectedAddress), old(error), addressReply)
      ensures isPlacingOrder == old(isPlacingOrder) && shippingOptions == old(shippingOptions)
      ensures selectedShipping == old(selectedShipping) && paymentMethod == old(paymentMethod)
      ensures totalShipping == old(totalShipping) && grandTotal == old(grandTotal) && orders == old(orders)
    {
      var g := Guard(token, items);
      if g == ToLogin {
        redirects := redirects + [LOGIN_PATH];
        return;
      }
      if g == ToCart {
        redirects := redirects + [CART_PATH];
        return;
      }
      Load(items, addressReply);
    }

    /** The guard passed: the items are grouped by seller and the addresses fetched. */
    method Load(items: seq<CheckoutItem>, addressReply: Result<AddressData>)
      requires KeysValid()
      modifies this`sellerGroups, this`subtotal
      modifies this`isLoading, this`addresses, this`selectedAddress, this`error
      ensures KeysValid()
      ensures sellerGroups == Grouping.Group(items, GroupKey, ShopName)
      ensures subtotal == Grouping.Sum(items, LineSubtotal)
      ensures AddressesFetched(old(addresses), old(selectedAddress), old(error), addressReply)
    {
      var groups, sub := GroupSellers(items);
      SellerGroupsDistinct(items);
      sellerGroups, subtotal := groups, sub;
      FetchAddresses(addressReply);
    }

    /** The state `fetchAddresses` leaves, from the state before it. */
    ghost predicate AddressesFetched(addresses0: seq<Address>, selected0: Option<Address>, error0: Option<string>,
                                     reply: Result<AddressData>)
      reads this
    {
      && !isLoading
      && (reply.Err? ==> addresses == addresses0 && selectedAddress == selected0 && error == Some(ADDRESS_ERROR))
      && (reply.Ok? && reply.value.addresses.None? ==>
            addresses == [] && selectedAddress == selected0 && error == Some(ADDRESS_ERROR))
      && (reply.Ok? && reply.value.addresses.Some? ==>
            var list := reply.value.addresses.value;
            var d := DefaultAddress(list, reply.value.defaultAddressId);
            && addresses == list && error == error0
            && selectedAddress == (if d.Some? then d else selected0))
    }

    /** `fetchAddresses`: the list is stored (`|| []`), then `data.addresses.find` picks
        the default, which throws on a missing list; any failure sets the address
        error. A fetch that finds no address leaves the selection as it was. */
    method FetchAddresses(reply: Result<AddressData>)
      modifies this`isLoading, this`addresses, this`selectedAddress, this`error
      ensures AddressesFetched(old(addresses), old(selectedAddress), old(error), reply)
    {
      isLoading := true;
      if reply.Err? {
        error := Some(ADDRESS_ERROR);
      } else if reply.value.addresses.None? {
        addresses := [];
        error := Some(ADDRESS_ERROR);
      } else {
        var list := reply.value.addresses.value;
        addresses := list;
        var d := DefaultAddress(list, reply.value.defaultAddressId);
        if d.Some? {
          selectedAddress := d;
        }
      }
      isLoading := false;
    }

    /** The second effect. Without an address the options are emptied and nothing else
        happens. Otherwise a successful fetch stores `seller_options || {}` and resets
        every shipping choice; a failed one keeps the choices and sets the error. */
    method FetchShipping(reply: Result<Option<seq<JsObject.Entry<seq<Shipping>>>>>)
      requires KeysValid()
      modifies this`isLoading, this`error, this`shippingOptions, this`selectedShipping
      ensures KeysValid()
      ensures selectedAddress.None? ==>
                && shippingOptions == [] && selectedShipping == old(selectedShipping)
                && isLoading == old(isLoading) && error == old(error)
      ensures selectedAddress.Some? && reply.Ok? ==>
                && shippingOptions == OrEmpty(reply.value) && selectedShipping == []
                && !isLoading && error == None
      ensures selectedAddress.Some? && reply.Err? ==>
                && shippingOptions == old(shippingOptions) && selectedShipping == old(selectedShipping)
                && !isLoading && error == Some(SHIPPING_ERROR_PREFIX + reply.message)
    {
      if selectedAddress.None? {
        shippingOptions := [];
        return;
      }
      isLoading := true;
      error := None;
      if reply.Ok? {
        shippingOptions := OrEmpty(reply.value);
        selectedShipping := [];
      } else {
        error := Some(SHIPPING_ERROR_PREFIX + reply.message);
      }
      isLoading := false;
    }

    /** The third effect: `totalShipping` and `grandTotal` from the current choices. */
    method RecomputeTotals()
      modifies this`totalShipping, this`grandTotal
      ensures totalShipping == JsObject.SumValues(selectedShipping, Harga)
      ensures grandTotal == subtotal + totalShipping
    {
      var t := TotalShipping(selectedShipping);
      totalShipping := t;
      grandTotal := subtotal + t;
    }

    /** `handleShippingSelect(sellerId, option)` */
    method HandleShippingSelect(sellerId: string, option: Shipping)
      requires KeysValid()
      modifies this`selectedShipping
      ensures KeysValid()
      ensures selectedShipping == JsObject.Put(old(selectedShipping), sellerId, Choose(option))
    {
      JsObject.PutKeys(selectedShipping, sellerId, Choose(option));
      selectedShipping := JsObject.Put(selectedShipping, sellerId, Choose(option));
    }

    /** `handlePlaceOrder`: a failing check sets its error and sends nothing. Otherwise
        the order is sent; success empties the cart through `clearCart` and goes to the
        order page, failure keeps the cart and shows `err.message || …`. */
    method PlaceOrder(items: seq<CheckoutItem>, store: CartStore.Store, reply: Result<OrderData>)
      requires KeysValid()
      modifies this`error, this`isPlacingOrder, this`orders, this`redirects, store
      ensures KeysValid()
      ensures var e := OrderCheck(old(selectedAddress), old(selectedShipping), old(sellerGroups), old(paymentMethod));
              && (e.Some? ==>
                    && error == e && orders == old(orders) && redirects == old(redirects)
                    && isPlacingOrder == old(isPlacingOrder)
                    && store.cart == old(store.cart) && store.timer == old(store.timer))
              && (e.None? ==>
                    && !isPlacingOrder
                    && orders == old(orders) + [OrderPayload(items, selectedAddress.value.id, selectedShipping, paymentMethod)])
              && (e.None? && reply.Ok? ==>
                    && error == None && store.cart == []
                    && store.timer == CartStoreClearTimer(old(store.timer))
                    && redirects == old(redirects) + [ORDER_PATH_PREFIX + reply.value.orderId])
              && (e.None? && reply.Err? ==>
                    && error == Some(Or(Some(reply.message), ORDER_ERROR)) && redirects == old(redirects)
                    && store.cart == old(store.cart) && store.timer == old(store.timer))
      ensures store.effects == old(store.effects)
    {
      error := None;
      var e := OrderCheck(selectedAddress, selectedShipping, sellerGroups, paymentMethod);
      if e.Some? {
        error := e;
        return;
      }
      isPlacingOrder := true;
      orders := orders + [OrderPayload(items, selectedAddress.value.id, selectedShipping, paymentMethod)];
      if reply.Ok? {
        store.ClearCart();
        redirects := redirects + [ORDER_PATH_PREFIX + reply.value.orderId];
      } else {
        error := Some(Or(Some(reply.message), ORDER_ERROR));
      }
      isPlacingOrder := false;
    }
  }

  /** The debounce state `clearCart` leaves: a sync of `[]` is pending. */
  function CartStoreClearTimer(t: Debounce.Timer<seq<CartStore.LineItem>>): Debounce.Timer<seq<CartStore.LineItem>> {
    Debounce.Schedule(t, [], CartStore.SYNC_WAIT)
  }
}

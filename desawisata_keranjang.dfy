/** The older cart page of `desawisata/src/pages/keranjang.js`. It reads `items`,
    `total` and `isLoading` from an older cart store and drives it through
    `addItem(productId, variationId, quantity)` and `removeItem(productId, variationId)`.
    That store is not part of this model, so a click is modelled as the call it makes. */
module DesawisataKeranjang {
  import opened Js
  import Grouping
  import CartStore

  const FALLBACK_KEY: string := "toko-lain"
  const FALLBACK_NAME: string := "Toko Lain"

  /** A line of the older store, with the fields the page reads. */
  datatype Item = Item(productId: string, variationId: Option<string>, namaProduk: string,
                       hargaSatuan: int, quantity: int, toko: Option<CartStore.Toko>)

  /** `item.toko?.id_pedagang || 'toko-lain'` */
  function TokoKey(item: Item): string {
    if item.toko.Some? && Truthy(item.toko.value.idPedagang) then item.toko.value.idPedagang.value
    else FALLBACK_KEY
  }

  /** `item.toko?.nama_toko || 'Toko Lain'` */
  function TokoName(item: Item): string {
    if item.toko.Some? && Truthy(item.toko.value.namaToko) then item.toko.value.namaToko.value
    else FALLBACK_NAME
  }

  /** `itemsByToko`: `items.reduce(…)` into groups keyed by the seller id. */
  method ItemsByToko(items: seq<Item>) returns (groups: seq<Grouping.Bucket<Item>>)
    ensures groups == Grouping.Group(items, TokoKey, TokoName)
  {
    groups := [];
    var i := 0;
    while i < |items|
      invariant 0 <= i <= |items|
      invariant groups == Grouping.Group(items[..i], TokoKey, TokoName)
    {
      assert items[..i + 1][..i] == items[..i];
      groups := Grouping.PushInto(groups, items[i], TokoKey, TokoName);
      i := i + 1;
    }
    assert items[..|items|] == items;
  }

  /** `items.length === 0 && !isLoading` */
  predicate ShowEmpty(items: seq<Item>, isLoading: bool) {
    |items| == 0 && !isLoading
  }

  /** The empty state is shown only when there is nothing to list and no sync is
      running; while loading an empty cart shows the list area with no group in it.
      Each item is listed once under its seller (or `'toko-lain'`), and the group names
      are taken from the first item of each group. */
  lemma PageGroupsSpec(items: seq<Item>, isLoading: bool)
    ensures var g := Grouping.Group(items, TokoKey, TokoName);
            && (ShowEmpty(items, isLoading) ==> g == [])
            && (!ShowEmpty(items, isLoading) && g == [] ==> isLoading)
            && Grouping.DistinctKeys(g)
            && Grouping.TotalSize(g) == |items|
            && (forall i :: 0 <= i < |g| ==> g[i].items == Grouping.Filter(items, TokoKey, g[i].key))
            && (forall i :: 0 <= i < |g| ==>
                  Grouping.FirstIndex(items, TokoKey, g[i].key) < |items| &&
                  g[i].name == TokoName(items[Grouping.FirstIndex(items, TokoKey, g[i].key)]))
  {
    Grouping.GroupPartition(items, TokoKey, TokoName);
    Grouping.GroupNames(items, TokoKey, TokoName);
  }

  /** A call to the older store. */
  datatype Call = AddItem(productId: string, variationId: Option<string>, quantity: int)
                | RemoveItem(productId: string, variationId: Option<string>)

  /** The minus button: disabled at a quantity of 1 or less, or while syncing. */
  function MinusClick(item: Item, isLoading: bool): (c: Option<Call>)
    ensures c.Some? <==> item.quantity > 1 && !isLoading
    ensures c.Some? ==> c.value.AddItem? && c.value.quantity >= 1
    ensures c.Some? ==> c.value == AddItem(item.productId, item.variationId, item.quantity - 1)
  {
    if item.quantity <= 1 || isLoading then None
    else Some(AddItem(item.productId, item.variationId, item.quantity - 1))
  }

  /** The plus button: disabled while syncing. */
  function PlusClick(item: Item, isLoading: bool): (c: Option<Call>)
    ensures c.Some? <==> !isLoading
    ensures c.Some? ==> c.value == AddItem(item.productId, item.variationId, item.quantity + 1)
  {
    if isLoading then None else Some(AddItem(item.productId, item.variationId, item.quantity + 1))
  }

  /** The remove button is never disabled. */
  function RemoveClick(item: Item): (c: Call)
    ensures c.RemoveItem? && c.productId == item.productId && c.variationId == item.variationId
  {
    RemoveItem(item.productId, item.variationId)
  }

  /** While a sync is running neither quantity button does anything, but the remove
      button still does; and every click names the item it was drawn for. */
  lemma ButtonsWhileLoading(item: Item)
    ensures MinusClick(item, true).None? && PlusClick(item, true).None?
    ensures RemoveClick(item) == RemoveItem(item.productId, item.variationId)
    ensures forall b: bool :: MinusClick(item, b).Some? ==>
              MinusClick(item, b).value.productId == item.productId &&
              MinusClick(item, b).value.variationId == item.variationId
  {
  }
}

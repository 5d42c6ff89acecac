/** The application root: the wardrobe and the saved outfits, held as state and mirrored to
    local storage under fixed keys after every change. */
module App {
  import opened Types
  import opened Seqs
  import Storage

  const ItemsKey: string := "wardrobe_items"
  const OutfitsKey: string := "saved_outfits"

  /** The delete test `i => i.id !== id` over items. */
  function OtherItem(id: string): ClothingItem -> bool {
    (i: ClothingItem) => i.id != id
  }

  /** The delete test `o => o.id !== id` over outfits. */
  function OtherOutfit(id: string): Outfit -> bool {
    (o: Outfit) => o.id != id
  }

  /** `prev.filter(i => i.id !== id)` over items: exactly the records whose id differs. */
  function WithoutItem(items: seq<ClothingItem>, id: string): (r: seq<ClothingItem>)
    ensures |r| <= |items|
    ensures forall x :: x in r <==> x in items && x.id != id
  {
    FilterMembers(items, OtherItem(id));
    Filter(items, OtherItem(id))
  }

  /** `prev.filter(o => o.id !== id)` over outfits: exactly the outfits whose id differs. */
  function WithoutOutfit(outfits: seq<Outfit>, id: string): (r: seq<Outfit>)
    ensures |r| <= |outfits|
    ensures forall x :: x in r <==> x in outfits && x.id != id
  {
    FilterMembers(outfits, OtherOutfit(id));
    Filter(outfits, OtherOutfit(id))
  }

  /** Deleting an item id keeps the other records in their order, each as often as before, and
      removes every record carrying that id. */
  lemma WithoutItemSpec(items: seq<ClothingItem>, id: string)
    ensures IsSubsequence(WithoutItem(items, id), items)
    ensures forall x :: multiset(WithoutItem(items, id))[x] == if x.id != id then multiset(items)[x] else 0
    ensures forall i :: 0 <= i < |WithoutItem(items, id)| ==> WithoutItem(items, id)[i].id != id
  {
    FilterIsSubsequence(items, OtherItem(id));
    FilterCounts(items, OtherItem(id));
  }

  /** Deleting an id no item carries changes nothing. */
  lemma WithoutAbsentItem(items: seq<ClothingItem>, id: string)
    requires forall i :: 0 <= i < |items| ==> items[i].id != id
    ensures WithoutItem(items, id) == items
  {
    FilterKeepsAll(items, OtherItem(id));
  }

  /** Deleting an outfit id keeps the other outfits in their order, each as often as before, and
      removes every outfit carrying that id. */
  lemma WithoutOutfitSpec(outfits: seq<Outfit>, id: string)
    ensures IsSubsequence(WithoutOutfit(outfits, id), outfits)
    ensures forall x :: multiset(WithoutOutfit(outfits, id))[x] == if x.id != id then multiset(outfits)[x] else 0
    ensures forall i :: 0 <= i < |WithoutOutfit(outfits, id)| ==> WithoutOutfit(outfits, id)[i].id != id
  {
    FilterIsSubsequence(outfits, OtherOutfit(id));
    FilterCounts(outfits, OtherOutfit(id));
  }

  /** Deleting an id no outfit carries changes nothing. */
  lemma WithoutAbsentOutfit(outfits: seq<Outfit>, id: string)
    requires forall i :: 0 <= i < |outfits| ==> outfits[i].id != id
    ensures WithoutOutfit(outfits, id) == outfits
  {
    FilterKeepsAll(outfits, OtherOutfit(id));
  }

  /** Adding performs no id check: prepending an item whose id is already present leaves two
      records with that id, and deleting that id afterwards removes both. */
  lemma DuplicateAddKeepsBoth(items: seq<ClothingItem>, item: ClothingItem)
    requires exists i :: 0 <= i < |items| && items[i].id == item.id
    ensures |Filter([item] + items, (x: ClothingItem) => x.id == item.id)| >= 2
    ensures forall x :: x in WithoutItem([item] + items, item.id) ==> x.id != item.id
  {
    var i :| 0 <= i < |items| && items[i].id == item.id;
    var same := (x: ClothingItem) => x.id == item.id;
    FilterAppend([item], items, same);
    FilterCounts(items, same);
    assert multiset(items)[items[i]] > 0;
    assert Filter(items, same) != [];
    WithoutItemSpec([item] + items, item.id);
  }

  /** The root component's state: the two lists and the two storage slots they mirror. */
  class AppState {
    var items: seq<ClothingItem>
    var outfits: seq<Outfit>
    var itemStorage: map<string, seq<ClothingItem>>
    var outfitStorage: map<string, seq<Outfit>>

    /** The save effects have run: loading either slot returns the in-memory list. */
    ghost predicate Persisted()
      reads this
    {
      Storage.Load(itemStorage, ItemsKey) == items && Storage.Load(outfitStorage, OutfitsKey) == outfits
    }

    /** Mounting: each list is loaded from its slot (empty when absent), then the save effects
        run once and write both lists back. */
    constructor (itemStorage0: map<string, seq<ClothingItem>>, outfitStorage0: map<string, seq<Outfit>>)
      ensures items == Storage.Load(itemStorage0, ItemsKey)
      ensures outfits == Storage.Load(outfitStorage0, OutfitsKey)
      ensures itemStorage == Storage.Save(itemStorage0, ItemsKey, items)
      ensures outfitStorage == Storage.Save(outfitStorage0, OutfitsKey, outfits)
      ensures Persisted()
    {
      var loadedItems := Storage.Load(itemStorage0, ItemsKey);
      var loadedOutfits := Storage.Load(outfitStorage0, OutfitsKey);
      items, outfits := loadedItems, loadedOutfits;
      itemStorage := Storage.Save(itemStorage0, ItemsKey, loadedItems);
      outfitStorage := Storage.Save(outfitStorage0, OutfitsKey, loadedOutfits);
    }

    /** `handleAddItem`: prepend, with no id check; the item effect then saves the list. */
    method HandleAddItem(item: ClothingItem)
      modifies this
      ensures items == [item] + old(items)
      ensures itemStorage == Storage.Save(old(itemStorage), ItemsKey, items)
      ensures outfits == old(outfits) && outfitStorage == old(outfitStorage)
      ensures old(Persisted()) ==> Persisted()
    {
      items := [item] + items;
      itemStorage := Storage.Save(itemStorage, ItemsKey, items);
    }

    /** `handleDeleteItem`: when the user confirms, drop every item with that id and save;
        when they decline, nothing changes and nothing is written. */
    method HandleDeleteItem(id: string, confirmed: bool)
      modifies this
      ensures items == if confirmed then WithoutItem(old(items), id) else old(items)
      ensures itemStorage == if confirmed then Storage.Save(old(itemStorage), ItemsKey, items) else old(itemStorage)
      ensures outfits == old(outfits) && outfitStorage == old(outfitStorage)
      ensures old(Persisted()) ==> Persisted()
    {
      if confirmed {
        items := WithoutItem(items, id);
        itemStorage := Storage.Save(itemStorage, ItemsKey, items);
      }
    }

    /** `handleSaveOutfit`: prepend; the outfit effect then saves the list. */
    method HandleSaveOutfit(outfit: Outfit)
      modifies this
      ensures outfits == [outfit] + old(outfits)
      ensures outfitStorage == Storage.Save(old(outfitStorage), OutfitsKey, outfits)
      ensures items == old(items) && itemStorage == old(itemStorage)
      ensures old(Persisted()) ==> Persisted()
    {
      outfits := [outfit] + outfits;
      outfitStorage := Storage.Save(outfitStorage, OutfitsKey, outfits);
    }

    /** `handleDeleteOutfit`: drop every outfit with that id, with no confirmation, and save. */
    method HandleDeleteOutfit(id: string)
      modifies this
      ensures outfits == WithoutOutfit(old(outfits), id)
      ensures outfitStorage == Storage.Save(old(outfitStorage), OutfitsKey, outfits)
      ensures items == old(items) && itemStorage == old(itemStorage)
      ensures old(Persisted()) ==> Persisted()
    {
      outfits := WithoutOutfit(outfits, id);
      outfitStorage := Storage.Save(outfitStorage, OutfitsKey, outfits);
    }
  }

  /** A page reload: a new root mounted on the storage the old one left behind starts with the
      same lists. */
  method Reload(app: AppState) returns (reloaded: AppState)
    requires app.Persisted()
    ensures reloaded.items == app.items && reloaded.outfits == app.outfits
  {
    reloaded := new AppState(app.itemStorage, app.outfitStorage);
  }
}

/** The wardrobe screen: the category filter over the item list and its two delete buttons. */
module WardrobeView {
  import opened Wrappers
  import opened Seqs
  import opened Types
  import App
  import Storage

  /** The filter select's value: 'All' or one category. */
  datatype CategoryFilter = All | Only(category: ClothingCategory)

  /** The select's options: 'All' first, then every category in declaration order. */
  const FilterChoices: seq<CategoryFilter> := [All] + seq(|AllCategories|, i requires 0 <= i < |AllCategories| => Only(AllCategories[i]))

  /** Every filter value is offered, 'All' first, eight options in all. */
  lemma FilterChoicesComplete()
    ensures |FilterChoices| == 8 && FilterChoices[0] == All
    ensures forall f: CategoryFilter :: f in FilterChoices
  {
    Types.CategoryValues();
    forall f: CategoryFilter ensures f in FilterChoices {
      if f.Only? {
        assert f.category in AllCategories;
        var i :| 0 <= i < |AllCategories| && AllCategories[i] == f.category;
        assert FilterChoices[i + 1] == f;
      }
    }
  }

  /** `item.category === filter` for one category. */
  function InCategory(c: ClothingCategory): ClothingItem -> bool {
    (item: ClothingItem) => item.category == c.Value()
  }

  /** `filteredItems`: the whole list for 'All', else exactly the items of that category. */
  function FilteredItems(items: seq<ClothingItem>, filter: CategoryFilter): (r: seq<ClothingItem>)
    ensures filter.All? ==> r == items
    ensures filter.Only? ==> |r| <= |items| && forall x :: x in r <==> x in items && x.category == filter.category.Value()
  {
    match filter
    case All => items
    case Only(c) =>
      FilterMembers(items, InCategory(c));
      Filter(items, InCategory(c))
  }

  /** The category view is an order-preserving subsequence of the items that shows every item of
      that category, as often as it occurs, and nothing else. */
  lemma CategoryFilterSpec(items: seq<ClothingItem>, c: ClothingCategory)
    ensures IsSubsequence(FilteredItems(items, Only(c)), items)
    ensures forall i :: 0 <= i < |FilteredItems(items, Only(c))| ==> FilteredItems(items, Only(c))[i].category == c.Value()
    ensures forall x :: multiset(FilteredItems(items, Only(c)))[x] == if x.category == c.Value() then multiset(items)[x] else 0
  {
    FilterIsSubsequence(items, InCategory(c));
    FilterCounts(items, InCategory(c));
  }

  /** An item whose category string is not one of the enumeration's values (nothing validates
      it) appears under 'All' and under no category. */
  lemma UnlistedCategoryOnlyUnderAll(items: seq<ClothingItem>, x: ClothingItem)
    requires x in items && ParseCategory(x.category).None?
    ensures x in FilteredItems(items, All)
    ensures forall c :: x !in FilteredItems(items, Only(c))
  {
    Types.CategoryValues();
    forall c ensures x !in FilteredItems(items, Only(c)) {
      FilterMembers(items, InCategory(c));
    }
  }

  /** The category strings of `cats`. */
  function Values(cats: seq<ClothingCategory>): (r: seq<string>)
    ensures |r| == |cats|
  {
    if cats == [] then [] else [cats[0].Value()] + Values(cats[1..])
  }

  /** The j-th value is the j-th category's value. */
  lemma {:induction false} ValuesAt(cats: seq<ClothingCategory>, j: nat)
    requires j < |cats|
    ensures Values(cats)[j] == cats[j].Value()
  {
    if j > 0 {
      ValuesAt(cats[1..], j - 1);
    }
  }

  /** The per-category views of `cats`, taken together as a bag. */
  function CategoryUnion(items: seq<ClothingItem>, cats: seq<ClothingCategory>): multiset<ClothingItem> {
    if cats == [] then multiset{}
    else multiset(FilteredItems(items, Only(cats[0]))) + CategoryUnion(items, cats[1..])
  }

  /** Over distinct categories, an item occurs in the union of their views exactly as often as in
      the list when its category is one of them, and not at all otherwise. */
  lemma {:induction false} CategoryUnionCount(items: seq<ClothingItem>, cats: seq<ClothingCategory>, x: ClothingItem)
    requires forall i, j :: 0 <= i < j < |cats| ==> cats[i].Value() != cats[j].Value()
    ensures CategoryUnion(items, cats)[x] == if x.category in Values(cats) then multiset(items)[x] else 0
  {
    if cats != [] {
      var rest := cats[1..];
      CategoryUnionCount(items, rest, x);
      FilterCounts(items, InCategory(cats[0]));
      assert cats[0].Value() !in Values(rest) by {
        forall j | 0 <= j < |rest| ensures Values(rest)[j] != cats[0].Value() {
          ValuesAt(rest, j);
          assert rest[j] == cats[j + 1];
        }
      }
    }
  }

  /** Each item carries one category, so when every stored category is a known value the
      per-category views partition the list: together they hold every item exactly once per
      occurrence. */
  lemma {:induction false} CategoriesPartition(items: seq<ClothingItem>)
    requires forall i :: 0 <= i < |items| ==> ParseCategory(items[i].category).Some?
    ensures CategoryUnion(items, AllCategories) == multiset(items)
  {
    Types.CategoryValues();
    forall k | 0 <= k < |items| ensures items[k].category in Values(AllCategories) {
      var c := ParseCategory(items[k].category).value;
      assert c in AllCategories;
      var i :| 0 <= i < |AllCategories| && AllCategories[i] == c;
      ValuesAt(AllCategories, i);
    }
    forall x ensures CategoryUnion(items, AllCategories)[x] == multiset(items)[x] {
      PartitionCount(items, AllCategories, x);
    }
  }

  /** Over distinct categories that cover every item's category, an item occurs in the union of
      the views exactly as often as in the list. */
  lemma {:induction false} PartitionCount(items: seq<ClothingItem>, cats: seq<ClothingCategory>, x: ClothingItem)
    requires forall i, j :: 0 <= i < j < |cats| ==> cats[i].Value() != cats[j].Value()
    requires forall i :: 0 <= i < |items| ==> items[i].category in Values(cats)
    ensures CategoryUnion(items, cats)[x] == multiset(items)[x]
  {
    CategoryUnionCount(items, cats, x);
  }

  /** The screen's own state: the chosen filter and the item open in the detail view. */
  class WardrobeScreen {
    var filter: CategoryFilter
    var selectedItem: Option<ClothingItem>

    constructor ()
      ensures filter == All && selectedItem == None
    {
      filter := All;
      selectedItem := None;
    }

    /** The cards shown for the current filter. */
    function Displayed(items: seq<ClothingItem>): seq<ClothingItem>
      reads this
    {
      FilteredItems(items, filter)
    }

    /** Choosing an option of the filter select: from then on the cards shown are that
        option's view of the list. */
    method ChooseFilter(f: CategoryFilter)
      modifies this
      ensures filter == f && selectedItem == old(selectedItem)
      ensures forall items :: Displayed(items) == FilteredItems(items, f)
    {
      filter := f;
    }

    /** Clicking a card opens its detail view. */
    method Open(item: ClothingItem)
      modifies this
      ensures selectedItem == Some(item) && filter == old(filter)
    {
      selectedItem := Some(item);
    }

    /** The detail view's close button. */
    method Close()
      modifies this
      ensures selectedItem == None && filter == old(filter)
    {
      selectedItem := None;
    }

    /** The card's trash button calls `onDelete` directly; the only confirmation is the one
        `handleDeleteItem` asks for. The card click that would open the item is stopped. */
    method CardDelete(app: App.AppState, id: string, confirmed: bool)
      modifies app
      ensures app.items == if confirmed then App.WithoutItem(old(app.items), id) else old(app.items)
      ensures app.itemStorage == if confirmed then Storage.Save(old(app.itemStorage), App.ItemsKey, app.items) else old(app.itemStorage)
      ensures app.outfits == old(app.outfits) && app.outfitStorage == old(app.outfitStorage)
      ensures old(app.Persisted()) ==> app.Persisted()
    {
      app.HandleDeleteItem(id, confirmed);
    }

    /** The detail view's remove button asks first (`confirmDetail`); if the user agrees it calls
        `onDelete`, which asks again (`confirmApp`), and closes the view whatever the second
        answer was. */
    method DetailDelete(app: App.AppState, confirmDetail: bool, confirmApp: bool)
      requires selectedItem.Some?
      modifies this, app
      ensures app.items == if confirmDetail && confirmApp then App.WithoutItem(old(app.items), old(selectedItem).value.id) else old(app.items)
      ensures app.itemStorage == if confirmDetail && confirmApp then Storage.Save(old(app.itemStorage), App.ItemsKey, app.items) else old(app.itemStorage)
      ensures selectedItem == if confirmDetail then None else old(selectedItem)
      ensures filter == old(filter)
      ensures app.outfits == old(app.outfits) && app.outfitStorage == old(app.outfitStorage)
      ensures old(app.Persisted()) ==> app.Persisted()
    {
      if confirmDetail {
        app.HandleDeleteItem(selectedItem.value.id, confirmApp);
        selectedItem := None;
      }
    }
  }
}

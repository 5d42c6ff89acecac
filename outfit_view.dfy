/** The outfit screen: resolving an outfit's item ids against the wardrobe, building an outfit
    from a recommendation, and the generate and save handlers. */
module OutfitView {
  import opened Wrappers
  import opened Seqs
  import opened Text
  import opened Types
  import GeminiService
  import App
  import Storage

  /** `wardrobe.find(item => item.id === id)`: the first item with that id. */
  function FindItem(wardrobe: seq<ClothingItem>, id: string): (r: Option<ClothingItem>)
    ensures r.None? <==> forall i :: 0 <= i < |wardrobe| ==> wardrobe[i].id != id
    ensures r.Some? ==> r.value in wardrobe && r.value.id == id
  {
    if wardrobe == [] then None
    else if wardrobe[0].id == id then Some(wardrobe[0])
    else FindItem(wardrobe[1..], id)
  }

  /** When several items share an id, the lookup returns the one nearest the front. */
  lemma {:induction false} FindReturnsFirst(wardrobe: seq<ClothingItem>, id: string, k: nat)
    requires k < |wardrobe| && wardrobe[k].id == id
    requires forall j :: 0 <= j < k ==> wardrobe[j].id != id
    ensures FindItem(wardrobe, id) == Some(wardrobe[k])
  {
    if k > 0 {
      FindReturnsFirst(wardrobe[1..], id, k - 1);
    }
  }

  /** Items are added at the front, so a lookup returns the most recently added item with that
      id, even when an older one shares it. */
  lemma FindReturnsNewest(item: ClothingItem, wardrobe: seq<ClothingItem>)
    ensures FindItem([item] + wardrobe, item.id) == Some(item)
  {
    FindReturnsFirst([item] + wardrobe, item.id, 0);
  }

  /** `itemIds.map(id => wardrobe.find(…))`. */
  function Lookups(wardrobe: seq<ClothingItem>, itemIds: seq<string>): (r: seq<Option<ClothingItem>>)
    ensures |r| == |itemIds|
  {
    seq(|itemIds|, i requires 0 <= i < |itemIds| => FindItem(wardrobe, itemIds[i]))
  }

  /** `getImagesForOutfit`: the looked-up items with the misses dropped. There are at most as
      many as ids, and each is a wardrobe item whose id the outfit lists. */
  function GetImagesForOutfit(wardrobe: seq<ClothingItem>, itemIds: seq<string>): (r: seq<ClothingItem>)
    ensures |r| <= |itemIds|
    ensures forall x :: x in r ==> x in wardrobe && x.id in itemIds
  {
    var lookups := Lookups(wardrobe, itemIds);
    var r := Somes(lookups);
    assert forall x :: x in r ==> x in wardrobe && x.id in itemIds by {
      forall x | x in r ensures x in wardrobe && x.id in itemIds {
        SomesMembers(lookups, x);
        var i :| 0 <= i < |itemIds| && lookups[i] == Some(x);
        assert FindItem(wardrobe, itemIds[i]) == Some(x);
      }
    }
    r
  }

  /** Resolution works id by id: resolving a concatenation of id lists concatenates the results,
      so the order of the ids is kept and a repeated id yields its item again. */
  lemma ResolveAppend(wardrobe: seq<ClothingItem>, a: seq<string>, b: seq<string>)
    ensures GetImagesForOutfit(wardrobe, a + b) == GetImagesForOutfit(wardrobe, a) + GetImagesForOutfit(wardrobe, b)
  {
    assert Lookups(wardrobe, a + b) == Lookups(wardrobe, a) + Lookups(wardrobe, b);
    SomesAppend(Lookups(wardrobe, a), Lookups(wardrobe, b));
  }

  /** One id resolves to its first item, or to nothing without error when no item has it. */
  lemma ResolveOne(wardrobe: seq<ClothingItem>, id: string)
    ensures GetImagesForOutfit(wardrobe, [id]) == match FindItem(wardrobe, id) case Some(x) => [x] case None => []
  {
    assert Lookups(wardrobe, [id]) == [FindItem(wardrobe, id)];
    assert Lookups(wardrobe, [id])[1..] == [];
  }

  /** An id listed twice yields its item twice, side by side. */
  lemma RepeatedIdRepeats(wardrobe: seq<ClothingItem>, id: string)
    requires FindItem(wardrobe, id).Some?
    ensures GetImagesForOutfit(wardrobe, [id, id]) == [FindItem(wardrobe, id).value, FindItem(wardrobe, id).value]
  {
    assert [id, id] == [id] + [id];
    ResolveAppend(wardrobe, [id], [id]);
    ResolveOne(wardrobe, id);
  }

  /** An id that no wardrobe item has is dropped silently: the rest resolves as if it were absent. */
  lemma UnknownIdDropped(wardrobe: seq<ClothingItem>, a: seq<string>, id: string, b: seq<string>)
    requires forall i :: 0 <= i < |wardrobe| ==> wardrobe[i].id != id
    ensures GetImagesForOutfit(wardrobe, a + [id] + b) == GetImagesForOutfit(wardrobe, a + b)
  {
    ResolveAppend(wardrobe, a + [id], b);
    ResolveAppend(wardrobe, a, [id]);
    ResolveOne(wardrobe, id);
    ResolveAppend(wardrobe, a, b);
  }

  /** When every id resolves, the result has one item per id, in the same order. */
  lemma ResolveAllKnown(wardrobe: seq<ClothingItem>, itemIds: seq<string>)
    requires forall i :: 0 <= i < |itemIds| ==> FindItem(wardrobe, itemIds[i]).Some?
    ensures |GetImagesForOutfit(wardrobe, itemIds)| == |itemIds|
    ensures forall i :: 0 <= i < |itemIds| ==> GetImagesForOutfit(wardrobe, itemIds)[i].id == itemIds[i]
  {
    SomesAllPresent(Lookups(wardrobe, itemIds));
  }

  /** Deleting an item does not touch the outfits that name it; resolving them afterwards
      simply leaves out every item with that id. */
  lemma DeletedItemOmitted(wardrobe: seq<ClothingItem>, id: string, itemIds: seq<string>)
    ensures forall x :: x in GetImagesForOutfit(App.WithoutItem(wardrobe, id), itemIds) ==> x.id != id
  {
    var rest := App.WithoutItem(wardrobe, id);
    assert forall x :: x in GetImagesForOutfit(rest, itemIds) ==> x in rest;
  }

  /** Ids taken from the wardrobe summary all resolve: an outfit whose ids the recommender copied
      from the summary shows one item per id. */
  lemma SummaryIdsResolve(wardrobe: seq<ClothingItem>, itemIds: seq<string>)
    requires forall i :: 0 <= i < |itemIds| ==> exists e :: e in GeminiService.Summarize(wardrobe) && e.id == itemIds[i]
    ensures |GetImagesForOutfit(wardrobe, itemIds)| == |itemIds|
  {
    forall i | 0 <= i < |itemIds| ensures FindItem(wardrobe, itemIds[i]).Some? {
      var e :| e in GeminiService.Summarize(wardrobe) && e.id == itemIds[i];
      var j :| 0 <= j < |GeminiService.Summarize(wardrobe)| && GeminiService.Summarize(wardrobe)[j] == e;
      GeminiService.SummaryEntries(wardrobe, j);
      assert wardrobe[j].id == itemIds[i];
    }
    ResolveAllKnown(wardrobe, itemIds);
  }

  /** The outfit built from a recommendation: it loses nothing of the recommendation (name,
      ids and reasoning), records the prompt as typed (untrimmed) as its occasion, and carries
      the fresh id and the current time it was given. */
  function NewOutfit(result: Recommendation, prompt: string, id: string, now: int): (r: Outfit)
    ensures RecommendationOf(r) == result
    ensures r.occasion == prompt && r.id == id && r.createdAt == now
  {
    Outfit(id, result.name, result.itemIds, prompt, result.reasoning, now)
  }

  /** The recommendation an outfit was built from. */
  function RecommendationOf(outfit: Outfit): Recommendation {
    Recommendation(outfit.name, outfit.itemIds, outfit.reasoning)
  }

  /** `handleGenerate`'s guard, also the button's disabled test apart from the busy flag: the
      prompt has a character that is not whitespace and the wardrobe is not empty. */
  predicate CanGenerate(prompt: string, wardrobe: seq<ClothingItem>)
    ensures CanGenerate(prompt, wardrobe) <==> |wardrobe| > 0 && exists i :: 0 <= i < |prompt| && !IsTrimmable(prompt[i])
  {
    !IsBlank(prompt) && |wardrobe| != 0
  }

  /** The screen's own state. */
  class OutfitScreen {
    var prompt: string
    var isGenerating: bool
    var generatedOutfit: Option<Outfit>

    constructor ()
      ensures prompt == "" && !isGenerating && generatedOutfit == None
    {
      prompt := "";
      isGenerating := false;
      generatedOutfit := None;
    }

    /** Typing in the occasion field. */
    method EditPrompt(text: string)
      modifies this
      ensures prompt == text && isGenerating == old(isGenerating) && generatedOutfit == old(generatedOutfit)
    {
      prompt := text;
    }

    /** `handleGenerate`, sequentialised: nothing happens for a blank prompt or an empty
        wardrobe; otherwise the previous suggestion is cleared, the recommender is asked, and on
        success the new outfit is shown (a failure only raises an alert). The busy flag ends
        false either way; the prompt is kept. */
    method HandleGenerate(wardrobe: seq<ClothingItem>, apiKey: Option<string>,
                          service: GeminiService.OutfitRequest -> GeminiService.Remote<Recommendation>,
                          id: string, now: int)
      modifies this
      ensures prompt == old(prompt)
      ensures !CanGenerate(old(prompt), wardrobe) ==>
                isGenerating == old(isGenerating) && generatedOutfit == old(generatedOutfit)
      ensures CanGenerate(old(prompt), wardrobe) ==> !isGenerating
      ensures CanGenerate(old(prompt), wardrobe) ==>
                generatedOutfit == (match GeminiService.GenerateOutfitRecommendation(apiKey, wardrobe, old(prompt), service)
                                    case Ok(result) => Some(NewOutfit(result, old(prompt), id, now))
                                    case Err(_) => None)
    {
      if IsBlank(prompt) || |wardrobe| == 0 {
        return;
      }
      isGenerating := true;
      generatedOutfit := None;
      var result := GeminiService.GenerateOutfitRecommendation(apiKey, wardrobe, prompt, service);
      if result.Ok? {
        generatedOutfit := Some(NewOutfit(result.value, prompt, id, now));
      }
      isGenerating := false;
    }

    /** The save button (shown only while a suggestion is displayed): hand the outfit to
        `onSaveOutfit`, then clear the suggestion and the prompt. */
    method SaveGenerated(app: App.AppState)
      requires generatedOutfit.Some?
      modifies this, app
      ensures app.outfits == [old(generatedOutfit).value] + old(app.outfits)
      ensures app.outfitStorage == Storage.Save(old(app.outfitStorage), App.OutfitsKey, app.outfits)
      ensures app.items == old(app.items) && app.itemStorage == old(app.itemStorage)
      ensures old(app.Persisted()) ==> app.Persisted()
      ensures generatedOutfit == None && prompt == "" && isGenerating == old(isGenerating)
    {
      app.HandleSaveOutfit(generatedOutfit.value);
      generatedOutfit := None;
      prompt := "";
    }

    /** A saved outfit's delete button calls `onDeleteOutfit` straight away. */
    method DeleteSaved(app: App.AppState, id: string)
      modifies app
      ensures app.outfits == App.WithoutOutfit(old(app.outfits), id)
      ensures app.outfitStorage == Storage.Save(old(app.outfitStorage), App.OutfitsKey, app.outfits)
      ensures app.items == old(app.items) && app.itemStorage == old(app.itemStorage)
      ensures old(app.Persisted()) ==> app.Persisted()
    {
      app.HandleDeleteOutfit(id);
    }
  }
}

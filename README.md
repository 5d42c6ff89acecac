# Clothing-Styling wardrobe: a Dafny model

This project models the core of the Clothing-Styling web app. The app is a digital wardrobe:

- The user photographs garments and a remote vision model classifies each one (type, category, colour, seasons, tags, description).
- The classified garments are kept as a list of items.
- The user can ask a stylist model to put together an outfit for an occasion, and save those outfits.
- The user can chat with the stylist about the wardrobe.

The model covers these parts:

- **`Types`** (`types.ts`):
  - the two string enumerations, `ClothingCategory` and `Season`, with their string values;
  - the records `ClothingItem`, `Outfit` and `AnalysisResult`, plus the recommendation shape.
  - An `Outfit` refers to items only by their string ids.
  - The records hold category and season as plain strings. Nothing in the app validates them: service replies and stored JSON are cast, not checked. `ParseCategory` and `ParseSeason` say when a string is an enumeration value.
- **`Storage`** and **`App`** (`App.tsx`):
  - The root component is a class holding the item list, the outfit list and the two local-storage slots that mirror them (`wardrobe_items`, `saved_outfits`).
  - Local storage is modelled as two maps from key to list, one per record type (items, outfits), so a missing key loads as the empty list. Writing the item slot cannot disturb the outfit slot because they live in different maps; the keys being different is not what keeps them apart.
  - The handlers work as follows:
    - add prepends, with no id check;
    - item delete runs behind a confirmation, passed in as a boolean;
    - outfit save prepends;
    - outfit delete needs no confirmation.
  - After every handler, the list it changed has been written back to its slot.
- **`WardrobeView`**:
  - the category filter, where 'All' shows every item and a category shows an order-preserving subsequence;
  - the proof that the per-category views partition the list;
  - the filter's options;
  - the card and detail-view delete buttons.
- **`OutfitView`**:
  - resolving an outfit's ids against the wardrobe: first match per id, misses dropped;
  - the generate guard;
  - building an outfit from a recommendation;
  - the save and delete buttons.
- **`GeminiService`**:
  - the two data-URL helpers, and the fact that they disagree;
  - the wardrobe summary sent to the recommender;
  - the chat system instruction's wardrobe listing;
  - the error rules around the three remote calls.
  - The remote model itself is a parameter: a function from the request built here to what the service answers.
- **`ScanView`**: the five-field scan screen, covering file choice, analysis, retake and save.
- **`ChatAdvisor`**: the append-only transcript, the send guard, the history sent with each message, and the fallback reply.
- **`Seqs`** and **`Text`**: the list and string operations these use.
  - JavaScript's `filter`, `find` and `.filter(Boolean)`.
  - `trim` with JavaScript's whitespace set.
  - `join`, where an empty list gives "" and one part gives that part.

Asynchronous handlers run in sequence. `crypto.randomUUID()` and `Date.now()` are parameters (`id`, `now`). Answers to `confirm()` are boolean parameters.

The model follows the code as written, which checks less than a reader of the types might expect:

- a duplicate id is accepted on add, and a later delete of that id removes every record carrying it;
- categories and seasons from the classifier are not validated;
- a season list may be empty.

## Model

| member | source | states |
|---|---|---|
| Types.ParseCategory | types.ts:1-9 | a category string parses only to the member whose value it is |
| Types.CategoryValues | types.ts:1-9 | exactly seven members, all listed in declaration order, with distinct values; each value parses back to its member |
| Types.ParseSeason | types.ts:11-17 | a season string parses only to the member whose value it is |
| Types.SeasonValues | types.ts:11-17 | exactly five members with distinct values that parse back; the all-season value is "All Season", and "All-Season" is not a value |
| Storage.Load | App.tsx:16-24 | the lazy initialiser: a slot never written loads as the empty list, a written slot as its stored list |
| Storage.Save | App.tsx:26-32 | writing a slot adds its key and keeps every other key |
| Storage.LoadAfterSave | App.tsx:26-32 | loading after a save returns exactly the saved list, and every other slot keeps its value |
| Seqs.Filter | App.tsx:40 | a filtered list is no longer than its input, and every element kept satisfies the test |
| Seqs.FilterIsSubsequence | components/WardrobeView.tsx:16 | filtering keeps the relative order of the kept elements |
| Seqs.FilterCounts | App.tsx:40 | filtering keeps each passing element as often as it occurred and drops every failing one |
| Seqs.FilterMembers | components/WardrobeView.tsx:16 | an element is in the filtered list iff it is in the input and passes the test |
| Seqs.FilterKeepsAll | App.tsx:40 | when every element passes, filtering returns the input unchanged |
| Seqs.FilterAppend | App.tsx:40 | filtering a concatenation concatenates the filtered parts |
| Seqs.Somes | components/OutfitView.tsx:42 | `.filter(Boolean)` over lookups yields at most one value per lookup |
| Seqs.SomesMembers | components/OutfitView.tsx:42 | a value survives only if some lookup produced it |
| Seqs.SomesAppend | components/OutfitView.tsx:42 | dropping misses distributes over concatenation |
| Seqs.SomesAllPresent | components/OutfitView.tsx:42 | with no misses, every position's value is kept in place |
| Text.TrimStart | components/ChatAdvisor.tsx:33 | removes exactly the leading JavaScript whitespace; the result is a suffix that starts with no whitespace |
| Text.TrimEnd | components/ChatAdvisor.tsx:33 | removes exactly the trailing JavaScript whitespace; the result is a prefix that ends with no whitespace |
| Text.Trim | components/ChatAdvisor.tsx:33 | `s.trim()` is empty iff every character of s is whitespace; otherwise it neither starts nor ends with whitespace |
| Text.TrimBothEnds | components/ChatAdvisor.tsx:33 | trimming both ends leaves nothing iff every character is whitespace, and otherwise leaves a string that starts with a non-whitespace character |
| Text.IsBlank | components/ChatAdvisor.tsx:33 | `!s.trim()` holds iff every character of s is whitespace |
| Text.Join | services/geminiService.ts:151 | `join`: the length is the parts' total plus one separator per gap, with "" for the empty list |
| Text.JoinAppend | services/geminiService.ts:151 | joining two non-empty lists is joining each, with one separator between |
| App.WithoutItem | App.tsx:40 | the filtered items are exactly the records whose id differs, and no more of them than before |
| App.WithoutItemSpec | App.tsx:38-42 | deleting an item id keeps the other records in order and with their multiplicity, and removes every record with that id |
| App.WithoutAbsentItem | App.tsx:38-42 | deleting an id no item has leaves the list unchanged |
| App.WithoutOutfit | App.tsx:49 | the filtered outfits are exactly the outfits whose id differs, and no more of them than before |
| App.WithoutOutfitSpec | App.tsx:48-50 | deleting an outfit id keeps the other outfits in order and with their multiplicity, and removes every outfit with that id |
| App.WithoutAbsentOutfit | App.tsx:48-50 | deleting an id no outfit has leaves the list unchanged |
| App.DuplicateAddKeepsBoth | App.tsx:34-36 | adding an item whose id is already present leaves at least two records with that id; deleting the id removes all of them |
| App.AppState.constructor | App.tsx:16-32 | each list is loaded from its slot (empty when absent), then both are written back, so the state is persisted |
| App.AppState.HandleAddItem | App.tsx:34-36 | the item goes to index 0 ahead of the unchanged list; the item slot is rewritten; outfits are untouched; persistence is kept |
| App.AppState.HandleDeleteItem | App.tsx:38-42 | with confirmation, every item with the id is removed and the slot rewritten; when declined, nothing changes; outfits are untouched |
| App.AppState.HandleSaveOutfit | App.tsx:44-46 | the outfit is prepended and its slot rewritten; items are untouched; persistence is kept |
| App.AppState.HandleDeleteOutfit | App.tsx:48-50 | every outfit with the id is removed, with no confirmation, and the slot rewritten; items are untouched |
| App.Reload | App.tsx:16-32 | a root mounted on the storage a persisted root left behind starts with the same two lists |
| WardrobeView.FilterChoicesComplete | components/WardrobeView.tsx:42-45 | the options are 'All' followed by every category: eight in all, and every filter value is offered |
| WardrobeView.FilteredItems | components/WardrobeView.tsx:14-17 | 'All' shows the list itself; a category shows exactly the items whose category is that value, and no more of them than the list has |
| WardrobeView.CategoryFilterSpec | components/WardrobeView.tsx:14-18 | a category view is an order-preserving subsequence; it holds only items of that category, and every such item as often as it occurs |
| WardrobeView.UnlistedCategoryOnlyUnderAll | components/WardrobeView.tsx:14-18 | an item whose category string is not an enumeration value shows under 'All' and under no category |
| WardrobeView.Values | components/WardrobeView.tsx:43 | one value per listed category |
| WardrobeView.ValuesAt | components/WardrobeView.tsx:43 | the j-th value is the j-th category's value |
| WardrobeView.CategoryUnionCount | components/WardrobeView.tsx:16 | over distinct categories, the combined views hold an item as often as the list does when its category is among them, else not at all |
| WardrobeView.CategoriesPartition | components/WardrobeView.tsx:16 | when every item's category is a known value, the seven category views together are exactly the item list as a bag |
| WardrobeView.PartitionCount | components/WardrobeView.tsx:16 | distinct categories that cover every item's category partition the list |
| WardrobeView.WardrobeScreen.constructor | components/WardrobeView.tsx:11-12 | the screen starts on 'All' with nothing open |
| WardrobeView.WardrobeScreen.ChooseFilter | components/WardrobeView.tsx:39 | the chosen option becomes the filter, so the cards shown for any list are that option's view of it; the open item is kept |
| WardrobeView.WardrobeScreen.Open | components/WardrobeView.tsx:55 | clicking a card opens that item |
| WardrobeView.WardrobeScreen.Close | components/WardrobeView.tsx:90 | the close button clears the open item |
| WardrobeView.WardrobeScreen.CardDelete | components/WardrobeView.tsx:69-72 | the trash button deletes through the app's confirmation alone: confirmed, the items lose that id and the item slot is rewritten; declined, items and storage are untouched; outfits are untouched |
| WardrobeView.WardrobeScreen.DetailDelete | components/WardrobeView.tsx:137-143 | the item is removed and the item slot rewritten only when both confirmations are given, otherwise items and storage are untouched; the view closes iff the first one is given |
| OutfitView.FindItem | components/OutfitView.tsx:42 | finds nothing iff no item has the id; otherwise returns a wardrobe item with that id |
| OutfitView.FindReturnsFirst | components/OutfitView.tsx:42 | among items sharing an id, the one nearest the front is returned |
| OutfitView.FindReturnsNewest | components/OutfitView.tsx:42 | after an add, a lookup of the new item's id returns the new item even when an older item shares the id |
| OutfitView.Lookups | components/OutfitView.tsx:42 | one lookup per id |
| OutfitView.GetImagesForOutfit | components/OutfitView.tsx:41-43 | no more items than ids; each resolved item is a wardrobe item whose id the outfit lists |
| OutfitView.ResolveAppend | components/OutfitView.tsx:41-43 | resolution goes id by id, so the order of the ids is kept |
| OutfitView.ResolveOne | components/OutfitView.tsx:41-43 | one id yields its first item, or nothing, without an error |
| OutfitView.RepeatedIdRepeats | components/OutfitView.tsx:42 | an id listed twice yields its item twice |
| OutfitView.UnknownIdDropped | components/OutfitView.tsx:41-43 | an id no item has is dropped silently, and the rest resolves as if it were absent |
| OutfitView.ResolveAllKnown | components/OutfitView.tsx:41-43 | when every id resolves, the result has one item per id, in order |
| OutfitView.DeletedItemOmitted | components/OutfitView.tsx:41-43 | after an item delete, the outfits that name it resolve without it |
| OutfitView.SummaryIdsResolve | components/OutfitView.tsx:41-43 | ids copied from the wardrobe summary all resolve |
| OutfitView.NewOutfit | components/OutfitView.tsx:25-32 | the outfit keeps the recommendation's name, ids and reasoning (they read back unchanged), takes the untrimmed prompt as occasion, and gets the given id and time |
| OutfitView.CanGenerate | components/OutfitView.tsx:19 | generation may go ahead iff the prompt has a non-whitespace character and the wardrobe is not empty |
| OutfitView.OutfitScreen.constructor | components/OutfitView.tsx:14-16 | empty prompt, not busy, no suggestion |
| OutfitView.OutfitScreen.EditPrompt | components/OutfitView.tsx:58 | typing sets the prompt only |
| OutfitView.OutfitScreen.HandleGenerate | components/OutfitView.tsx:18-39 | nothing happens for a blank prompt or an empty wardrobe; otherwise the suggestion is the built outfit on success or none on failure; the screen is no longer busy and the prompt is kept |
| OutfitView.OutfitScreen.SaveGenerated | components/OutfitView.tsx:95-99 | the suggestion is prepended to the saved outfits and the outfit slot rewritten, items untouched; then the suggestion and the prompt are cleared |
| OutfitView.OutfitScreen.DeleteSaved | components/OutfitView.tsx:127 | the delete button removes every saved outfit with that id at once and rewrites the outfit slot; items are untouched |
| GeminiService.StripBase64Prefix | services/geminiService.ts:5-7 | the result is a suffix of the input; it equals the input iff no png, jpeg, jpg or webp data-URL header begins it |
| GeminiService.LetterRun | services/geminiService.ts:10 | the greedy `[a-zA-Z]+` run: all letters, stopping before the first non-letter |
| GeminiService.GetMimeType | services/geminiService.ts:9-12 | the result is "image/jpeg", or `image/X` for a letters-only X whose header `data:image/X;base64,` begins the input |
| GeminiService.LetterRunOfSubtype | services/geminiService.ts:10 | the letter run of a subtype followed by `;base64,` is exactly that subtype |
| GeminiService.SubtypeUnique | services/geminiService.ts:6 | at most one letters-only subtype header can begin a string |
| GeminiService.StrippedSubtypesAreLetters | services/geminiService.ts:6 | the four stripped subtypes are letters only |
| GeminiService.MimeOfDataUrl | services/geminiService.ts:9-12 | `data:image/X;base64,…` has MIME type `image/X` for every non-empty letters-only X |
| GeminiService.StripDataUrl | services/geminiService.ts:5-7 | the header `data:image/X;base64,` is removed iff X is png, jpeg, jpg or webp |
| GeminiService.HelpersDisagree | services/geminiService.ts:5-12 | for any other subtype (gif, PNG in capitals) the header is kept, yet the MIME type names that subtype |
| GeminiService.StripRemovesOnlyOne | services/geminiService.ts:6 | only one leading header is removed; a second copy stays |
| GeminiService.ImagePartOf | services/geminiService.ts:20-21 | the image data sent is a suffix of the data URL |
| GeminiService.CallJson | services/geminiService.ts:15-17 | with no key the call fails with "API Key is missing."; otherwise it succeeds iff the service answers with non-empty text that parses, and every other failure is the call's one fixed message |
| GeminiService.AnalyzeClothingImage | services/geminiService.ts:14-73 | the classifier gets the image's MIME type and its stripped data; no key fails with "API Key is missing."; success iff the reply is non-empty text that parses, returned unchecked; any other failure is "Failed to analyze clothing item." |
| GeminiService.GenerateOutfitRecommendation | services/geminiService.ts:75-137 | the recommender gets the wardrobe summary and the request; no key fails with "API Key is missing."; success iff the reply is non-empty text that parses; any other failure is "Failed to generate outfit." |
| GeminiService.Summarize | services/geminiService.ts:86-92 | one summary entry per item |
| GeminiService.SummaryEntries | services/geminiService.ts:86-92 | the i-th entry carries exactly the i-th item's id, type, colour, tags and category |
| GeminiService.ChatEntry | services/geminiService.ts:151 | an item is listed as `color type (id)`: the colour and a space, then the type, then the id in parentheses, all three reading back, four characters besides them |
| GeminiService.WardrobeListing | services/geminiService.ts:151 | an empty wardrobe lists as "", one item as its entry alone; the length is every entry plus two characters per ", " separator |
| GeminiService.ListingOfPrepend | services/geminiService.ts:151 | each item is listed as `color type (id)`; an item added in front adds its entry and one ", " before the previous listing |
| GeminiService.ChatWithStylist | services/geminiService.ts:139-164 | with no key the call fails with "API Key is missing."; otherwise the service gets the history, the wardrobe listing and the message, and its outcome passes through unchanged |
| ScanView.NewItem | components/ScanView.tsx:59-69 | the saved item keeps every attribute of the analysis (`seasons` becomes `season`, possibly empty; they read back unchanged) and takes the photo, id and time |
| ScanView.ScanScreen.constructor | components/ScanView.tsx:12-16 | the screen starts empty and idle |
| ScanView.ScanScreen.BeginAnalysis | components/ScanView.tsx:34-37 | busy, with error, analysis and success cleared |
| ScanView.ScanScreen.FinishAnalysis | components/ScanView.tsx:38-45 | a result is kept, or a failure sets the fixed message; no longer busy either way |
| ScanView.ScanScreen.StartAnalysis | components/ScanView.tsx:33-46 | afterwards exactly one of analysis (on success) and the fixed error (on failure) is set, and the screen is not busy |
| ScanView.ScanScreen.HandleFileChange | components/ScanView.tsx:19-31 | no file: nothing changes; otherwise the photo is shown and analysed |
| ScanView.ScanScreen.HandleRetake | components/ScanView.tsx:48-54 | clears photo, analysis, error and success; the busy flag is left alone |
| ScanView.ScanScreen.HandleSave | components/ScanView.tsx:56-73 | without both an analysis and a photo nothing happens; otherwise the new item is prepended once, the item slot rewritten, and success shown |
| ChatAdvisor.History | components/ChatAdvisor.tsx:42-45 | one history entry per message |
| ChatAdvisor.HistoryOfPrefix | components/ChatAdvisor.tsx:42-45 | a longer transcript's history extends the shorter one's |
| ChatAdvisor.HistoryEntries | components/ChatAdvisor.tsx:42-45 | each entry is its message's role and one text part |
| ChatAdvisor.ReplyText | components/ChatAdvisor.tsx:47-52 | the stylist line is the reply's text on success and the fixed apology on any failure |
| ChatAdvisor.ChatScreen.constructor | components/ChatAdvisor.tsx:17-21 | the transcript is the stylist's greeting alone; the input is empty and the screen not waiting |
| ChatAdvisor.ChatScreen.EditInput | components/ChatAdvisor.tsx:94-98 | typing is ignored while a reply is pending |
| ChatAdvisor.ChatScreen.BeginSend | components/ChatAdvisor.tsx:32-45 | a blank input or a pending reply does nothing; otherwise the untrimmed input is appended as a user line, the field cleared, loading set, and the pre-send history goes out |
| ChatAdvisor.ChatScreen.FinishSend | components/ChatAdvisor.tsx:47-55 | the reply, or the fixed apology on failure, is appended as a stylist line, and loading ends |
| ChatAdvisor.ChatScreen.HandleSend | components/ChatAdvisor.tsx:32-56 | the transcript only grows and keeps its greeting; a send that passes the guard appends the user line and then exactly one stylist line |

## Left out

- The remote calls (`generateContent`, `chats.create`, `sendMessage`) are foreign network code. Each is a function parameter from the request this model builds to the answer. The prompt wording, model name and response schema are not modelled.
- The chat system instruction is modelled only as its wardrobe listing. The fixed sentences around it are prompt wording.
- JSON encoding and parsing in local storage are not modelled: a slot holds the list itself. In the source, a stored empty string also loads as an empty list, and a stored malformed string would throw at mount.
- The casts of parsed JSON (`as AnalysisResult`, the parsed recommendation) do no validation. The model passes the parsed value through as is and does not model a reply of the wrong shape.
- A chat reply whose text is `undefined` is modelled as a string.
- `FileReader` is not modelled: `HandleFileChange` takes the data URL it would produce.
- The reset of the file input's DOM value in `handleRetake` is not modelled.
- `confirm()` and `alert()` dialogs are not modelled. A confirmation is a boolean parameter, and the alert on a failed generation leaves no state behind.
- React effect scheduling and the async interleaving of handlers are not modelled. Each handler runs to completion in sequence.
- OutfitView.OutfitScreen.HandleGenerate: the transient busy state during the call is not part of its contract. Only the state after the call is stated.
- ChatAdvisor.ChatScreen.HandleSend: the two halves are also given separately (`BeginSend`, `FinishSend`), so the intermediate state appears there.
- The navigation bar, the `ViewState` switch, all rendering and the scroll-to-bottom effect are UI with no logic to verify.
- The build configuration is not part of this model.
- Retries, timeouts, duplicate-id rejection and enumeration checks are not modelled because the code has none.

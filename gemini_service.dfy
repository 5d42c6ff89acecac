/** The service layer: the data-URL helpers, the request each call would send, and the error
    rules wrapped around the three remote calls. The remote model is a parameter: a function
    from the request built here to what the service answers. */
module GeminiService {
  import opened Wrappers
  import opened Text
  import opened Types

  const ApiKeyMissing: string := "API Key is missing."
  const AnalysisFailed: string := "Failed to analyze clothing item."
  const OutfitFailed: string := "Failed to generate outfit."

  const DataImage: string := "data:image/"
  const Base64Marker: string := ";base64,"
  const DefaultMime: string := "image/jpeg"

  /** The subtypes `stripBase64Prefix` recognises, in the order of its alternation. */
  const StrippedSubtypes: seq<string> := ["png", "jpeg", "jpg", "webp"]

  /** `data:image/<subtype>;base64,` */
  function DataUrlPrefix(subtype: string): string {
    DataImage + subtype + Base64Marker
  }

  predicate IsAsciiLetter(c: char) {
    ('a' <= c <= 'z') || ('A' <= c <= 'Z')
  }

  predicate AllLetters(s: string) {
    forall i :: 0 <= i < |s| ==> IsAsciiLetter(s[i])
  }

  /** `base64.replace(/^data:image\/(png|jpeg|jpg|webp);base64,/, '')`: removes one leading
      prefix for the four listed subtypes (case-sensitively); any other input is returned as is. */
  function StripBase64Prefix(s: string): (r: string)
    ensures |r| <= |s| && r == s[|s| - |r|..]
    ensures r == s <==> forall x :: x in StrippedSubtypes ==> !StartsWith(s, DataUrlPrefix(x))
  {
    if StartsWith(s, DataUrlPrefix("png")) then s[|DataUrlPrefix("png")|..]
    else if StartsWith(s, DataUrlPrefix("jpeg")) then s[|DataUrlPrefix("jpeg")|..]
    else if StartsWith(s, DataUrlPrefix("jpg")) then s[|DataUrlPrefix("jpg")|..]
    else if StartsWith(s, DataUrlPrefix("webp")) then s[|DataUrlPrefix("webp")|..]
    else s
  }

  /** Length of the run of ASCII letters at the start of `s` (what greedy `[a-zA-Z]+` consumes). */
  function LetterRun(s: string): (n: nat)
    ensures n <= |s| && AllLetters(s[..n])
    ensures n < |s| ==> !IsAsciiLetter(s[n])
  {
    if s != [] && IsAsciiLetter(s[0]) then 1 + LetterRun(s[1..]) else 0
  }

  /** `base64.match(/^data:(image\/[a-zA-Z]+);base64,/)`, then the captured group or
      "image/jpeg". A returned type other than the default names a subtype of one or more letters
      that the input's data-URL header carries. */
  function GetMimeType(s: string): (r: string)
    ensures r == DefaultMime || (|r| > 6 && r[..6] == "image/" && AllLetters(r[6..]) && StartsWith(s, "data:" + r + Base64Marker))
  {
    if StartsWith(s, DataImage) then
      var rest := s[|DataImage|..];
      var n := LetterRun(rest);
      if n > 0 && StartsWith(rest[n..], Base64Marker) then
        assert s == DataImage + rest[..n] + Base64Marker + rest[n..][|Base64Marker|..];
        "image/" + rest[..n]
      else DefaultMime
    else DefaultMime
  }

  /** The letter run of a letters-only subtype followed by `;base64,` is the whole subtype. */
  lemma {:induction false} LetterRunOfSubtype(x: string, tail: string)
    requires AllLetters(x)
    ensures LetterRun(x + Base64Marker + tail) == |x|
  {
    if x != [] {
      assert (x + Base64Marker + tail)[1..] == x[1..] + Base64Marker + tail;
      LetterRunOfSubtype(x[1..], tail);
    }
  }

  /** Two letters-only subtypes whose data-URL prefixes both begin one string are equal:
      the `;` after the subtype cannot be a letter. */
  lemma SubtypeUnique(s: string, x: string, y: string)
    requires AllLetters(x) && AllLetters(y) && StartsWith(s, DataUrlPrefix(x))
    ensures StartsWith(s, DataUrlPrefix(y)) ==> x == y
  {
    if StartsWith(s, DataUrlPrefix(y)) {
      var k := |DataImage|;
      var m := if |x| < |y| then |x| else |y|;
      assert s[k + m] == DataUrlPrefix(x)[k + m] == DataUrlPrefix(y)[k + m];
      assert IsAsciiLetter(DataUrlPrefix(x)[k + m]) <==> m < |x|;
      assert IsAsciiLetter(DataUrlPrefix(y)[k + m]) <==> m < |y|;
      forall i | 0 <= i < m ensures x[i] == y[i] {
        assert s[k + i] == DataUrlPrefix(x)[k + i] == x[i];
        assert s[k + i] == DataUrlPrefix(y)[k + i] == y[i];
      }
    }
  }

  /** The four stripped subtypes are made of letters. */
  lemma StrippedSubtypesAreLetters()
    ensures forall y :: y in StrippedSubtypes ==> AllLetters(y)
  {
    assert AllLetters("png") && AllLetters("jpeg") && AllLetters("jpg") && AllLetters("webp");
  }

  /** The MIME type of `data:image/X;base64,…` is `image/X` for every subtype X of one or more
      letters, whether or not stripBase64Prefix knows it. */
  lemma MimeOfDataUrl(x: string, payload: string)
    requires |x| > 0 && AllLetters(x)
    ensures GetMimeType(DataUrlPrefix(x) + payload) == "image/" + x
  {
    var s := DataUrlPrefix(x) + payload;
    assert s[..|DataImage|] == DataImage;
    var rest := s[|DataImage|..];
    assert rest == x + Base64Marker + payload;
    LetterRunOfSubtype(x, payload);
    assert rest[..|x|] == x;
    assert rest[|x|..] == Base64Marker + payload;
  }

  /** For a letters-only subtype X, stripping `data:image/X;base64,` from the front leaves the
      payload when X is png, jpeg, jpg or webp, and leaves the whole input otherwise. */
  lemma StripDataUrl(x: string, payload: string)
    requires AllLetters(x)
    ensures StripBase64Prefix(DataUrlPrefix(x) + payload) ==
            if x in StrippedSubtypes then payload else DataUrlPrefix(x) + payload
  {
    var s := DataUrlPrefix(x) + payload;
    assert s[..|DataUrlPrefix(x)|] == DataUrlPrefix(x);
    assert s[|DataUrlPrefix(x)|..] == payload;
    StrippedSubtypesAreLetters();
    SubtypeUnique(s, x, "png");
    SubtypeUnique(s, x, "jpeg");
    SubtypeUnique(s, x, "jpg");
    SubtypeUnique(s, x, "webp");
  }

  /** The two helpers disagree outside the four stripped subtypes: a GIF (or `PNG` in capitals)
      data URL keeps its header but is sent with MIME type `image/gif` (`image/PNG`). */
  lemma HelpersDisagree(x: string, payload: string)
    requires |x| > 0 && AllLetters(x) && x !in StrippedSubtypes
    ensures StripBase64Prefix(DataUrlPrefix(x) + payload) == DataUrlPrefix(x) + payload
    ensures GetMimeType(DataUrlPrefix(x) + payload) == "image/" + x
  {
    StripDataUrl(x, payload);
    MimeOfDataUrl(x, payload);
  }

  /** Only one header is removed: the regular expression is anchored and not global. */
  lemma StripRemovesOnlyOne(x: string, payload: string)
    requires x in StrippedSubtypes
    ensures StripBase64Prefix(DataUrlPrefix(x) + DataUrlPrefix(x) + payload) == DataUrlPrefix(x) + payload
  {
    StrippedSubtypesAreLetters();
    assert DataUrlPrefix(x) + DataUrlPrefix(x) + payload == DataUrlPrefix(x) + (DataUrlPrefix(x) + payload);
    StripDataUrl(x, DataUrlPrefix(x) + payload);
  }

  /** The inline image part sent to the classifier. */
  datatype ImagePart = ImagePart(mimeType: string, data: string)

  /** What the remote model does with a request: it answers with a text that may be empty and
      may or may not parse as the expected JSON, or the call throws. */
  datatype Remote<+T> = Reply(text: string, parsed: Option<T>) | CallFailed

  /** `!process.env.API_KEY`: unset and empty are both missing. */
  predicate HasApiKey(apiKey: Option<string>) {
    apiKey.Some? && apiKey.value != ""
  }

  /** The image part built from a data URL: its MIME type and its data with the header stripped. */
  function ImagePartOf(base64Image: string): (p: ImagePart)
    ensures |p.data| <= |base64Image| && p.data == base64Image[|base64Image| - |p.data|..]
  {
    ImagePart(GetMimeType(base64Image), StripBase64Prefix(base64Image))
  }

  /** The error rules of the two JSON calls: no key fails first; an empty reply, an unparseable
      reply or a thrown call fails with the call's one fixed message. */
  function CallJson<T>(apiKey: Option<string>, answer: Remote<T>, failure: string): (r: Result<T>)
    ensures !HasApiKey(apiKey) ==> r == Err(ApiKeyMissing)
    ensures HasApiKey(apiKey) && r.Err? ==> r.message == failure
    ensures r.Ok? <==> HasApiKey(apiKey) && answer.Reply? && answer.text != "" && answer.parsed.Some?
    ensures r.Ok? ==> answer.Reply? && answer.parsed == Some(r.value)
  {
    if !HasApiKey(apiKey) then Err(ApiKeyMissing)
    else match answer
      case CallFailed => Err(failure)
      case Reply(text, parsed) =>
        if text == "" then Err(failure)
        else match parsed
          case None => Err(failure)
          case Some(v) => Ok(v)
  }

  /** `analyzeClothingImage`. The classifier is sent the image's MIME type and its data with the
      header stripped; no key fails first; otherwise the call succeeds exactly when the reply is
      non-empty text that parses, and the parsed result is returned as is (its category and
      seasons are not checked against the enumerations); every other failure is one fixed
      message. */
  function AnalyzeClothingImage(apiKey: Option<string>, base64Image: string,
                                service: ImagePart -> Remote<AnalysisResult>): (r: Result<AnalysisResult>)
    ensures !HasApiKey(apiKey) ==> r == Err(ApiKeyMissing)
    ensures HasApiKey(apiKey) && r.Err? ==> r.message == AnalysisFailed
    ensures var answer := service(ImagePartOf(base64Image));
            r.Ok? <==> HasApiKey(apiKey) && answer.Reply? && answer.text != "" && answer.parsed.Some?
    ensures r.Ok? ==> service(ImagePartOf(base64Image)).parsed == Some(r.value)
  {
    CallJson(apiKey, service(ImagePartOf(base64Image)), AnalysisFailed)
  }

  /** One entry of the wardrobe summary sent to the recommender. */
  datatype SummaryEntry = SummaryEntry(id: string, itemType: string, color: string, tags: seq<string>, category: string)

  /** The wardrobe summary: one entry per item, in order, keeping id, type, color, tags and category. */
  function Summarize(wardrobe: seq<ClothingItem>): (r: seq<SummaryEntry>)
    ensures |r| == |wardrobe|
  {
    if wardrobe == [] then []
    else var i := wardrobe[0];
    [SummaryEntry(i.id, i.itemType, i.color, i.tags, i.category)] + Summarize(wardrobe[1..])
  }

  /** Each summary entry carries exactly its item's id, type, color, tags and category, so the
      summary is the same for two wardrobes that differ only in images, seasons, descriptions
      or timestamps. */
  lemma {:induction false} SummaryEntries(wardrobe: seq<ClothingItem>, i: nat)
    requires i < |wardrobe|
    ensures Summarize(wardrobe)[i].id == wardrobe[i].id
    ensures Summarize(wardrobe)[i] == SummaryEntry(wardrobe[i].id, wardrobe[i].itemType, wardrobe[i].color, wardrobe[i].tags, wardrobe[i].category)
  {
    if i > 0 {
      SummaryEntries(wardrobe[1..], i - 1);
    }
  }

  /** The recommendation request: the wardrobe summary and the user's text. */
  datatype OutfitRequest = OutfitRequest(summary: seq<SummaryEntry>, request: string)

  /** `generateOutfitRecommendation`. The recommender is sent the wardrobe summary and the
      request text; no key fails first; otherwise the call succeeds exactly when the reply is
      non-empty text that parses, and every other failure is one fixed message. The returned
      ids are not checked against the wardrobe. */
  function GenerateOutfitRecommendation(apiKey: Option<string>, wardrobe: seq<ClothingItem>, request: string,
                                        service: OutfitRequest -> Remote<Recommendation>): (r: Result<Recommendation>)
    ensures !HasApiKey(apiKey) ==> r == Err(ApiKeyMissing)
    ensures HasApiKey(apiKey) && r.Err? ==> r.message == OutfitFailed
    ensures var answer := service(OutfitRequest(Summarize(wardrobe), request));
            r.Ok? <==> HasApiKey(apiKey) && answer.Reply? && answer.text != "" && answer.parsed.Some?
    ensures r.Ok? ==> service(OutfitRequest(Summarize(wardrobe), request)).parsed == Some(r.value)
  {
    CallJson(apiKey, service(OutfitRequest(Summarize(wardrobe), request)), OutfitFailed)
  }

  /** One item as the chat system instruction lists it: `color type (id)`. The entry opens with
      the colour and a space, then the type, and closes with the id in parentheses, so all three
      can be read back. */
  function ChatEntry(item: ClothingItem): (r: string)
    ensures |r| == |item.color| + |item.itemType| + |item.id| + 4
    ensures r[..|item.color|] == item.color && r[|item.color|] == ' '
    ensures r[|item.color| + 1..|item.color| + 1 + |item.itemType|] == item.itemType
    ensures r[|r| - |item.id| - 2..] == "(" + item.id + ")"
  {
    item.color + " " + item.itemType + " (" + item.id + ")"
  }

  /** The wardrobe part of the chat system instruction: every item's entry, in wardrobe order,
      joined by ", ". An empty wardrobe lists as "", one item as its entry alone, and the length
      is every entry plus two characters per separator. */
  function WardrobeListing(wardrobe: seq<ClothingItem>): (r: string)
    ensures wardrobe == [] ==> r == ""
    ensures |wardrobe| == 1 ==> r == ChatEntry(wardrobe[0])
    ensures |r| == TotalLength(seq(|wardrobe|, i requires 0 <= i < |wardrobe| => ChatEntry(wardrobe[i]))) +
                   (if wardrobe == [] then 0 else 2 * (|wardrobe| - 1))
  {
    Join(seq(|wardrobe|, i requires 0 <= i < |wardrobe| => ChatEntry(wardrobe[i])), ", ")
  }

  /** Adding an item in front of a non-empty wardrobe puts its entry and one separator in front
      of the previous listing. */
  lemma ListingOfPrepend(item: ClothingItem, wardrobe: seq<ClothingItem>)
    requires wardrobe != []
    ensures WardrobeListing([item] + wardrobe) == ChatEntry(item) + ", " + WardrobeListing(wardrobe)
  {
    var w := [item] + wardrobe;
    var entries := seq(|w|, i requires 0 <= i < |w| => ChatEntry(w[i]));
    var rest := seq(|wardrobe|, i requires 0 <= i < |wardrobe| => ChatEntry(wardrobe[i]));
    assert entries == [ChatEntry(item)] + rest;
    JoinAppend([ChatEntry(item)], rest, ", ");
  }

  /** The two speakers of a chat, `'user' | 'model'`. */
  datatype Role = User | Model

  /** One turn of chat history: a role and one text part. */
  datatype HistoryEntry = HistoryEntry(role: Role, parts: seq<string>)

  /** The chat call: the prior turns, the wardrobe listing placed in the system instruction, and
      the new message. */
  datatype ChatRequest = ChatRequest(history: seq<HistoryEntry>, wardrobeListing: string, message: string)

  /** `chatWithStylist`. No key fails first; otherwise the service's reply or its error passes
      through untouched (this call has no catch). */
  function ChatWithStylist(apiKey: Option<string>, history: seq<HistoryEntry>, wardrobe: seq<ClothingItem>,
                           message: string, service: ChatRequest -> Result<string>): (r: Result<string>)
    ensures !HasApiKey(apiKey) ==> r == Err(ApiKeyMissing)
    ensures HasApiKey(apiKey) ==> r == service(ChatRequest(history, WardrobeListing(wardrobe), message))
  {
    if !HasApiKey(apiKey) then Err(ApiKeyMissing)
    else service(ChatRequest(history, WardrobeListing(wardrobe), message))
  }
}

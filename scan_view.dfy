/** The scan screen: pick a photo, have it classified, then save it as a wardrobe item or
    start over. */
module ScanView {
  import opened Wrappers
  import opened Types
  import GeminiService
  import App
  import Storage

  /** The message shown when classification fails, whatever the cause. */
  const CouldNotAnalyze: string := "Could not analyze image. Please try again."

  /** The item saved from an analysis: it loses nothing of the analysis (its `seasons` become
      the item's `season`, and an empty list stays empty), and carries the photo as `imageUrl`,
      the fresh id and the current time it was given. */
  function NewItem(analysis: AnalysisResult, image: string, id: string, now: int): (r: ClothingItem)
    ensures AnalysisOf(r) == analysis
    ensures r.imageUrl == image && r.id == id && r.createdAt == now
  {
    ClothingItem(id, image, analysis.itemType, analysis.category, analysis.color,
                 analysis.seasons, analysis.tags, analysis.description, now)
  }

  /** The analysis an item's attributes come from. */
  function AnalysisOf(item: ClothingItem): AnalysisResult {
    AnalysisResult(item.itemType, item.category, item.color, item.season, item.tags, item.description)
  }

  /** `image` is truthy: present and not the empty string. */
  predicate HasImage(image: Option<string>) {
    image.Some? && image.value != ""
  }

  /** The screen's five state fields. */
  class ScanScreen {
    var image: Option<string>
    var isAnalyzing: bool
    var analysis: Option<AnalysisResult>
    var error: Option<string>
    var showSuccess: bool

    constructor ()
      ensures image == None && !isAnalyzing && analysis == None && error == None && !showSuccess
    {
      image := None;
      isAnalyzing := false;
      analysis := None;
      error := None;
      showSuccess := false;
    }

    /** The part of `startAnalysis` before the call: busy, with error, analysis and success cleared. */
    method BeginAnalysis()
      modifies this
      ensures isAnalyzing && error == None && analysis == None && !showSuccess
      ensures image == old(image)
    {
      isAnalyzing := true;
      error := None;
      analysis := None;
      showSuccess := false;
    }

    /** The part of `startAnalysis` after the call: keep the result, or show the fixed message;
        no longer busy either way. */
    method FinishAnalysis(outcome: Result<AnalysisResult>)
      modifies this
      ensures !isAnalyzing
      ensures analysis == if outcome.Ok? then Some(outcome.value) else old(analysis)
      ensures error == if outcome.Ok? then old(error) else Some(CouldNotAnalyze)
      ensures image == old(image) && showSuccess == old(showSuccess)
    {
      if outcome.Ok? {
        analysis := Some(outcome.value);
      } else {
        error := Some(CouldNotAnalyze);
      }
      isAnalyzing := false;
    }

    /** `startAnalysis`: classify the photo. Afterwards exactly one of analysis and error is set. */
    method StartAnalysis(base64Image: string, apiKey: Option<string>,
                         service: GeminiService.ImagePart -> GeminiService.Remote<AnalysisResult>)
      modifies this
      ensures !isAnalyzing && !showSuccess && image == old(image)
      ensures match GeminiService.AnalyzeClothingImage(apiKey, base64Image, service)
              case Ok(result) => analysis == Some(result) && error == None
              case Err(_) => analysis == None && error == Some(CouldNotAnalyze)
    {
      BeginAnalysis();
      var outcome := GeminiService.AnalyzeClothingImage(apiKey, base64Image, service);
      FinishAnalysis(outcome);
    }

    /** `handleFileChange` once the file has been read as a data URL: show it and classify it.
        No file chosen: nothing happens. */
    method HandleFileChange(file: Option<string>, apiKey: Option<string>,
                            service: GeminiService.ImagePart -> GeminiService.Remote<AnalysisResult>)
      modifies this
      ensures file.None? ==> image == old(image) && isAnalyzing == old(isAnalyzing) &&
                             analysis == old(analysis) && error == old(error) && showSuccess == old(showSuccess)
      ensures file.Some? ==> image == file && !isAnalyzing && !showSuccess
      ensures file.Some? ==> match GeminiService.AnalyzeClothingImage(apiKey, file.value, service)
                             case Ok(result) => analysis == Some(result) && error == None
                             case Err(_) => analysis == None && error == Some(CouldNotAnalyze)
    {
      if file.Some? {
        image := file;
        StartAnalysis(file.value, apiKey, service);
      }
    }

    /** `handleRetake`: back to an empty screen. The busy flag is left alone. */
    method HandleRetake()
      modifies this
      ensures image == None && analysis == None && error == None && !showSuccess
      ensures isAnalyzing == old(isAnalyzing)
    {
      image := None;
      analysis := None;
      error := None;
      showSuccess := false;
    }

    /** `handleSave`: without both an analysis and a photo nothing happens; otherwise the new
        item goes to `onSave` exactly once (it is prepended to the wardrobe) and the success
        view is shown. */
    method HandleSave(app: App.AppState, id: string, now: int)
      modifies this, app
      ensures old(analysis).None? || !HasImage(old(image)) ==>
                app.items == old(app.items) && app.itemStorage == old(app.itemStorage) && showSuccess == old(showSuccess)
      ensures old(analysis).Some? && HasImage(old(image)) ==>
                app.items == [NewItem(old(analysis).value, old(image).value, id, now)] + old(app.items) &&
                app.itemStorage == Storage.Save(old(app.itemStorage), App.ItemsKey, app.items) && showSuccess
      ensures image == old(image) && analysis == old(analysis) && error == old(error) && isAnalyzing == old(isAnalyzing)
      ensures app.outfits == old(app.outfits) && app.outfitStorage == old(app.outfitStorage)
      ensures old(app.Persisted()) ==> app.Persisted()
    {
      if analysis.None? || !HasImage(image) {
        return;
      }
      app.HandleAddItem(NewItem(analysis.value, image.value, id, now));
      showSuccess := true;
    }
  }
}

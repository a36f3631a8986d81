/** The host backend's model service: the static model catalogue, the summary of one model,
    the cached download of a model file from Google Drive, and the four-class image
    prediction. Image decoding, the model file on disk, the Keras loader and the network's
    inference are inputs of the model. */
module ModelsService {
  import opened Common
  import opened GoogleDriveService

  /** One entry of the static catalogue: its name and the remaining descriptive fields. */
  datatype ModelSummary = ModelSummary(name: string, details: map<string, string>)

  /** `[model["name"] for model in models_summary]`: a name is in it exactly when some
      catalogue entry carries that name, one name per entry. */
  function SummaryNames(catalog: seq<ModelSummary>): (names: seq<string>)
    ensures |names| == |catalog|
    ensures forall n :: n in names <==> exists i :: 0 <= i < |catalog| && catalog[i].name == n
  {
    if catalog == [] then []
    else
      var rest := SummaryNames(catalog[1..]);
      assert forall i :: 1 <= i < |catalog| ==> catalog[i] == catalog[1..][i - 1];
      forall n | n in rest
        ensures exists i :: 0 <= i < |catalog| && catalog[i].name == n
      {
        var i :| 0 <= i < |catalog[1..]| && catalog[1..][i].name == n;
        assert catalog[i + 1].name == n;
      }
      [catalog[0].name] + rest
  }

  /** `show_summary_of_single_model`: the first catalogue entry with the requested name. */
  method ShowSummaryOfSingleModel(catalog: seq<ModelSummary>, modelName: string) returns (r: Result<ModelSummary>)
    ensures r.Ok? <==> exists i :: 0 <= i < |catalog| && catalog[i].name == modelName
    ensures r.Ok? ==> exists i :: 0 <= i < |catalog| && r.value == catalog[i] && r.value.name == modelName &&
                        forall j :: 0 <= j < i ==> catalog[j].name != modelName
    ensures r.Err? ==> r.error == ModelNotFound("Model not found")
  {
    for i := 0 to |catalog|
      invariant forall j :: 0 <= j < i ==> catalog[j].name != modelName
    {
      if catalog[i].name == modelName {
        return Ok(catalog[i]);
      }
    }
    r := Err(ModelNotFound("Model not found"));
  }

  /** `load_model_from_google_drive`: the same search and download as the Drive service
      (exact name match, download by file id into "./data/models"). */
  method LoadModelFromGoogleDrive(listing: Listing<DriveEntry>, downloadFault: Option<string>, modelFileName: string)
    returns (r: Result<string>, calls: seq<DownloadCall>)
    ensures (r, calls) == DownloadOutcome(listing, downloadFault, modelFileName)
    ensures r.Ok? ==> r.value == JoinPath(ModelFolder, modelFileName) && |calls| == 1
  {
    r, calls := DownloadModelFromGoogleDrive(listing, downloadFault, modelFileName);
    if r.Ok? {
      var files := CheckListing(listing).value;
      var k := FirstWithPath(files, modelFileName);
      assert k.Some?;
    }
  }

  /** `np.argmax`: the index of the first maximal score. */
  function ArgMax(scores: seq<real>): (k: nat)
    requires |scores| > 0
    ensures k < |scores|
    ensures forall j :: 0 <= j < |scores| ==> scores[j] <= scores[k]
    ensures forall j :: 0 <= j < k ==> scores[j] < scores[k]
  {
    if |scores| == 1 then 0
    else
      var k := ArgMax(scores[..|scores| - 1]);
      if scores[|scores| - 1] > scores[k] then |scores| - 1 else k
  }

  /** What the Keras loader and `predict` produced for the saved model file. */
  datatype Inference = Scores(values: seq<real>) | LoadFailed(cause: string)

  /** The single row of the prediction table: index, predicted class and one score per class. */
  datatype PredictionRow = PredictionRow(model: string, columns: seq<string>, predicted: string, scores: seq<real>)

  /** The path the model file of `modelName` is read from. */
  function ModelFilePath(modelName: string): string {
    JoinPath(ModelFolder, modelName + ".keras")
  }

  /** `predict_image_classification_4_classes`. The image is checked first, then the model
      name against the catalogue; the model file is downloaded only when it is not already on
      disk, and the row holds the class of the first highest score and the scores in class
      order. `fileExists` and `load` stand for the file system test and the loader-plus-inference. */
  method PredictImageClassification4Classes(
    modelName: string, imageDecodes: bool, catalog: seq<ModelSummary>, classes: seq<string>,
    fileExists: string -> bool, listing: Listing<DriveEntry>, downloadFault: Option<string>,
    load: string -> Inference)
    returns (r: Result<PredictionRow>, calls: seq<DownloadCall>)
    ensures !imageDecodes ==> r == Err(InvalidArgument("Invalid image file format.")) && calls == []
    ensures imageDecodes && modelName !in SummaryNames(catalog) ==>
      r == Err(ModelNotFound("Model '" + modelName + "' not found.")) && calls == []
    ensures imageDecodes && modelName in SummaryNames(catalog) ==>
      var download := DownloadOutcome(listing, downloadFault, modelName + ".keras");
      && calls == (if fileExists(ModelFilePath(modelName)) then [] else download.1)
      && (!fileExists(ModelFilePath(modelName)) && download.0.Err? ==> r == Err(download.0.error))
    ensures (&& imageDecodes && modelName in SummaryNames(catalog)
             && (fileExists(ModelFilePath(modelName)) || DownloadOutcome(listing, downloadFault, modelName + ".keras").0.Ok?)) ==>
      match load(ModelFilePath(modelName))
      case LoadFailed(cause) => r == Err(Unhandled(cause))
      case Scores(scores) =>
        && (|scores| == 0 ==> r == Err(Unhandled("attempt to get argmax of an empty sequence")))
        && (|scores| > 0 && ArgMax(scores) >= |classes| ==> r == Err(Unhandled("list index out of range")))
        && (|scores| > 0 && ArgMax(scores) < |classes| && |scores| != |classes| ==>
              r == Err(Unhandled("cannot set a row with mismatched columns")))
        && (|scores| == |classes| > 0 ==> r.Ok?)
    ensures r.Ok? ==>
      && imageDecodes && modelName in SummaryNames(catalog)
      && load(ModelFilePath(modelName)).Scores?
      && var scores := load(ModelFilePath(modelName)).values;
      && |scores| == |classes| > 0
      && r.value == PredictionRow(modelName, ["Predicted"] + classes, classes[ArgMax(scores)], scores)
  {
    calls := [];
    if !imageDecodes {
      return Err(InvalidArgument("Invalid image file format.")), calls;
    }
    var names := SummaryNames(catalog);
    if modelName !in names {
      return Err(ModelNotFound("Model '" + modelName + "' not found.")), calls;
    }
    var modelFileName := modelName + ".keras";
    var modelPath := JoinPath(ModelFolder, modelFileName);
    if !fileExists(modelPath) {
      var downloaded;
      downloaded, calls := LoadModelFromGoogleDrive(listing, downloadFault, modelFileName);
      if downloaded.Err? {
        return Err(downloaded.error), calls;
      }
    }
    match load(modelPath) {
      case LoadFailed(cause) =>
        r := Err(Unhandled(cause));
      case Scores(scores) =>
        if |scores| == 0 {
          r := Err(Unhandled("attempt to get argmax of an empty sequence"));
        } else if ArgMax(scores) >= |classes| {
          r := Err(Unhandled("list index out of range"));
        } else if |scores| != |classes| {
          r := Err(Unhandled("cannot set a row with mismatched columns"));
        } else {
          r := Ok(PredictionRow(modelName, ["Predicted"] + classes, classes[ArgMax(scores)], scores));
        }
    }
  }
}

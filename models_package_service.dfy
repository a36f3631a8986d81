/** The older model loader of the host backend's `app.models` package: the same folder
    listing as the Drive service, but the model is chosen by a substring match on the file
    name and downloaded into "./models" under the requested name. */
module ModelsPackageService {
  import opened Common
  import opened GoogleDriveService

  /** `os.path.join(".", "models")`. */
  const PackageModelFolder := "./models"

  /** One listed file, as a dictionary with a name and an id. */
  datatype DriveFileInfo = DriveFileInfo(name: string, id: string)

  /** The index of the first file whose name contains `modelName`. */
  function FirstContaining(files: seq<DriveFileInfo>, modelName: string): (k: Option<nat>)
    ensures k.Some? ==> k.value < |files| && Contains(files[k.value].name, modelName)
    ensures k.Some? ==> forall j :: 0 <= j < k.value ==> !Contains(files[j].name, modelName)
    ensures k.None? ==> forall j :: 0 <= j < |files| ==> !Contains(files[j].name, modelName)
  {
    if files == [] then None
    else if Contains(files[0].name, modelName) then Some(0)
    else match FirstContaining(files[1..], modelName)
      case None => None
      case Some(k) => Some(k + 1)
  }

  /** What `load_model_from_google_drive` returns, and the downloads it starts. */
  function LoadOutcome(listing: Listing<DriveFileInfo>, downloadFault: Option<string>, modelName: string): (o: (Result<string>, seq<DownloadCall>))
    ensures CheckListing(listing).Err? ==> o == (Err(CheckListing(listing).error), [])
    ensures CheckListing(listing).Ok? ==>
      var files := CheckListing(listing).value;
      var output := JoinPath(PackageModelFolder, modelName);
      && ((forall j :: 0 <= j < |files| ==> !Contains(files[j].name, modelName)) <==> o == (Err(NotFoundInFolder(modelName)), []))
      && (forall i :: 0 <= i < |files| && Contains(files[i].name, modelName) && (forall j :: 0 <= j < i ==> !Contains(files[j].name, modelName)) ==>
            && o.1 == [DownloadByUrl(files[i].id, output)]
            && o.0 == (if downloadFault.None? then Ok(output) else Err(GoogleDriveDownload(DownloadFailed))))
  {
    match CheckListing(listing)
    case Err(e) => (Err(e), [])
    case Ok(files) =>
      match FirstContaining(files, modelName)
      case None => (Err(NotFoundInFolder(modelName)), [])
      case Some(k) =>
        var output := JoinPath(PackageModelFolder, modelName);
        var calls := [DownloadByUrl(files[k].id, output)];
        if downloadFault.None? then (Ok(output), calls) else (Err(GoogleDriveDownload(DownloadFailed)), calls)
  }

  /** `load_model_from_google_drive`: the file id is handed to the download as its first
      positional argument, which is the URL parameter. */
  method LoadModelFromGoogleDrive(listing: Listing<DriveFileInfo>, downloadFault: Option<string>, modelName: string)
    returns (r: Result<string>, calls: seq<DownloadCall>)
    ensures (r, calls) == LoadOutcome(listing, downloadFault, modelName)
  {
    var checked := CheckListing(listing);
    if checked.Err? {
      return Err(checked.error), [];
    }
    var files := checked.value;
    var toDownload: Option<DriveFileInfo> := None;
    for i := 0 to |files|
      invariant toDownload.None?
      invariant forall j :: 0 <= j < i ==> !Contains(files[j].name, modelName)
    {
      if Contains(files[i].name, modelName) {
        toDownload := Some(files[i]);
        assert FirstContaining(files, modelName) == Some(i);
        break;
      }
    }
    if toDownload.None? {
      return Err(NotFoundInFolder(modelName)), [];
    }
    var output := JoinPath(PackageModelFolder, modelName);
    calls := [DownloadByUrl(toDownload.value.id, output)];
    if downloadFault.Some? {
      return Err(GoogleDriveDownload(DownloadFailed)), calls;
    }
    r := Ok(output);
  }

  /** Every name contains itself, so a listed file named exactly `modelName` is never reported
      as missing. */
  lemma {:induction false} ExactNameIsNeverMissing(listing: Listing<DriveFileInfo>, downloadFault: Option<string>, modelName: string, i: nat)
    requires listing.Listed? && listing.files.Some?
    requires i < |listing.files.value| && listing.files.value[i].name == modelName
    ensures LoadOutcome(listing, downloadFault, modelName).0 != Err(NotFoundInFolder(modelName))
  {
    var files := listing.files.value;
    assert OccursAt(files[i].name, modelName, 0);
    assert Contains(files[i].name, modelName);
  }

  /** The first partial match wins even when a file with exactly the requested name is listed
      later: asking for "model.keras" downloads "big_model.keras". */
  lemma FirstPartialMatchWins()
    ensures
      var files := [DriveFileInfo("big_model.keras", "A"), DriveFileInfo("model.keras", "B")];
      LoadOutcome(Listed(Some(files)), None, "model.keras").1 == [DownloadByUrl("A", "./models/model.keras")]
  {
    var files := [DriveFileInfo("big_model.keras", "A"), DriveFileInfo("model.keras", "B")];
    assert files[0].name[4..15] == "model.keras";
    assert OccursAt(files[0].name, "model.keras", 4);
    assert FirstContaining(files, "model.keras") == Some(0);
    assert JoinPath(PackageModelFolder, "model.keras") == "./models/model.keras" by {
      assert "model.keras"[..1] == "m";
      assert PackageModelFolder[|PackageModelFolder| - 1..] == "s";
    }
  }
}

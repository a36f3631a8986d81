/** The host backend's Google Drive access: listing the shared model folder without
    downloading it, and downloading one model file by its exact name. The Drive itself is
    outside the model: a listing is given as a value, a download as a possible fault, and the
    downloads the service starts are returned as a trace. */
module GoogleDriveService {
  import opened Common

  /** `os.path.join(".", "data/models")`. */
  const ModelFolder := "./data/models"

  const LoadFailed := "Could not load models from Google Drive."
  const FolderEmpty := "No files found or invalid folder URL."
  const DownloadFailed := "Could not download the model from Google Drive."

  /** One entry of a skip-download folder listing: file id, path inside the folder, local path. */
  datatype DriveEntry = DriveEntry(id: string, path: string, localPath: string)

  /** What the folder listing call gave back: a possibly missing list of entries, or an exception. */
  datatype Listing<E> = Listed(files: Option<seq<E>>) | ListingFailed(cause: string)

  /** A call of the single-file download: by file id, or by URL as the first positional argument. */
  datatype DownloadCall = DownloadById(id: string, output: string) | DownloadByUrl(url: string, output: string)

  /** `get_list_of_models_from_google_drive`: any exception of the listing is a service error,
      an empty or missing list means the folder is empty or the URL is wrong. */
  function CheckListing<E>(listing: Listing<E>): (r: Result<seq<E>>)
    ensures listing.ListingFailed? <==> r == Err(GoogleDriveService(LoadFailed))
    ensures r.Ok? <==> listing.Listed? && listing.files.Some? && listing.files.value != []
    ensures r.Ok? ==> r.value == listing.files.value
    ensures r.Err? && listing.Listed? ==> r.error == GoogleDriveFolderEmpty(FolderEmpty)
  {
    match listing
    case ListingFailed(_) => Err(GoogleDriveService(LoadFailed))
    case Listed(files) =>
      if files.None? || files.value == [] then Err(GoogleDriveFolderEmpty(FolderEmpty))
      else Ok(files.value)
  }

  /** The index of the first entry whose path is exactly `name`. */
  function FirstWithPath(files: seq<DriveEntry>, name: string): (k: Option<nat>)
    ensures k.Some? ==> k.value < |files| && files[k.value].path == name
    ensures k.Some? ==> forall j :: 0 <= j < k.value ==> files[j].path != name
    ensures k.None? ==> forall j :: 0 <= j < |files| ==> files[j].path != name
  {
    if files == [] then None
    else if files[0].path == name then Some(0)
    else match FirstWithPath(files[1..], name)
      case None => None
      case Some(k) => Some(k + 1)
  }

  function NotFoundInFolder(name: string): Error {
    ModelNotFound("File '" + name + "' not found in the Google Drive folder.")
  }

  /** What `download_model_from_google_drive` returns, and the downloads it starts. */
  function DownloadOutcome(listing: Listing<DriveEntry>, downloadFault: Option<string>, name: string): (o: (Result<string>, seq<DownloadCall>))
    ensures CheckListing(listing).Err? ==> o == (Err(CheckListing(listing).error), [])
    ensures CheckListing(listing).Ok? ==>
      var files := CheckListing(listing).value;
      var output := JoinPath(ModelFolder, name);
      && ((forall j :: 0 <= j < |files| ==> files[j].path != name) <==> o == (Err(NotFoundInFolder(name)), []))
      && (forall i :: 0 <= i < |files| && files[i].path == name && (forall j :: 0 <= j < i ==> files[j].path != name) ==>
            && o.1 == [DownloadById(files[i].id, output)]
            && o.0 == (if downloadFault.None? then Ok(output) else Err(GoogleDriveDownload(DownloadFailed))))
  {
    match CheckListing(listing)
    case Err(e) => (Err(e), [])
    case Ok(files) =>
      match FirstWithPath(files, name)
      case None => (Err(NotFoundInFolder(name)), [])
      case Some(k) =>
        var output := JoinPath(ModelFolder, name);
        var calls := [DownloadById(files[k].id, output)];
        if downloadFault.None? then (Ok(output), calls) else (Err(GoogleDriveDownload(DownloadFailed)), calls)
  }

  /** `download_model_from_google_drive`: lists the folder, searches it for the first entry
      named exactly `name`, and downloads that one into the model folder. */
  method DownloadModelFromGoogleDrive(listing: Listing<DriveEntry>, downloadFault: Option<string>, name: string)
    returns (r: Result<string>, calls: seq<DownloadCall>)
    ensures (r, calls) == DownloadOutcome(listing, downloadFault, name)
  {
    var checked := CheckListing(listing);
    if checked.Err? {
      return Err(checked.error), [];
    }
    var files := checked.value;
    var toDownload: Option<DriveEntry> := None;
    for i := 0 to |files|
      invariant toDownload.None?
      invariant forall j :: 0 <= j < i ==> files[j].path != name
    {
      if name == files[i].path {
        toDownload := Some(files[i]);
        assert FirstWithPath(files, name) == Some(i);
        break;
      }
    }
    if toDownload.None? {
      return Err(NotFoundInFolder(name)), [];
    }
    var output := JoinPath(ModelFolder, name);
    calls := [DownloadById(toDownload.value.id, output)];
    if downloadFault.Some? {
      return Err(GoogleDriveDownload(DownloadFailed)), calls;
    }
    r := Ok(JoinPath(ModelFolder, name));
  }
}

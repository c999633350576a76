/** The app upload form (components/dashboard/app-uploader.tsx): `handleUpload` asks the apps
    endpoint for an upload url, sends the file there, then asks the apps endpoint to record
    the app. Each step's answer is an input; the first failure ends the upload. */
module AppUploader {
  import opened Common
  import opened Validations

  /** The chosen file: only its name and size are read. */
  datatype FileInfo = FileInfo(name: string, size: nat)

  /** The vendor's upload type for the chosen app type. */
  function AwsType(t: AppType): (r: string)
    ensures t == Android <==> r == "ANDROID_APP"
    ensures t == Ios <==> r == "IOS_APP"
  {
    if AppTypeName(t) == "android" then "ANDROID_APP" else "IOS_APP"
  }

  /** The requests the form sends, in order. */
  datatype Request =
    | AskUploadUrl(projectArn: string, name: string, uploadType: string)
    | PutFile(url: string, bytes: nat)
    | SaveApp(projectId: string, appName: string, appType: string, fileName: string, fileSize: nat,
              awsUploadArn: Option<string>)

  /** The answer to a request: it failed to reach the server (with the error's message), or
      it came back ok or not ok. */
  datatype Answer = Unreached(message: string) | Answered(ok: bool)

  /** The answer to the upload-url request; an ok one carries the `uploadUrl` and
      `uploadArn` fields. */
  datatype UrlAnswer = UrlUnreached(message: string) | UrlAnswered(ok: bool, uploadUrl: Option<string>, uploadArn: Option<string>)

  /** How the upload ends: nothing happened (no file), success, or the error shown. */
  datatype Notice = Silent | Uploaded | UploadError(message: string)

  /** The whole protocol as a value: the requests made and how the upload ends. */
  function UploadFlow(projectId: string, projectArn: string, file: FileInfo, appType: AppType,
                      url: UrlAnswer, put: Answer, save: Answer): (r: (seq<Request>, Notice))
    ensures 1 <= |r.0| <= 3 && r.0[0] == AskUploadUrl(projectArn, file.name, AwsType(appType))
    ensures |r.0| >= 2 ==>
      url.UrlAnswered? && url.ok && Present(url.uploadUrl) && r.0[1] == PutFile(url.uploadUrl.value, file.size)
    ensures |r.0| == 3 ==>
      put == Answered(true) && r.0[2] == SaveApp(projectId, file.name, AppTypeName(appType), file.name, file.size, url.uploadArn)
    ensures r.1 == Uploaded <==> |r.0| == 3 && save == Answered(true)
    ensures r.1 != Silent
    ensures url.UrlAnswered? && url.ok && !Present(url.uploadUrl) ==>
      r == ([AskUploadUrl(projectArn, file.name, AwsType(appType))], UploadError("No upload URL returned"))
    ensures url.UrlAnswered? && !url.ok ==> r.1 == UploadError("Failed to get upload URL")
    ensures |r.0| == 2 && put.Answered? ==> r.1 == UploadError("Failed to upload file to AWS")
    ensures |r.0| == 3 && save.Answered? && !save.ok ==> r.1 == UploadError("Failed to save app record")
  {
    var ask := AskUploadUrl(projectArn, file.name, AwsType(appType));
    match url
    case UrlUnreached(m) => ([ask], UploadError(m))
    case UrlAnswered(ok, uploadUrl, uploadArn) =>
      if !ok then ([ask], UploadError("Failed to get upload URL"))
      else if !Present(uploadUrl) then ([ask], UploadError("No upload URL returned"))
      else
        var transfer := PutFile(uploadUrl.value, file.size);
        match put
        case Unreached(m) => ([ask, transfer], UploadError(m))
        case Answered(putOk) =>
          if !putOk then ([ask, transfer], UploadError("Failed to upload file to AWS"))
          else
            var record := SaveApp(projectId, file.name, AppTypeName(appType), file.name, file.size, uploadArn);
            match save
            case Unreached(m) => ([ask, transfer, record], UploadError(m))
            case Answered(saveOk) =>
              if !saveOk then ([ask, transfer, record], UploadError("Failed to save app record"))
              else ([ask, transfer, record], Uploaded)
  }

  /** An app is recorded only after its file was sent to the url the first step returned,
      and the record names the upload that step created. */
  lemma RecordFollowsTransfer(projectId: string, projectArn: string, file: FileInfo, appType: AppType,
                              url: UrlAnswer, put: Answer, save: Answer)
    requires UploadFlow(projectId, projectArn, file, appType, url, put, save).1 == Uploaded
    ensures var calls := UploadFlow(projectId, projectArn, file, appType, url, put, save).0;
      calls == [AskUploadUrl(projectArn, file.name, AwsType(appType)),
                PutFile(url.uploadUrl.value, file.size),
                SaveApp(projectId, file.name, AppTypeName(appType), file.name, file.size, url.uploadArn)]
  {
  }

  class Uploader {
    var file: Option<FileInfo>
    var appType: AppType
    var uploading: bool
    var progress: string

    constructor ()
      ensures file.None? && appType == Android && !uploading && progress == ""
    {
      file := None;
      appType := Android;
      uploading := false;
      progress := "";
    }

    /** `handleUpload`. Without a file nothing happens. Otherwise the steps run in order as
        `UploadFlow` says; on success the file is cleared, on failure it is kept; either way
        the progress text is reset and the uploading flag cleared. */
    method HandleUpload(projectId: string, projectArn: string, url: UrlAnswer, put: Answer, save: Answer)
      returns (requests: seq<Request>, notice: Notice)
      modifies this
      ensures old(file).None? ==> requests == [] && notice == Silent && unchanged(this)
      ensures old(file).Some? ==>
        requests == UploadFlow(projectId, projectArn, old(file).value, old(appType), url, put, save).0 &&
        notice == UploadFlow(projectId, projectArn, old(file).value, old(appType), url, put, save).1 &&
        (notice == Uploaded ==> file.None?) && (notice != Uploaded ==> file == old(file)) &&
        !uploading && progress == "" && appType == old(appType)
    {
      if file.None? {
        return [], Silent;
      }
      var f := file.value;
      uploading := true;
      progress := "Requesting upload URL...";
      requests := [AskUploadUrl(projectArn, f.name, AwsType(appType))];
      notice := Silent;
      if url.UrlUnreached? {
        notice := UploadError(url.message);
      } else if !url.ok {
        notice := UploadError("Failed to get upload URL");
      } else if !Present(url.uploadUrl) {
        notice := UploadError("No upload URL returned");
      } else {
        // the page shows the file size in megabytes here; display text is not modelled
        progress := "Uploading to AWS...";
        requests := requests + [PutFile(url.uploadUrl.value, f.size)];
        if put.Unreached? {
          notice := UploadError(put.message);
        } else if !put.ok {
          notice := UploadError("Failed to upload file to AWS");
        } else {
          progress := "Finalizing...";
          requests := requests + [SaveApp(projectId, f.name, AppTypeName(appType), f.name, f.size, url.uploadArn)];
          if save.Unreached? {
            notice := UploadError(save.message);
          } else if !save.ok {
            notice := UploadError("Failed to save app record");
          } else {
            progress := "Upload complete!";
            notice := Uploaded;
            file := None;
          }
        }
      }
      progress := "";
      uploading := false;
    }
  }
}

/** `screens/UploadScreen.js`: picking a video (size limit and defaults) and
    `handleUpload` (field check, token gate, payload, `uploading` flag), with
    the picker's result and `uploadVideo`'s outcome as parameters. */
module UploadScreen {
  import opened Base
  import opened Storage
  import opened Forms
  import Entities

  /** 50 MiB. */
  const MaxVideoBytes := 50 * 1024 * 1024

  const PermissionMessage := "Permission to access media library is required."
  const NoSelectionMessage := "No video was selected."
  const TooLargeMessage := "Video file is too large. Please select a file under 50MB."
  const PickFailedMessage := "Could not pick video. Please try again."
  const MissingFieldsMessage := "Please fill all fields, select a video, and choose a category."
  const NotAuthenticatedMessage := "User is not authenticated."
  const UploadThrewMessage := "Upload failed. Please try again."

  /** An asset returned by the picker; the optional fields may be missing.
      `mimeType` is the asset's `type` field (`type` is a Dafny keyword). */
  datatype Asset = Asset(uri: string, fileName: Option<string>, mimeType: Option<string>, fileSize: Option<nat>)

  /** `videoFile`: what is later appended as the `video` part; `mimeType`
      is its `type` field. */
  datatype VideoFile = VideoFile(uri: string, name: string, mimeType: string)

  /** How the two picker calls settle. */
  datatype PickReply =
    | PermissionDenied
    | PickerThrew
    | Picked(canceled: bool, assets: Option<seq<Asset>>)

  /** The size check and the defaults: an asset is refused only when its
      size is known and above 50 MiB; a missing or empty name or type falls
      back to `video.mp4` / `video/mp4`. */
  function AcceptAsset(a: Asset): (r: Option<VideoFile>)
    ensures r.None? <==> a.fileSize.Some? && a.fileSize.value > MaxVideoBytes
    ensures r.Some? ==> r.value.uri == a.uri
    ensures r.Some? ==> r.value.name == if Truthy(a.fileName) then a.fileName.value else "video.mp4"
    ensures r.Some? ==> r.value.mimeType == if Truthy(a.mimeType) then a.mimeType.value else "video/mp4"
  {
    // `fileSize && fileSize > limit`: a zero size is falsy and passes
    if a.fileSize.Some? && a.fileSize.value != 0 && a.fileSize.value > MaxVideoBytes then None
    else
      Some(VideoFile(a.uri,
                     if Truthy(a.fileName) then a.fileName.value else "video.mp4",
                     if Truthy(a.mimeType) then a.mimeType.value else "video/mp4"))
  }

  /** What `pickVideo` sets: a new `uploadError` or a new `videoFile`
      (`None` in a field means that state cell is left as it was). */
  datatype PickFlow = PickFlow(error: Option<string>, file: Option<VideoFile>)

  /** The first asset of a completed, non-empty pick. */
  predicate HasAsset(reply: PickReply)
  {
    reply.Picked? && !reply.canceled && reply.assets.Some? && |reply.assets.value| > 0
  }

  function PickVideoEffect(reply: PickReply): (r: PickFlow)
    ensures r.error.None? <==> r.file.Some?
    ensures r.file.Some? <==> HasAsset(reply) && AcceptAsset(reply.assets.value[0]).Some?
    ensures r.file.Some? ==> r.file == AcceptAsset(reply.assets.value[0])
    ensures reply.PermissionDenied? ==> r.error == Some(PermissionMessage)
    ensures reply.PickerThrew? ==> r.error == Some(PickFailedMessage)
    ensures reply.Picked? && !HasAsset(reply) ==> r.error == Some(NoSelectionMessage)
    ensures HasAsset(reply) && r.file.None? ==> r.error == Some(TooLargeMessage)
  {
    match reply
    case PermissionDenied => PickFlow(Some(PermissionMessage), None)
    case PickerThrew => PickFlow(Some(PickFailedMessage), None)
    case Picked(canceled, assets) =>
      if canceled || assets.None? || |assets.value| == 0 then PickFlow(Some(NoSelectionMessage), None)
      else
        var file := AcceptAsset(assets.value[0]);
        if file.None? then PickFlow(Some(TooLargeMessage), None) else PickFlow(None, file)
  }

  /** `title && description && videoFile && category`. */
  predicate FieldsComplete(title: string, description: string, file: Option<VideoFile>, category: string)
  {
    title != "" && description != "" && file.Some? && category != ""
  }

  /** The `FormData` of an upload: exactly title, description, category and
      video, in that order. */
  function UploadForm(title: string, description: string, category: string, file: VideoFile): (r: Form)
    ensures Names(r) == ["title", "description", "category", "video"]
    ensures ValueOf(r, "title") == Some(Text(title))
    ensures ValueOf(r, "description") == Some(Text(description))
    ensures ValueOf(r, "category") == Some(Text(category))
    ensures ValueOf(r, "video") == Some(File(file.uri, file.name, file.mimeType))
  {
    var r := [ FormField("title", Text(title)),
               FormField("description", Text(description)),
               FormField("category", Text(category)),
               FormField("video", File(file.uri, file.name, file.mimeType)) ];
    assert ValueOf(r[3..], "video") == Some(File(file.uri, file.name, file.mimeType));
    assert ValueOf(r[2..], "category") == Some(Text(category));
    r
  }

  /** How `uploadVideo(formData, token)` settles: a rejection, or a resolved
      value whose `status` and `error` fields may be missing. As written,
      `uploadVideo` refers to an `accessToken` that is not in scope, so it
      always rejects; the resolved case is kept for the handler's own logic. */
  datatype UploadReply = UploadThrew | UploadResolved(status: Option<int>, error: Option<string>)

  /** What `handleUpload` ends with: `uploadError`, the form sent (if any),
      whether it navigates to Home, and whether it got past the field check
      (and so set `uploading`). */
  datatype UploadFlow = UploadFlow(error: string, sent: Option<Form>, navigateHome: bool, started: bool)

  function HandleUploadEffect(title: string, description: string, file: Option<VideoFile>, category: string,
                              token: Option<string>, reply: UploadReply): (r: UploadFlow)
    ensures r.started <==> FieldsComplete(title, description, file, category)
    ensures !r.started ==> r.error == MissingFieldsMessage && r.sent.None? && !r.navigateHome
    ensures r.sent.Some? <==> r.started && Truthy(token)
    ensures r.started && !Truthy(token) ==> r.error == NotAuthenticatedMessage && !r.navigateHome
    ensures r.sent.Some? ==> r.sent == Some(UploadForm(title, description, category, file.value))
    ensures r.navigateHome <==> r.sent.Some? && reply.UploadResolved? && reply.status == Some(200)
    ensures r.navigateHome ==> r.error == ""
    ensures r.sent.Some? && reply.UploadThrew? ==> r.error == UploadThrewMessage
    ensures r.sent.Some? && reply.UploadResolved? && !r.navigateHome ==>
              r.error == "Upload failed: " + (if Truthy(reply.error) then reply.error.value else "Unknown error")
  {
    if !FieldsComplete(title, description, file, category) then
      UploadFlow(MissingFieldsMessage, None, false, false)
    else if !Truthy(token) then
      UploadFlow(NotAuthenticatedMessage, None, false, true)
    else
      var form := Some(UploadForm(title, description, category, file.value));
      match reply
      case UploadThrew => UploadFlow(UploadThrewMessage, form, false, true)
      case UploadResolved(status, error) =>
        if status == Some(200) then UploadFlow("", form, true, true)
        else UploadFlow("Upload failed: " + (if Truthy(error) then error.value else "Unknown error"), form, false, true)
  }

  /** The screen's state cells. */
  class Screen {
    var title: string
    var description: string
    var category: string
    var videoFile: Option<VideoFile>
    var videoPreviewUri: Option<string>
    var uploading: bool
    var uploadError: string

    constructor ()
      ensures title == "" && description == "" && category == Entities.Categories[0]
      ensures videoFile.None? && videoPreviewUri.None? && !uploading && uploadError == ""
    {
      title, description, category := "", "", Entities.Categories[0];
      videoFile, videoPreviewUri := None, None;
      uploading, uploadError := false, "";
    }

    /** `pickVideo`: on success it sets the file and preview and leaves an
        earlier `uploadError` standing. */
    method PickVideo(reply: PickReply)
      modifies this`videoFile, this`videoPreviewUri, this`uploadError
      ensures var flow := PickVideoEffect(reply);
              && (flow.file.Some? ==>
                    && videoFile == flow.file && videoPreviewUri == Some(flow.file.value.uri)
                    && uploadError == old(uploadError))
              && (flow.error.Some? ==>
                    && videoFile == old(videoFile) && videoPreviewUri == old(videoPreviewUri)
                    && uploadError == flow.error.value)
    {
      match reply {
        case PermissionDenied =>
          uploadError := PermissionMessage;
        case PickerThrew =>
          uploadError := PickFailedMessage;
        case Picked(canceled, assets) =>
          if canceled || assets.None? || |assets.value| == 0 {
            uploadError := NoSelectionMessage;
            return;
          }
          var asset := assets.value[0];
          var accepted := AcceptAsset(asset);
          if accepted.None? {
            uploadError := TooLargeMessage;
            return;
          }
          videoFile := accepted;
          videoPreviewUri := Some(asset.uri);
      }
    }

    /** `handleUpload`: `uploading` is false again whenever the field check passed. */
    method HandleUpload(store: KeyValueStore, reply: UploadReply) returns (sent: Option<Form>, navigateHome: bool)
      modifies this`uploading, this`uploadError
      ensures var flow := HandleUploadEffect(title, description, videoFile, category, store.GetItem("accessToken"), reply);
              && uploadError == flow.error && sent == flow.sent && navigateHome == flow.navigateHome
              && uploading == (if flow.started then false else old(uploading))
    {
      if title == "" || description == "" || videoFile.None? || category == "" {
        uploadError := MissingFieldsMessage;
        sent, navigateHome := None, false;
        return;
      }
      uploading := true;
      uploadError := "";
      var userToken := store.GetItem("accessToken");
      if !Truthy(userToken) {
        uploadError := NotAuthenticatedMessage;
        uploading := false;
        sent, navigateHome := None, false;
        return;
      }
      var form := [FormField("title", Text(title))];
      form := form + [FormField("description", Text(description))];
      form := form + [FormField("category", Text(category))];
      form := form + [FormField("video", File(videoFile.value.uri, videoFile.value.name, videoFile.value.mimeType))];
      assert form == UploadForm(title, description, category, videoFile.value);
      sent := Some(form);
      navigateHome := false;
      match reply {
        case UploadThrew =>
          uploadError := UploadThrewMessage;
        case UploadResolved(status, error) =>
          if status == Some(200) {
            navigateHome := true;
          } else {
            uploadError := "Upload failed: " + (if Truthy(error) then error.value else "Unknown error");
          }
      }
      uploading := false;
    }
  }
}

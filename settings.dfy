/** The decision rules of the account settings page
    (frontend/src/pages/SettingsPage.jsx): where the profile image comes from, the
    2 MiB limit on a chosen picture, the guard that the two new passwords agree, the
    guard that a picture is chosen before upload, and the defaults applied to the
    loaded profile.

    The page's React state is a class whose fields are the useState variables, plus
    the file input's current file, the last alert raised, the requests sent, and
    whether logout was called or scheduled. Every network answer is a parameter. */
module Settings {
  import opened JsValues

  /** MAX_FILE_SIZE: 2 MiB. */
  const MaxFileSize: nat := 2 * 1024 * 1024

  /** A file passes the size check unless it is strictly larger than MaxFileSize. */
  predicate WithinSizeLimit(size: nat) {
    !(size > MaxFileSize)
  }

  /** A file of exactly 2 MiB is accepted; one byte more is rejected. */
  lemma SizeLimitBoundary()
    ensures WithinSizeLimit(2097152) && !WithinSizeLimit(2097153)
    ensures forall size: nat :: WithinSizeLimit(size) <==> size <= 2097152
  {
  }

  /** A JavaScript string that may also be null or undefined, tested for truthiness. */
  predicate Present(s: Option<string>) {
    s.Some? && s.value != ""
  }

  /** currentImageSource: a truthy preview wins; otherwise a profilePicUrl that starts
      with "http" is used as it is; otherwise a non-empty profilePicUrl is resolved
      against the API base URL; otherwise there is no image. */
  function ImageSource(preview: Option<string>, picUrl: Option<string>, apiBase: string): (r: Option<string>)
    ensures Present(preview) ==> r == preview
    ensures !Present(preview) && picUrl.Some? && StartsWith(picUrl.value, "http") ==> r == picUrl
    ensures !Present(preview) && Present(picUrl) && !StartsWith(picUrl.value, "http") ==>
              r == Some(apiBase + "/" + picUrl.value)
    ensures r.None? <==> !Present(preview) && !Present(picUrl)
    ensures r.Some? ==> r.value != ""
  {
    if Present(preview) then preview
    else if picUrl.Some? && StartsWith(picUrl.value, "http") then picUrl
    else if Present(picUrl) then Some(apiBase + "/" + picUrl.value)
    else None
  }

  /** `x || ''` for a string that may be missing. */
  function OrEmpty(s: Option<string>): (r: string)
    ensures s.Some? ==> r == s.value
    ensures s.None? ==> r == ""
  {
    if s.Some? then s.value else ""
  }

  /** The texts of the alerts the page raises. */
  const PasswordMismatchMessage: string := "New passwords do not match."
  const PasswordChangedMessage: string := "Password changed successfully! Please log in again."
  const PasswordErrorPrefix: string := "Password Change Error: "
  const PasswordFallback: string := "Failed to change password."
  const FileTooLargeMessage: string := "Error: File size exceeds the 2MB limit."
  const NoFileMessage: string := "Please select an image file first."
  const PictureUpdatedMessage: string := "Profile picture updated!"
  const UploadErrorPrefix: string := "Upload Error: "
  const UploadFallback: string := "Upload failed."
  const LoadErrorPrefix: string := "Failed to load settings: "
  const LoadFallback: string := "Failed to load user data."

  datatype AlertKind = Error | Success
  datatype Alert = Alert(message: string, kind: AlertKind)

  /** The part of a browser File the page looks at. */
  datatype FileInfo = FileInfo(name: string, size: nat)

  /** Requests the page sends to the API. */
  datatype Request =
    | PasswordChange(oldPassword: string, newPassword: string)
    | PictureUpload(file: FileInfo)

  /** What awaiting fetch and response.json() gave: a successful body, a response that
      was not ok with the body's `message` ("" when it has none), or a thrown error
      with its message. */
  datatype Reply<T> = Succeeded(body: T) | Refused(dataMessage: string) | Failed(errorMessage: string)

  /** The message the page shows for a failed request: `data.message || fallback`
      for a refused request, the error's own message for a thrown one. */
  function ErrorText<T>(r: Reply<T>, fallback: string): (m: string)
    requires !r.Succeeded?
    ensures r.Refused? && r.dataMessage != "" ==> m == r.dataMessage
    ensures r.Refused? && r.dataMessage == "" ==> m == fallback
    ensures r.Failed? ==> m == r.errorMessage
  {
    if r.Refused? then (if r.dataMessage != "" then r.dataMessage else fallback) else r.errorMessage
  }

  /** The fields of GET /api/users/me the page reads. */
  datatype UserData = UserData(firstName: Option<string>, lastName: Option<string>, profilePicUrl: Option<string>)

  /** The answer to the profile request: 401, or anything else. */
  datatype ProfileReply = Unauthorized | Answered(reply: Reply<UserData>)

  /** The three password inputs. */
  datatype PasswordField = OldPassword | NewPassword | ConfirmNewPassword

  /** The `profileData` state object. */
  datatype ProfileData = ProfileData(firstName: string, lastName: string)

  /** The `passwordData` state object. */
  datatype PasswordData = PasswordData(oldPassword: string, newPassword: string, confirmNewPassword: string)

  /** A snapshot of every field of the page, for stating what a handler changes. */
  datatype PageState = PageState(
    selectedFile: Option<FileInfo>,
    profilePicUrl: Option<string>,
    previewUrl: Option<string>,
    isLoadingProfile: bool,
    profileData: ProfileData,
    passwordData: PasswordData,
    fileInput: Option<FileInfo>,
    alert: Option<Alert>,
    sent: seq<Request>,
    loggedOut: bool,
    logoutScheduled: bool)

  /** fetchUserData as a step: a 401 logs out; a loaded profile fills the names and the
      picture URL, each defaulting to ''; any other failure raises an alert. Loading ends
      in every case, and nothing else changes. */
  function ProfileLoadStep(s: PageState, reply: ProfileReply): (t: PageState)
    ensures !t.isLoadingProfile
    ensures t.loggedOut <==> s.loggedOut || reply.Unauthorized?
    ensures reply.Answered? && reply.reply.Succeeded? ==>
              t.profileData == ProfileData(OrEmpty(reply.reply.body.firstName), OrEmpty(reply.reply.body.lastName)) &&
              t.profilePicUrl == Some(OrEmpty(reply.reply.body.profilePicUrl))
    ensures !(reply.Answered? && reply.reply.Succeeded?) ==>
              t.profileData == s.profileData && t.profilePicUrl == s.profilePicUrl
    ensures reply.Answered? && !reply.reply.Succeeded? ==>
              t.alert == Some(Alert(LoadErrorPrefix + ErrorText(reply.reply, LoadFallback), Error))
    ensures !(reply.Answered? && !reply.reply.Succeeded?) ==> t.alert == s.alert
    ensures t.(isLoadingProfile := s.isLoadingProfile, loggedOut := s.loggedOut,
               profileData := s.profileData, profilePicUrl := s.profilePicUrl, alert := s.alert) == s
  {
    match reply
    case Unauthorized => s.(loggedOut := true, isLoadingProfile := false)
    case Answered(Succeeded(data)) =>
      s.(profileData := ProfileData(OrEmpty(data.firstName), OrEmpty(data.lastName)),
         profilePicUrl := Some(OrEmpty(data.profilePicUrl)), isLoadingProfile := false)
    case Answered(r) =>
      s.(alert := Some(Alert(LoadErrorPrefix + ErrorText(r, LoadFallback), Error)),
         isLoadingProfile := false)
  }

  /** handlePasswordInputChange as a step: the named input takes the value, and the
      other two inputs and everything else are kept. */
  function PasswordEditStep(s: PageState, field: PasswordField, value: string): (t: PageState)
    ensures field == OldPassword ==> t.passwordData.oldPassword == value
    ensures field == NewPassword ==> t.passwordData.newPassword == value
    ensures field == ConfirmNewPassword ==> t.passwordData.confirmNewPassword == value
    ensures field != OldPassword ==> t.passwordData.oldPassword == s.passwordData.oldPassword
    ensures field != NewPassword ==> t.passwordData.newPassword == s.passwordData.newPassword
    ensures field != ConfirmNewPassword ==> t.passwordData.confirmNewPassword == s.passwordData.confirmNewPassword
    ensures t.(passwordData := s.passwordData) == s
  {
    var p := s.passwordData;
    match field
    case OldPassword => s.(passwordData := p.(oldPassword := value))
    case NewPassword => s.(passwordData := p.(newPassword := value))
    case ConfirmNewPassword => s.(passwordData := p.(confirmNewPassword := value))
  }

  /** handlePasswordChange as a step: a password request is sent exactly when the two
      new passwords agree, and it carries the old and the new password; mismatched
      passwords only raise an alert; on success the three inputs are cleared and logout
      is scheduled, on failure only the alert changes. */
  function PasswordChangeStep(s: PageState, reply: Reply<string>): (t: PageState)
    ensures var p := s.passwordData;
            t.sent == s.sent || t.sent == s.sent + [PasswordChange(p.oldPassword, p.newPassword)]
    ensures t.sent != s.sent <==> s.passwordData.newPassword == s.passwordData.confirmNewPassword
    ensures s.passwordData.newPassword != s.passwordData.confirmNewPassword ==>
              t == s.(alert := Some(Alert(PasswordMismatchMessage, Error)))
    ensures s.passwordData.newPassword == s.passwordData.confirmNewPassword && reply.Succeeded? ==>
              t == s.(sent := t.sent, passwordData := PasswordData("", "", ""),
                      alert := Some(Alert(PasswordChangedMessage, Success)), logoutScheduled := true)
    ensures s.passwordData.newPassword == s.passwordData.confirmNewPassword && reply.Succeeded? ==>
              t.passwordData == PasswordData("", "", "") &&
              t.logoutScheduled && t.alert == Some(Alert(PasswordChangedMessage, Success))
    ensures s.passwordData.newPassword == s.passwordData.confirmNewPassword && !reply.Succeeded? ==>
              t == s.(sent := t.sent, alert := Some(Alert(PasswordErrorPrefix +
                                                     ErrorText(reply, PasswordFallback), Error)))
    ensures t.logoutScheduled ==> s.logoutScheduled || reply.Succeeded?
  {
    var p := s.passwordData;
    if p.newPassword != p.confirmNewPassword then
      s.(alert := Some(Alert(PasswordMismatchMessage, Error)))
    else
      var sent := s.sent + [PasswordChange(p.oldPassword, p.newPassword)];
      if reply.Succeeded? then
        s.(sent := sent, passwordData := PasswordData("", "", ""),
           alert := Some(Alert(PasswordChangedMessage, Success)),
           logoutScheduled := true)
      else
        s.(sent := sent, alert := Some(Alert(PasswordErrorPrefix + ErrorText(reply, PasswordFallback), Error)))
  }

  /** handleFileChange as a step, for the file the user put in the file input (`None`
      when the input was emptied): no file clears the selection and the preview; a file
      over the limit raises an alert and empties the input, keeping the selection it
      had; any other file becomes the selection, previewed at `objectUrl`. Only a file
      within the limit is ever newly selected. */
  function FileChangeStep(s: PageState, file: Option<FileInfo>, objectUrl: string): (t: PageState)
    ensures file.None? ==> t == s.(selectedFile := None, previewUrl := None, fileInput := None)
    ensures file.Some? && !WithinSizeLimit(file.value.size) ==>
              t == s.(alert := Some(Alert(FileTooLargeMessage, Error)), fileInput := None)
    ensures file.Some? && WithinSizeLimit(file.value.size) ==>
              t == s.(selectedFile := file, previewUrl := Some(objectUrl), fileInput := file)
    ensures t.selectedFile != s.selectedFile && t.selectedFile.Some? ==>
              WithinSizeLimit(t.selectedFile.value.size)
    ensures t.sent == s.sent
  {
    match file
    case None => s.(selectedFile := None, previewUrl := None, fileInput := None)
    case Some(f) =>
      if f.size > MaxFileSize then
        s.(alert := Some(Alert(FileTooLargeMessage, Error)), fileInput := None)
      else
        s.(selectedFile := Some(f), previewUrl := Some(objectUrl), fileInput := Some(f))
  }

  /** handlePictureSubmit as a step: without a selected file it raises an alert and
      sends nothing; otherwise it uploads exactly the selected file and clears the
      selection and the preview whatever the answer, taking the new picture URL only on
      success. */
  function PictureSubmitStep(s: PageState, reply: Reply<Option<string>>): (t: PageState)
    ensures s.selectedFile.None? ==>
              t == s.(alert := Some(Alert(NoFileMessage, Error)))
    ensures s.selectedFile.Some? ==>
              t.sent == s.sent + [PictureUpload(s.selectedFile.value)] &&
              t.selectedFile.None? && t.previewUrl.None?
    ensures s.selectedFile.Some? && reply.Succeeded? ==>
              t.profilePicUrl == reply.body && t.alert == Some(Alert(PictureUpdatedMessage, Success))
    ensures s.selectedFile.Some? && !reply.Succeeded? ==>
              t.profilePicUrl == s.profilePicUrl &&
              t.alert == Some(Alert(UploadErrorPrefix + ErrorText(reply, UploadFallback), Error))
    ensures t.(sent := s.sent, selectedFile := s.selectedFile, previewUrl := s.previewUrl,
               profilePicUrl := s.profilePicUrl, alert := s.alert) == s
  {
    if s.selectedFile.None? then
      s.(alert := Some(Alert(NoFileMessage, Error)))
    else
      var sent := s.sent + [PictureUpload(s.selectedFile.value)];
      match reply
      case Succeeded(url) =>
        s.(sent := sent, profilePicUrl := url, previewUrl := None, selectedFile := None,
           alert := Some(Alert(PictureUpdatedMessage, Success)))
      case _ =>
        s.(sent := sent, previewUrl := None, selectedFile := None,
           alert := Some(Alert(UploadErrorPrefix + ErrorText(reply, UploadFallback), Error)))
  }

  /** What every reachable state of the page keeps: the selected file is within the
      size limit, and so is every picture the page has uploaded. */
  predicate UploadsWithinLimit(s: PageState) {
    (s.selectedFile.Some? ==> WithinSizeLimit(s.selectedFile.value.size)) &&
    forall i :: 0 <= i < |s.sent| && s.sent[i].PictureUpload? ==> WithinSizeLimit(s.sent[i].file.size)
  }

  /** Everything that can happen on the page: the profile arriving, typing into a
      password input, submitting the password form, choosing a file, submitting the
      picture form, each with what the network or the browser gave. */
  datatype Event =
    | ProfileArrived(profile: ProfileReply)
    | PasswordTyped(field: PasswordField, value: string)
    | PasswordSubmitted(password: Reply<string>)
    | FileChosen(file: Option<FileInfo>, objectUrl: string)
    | PictureSubmitted(picture: Reply<Option<string>>)

  function Step(s: PageState, e: Event): PageState {
    match e
    case ProfileArrived(profile) => ProfileLoadStep(s, profile)
    case PasswordTyped(field, value) => PasswordEditStep(s, field, value)
    case PasswordSubmitted(password) => PasswordChangeStep(s, password)
    case FileChosen(file, objectUrl) => FileChangeStep(s, file, objectUrl)
    case PictureSubmitted(picture) => PictureSubmitStep(s, picture)
  }

  /** The state after the events, in order. */
  function Run(s: PageState, events: seq<Event>): PageState
    decreases |events|
  {
    if events == [] then s else Run(Step(s, events[0]), events[1..])
  }

  /** The initial useState values: loading, no names, an empty picture URL, nothing
      selected or sent. */
  const Initial: PageState :=
    PageState(None, Some(""), None, true, ProfileData("", ""), PasswordData("", "", ""), None, None, [], false, false)

  /** Uploading a picture keeps the invariant: the file sent is the selected one. */
  lemma PictureSubmitKeepsLimit(s: PageState, picture: Reply<Option<string>>)
    requires UploadsWithinLimit(s)
    ensures UploadsWithinLimit(PictureSubmitStep(s, picture))
  {
    var u := PictureSubmitStep(s, picture);
    if s.selectedFile.Some? {
      assert u.sent[|s.sent|] == PictureUpload(s.selectedFile.value);
    }
  }

  /** Sending a password request keeps the invariant: it is not an upload. */
  lemma PasswordChangeKeepsLimit(s: PageState, password: Reply<string>)
    requires UploadsWithinLimit(s)
    ensures UploadsWithinLimit(PasswordChangeStep(s, password))
  {
    var t := PasswordChangeStep(s, password);
    if t.sent != s.sent {
      assert t.sent[|s.sent|].PasswordChange?;
    }
  }

  /** Every handler keeps UploadsWithinLimit. */
  lemma StepKeepsLimit(s: PageState, e: Event)
    requires UploadsWithinLimit(s)
    ensures UploadsWithinLimit(Step(s, e))
  {
    match e
    case PasswordSubmitted(password) => PasswordChangeKeepsLimit(s, password);
    case PictureSubmitted(picture) => PictureSubmitKeepsLimit(s, picture);
    case _ =>
  }

  /** The page never uploads a file over 2 MiB, whatever happens: UploadsWithinLimit
      holds initially and after any sequence of events. */
  lemma {:induction false} RunKeepsLimit(s: PageState, events: seq<Event>)
    requires UploadsWithinLimit(s)
    ensures UploadsWithinLimit(Run(s, events))
    decreases |events|
  {
    if events != [] {
      StepKeepsLimit(s, events[0]);
      RunKeepsLimit(Step(s, events[0]), events[1..]);
    }
  }

  /** From the initial state, no picture request the page ever sends is over 2 MiB. */
  lemma NoOversizeUpload(events: seq<Event>)
    ensures forall r :: r in Run(Initial, events).sent && r.PictureUpload? ==> r.file.size <= MaxFileSize
  {
    RunKeepsLimit(Initial, events);
    var t := Run(Initial, events);
    forall r | r in t.sent && r.PictureUpload? ensures r.file.size <= MaxFileSize {
      var i :| 0 <= i < |t.sent| && t.sent[i] == r;
    }
  }

  class SettingsPage {
    const apiBaseUrl: string

    var selectedFile: Option<FileInfo>
    var profilePicUrl: Option<string>
    var previewUrl: Option<string>
    var isLoadingProfile: bool
    var profileData: ProfileData
    var passwordData: PasswordData
    /** The file the file input currently holds (`e.target.files[0]`). */
    var fileInput: Option<FileInfo>
    /** The last alert the page raised. */
    var alert: Option<Alert>
    /** The requests the page sent, oldest first. */
    var sent: seq<Request>
    /** onLogout was called. */
    var loggedOut: bool
    /** onLogout was scheduled by a timer. */
    var logoutScheduled: bool

    function State(): PageState
      reads this
    {
      PageState(selectedFile, profilePicUrl, previewUrl, isLoadingProfile, profileData, passwordData,
                fileInput, alert, sent,
                loggedOut, logoutScheduled)
    }

    constructor (apiBaseUrl: string)
      ensures this.apiBaseUrl == apiBaseUrl
      ensures State() == Initial
    {
      this.apiBaseUrl := apiBaseUrl;
      selectedFile, profilePicUrl, previewUrl := None, Some(""), None;
      isLoadingProfile := true;
      profileData := ProfileData("", "");
      passwordData := PasswordData("", "", "");
      fileInput, alert, sent := None, None, [];
      loggedOut, logoutScheduled := false, false;
    }

    /** currentImageSource for the page's current state. */
    function CurrentImageSource(): (r: Option<string>)
      reads this
      ensures r == ImageSource(previewUrl, profilePicUrl, apiBaseUrl)
      ensures r.None? <==> !Present(previewUrl) && !Present(profilePicUrl)
    {
      ImageSource(previewUrl, profilePicUrl, apiBaseUrl)
    }

    /** fetchUserData, run once when the page mounts. */
    method LoadProfile(reply: ProfileReply)
      modifies this
      ensures State() == ProfileLoadStep(old(State()), reply)
    {
      isLoadingProfile := true;
      match reply {
        case Unauthorized =>
          loggedOut := true;
        case Answered(r) =>
          match r {
            case Succeeded(data) =>
              profileData := ProfileData(OrEmpty(data.firstName), OrEmpty(data.lastName));
              profilePicUrl := Some(OrEmpty(data.profilePicUrl));
            case _ =>
              alert := Some(Alert(LoadErrorPrefix + ErrorText(r, LoadFallback), Error));
          }
      }
      isLoadingProfile := false;
    }

    /** handlePasswordInputChange. */
    method EditPasswordField(field: PasswordField, value: string)
      modifies this
      ensures State() == PasswordEditStep(old(State()), field, value)
    {
      match field
      case OldPassword => passwordData := passwordData.(oldPassword := value);
      case NewPassword => passwordData := passwordData.(newPassword := value);
      case ConfirmNewPassword => passwordData := passwordData.(confirmNewPassword := value);
    }

    /** handlePasswordChange. */
    method ChangePassword(reply: Reply<string>)
      modifies this
      ensures State() == PasswordChangeStep(old(State()), reply)
    {
      if passwordData.newPassword != passwordData.confirmNewPassword {
        alert := Some(Alert(PasswordMismatchMessage, Error));
        return;
      }
      sent := sent + [PasswordChange(passwordData.oldPassword, passwordData.newPassword)];
      if reply.Succeeded? {
        passwordData := PasswordData("", "", "");
        alert := Some(Alert(PasswordChangedMessage, Success));
        logoutScheduled := true;
      } else {
        alert := Some(Alert(PasswordErrorPrefix + ErrorText(reply, PasswordFallback), Error));
      }
    }

    /** handleFileChange. */
    method ChooseFile(file: Option<FileInfo>, objectUrl: string)
      modifies this
      ensures State() == FileChangeStep(old(State()), file, objectUrl)
    {
      fileInput := file;
      if file.None? {
        selectedFile := None;
        previewUrl := None;
        return;
      }
      if file.value.size > MaxFileSize {
        alert := Some(Alert(FileTooLargeMessage, Error));
        fileInput := None;
        return;
      }
      selectedFile := file;
      previewUrl := Some(objectUrl);
    }

    /** handlePictureSubmit. */
    method SubmitPicture(reply: Reply<Option<string>>)
      modifies this
      ensures State() == PictureSubmitStep(old(State()), reply)
    {
      if selectedFile.None? {
        alert := Some(Alert(NoFileMessage, Error));
        return;
      }
      sent := sent + [PictureUpload(selectedFile.value)];
      match reply
      case Succeeded(url) =>
        profilePicUrl := url;
        previewUrl := None;
        selectedFile := None;
        alert := Some(Alert(PictureUpdatedMessage, Success));
      case _ =>
        previewUrl := None;
        selectedFile := None;
        alert := Some(Alert(UploadErrorPrefix + ErrorText(reply, UploadFallback), Error));
    }
  }

  /** A non-empty preview wins over any stored picture, and a preview that is null and
      one that is '' resolve the same way: both fall through to the stored URL. */
  lemma PreviewThenUpload(preview: string, picUrl: Option<string>, apiBase: string)
    requires preview != ""
    ensures ImageSource(Some(preview), picUrl, apiBase) == Some(preview)
    ensures ImageSource(None, picUrl, apiBase) == ImageSource(Some(""), picUrl, apiBase)
  {
  }
}

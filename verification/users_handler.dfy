/**
 * The user handlers of usersHandler.go: sign-up gates on the e-mail
 * recogniser before any insert and maps the insert errors to 400 or 500;
 * the profile lookup answers 400 only for the exact no-rows error; the
 * profile update defaults absent fields to "", accepts at most one avatar
 * file under the same extension and size checks as the other uploads, and
 * takes the avatar URL from the first upload result. The form parser,
 * `utils.RandFileName`, the upload and the usecases are parameters.
 */
module UsersHandler {
  import opened SqlText
  import opened Entities
  import opened Uploads
  import opened Users
  import opened UsersPattern
  import ProfileUpdate

  const SignUpCustomerErr: string := "users-001"
  const SignUpAdminErr: string := "users-004"
  const GetUserProfileErr: string := "users-005"
  const UpdateUserProfileErr: string := "users-006"

  /** The error code of the sign-up route. */
  function SignUpCode(isAdmin: bool): string
  {
    if isAdmin then SignUpAdminErr else SignUpCustomerErr
  }

  // ---------------------------------------------------------------------------
  // Sign-up

  /**
   * `SignUpCustomer` (`isAdmin` false) and `SignUpAdmin` (`isAdmin` true).
   * `insert` is the usecase's `InsertCustomer` or `InsertAdmin`: its error,
   * or None when the user was created. The request handed on is the one
   * given to the insert. A server error is reported with code users-001 on
   * both routes, as the admin handler is written.
   */
  function SignUp(isAdmin: bool, body: Parse<UserRegisterReq>, insert: UserRegisterReq -> Option<string>)
    : (r: Outcome<UserRegisterReq>)
    ensures r.uploads == None
    ensures r.handed.Some? <==> body.Parsed? && IsEmail(body.value.email)
    ensures r.handed.Some? ==> r.handed.value == body.value
    ensures r.response.Success? <==> r.handed.Some? && insert(body.value).None?
    ensures r.response.Success? ==> r.response.status == StatusCreated
    ensures !r.response.Success? ==> (r.response.Failure?
      && (r.response.status == StatusBadRequest <==>
            r.handed.None? || insert(body.value) == Some(PhoneTaken) || insert(body.value) == Some(EmailTaken))
      && (r.response.status != StatusBadRequest ==> r.response.status == StatusInternalServerError)
      && r.response.code == (if r.response.status == StatusBadRequest then SignUpCode(isAdmin) else SignUpCustomerErr))
  {
    if body.ParseFailed? then Refused(StatusBadRequest, SignUpCode(isAdmin), body.err)
    else if !IsEmail(body.value.email) then Refused(StatusBadRequest, SignUpCode(isAdmin), "email is invalid")
    else match insert(body.value)
      case None => Outcome(Success(StatusCreated), None, Some(body.value))
      case Some(err) =>
        if err == PhoneTaken || err == EmailTaken then
          Outcome(Failure(StatusBadRequest, SignUpCode(isAdmin), err), None, Some(body.value))
        else Outcome(Failure(StatusInternalServerError, SignUpCustomerErr, err), None, Some(body.value))
  }

  /**
   * An address the e-mail description does not admit is refused with 400
   * "email is invalid", and nothing is inserted.
   */
  lemma SignUpInvalidEmail(isAdmin: bool, req: UserRegisterReq, insert: UserRegisterReq -> Option<string>)
    requires !EmailSpec(req.email)
    ensures SignUp(isAdmin, Parsed(req), insert) == Refused(StatusBadRequest, SignUpCode(isAdmin), "email is invalid")
  {
    IsEmailCorrect(req.email);
  }

  /**
   * When the insert reports a driver error, classified as the repository
   * does, the answer is 400 exactly for a duplicate e-mail or phone, and
   * 500 with code users-001 otherwise.
   */
  lemma SignUpDriverError(isAdmin: bool, req: UserRegisterReq, insert: UserRegisterReq -> Option<string>, err: string)
    requires IsEmail(req.email) && insert(req) == Some(ClassifyInsertError(err))
    ensures var r := SignUp(isAdmin, Parsed(req), insert);
      r.response.Failure?
      && (r.response.status == StatusBadRequest <==> err == Duplicate("User_email_key") || err == Duplicate("User_phone_key"))
      && (r.response.status == StatusInternalServerError <==> !(err == Duplicate("User_email_key") || err == Duplicate("User_phone_key")))
      && (r.response.status == StatusInternalServerError ==>
            (r.response.code == SignUpCustomerErr && r.response.message == InsertFailedPrefix + err))
  {
    ClassifyInsertErrorCases(err);
  }

  // ---------------------------------------------------------------------------
  // Profile lookup

  /** The error the usecase reports for a missing user row. */
  const ProfileNotFound: string := "get user failed: " + NoRows

  /**
   * `GetUserProfile`: the id is the route parameter without surrounding
   * spaces; `lookup` is the usecase's error for that id, None when found.
   */
  function GetUserProfile(param: string, lookup: string -> Option<string>): (r: Outcome<string>)
    ensures r.uploads == None && r.handed == Some(Trim(param, ' '))
    ensures r.response.Success? <==> lookup(Trim(param, ' ')).None?
    ensures r.response.Success? ==> r.response.status == StatusOK
    ensures !r.response.Success? ==> (r.response.Failure? && r.response.code == GetUserProfileErr
      && Some(r.response.message) == lookup(Trim(param, ' '))
      && (r.response.status == StatusBadRequest <==> r.response.message == ProfileNotFound)
      && (r.response.status != StatusBadRequest ==> r.response.status == StatusInternalServerError))
  {
    var userId := Trim(param, ' ');
    match lookup(userId)
    case None => Outcome(Success(StatusOK), None, Some(userId))
    case Some(err) =>
      if err == ProfileNotFound then Outcome(Failure(StatusBadRequest, GetUserProfileErr, err), None, Some(userId))
      else Outcome(Failure(StatusInternalServerError, GetUserProfileErr, err), None, Some(userId))
  }

  /**
   * When the repository wraps a driver error as "get user failed: …", the
   * answer is 400 exactly when the driver found no row.
   */
  lemma GetUserProfileNoRows(param: string, lookup: string -> Option<string>, driverErr: string)
    requires lookup(Trim(param, ' ')) == Some("get user failed: " + driverErr)
    ensures GetUserProfile(param, lookup).response.status == StatusBadRequest <==> driverErr == NoRows
  {
    if driverErr != NoRows {
      assert ("get user failed: " + driverErr)[|"get user failed: "|..] == driverErr;
      assert ProfileNotFound[|"get user failed: "|..] == NoRows;
    }
  }

  // ---------------------------------------------------------------------------
  // Profile update

  /** The request handed to `UpdateUserProfile`: the form's fields, the avatar URL, no date of birth. */
  function ProfileRequest(userId: string, form: MultipartForm, avatarUrl: string): UserUpdate
  {
    UserUpdate(userId, FirstValue(form, "email"), FirstValue(form, "fname"), FirstValue(form, "lname"),
      FirstValue(form, "phone"), avatarUrl, "")
  }

  /** Hands the request to the usecase: 500 on its error, 200 otherwise. */
  function SubmitProfile(req: UserUpdate, uploads: Option<seq<FileReq>>, update: UserUpdate -> Option<string>)
    : Outcome<UserUpdate>
  {
    match update(req)
    case None => Outcome(Success(StatusOK), uploads, Some(req))
    case Some(err) => Outcome(Failure(StatusInternalServerError, UpdateUserProfileErr, err), uploads, Some(req))
  }

  /** The one upload request for an avatar: `userId/name`, the name drawn for its extension. */
  function AvatarRequest(avatar: FileHeader, userId: string, randName: (nat, string) -> string): FileReq
  {
    Request(avatar, userId, randName(0, FileExtension(avatar.filename)))
  }

  /** The form has exactly one avatar file and it passes the checks. */
  predicate AvatarAccepted(form: MultipartForm, fileLimit: int)
  {
    "avatar" in form.file && |form.file["avatar"]| == 1 && CheckFile(form.file["avatar"][0], fileLimit) == FileOk
  }

  /**
   * `UpdateUserProfile`. An "avatar" part with more than one file is
   * refused; with no file, indexing its first file panics; its file is
   * checked like every upload and uploaded as `userId/name`, and the URL of
   * the first result becomes the avatar (indexing an empty result panics).
   */
  function UpdateUserProfile(param: string, form: Parse<MultipartForm>, fileLimit: int, randName: (nat, string) -> string,
                             upload: seq<FileReq> -> UploadOutcome, update: UserUpdate -> Option<string>)
    : (r: Outcome<UserUpdate>)
    ensures r.uploads.Some? <==> form.Parsed? && AvatarAccepted(form.value, fileLimit)
    ensures r.uploads.Some? ==> r.uploads.value == [AvatarRequest(form.value.file["avatar"][0], Trim(param, ' '), randName)]
    ensures r.handed.Some? <==>
      (form.Parsed? && ("avatar" !in form.value.file
        || (r.uploads.Some? && upload(r.uploads.value).Uploaded? && |upload(r.uploads.value).results| > 0)))
    ensures r.handed.Some? ==> (r.handed.value == ProfileRequest(Trim(param, ' '), form.value,
      if r.uploads.Some? then upload(r.uploads.value).results[0].url else ""))
    ensures r.response.Success? <==> r.handed.Some? && update(r.handed.value).None?
    ensures r.response.Success? ==> r.response.status == StatusOK
    ensures r.response.Failure? ==> r.response.code == UpdateUserProfileErr
  {
    if form.ParseFailed? then Refused(StatusBadRequest, UpdateUserProfileErr, form.err)
    else
      var f := form.value;
      var userId := Trim(param, ' ');
      if "avatar" !in f.file then SubmitProfile(ProfileRequest(userId, f, ""), None, update)
      else
        var avatar := f.file["avatar"];
        if |avatar| > 1 then Refused(StatusBadRequest, UpdateUserProfileErr, "avatar must be one file")
        else if |avatar| == 0 then Outcome(Panic, None, None)
        else
          var check := CheckFile(avatar[0], fileLimit);
          if check != FileOk then Refused(StatusBadRequest, UpdateUserProfileErr, CheckMessage(check, fileLimit))
          else
            var reqs := [AvatarRequest(avatar[0], userId, randName)];
            match upload(reqs)
            case UploadFailed(err) => Outcome(Failure(StatusInternalServerError, UpdateUserProfileErr, err), Some(reqs), None)
            case Uploaded(res) =>
              if |res| == 0 then Outcome(Panic, Some(reqs), None)
              else SubmitProfile(ProfileRequest(userId, f, res[0].url), Some(reqs), update)
  }

  /** Without an "avatar" part nothing is uploaded and the avatar stays "", so the update leaves it alone. */
  lemma UpdateUserProfileNoAvatar(param: string, form: MultipartForm, fileLimit: int, randName: (nat, string) -> string,
                                  upload: seq<FileReq> -> UploadOutcome, update: UserUpdate -> Option<string>)
    requires "avatar" !in form.file
    ensures var r := UpdateUserProfile(param, Parsed(form), fileLimit, randName, upload, update);
      r.uploads == None && r.handed.Some? && r.handed.value.avatar == ""
      && ProfileUpdate.Avatar !in ProfileUpdate.ProfileFields(r.handed.value)
  {
    var r := UpdateUserProfile(param, Parsed(form), fileLimit, randName, upload, update);
    ProfileUpdate.ProfileFieldsExact(r.handed.value, ProfileUpdate.Avatar);
  }

  /**
   * A text field of the profile is assigned by the update exactly when the
   * form gives it a non-empty first value; an absent field becomes "" and
   * is skipped.
   */
  lemma UpdateUserProfileFields(param: string, form: MultipartForm, fileLimit: int, randName: (nat, string) -> string,
                                upload: seq<FileReq> -> UploadOutcome, update: UserUpdate -> Option<string>,
                                field: ProfileUpdate.Field)
    requires field != ProfileUpdate.Avatar
    requires UpdateUserProfile(param, Parsed(form), fileLimit, randName, upload, update).handed.Some?
    ensures var req := UpdateUserProfile(param, Parsed(form), fileLimit, randName, upload, update).handed.value;
      field in ProfileUpdate.ProfileFields(req) <==> FirstValue(form, ProfileUpdate.FieldName(field)) != ""
    ensures ProfileUpdate.FieldName(field) !in form.value ==>
      field !in ProfileUpdate.ProfileFields(UpdateUserProfile(param, Parsed(form), fileLimit, randName, upload, update).handed.value)
  {
    var req := UpdateUserProfile(param, Parsed(form), fileLimit, randName, upload, update).handed.value;
    ProfileUpdate.ProfileFieldsExact(req, field);
  }

  /** More than one avatar file is refused before any upload. */
  lemma AvatarMustBeOne(param: string, form: MultipartForm, fileLimit: int, randName: (nat, string) -> string,
                        upload: seq<FileReq> -> UploadOutcome, update: UserUpdate -> Option<string>)
    requires "avatar" in form.file && |form.file["avatar"]| > 1
    ensures UpdateUserProfile(param, Parsed(form), fileLimit, randName, upload, update)
      == Refused(StatusBadRequest, UpdateUserProfileErr, "avatar must be one file")
  {
  }

  /**
   * A single avatar is uploaded exactly when its extension is png, jpg or
   * jpeg and its size is at most the limit; otherwise the answer is 400 with
   * the check's message.
   */
  lemma AvatarRules(param: string, form: MultipartForm, fileLimit: int, randName: (nat, string) -> string,
                    upload: seq<FileReq> -> UploadOutcome, update: UserUpdate -> Option<string>)
    requires "avatar" in form.file && |form.file["avatar"]| == 1
    ensures var avatar := form.file["avatar"][0];
      var ext := FileExtension(avatar.filename);
      var r := UpdateUserProfile(param, Parsed(form), fileLimit, randName, upload, update);
      (r.uploads.Some? <==> (ext == "png" || ext == "jpg" || ext == "jpeg") && avatar.size <= fileLimit)
      && (r.uploads.None? ==> r == Refused(StatusBadRequest, UpdateUserProfileErr, CheckMessage(CheckFile(avatar, fileLimit), fileLimit)))
  {
    CheckFileAccepts(form.file["avatar"][0], fileLimit);
  }

  /** An accepted avatar is stored under the user's folder with its own extension; its URL is the first result's. */
  lemma AvatarUrlFromUpload(param: string, form: MultipartForm, fileLimit: int, randName: (nat, string) -> string,
                            upload: seq<FileReq> -> UploadOutcome, update: UserUpdate -> Option<string>,
                            results: seq<FileRes>)
    requires AvatarAccepted(form, fileLimit)
    requires upload([AvatarRequest(form.file["avatar"][0], Trim(param, ' '), randName)]) == Uploaded(results)
    requires results != []
    ensures var r := UpdateUserProfile(param, Parsed(form), fileLimit, randName, upload, update);
      var name := form.file["avatar"][0].filename;
      r.handed.Some? && r.handed.value.avatar == results[0].url
      && r.uploads.value[0].destination == Trim(param, ' ') + "/" + randName(0, FileExtension(name))
      && r.uploads.value[0].extension == FileExtension(name)
      && (FileExtension(name) == "png" || FileExtension(name) == "jpg" || FileExtension(name) == "jpeg")
  {
    CheckFileAccepts(form.file["avatar"][0], fileLimit);
  }
}

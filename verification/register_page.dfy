/** src/pages/register.tsx: the registration page. Both password checks run
    before anything is sent; a photo-upload failure is only a warning and
    registration proceeds without a photo. */
module RegisterPage {
  import opened Js
  import opened Types
  import Api
  import ProfileImage

  const MismatchError := "Las contraseñas no coinciden"
  const ShortPasswordError := "La contraseña debe tener al menos 6 caracteres"
  const UploadWarning := "Error al subir la imagen de perfil. Continuando sin imagen..."
  const RegisterFallback := "Error al registrar usuario"
  const MinPasswordLength := 6

  datatype Form = Form(
    username: string, nombre: string, password: string, confirm: string,
    photo: Option<FileInfo>, preview: string)

  datatype RegisterResponse = RegisterResponse(msg: string)

  /** What a submit did: the error shown, the two flags after it, the file it
      tried to upload, the request sent, and whether registration succeeded. */
  datatype Step = Step(
    error: string, loading: bool, uploading: bool,
    uploadAttempt: Option<FileInfo>, request: Option<Api.Call>, registered: bool)

  /** The local checks, mismatch first. */
  predicate PasswordsAcceptable(f: Form)
  {
    f.password == f.confirm && |f.password| >= MinPasswordLength
  }

  /** The registration error: an `Error`'s message, a thrown string itself,
      or the fixed fallback. */
  function ErrorMessage(t: Thrown): (m: string)
    ensures t.ErrorObject? ==> m == t.message
    ensures t.ThrownString? ==> m == t.text
    ensures t.OtherValue? ==> m == RegisterFallback
  {
    match t
    case ErrorObject(msg) => msg
    case ThrownString(text) => text
    case OtherValue => RegisterFallback
  }

  /** The registration page shares the login and edit pages' error rule,
      except that a thrown string is shown rather than replaced by the
      fallback. */
  lemma ErrorMessageExtendsMessageOr(t: Thrown)
    ensures ErrorMessage(t) == (if t.ThrownString? then t.text else MessageOr(t, RegisterFallback))
  {
  }

  /** `handleSubmit` once the upload (if any) and the registration call have
      settled. `upload` is read only when a photo is selected. */
  function HandleSubmit(f: Form, upload: Outcome<string>, server: Outcome<RegisterResponse>): (s: Step)
    ensures !s.loading && !s.uploading
    ensures f.password != f.confirm ==> s == Step(MismatchError, false, false, None, None, false)
    ensures f.password == f.confirm && |f.password| < MinPasswordLength ==>
      s == Step(ShortPasswordError, false, false, None, None, false)
    ensures PasswordsAcceptable(f) ==>
      && s.uploadAttempt == f.photo
      && s.request == Some(Api.Register(Api.RegisterData(f.username, f.nombre, f.password,
           if f.photo.Some? && upload.Ok? then Some(upload.value) else None)))
    ensures s.registered <==> PasswordsAcceptable(f) && server.Ok?
    ensures PasswordsAcceptable(f) && server.Err? ==> s.error == ErrorMessage(server.thrown)
    ensures PasswordsAcceptable(f) && server.Ok? ==>
      s.error == (if f.photo.Some? && upload.Err? then UploadWarning else "")
  {
    if f.password != f.confirm then Step(MismatchError, false, false, None, None, false)
    else if |f.password| < MinPasswordLength then Step(ShortPasswordError, false, false, None, None, false)
    else
      var key: Option<string> := if f.photo.Some? && upload.Ok? then Some(upload.value) else None;
      var warning := if f.photo.Some? && upload.Err? then UploadWarning else "";
      var request := Api.Register(Api.RegisterData(f.username, f.nombre, f.password, key));
      match server
      case Ok(_) => Step(warning, false, false, f.photo, Some(request), true)
      case Err(t) => Step(ErrorMessage(t), false, false, f.photo, Some(request), false)
  }

  /** Nothing is uploaded or sent unless both checks pass. */
  lemma ChecksGateEverything(f: Form, upload: Outcome<string>, server: Outcome<RegisterResponse>)
    ensures var s := HandleSubmit(f, upload, server);
      (s.request.Some? || s.uploadAttempt.Some?) ==> PasswordsAcceptable(f)
  {
  }

  /** A failed upload registers the same account a submit without a photo
      would, only without a key. */
  lemma UploadFailureIsNonFatal(f: Form, t: Thrown, anyUpload: Outcome<string>, server: Outcome<RegisterResponse>)
    requires PasswordsAcceptable(f)
    ensures HandleSubmit(f, Err(t), server).request == HandleSubmit(f.(photo := None), anyUpload, server).request
    ensures HandleSubmit(f, Err(t), server).registered == server.Ok?
  {
  }

  /** The submit button is disabled. */
  predicate SubmitDisabled(loading: bool, uploading: bool, f: Form)
  {
    loading || uploading || f.password != f.confirm
  }

  /** An enabled button never stops at the mismatch check: the submit is
      either refused for a short password or sent. */
  lemma EnabledPassesMismatchCheck(f: Form, upload: Outcome<string>, server: Outcome<RegisterResponse>)
    requires !SubmitDisabled(false, false, f)
    ensures var s := HandleSubmit(f, upload, server);
      s.request.Some? || s.error == ShortPasswordError
  {
  }

  /** `username ? getDefaultProfileImage(username) : getDefaultProfileImage()`. */
  function DefaultImage(encode: string -> string, username: string): string
  {
    if username != "" then ProfileImage.DefaultProfileImage(encode, Some(username))
    else ProfileImage.DefaultProfileImage(encode, None)
  }

  /** The branch is redundant: the avatar is always the one seeded by the
      username, which itself falls back to 'default' when empty. */
  lemma DefaultImageSeededByUsername(encode: string -> string, username: string)
    ensures DefaultImage(encode, username) == ProfileImage.DefaultProfileImage(encode, Some(username))
    ensures username == "" ==> DefaultImage(encode, username) == ProfileImage.DefaultProfileImage(encode, Some("default"))
  {
  }

  /** `profileImagePreview || defaultImage`. */
  function DisplayImage(encode: string -> string, f: Form): (r: string)
    ensures f.preview != "" ==> r == f.preview
    ensures f.preview == "" ==> r == ProfileImage.DefaultProfileImage(encode, Some(f.username))
  {
    DefaultImageSeededByUsername(encode, f.username);
    StringOr(f.preview, DefaultImage(encode, f.username))
  }
}

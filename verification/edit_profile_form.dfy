/** src/components/EditProfileForm.tsx: the profile-edit form. Submitting
    uploads the selected photo first; an upload failure is downgraded to an
    alert and the remaining fields are still handed to `onSave`. */
module EditProfileForm {
  import opened Js
  import opened Types
  import ProfileImage

  /** The form state. `preview` is the data URL the file reader produced. */
  datatype Form = Form(
    usernameNuevo: string, nombre: string, passwordConfirm: string,
    photo: Option<FileInfo>, preview: string, uploading: bool)

  /** The fields start from the user's current values, with no password and
      no photo. */
  function InitialForm(user: User): (f: Form)
    ensures f.usernameNuevo == user.username && f.nombre == user.nombreCompleto
    ensures f.passwordConfirm == "" && f.photo == None && f.preview == "" && !f.uploading
  {
    Form(user.username, user.nombreCompleto, "", None, "", false)
  }

  /** `handleImageSelect(file)`; the preview arrives later from the reader. */
  function SelectImage(f: Form, file: FileInfo): Form
  {
    f.(photo := Some(file))
  }

  /** The record handed to `onSave`. `fotoPerfilKey` is `None` both when it
      is `undefined` and when it is left out. */
  datatype SaveData = SaveData(
    username: string, usernameNuevo: string, nombreCompleto: string,
    passwordConfirm: string, fotoPerfilKey: Option<string>)

  /** What a submit did: the record saved, the file it tried to upload, and
      whether the upload-failure alert was shown. */
  datatype SubmitStep = SubmitStep(data: SaveData, uploadAttempt: Option<FileInfo>, alerted: bool, form: Form)

  /** `handleSubmit` once the upload (if any) has settled; `upload` is the
      settled `uploadProfileImage(photo)` and is read only when a photo is
      selected. `onSave` is called exactly once either way. */
  function HandleSubmit(user: User, f: Form, upload: Outcome<string>): (s: SubmitStep)
    ensures s.uploadAttempt == f.photo
    ensures s.data.username == user.username
    ensures s.data.usernameNuevo == f.usernameNuevo && s.data.nombreCompleto == f.nombre
    ensures s.data.passwordConfirm == f.passwordConfirm
    ensures s.data.fotoPerfilKey.Some? <==> f.photo.Some? && upload.Ok?
    ensures s.data.fotoPerfilKey.Some? ==> s.data.fotoPerfilKey.value == upload.value
    ensures s.alerted <==> f.photo.Some? && upload.Err?
    ensures s.form == f.(uploading := false)
  {
    var fields := SaveData(user.username, f.usernameNuevo, f.nombre, f.passwordConfirm, None);
    match f.photo
    case None => SubmitStep(fields, None, false, f.(uploading := false))
    case Some(file) =>
      match upload
      case Ok(key) => SubmitStep(fields.(fotoPerfilKey := Some(key)), f.photo, false, f.(uploading := false))
      case Err(_) => SubmitStep(fields, f.photo, true, f.(uploading := false))
  }

  /** A failed upload saves exactly what a submit without a photo saves. */
  lemma UploadFailureIsNonFatal(user: User, f: Form, t: Thrown, anyUpload: Outcome<string>)
    ensures HandleSubmit(user, f, Err(t)).data == HandleSubmit(user, f.(photo := None), anyUpload).data
  {
  }

  /** `hasChanges`. */
  predicate HasChanges(user: User, f: Form)
  {
    f.usernameNuevo != user.username || f.nombre != user.nombreCompleto || f.photo.Some?
  }

  /** The submit button is enabled. */
  predicate SubmitEnabled(user: User, f: Form)
  {
    HasChanges(user, f) && f.passwordConfirm != "" && !f.uploading
  }

  /** A fresh form has no changes and cannot be submitted, and selecting a
      photo is a change. */
  lemma ChangeTracking(user: User, f: Form, file: FileInfo)
    ensures !HasChanges(user, InitialForm(user)) && !SubmitEnabled(user, InitialForm(user))
    ensures HasChanges(user, SelectImage(f, file))
  {
  }

  /** `profileImagePreview || getProfileImageUrl(user)`. */
  function DisplayImageUrl(base: string, encode: string -> string, user: User, f: Form): (r: string)
    ensures f.preview != "" ==> r == f.preview
    ensures f.preview == "" ==> r == ProfileImage.ProfileImageUrl(base, encode, Some(user))
  {
    StringOr(f.preview, ProfileImage.ProfileImageUrl(base, encode, Some(user)))
  }
}

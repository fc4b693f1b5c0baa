/** src/pages/profile/edit.tsx: the profile-edit page's save handler. It
    refuses locally without a password; otherwise it sends the update for the
    session user and, on success, merges the submitted fields into the
    session user with `||` fallbacks. */
module EditProfilePage {
  import opened Js
  import opened Types
  import Api
  import EditProfileForm

  const PasswordRequired := "Debes ingresar tu contraseña para confirmar los cambios"
  const UpdateFallback := "Error al actualizar el perfil. Verifica tu contraseña."

  /** The session user as this page sees it, the error text and the loading
      flag. */
  datatype Page = Page(user: User, error: string, loading: bool)

  datatype UpdateResponse = UpdateResponse(msg: string)

  datatype SaveStep = SaveStep(page: Page, request: Option<Api.Call>)

  /** The updated session user: each submitted field replaces the old one
      unless it is empty; the balance and the id are never touched. */
  function Merge(user: User, data: EditProfileForm.SaveData): (u: User)
    ensures data.usernameNuevo != "" ==> u.username == data.usernameNuevo
    ensures data.usernameNuevo == "" ==> u.username == user.username
    ensures data.nombreCompleto != "" ==> u.nombreCompleto == data.nombreCompleto
    ensures data.nombreCompleto == "" ==> u.nombreCompleto == user.nombreCompleto
    ensures TruthyOpt(data.fotoPerfilKey) ==> u.fotoPerfilS3 == data.fotoPerfilKey
    ensures !TruthyOpt(data.fotoPerfilKey) ==> u.fotoPerfilS3 == user.fotoPerfilS3
    ensures u.saldo == user.saldo && u.idUsuario == user.idUsuario
  {
    user.(
      username := StringOr(data.usernameNuevo, user.username),
      nombreCompleto := StringOr(data.nombreCompleto, user.nombreCompleto),
      fotoPerfilS3 := if TruthyOpt(data.fotoPerfilKey) then data.fotoPerfilKey else user.fotoPerfilS3)
  }

  /** `handleSave(data)` once the update call has settled. */
  function HandleSave(p: Page, data: EditProfileForm.SaveData, outcome: Outcome<UpdateResponse>): (s: SaveStep)
    ensures !s.page.loading
    ensures data.passwordConfirm == "" ==> s == SaveStep(Page(p.user, PasswordRequired, false), None)
    ensures data.passwordConfirm != "" ==>
      s.request == Some(Api.UpdateProfile(Api.UpdateProfileData(
        p.user.username, data.passwordConfirm, Some(data.usernameNuevo), Some(data.nombreCompleto),
        data.fotoPerfilKey)))
    ensures data.passwordConfirm != "" && outcome.Ok? ==> s.page.user == Merge(p.user, data) && s.page.error == ""
    ensures data.passwordConfirm != "" && outcome.Err? ==>
      s.page.user == p.user && s.page.error == MessageOr(outcome.thrown, UpdateFallback)
  {
    if data.passwordConfirm == "" then SaveStep(Page(p.user, PasswordRequired, false), None)
    else
      var request := Api.UpdateProfile(Api.UpdateProfileData(
        p.user.username, data.passwordConfirm, Some(data.usernameNuevo), Some(data.nombreCompleto),
        data.fotoPerfilKey));
      match outcome
      case Ok(_) => SaveStep(Page(Merge(p.user, data), "", false), Some(request))
      case Err(t) => SaveStep(Page(p.user, MessageOr(t, UpdateFallback), false), Some(request))
  }

  /** Merging an unchanged form's fields changes nothing. */
  lemma MergeUnchangedIsIdentity(user: User)
    ensures Merge(user, EditProfileForm.SaveData(user.username, user.username, user.nombreCompleto, "x", None)) == user
  {
  }

  /** Form and page together: with a photo whose upload fails, the new name
      still reaches the server and the session, and the old photo stays. */
  lemma PhotoFailureStillSavesName(user: User, f: EditProfileForm.Form, t: Thrown, ok: UpdateResponse)
    requires f.photo.Some? && f.passwordConfirm != "" && f.nombre != ""
    ensures var data := EditProfileForm.HandleSubmit(user, f, Err(t)).data;
      var s := HandleSave(Page(user, "", false), data, Ok(ok));
      && s.request.Some?
      && s.page.user.nombreCompleto == f.nombre
      && s.page.user.fotoPerfilS3 == user.fotoPerfilS3
      && s.page.user.saldo == user.saldo
  {
  }

  /** An enabled submit never stops at the password gate. */
  lemma EnabledSubmitSendsRequest(user: User, f: EditProfileForm.Form, upload: Outcome<string>,
                                  outcome: Outcome<UpdateResponse>)
    requires EditProfileForm.SubmitEnabled(user, f)
    ensures HandleSave(Page(user, "", false), EditProfileForm.HandleSubmit(user, f, upload).data, outcome).request.Some?
  {
  }

  /** Form and page together: what the form still counts as a change once the
      save has gone through and the session user is the merged one. The
      fields are not reset, so a non-empty field now matches the session; an
      emptied field fell back to the old value and still differs; and the
      selected photo is never cleared, so a form with a photo keeps reporting
      a change whatever the upload did. Without a password nothing was saved
      and the changes are those before the submit. */
  lemma ChangesAfterSave(user: User, f: EditProfileForm.Form, upload: Outcome<string>, ok: UpdateResponse)
    ensures var submitted := EditProfileForm.HandleSubmit(user, f, upload);
      var saved := HandleSave(Page(user, "", false), submitted.data, Ok(ok)).page.user;
      && (f.passwordConfirm == "" ==>
            (EditProfileForm.HasChanges(saved, submitted.form) <==> EditProfileForm.HasChanges(user, f)))
      && (f.passwordConfirm != "" ==>
            (EditProfileForm.HasChanges(saved, submitted.form) <==>
               || f.photo.Some?
               || (f.usernameNuevo == "" && user.username != "")
               || (f.nombre == "" && user.nombreCompleto != "")))
  {
  }
}

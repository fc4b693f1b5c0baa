/** src/pages/profile.tsx: the profile page. It loads the profile of the
    session user, tops up the balance (updating both the loaded profile and
    the session user with the server's figure) and chooses the avatar. */
module ProfilePage {
  import opened Js
  import opened Types
  import Api
  import ProfileImage
  import TopupForm

  /** The page state: the loaded profile (if any) and the loading flag. */
  datatype View = View(profile: Option<User>, loading: bool)

  /** The view once the profile request has settled, and the request sent
      (`None` when there is no session user). */
  datatype LoadStep = LoadStep(view: View, request: Option<Api.Call>)

  /** The `[user]` effect once `getProfile` has settled. It runs on mount and
      again after every change of the session user (a top-up replaces it), so
      it starts from the current view: a fetched profile replaces the held
      one, and a failed fetch keeps whatever was held before. With no
      session user it fetches nothing and changes nothing. */
  function LoadProfile(v: View, user: Option<User>, fetched: Outcome<User>): (s: LoadStep)
    ensures user.None? ==> s == LoadStep(v, None)
    ensures user.Some? ==> s.request == Some(Api.GetProfile(user.value.username)) && !s.view.loading
    ensures user.Some? && fetched.Ok? ==> s.view.profile == Some(fetched.value)
    ensures user.Some? && fetched.Err? ==> s.view.profile == v.profile
  {
    match user
    case None => LoadStep(v, None)
    case Some(u) =>
      LoadStep(View(if fetched.Ok? then Some(fetched.value) else v.profile, false), Some(Api.GetProfile(u.username)))
  }

  /** The first load decides whether a profile is held at all: exactly when
      the fetch succeeded. */
  lemma FirstLoadShowsProfileIffFetched(user: User, fetched: Outcome<User>)
    ensures LoadProfile(View(None, true), Some(user), fetched).view.profile.Some? <==> fetched.Ok?
  {
  }

  datatype TopupResponse = TopupResponse(saldo: real)

  /** The loaded profile and the session user after a top-up, and the
      request sent. */
  datatype TopupStep = TopupStep(profile: User, user: User, request: Api.Call)

  /** `handleTopup(monto)` once the top-up call has settled. It is reachable
      only with a loaded profile (the form renders only then); it catches
      every failure, so it never throws to the form. */
  function HandleTopup(user: User, profile: User, monto: real, outcome: Outcome<TopupResponse>): (s: TopupStep)
    ensures s.request == Api.Topup(Api.TopupData(user.username, monto))
    ensures outcome.Ok? ==> s.profile == profile.(saldo := outcome.value.saldo)
    ensures outcome.Ok? ==> s.user == user.(saldo := outcome.value.saldo)
    ensures outcome.Err? ==> s.profile == profile && s.user == user
  {
    var request := Api.Topup(Api.TopupData(user.username, monto));
    match outcome
    case Ok(result) => TopupStep(profile.(saldo := result.saldo), user.(saldo := result.saldo), request)
    case Err(_) => TopupStep(profile, user, request)
  }

  /** A confirmed top-up replaces the session user, so the `[user]` effect
      fetches the profile again, for the same username. If that fetch fails
      the page keeps the loaded profile with the server's new balance; if it
      succeeds the fetched profile is held. The balance never becomes the
      old balance plus the amount unless the server says so. */
  lemma TopupThenRefetch(v: View, user: User, profile: User, monto: real,
                         result: TopupResponse, refetched: Outcome<User>)
    requires v.profile == Some(profile)
    ensures var t := HandleTopup(user, profile, monto, Ok(result));
      var s := LoadProfile(View(Some(t.profile), false), Some(t.user), refetched);
      && t.user.saldo == result.saldo
      && s.request == Some(Api.GetProfile(user.username))
      && (refetched.Err? ==> s.view.profile == Some(profile.(saldo := result.saldo)))
      && (refetched.Ok? ==> s.view.profile == Some(refetched.value))
  {
  }

  /** The form and the page together: a valid amount reaches the server for
      the session user, and since the page's handler never throws the input
      is cleared. A refused amount sends nothing. */
  lemma FormDrivesTopup(f: TopupForm.Form, toNumber: string -> JsNumber, user: User, profile: User,
                        outcome: Outcome<TopupResponse>)
    ensures var fs := TopupForm.HandleTopup(f, toNumber, false);
      match TopupForm.Validate(f.monto, toNumber(f.monto))
      case Accept(a) =>
        && fs.call == Some(a) && fs.form.monto == ""
        && HandleTopup(user, profile, a, outcome).request == Api.Topup(Api.TopupData(user.username, a))
      case Reject(_) => fs.call == None && fs.form == f
  {
  }

  /** The avatar: from the loaded profile when there is one, else the
      default avatar seeded by the session username. */
  function AvatarUrl(base: string, encode: string -> string, profile: Option<User>, user: User): (r: string)
    ensures profile.Some? ==> r == ProfileImage.ProfileImageUrl(base, encode, profile)
    ensures profile.None? ==> r == ProfileImage.DefaultProfileImage(encode, Some(user.username))
  {
    if profile.Some? then ProfileImage.ProfileImageUrl(base, encode, profile)
    else ProfileImage.DefaultProfileImage(encode, Some(user.username))
  }

  /** Until the profile has loaded, the session user's own photo is not
      used: the avatar is the generated one. */
  lemma AvatarIgnoresSessionPhoto(base: string, encode: string -> string, user: User, key: string)
    requires user.fotoPerfilS3 == Some(key)
    ensures AvatarUrl(base, encode, None, user)
         == AvatarUrl(base, encode, None, user.(fotoPerfilS3 := None))
  {
  }
}

/** src/pages/index.tsx: the gallery page. The catalogue load and the
    purchase are transitions of the page state, driven by the settled server
    outcome. On a confirmed purchase the balance is the server's value and
    the bought artwork is marked sold in place. */
module GalleryPage {
  import opened Js
  import opened Types
  import Api
  import GalleryItem

  const LoadError := "Error al cargar la galería"

  /** The page's view of the world: the session user, the artwork list, and
      the load status. */
  datatype Page = Page(user: Option<User>, artworks: seq<Artwork>, loading: bool, error: string)

  /** The page as first rendered, with the session's current user. */
  function InitialPage(user: Option<User>): Page
  {
    Page(user, [], true, "")
  }

  /** The page after an event or effect, and the request it sent (if any). */
  datatype Step = Step(page: Page, request: Option<Api.Call>)

  /** `loadGallery()` once `getGallery()` has settled. The catalogue is
      requested whether or not anyone is logged in. */
  function LoadGallery(p: Page, fetched: Outcome<seq<Artwork>>): (s: Step)
    ensures s.request == Some(Api.GetGallery)
    ensures !s.page.loading && s.page.user == p.user
    ensures fetched.Ok? ==> s.page.artworks == fetched.value && s.page.error == ""
    ensures fetched.Err? ==> s.page.artworks == p.artworks && s.page.error == LoadError
  {
    match fetched
    case Ok(data) => Step(p.(artworks := data, error := "", loading := false), Some(Api.GetGallery))
    case Err(_) => Step(p.(error := LoadError, loading := false), Some(Api.GetGallery))
  }

  /** The screen the page renders: the spinner while loading, then the
      error with its retry button, and only then the catalogue. */
  datatype Screen = Loading | ErrorScreen(message: string) | Catalogue(artworks: seq<Artwork>)

  function Render(p: Page): (v: Screen)
    ensures v.Loading? <==> p.loading
    ensures v.ErrorScreen? <==> !p.loading && p.error != ""
    ensures v.ErrorScreen? ==> v.message == p.error
    ensures v.Catalogue? ==> v.artworks == p.artworks
  {
    if p.loading then Loading
    else if p.error != "" then ErrorScreen(p.error)
    else Catalogue(p.artworks)
  }

  /** The first load decides what the page holds and shows: the catalogue on
      success; on failure an empty list and the load error, rendered as the
      error screen; never a spinner. */
  lemma FirstLoad(user: Option<User>, fetched: Outcome<seq<Artwork>>)
    ensures fetched.Ok? ==> LoadGallery(InitialPage(user), fetched).page == Page(user, fetched.value, false, "")
    ensures fetched.Err? ==> LoadGallery(InitialPage(user), fetched).page == Page(user, [], false, LoadError)
    ensures fetched.Ok? ==> Render(LoadGallery(InitialPage(user), fetched).page) == Catalogue(fetched.value)
    ensures fetched.Err? ==> Render(LoadGallery(InitialPage(user), fetched).page) == ErrorScreen(LoadError)
  {
  }

  /** Every artwork carrying `id` is marked sold; all others, the length and
      the order are unchanged. */
  function MarkSold(arts: seq<Artwork>, id: int): (r: seq<Artwork>)
    ensures |r| == |arts|
    ensures forall i :: 0 <= i < |arts| && arts[i].idObra == id ==> r[i] == arts[i].(disponible := false)
    ensures forall i :: 0 <= i < |arts| && arts[i].idObra != id ==> r[i] == arts[i]
  {
    if arts == [] then []
    else
      var head := if arts[0].idObra == id then arts[0].(disponible := false) else arts[0];
      [head] + MarkSold(arts[1..], id)
  }

  /** Catalogue ids are unique. */
  predicate UniqueIds(arts: seq<Artwork>)
  {
    forall i, j :: 0 <= i < j < |arts| ==> arts[i].idObra != arts[j].idObra
  }

  /** With unique ids, buying the artwork at `k` flips exactly that one. */
  lemma MarkSoldFlipsOne(arts: seq<Artwork>, k: nat)
    requires k < |arts| && UniqueIds(arts)
    ensures MarkSold(arts, arts[k].idObra)[k] == arts[k].(disponible := false)
    ensures forall i :: 0 <= i < |arts| && i != k ==> MarkSold(arts, arts[k].idObra)[i] == arts[i]
  {
  }

  /** Marking sold never makes anything available again, and is idempotent. */
  lemma MarkSoldMonotone(arts: seq<Artwork>, id: int)
    ensures forall i :: 0 <= i < |arts| && MarkSold(arts, id)[i].disponible ==> arts[i].disponible
    ensures MarkSold(MarkSold(arts, id), id) == MarkSold(arts, id)
  {
    var once := MarkSold(arts, id);
    var twice := MarkSold(once, id);
    assert forall i :: 0 <= i < |arts| ==> twice[i] == once[i];
  }

  datatype PurchaseResponse = PurchaseResponse(msg: string, saldo: real)

  /** `handleBuy(artwork)` once the purchase call has settled. Without a
      session user nothing is sent and nothing changes. */
  function HandleBuy(p: Page, artwork: Artwork, outcome: Outcome<PurchaseResponse>): (s: Step)
    ensures p.user.None? ==> s == Step(p, None)
    ensures p.user.Some? ==> s.request == Some(Api.Purchase(Api.PurchaseData(p.user.value.username, artwork.idObra)))
    ensures p.user.Some? && outcome.Ok? ==>
      && s.page.user == Some(p.user.value.(saldo := outcome.value.saldo))
      && s.page.artworks == MarkSold(p.artworks, artwork.idObra)
    ensures outcome.Err? ==> s.page == p
    ensures s.page.loading == p.loading && s.page.error == p.error
  {
    match p.user
    case None => Step(p, None)
    case Some(u) =>
      var request := Some(Api.Purchase(Api.PurchaseData(u.username, artwork.idObra)));
      match outcome
      case Err(_) => Step(p, request)
      case Ok(result) =>
        Step(p.(user := Some(u.(saldo := result.saldo)), artworks := MarkSold(p.artworks, artwork.idObra)), request)
  }

  /** After a confirmed purchase the bought artwork offers no further buy
      control, and the balance is the server's figure whatever the price. */
  lemma ConfirmedPurchaseIsFinal(p: Page, k: nat, result: PurchaseResponse, onBuyGiven: bool)
    requires p.user.Some? && k < |p.artworks|
    ensures var s := HandleBuy(p, p.artworks[k], Ok(result));
      && !GalleryItem.HasBuyControl(s.page.artworks[k], onBuyGiven)
      && GalleryItem.StatusLabel(s.page.artworks[k]) == GalleryItem.SoldLabel
      && s.page.user.value.saldo == result.saldo
      && s.page.user.value.username == p.user.value.username
  {
  }

  /** Balance 500, buying the piece priced 120, server confirms 380: the
      session balance is 380 and the piece is sold. */
  lemma PurchaseScenario(u: User, art: Artwork)
    requires u.saldo == 500.0 && art.precio == Amount(120.0) && art.disponible
    ensures var s := HandleBuy(Page(Some(u), [art], false, ""), art, Ok(PurchaseResponse("ok", 380.0)));
      s.page.user.value.saldo == 380.0 && s.page.artworks == [art.(disponible := false)]
  {
  }
}

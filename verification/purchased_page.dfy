/** src/pages/profile/purchased.tsx: the purchased-collection page. It
    fetches only with a session user, and summarises the collection: total
    investment (non-numeric prices count as 0), average and plural suffix. */
module PurchasedPage {
  import opened Js
  import opened Types
  import Api

  const LoadError := "Error al cargar las obras adquiridas"

  datatype Page = Page(artworks: seq<Artwork>, loading: bool, error: string)

  datatype LoadStep = LoadStep(page: Page, request: Option<Api.Call>)

  /** The fetch effect once `getPurchasedArtworks` has settled. With no
      session user nothing is fetched and nothing changes. */
  function Load(user: Option<User>, p: Page, fetched: Outcome<seq<Artwork>>): (s: LoadStep)
    ensures user.None? ==> s == LoadStep(p, None)
    ensures user.Some? ==> s.request == Some(Api.GetPurchased(user.value.username)) && !s.page.loading
    ensures user.Some? && fetched.Ok? ==> s.page.artworks == fetched.value && s.page.error == p.error
    ensures user.Some? && fetched.Err? ==> s.page.artworks == p.artworks && s.page.error == LoadError
  {
    match user
    case None => LoadStep(p, None)
    case Some(u) =>
      var request := Some(Api.GetPurchased(u.username));
      match fetched
      case Ok(arts) => LoadStep(Page(arts, false, p.error), request)
      case Err(_) => LoadStep(Page(p.artworks, false, LoadError), request)
  }

  /** `Number(precio) || 0`: NaN (and 0) count as 0. */
  function PriceOrZero(p: Price): real
  {
    match p
    case Amount(v) => v
    case NotANumber => 0.0
  }

  /** The sum of the prices of `arts`, a non-numeric price counting 0. */
  function SumPrices(arts: seq<Artwork>): real
  {
    if arts == [] then 0.0 else SumPrices(arts[..|arts| - 1]) + PriceOrZero(arts[|arts| - 1].precio)
  }

  /** `totalInvestment`: the `reduce` from 0 over the list, left to right. */
  method TotalInvestment(arts: seq<Artwork>) returns (total: real)
    ensures total == SumPrices(arts)
  {
    total := 0.0;
    var i := 0;
    while i < |arts|
      invariant 0 <= i <= |arts|
      invariant total == SumPrices(arts[..i])
    {
      assert arts[..i + 1][..i] == arts[..i];
      total := total + PriceOrZero(arts[i].precio);
      i := i + 1;
    }
    assert arts[..|arts|] == arts;
  }

  /** The total splits over concatenation. */
  lemma {:induction false} SumPricesAppend(a: seq<Artwork>, b: seq<Artwork>)
    ensures SumPrices(a + b) == SumPrices(a) + SumPrices(b)
    decreases |b|
  {
    if b == [] {
      assert a + b == a;
    } else {
      var b' := b[..|b| - 1];
      assert (a + b)[..|a + b| - 1] == a + b';
      assert (a + b)[|a + b| - 1] == b[|b| - 1];
      SumPricesAppend(a, b');
    }
  }

  /** Non-numeric prices contribute nothing: removing them keeps the total. */
  lemma {:induction false} NonNumericAddsNothing(a: seq<Artwork>, art: Artwork)
    requires art.precio == NotANumber
    ensures SumPrices(a + [art]) == SumPrices(a)
  {
    assert (a + [art])[..|a + [art]| - 1] == a;
  }

  /** With non-negative prices the total is non-negative and at least every
      single price. */
  lemma {:induction false} TotalBoundsPrices(arts: seq<Artwork>)
    requires forall i :: 0 <= i < |arts| ==> PriceOrZero(arts[i].precio) >= 0.0
    ensures SumPrices(arts) >= 0.0
    ensures forall i :: 0 <= i < |arts| ==> PriceOrZero(arts[i].precio) <= SumPrices(arts)
  {
    if arts != [] {
      var init := arts[..|arts| - 1];
      TotalBoundsPrices(init);
      forall i | 0 <= i < |arts|
        ensures PriceOrZero(arts[i].precio) <= SumPrices(arts)
      {
        if i < |arts| - 1 {
          assert arts[i] == init[i];
        }
      }
    }
  }

  /** `artworks.length !== 1 ? 's' : ''`. */
  function PluralSuffix(n: nat): (r: string)
    ensures r == "s" <==> n != 1
    ensures r == "" <==> n == 1
  {
    if n != 1 then "s" else ""
  }

  /** The collection part of the page for a list: the empty state, or the
      count, total, average and plural suffix. */
  datatype Summary = EmptyState | Stats(count: nat, total: real, average: real, suffix: string)

  /** The average is computed only for a non-empty list, so never with a
      zero divisor. */
  function Summarize(arts: seq<Artwork>): (s: Summary)
    ensures s.EmptyState? <==> |arts| == 0
    ensures s.Stats? ==> s.count == |arts| && s.total == SumPrices(arts)
    ensures s.Stats? ==> s.average * (|arts| as real) == s.total
    ensures s.Stats? ==> (s.suffix == "" <==> |arts| == 1) && (s.suffix == "s" <==> |arts| != 1)
  {
    if |arts| == 0 then EmptyState
    else Stats(|arts|, SumPrices(arts), SumPrices(arts) / (|arts| as real), PluralSuffix(|arts|))
  }

  /** The summary of the list the page holds after the fetch effect: on
      success exactly the fetched collection (its count and total), the empty
      state for an empty one; without a user or on failure the summary of
      the list held before. Which screen is rendered is `LoadedScreen`'s
      concern. */
  lemma LoadedSummary(user: Option<User>, p: Page, fetched: Outcome<seq<Artwork>>)
    ensures var held := Summarize(Load(user, p, fetched).page.artworks);
      && (user.Some? && fetched.Ok? && fetched.value == [] ==> held == EmptyState)
      && (user.Some? && fetched.Ok? && fetched.value != [] ==>
            held.Stats? && held.count == |fetched.value| && held.total == SumPrices(fetched.value))
      && (user.None? || fetched.Err? ==> held == Summarize(p.artworks))
  {
  }

  /** The screen the page renders, in the order of its early returns: the
      access screen without a session user, then the spinner, then the error
      screen, and only then the collection. */
  datatype Screen = AccessRequired | Loading | ErrorScreen(message: string) | Collection(summary: Summary)

  function Render(user: Option<User>, p: Page): (v: Screen)
    ensures v.AccessRequired? <==> user.None?
    ensures v.Loading? <==> user.Some? && p.loading
    ensures v.ErrorScreen? <==> user.Some? && !p.loading && p.error != ""
    ensures v.ErrorScreen? ==> v.message == p.error
    ensures v.Collection? ==> v.summary == Summarize(p.artworks)
  {
    if user.None? then AccessRequired
    else if p.loading then Loading
    else if p.error != "" then ErrorScreen(p.error)
    else Collection(Summarize(p.artworks))
  }

  /** What the page shows once the fetch effect has settled. Without a user
      it asks for a login; a failure shows the load error; a success shows
      the fetched collection only if no earlier error is held, because the
      success path never clears `error`. */
  lemma LoadedScreen(user: Option<User>, p: Page, fetched: Outcome<seq<Artwork>>)
    ensures var held := Render(user, Load(user, p, fetched).page);
      && (user.None? ==> held == AccessRequired)
      && (user.Some? && fetched.Err? ==> held == ErrorScreen(LoadError))
      && (user.Some? && fetched.Ok? && p.error == "" ==> held == Collection(Summarize(fetched.value)))
      && (user.Some? && fetched.Ok? && p.error != "" ==> held == ErrorScreen(p.error))
  {
  }

  /** After a failed fetch, a later successful one (the effect re-runs
      whenever the session user changes) still shows the error screen, never
      the collection. */
  lemma StaleErrorHidesCollection(u: User, u': User, p: Page, t: Thrown, arts: seq<Artwork>)
    ensures var failed := Load(Some(u), p, Err(t)).page;
      Render(Some(u'), Load(Some(u'), failed, Ok(arts)).page) == ErrorScreen(LoadError)
  {
  }
}

# Art storefront client — a Dafny model

This project models the client side of an art storefront, written in
TypeScript with Next.js and React. Visitors browse a gallery of artworks and
log in or register, optionally with a profile photo. A logged-in user can
buy an available artwork with their balance, top the balance up, edit their
profile and see their purchased collection.

The model covers the decision logic:

- the API client (`src/lib/api.ts`): request URLs, headers, the HTTP error
  rule, the endpoint table and the two-step photo upload;
- the profile-image helpers (`src/lib/profileImageUtils.ts`);
- the storage helpers (`src/lib/auth.ts`) and the session store
  (`src/context/AuthContext.tsx`);
- the event handlers and derived values of the components and pages.

Every page event and every data-loading effect is modelled as a pure
function. It takes the state it starts from (the page state, or for an
effect the current view and the session user) and the settled outcome of
the network call (`Js.Outcome`: the resolved value or what was thrown). It
returns the next state together with the request sent (`Api.Call`; `None`
when nothing was sent). Effects that React re-runs after a handler, such as
the profile page's re-fetch after a top-up, are composed with that handler
in lemmas (`ProfilePage.TopupThenRefetch`, `AuthContext.Mount`).

Opaque runtime pieces become parameters of the functions that use them:

- `encodeURIComponent` is `encode`;
- `Number(...)` is `toNumber`, returning a `Js.JsNumber` with NaN and the
  infinities;
- `Date.now()` is `timestamp`;
- the `Math.random` suffix is `token`;
- `JSON.stringify` / `JSON.parse` of a user are an `AuthStorage.Codec`.
  `AuthStorage.RoundTrips(c, u)` states that the codec gives the saved user
  `u` back. It is a premise about one user, not about every user: the
  runtime's numbers are doubles, so a balance that is not a double would not
  survive the trip.

Money is a mathematical `real`.

One module per source file; `Js`, `Types`, `Strings` and `Decimal` are the
shared vocabulary (JavaScript truthiness and comparisons, the records of
`src/types/index.d.ts`, string operations, decimal rendering of status
codes and timestamps).

## Model

| member | source | states |
|---|---|---|
| Api.ApiBase | src/lib/api.ts:5 | the base address is the configured one with every trailing slash removed: a prefix of it, followed only by slashes, and never ending in `/` |
| Api.RequestUrl | src/lib/api.ts:51 | the URL starts with the base, a `/` follows the base, and the path ends the URL; exactly one `/` is added, and only when the path lacks one |
| Api.OneSlashAtJoin | src/lib/api.ts:5-51 | a normalised base joined to a path with a single leading slash has exactly one slash at the join |
| Api.MergeHeaders | src/lib/api.ts:53-59 | the headers are the caller's keys plus `Content-Type`; each caller value wins, and `application/json` stays only when the caller gave no `Content-Type` |
| Api.Path | src/lib/api.ts:68-96 | each call goes to its endpoint's path (`/auth/login`, `/auth/register`, `/gallery`, `/profile/purchased?username=…`, `/purchase`, `/profile/me?username=…`, `/profile`, `/profile/topup`, `/s3/presign`), the two reads' query ending with the encoded username; every path starts with `/` and only those two reads carry a query |
| Api.PathDeterminesEndpoint | src/lib/api.ts:68-96 | no two endpoints share a path, whatever usernames the reads carry |
| Api.Method | src/lib/api.ts:68-96 | the method is GET exactly for the three reads, PUT exactly for the profile update, and POST otherwise |
| Api.BuildRequest | src/lib/api.ts:68-96 | each endpoint's request is the base plus its path, with only the JSON content type, and uses the verb `Method` chose; it is a GET exactly for the gallery, purchased-list and profile reads and a PUT exactly for the profile update |
| Api.HttpErrorMessage | src/lib/api.ts:60-63 | the error message starts with `HTTP <status> <statusText>`; the ` – <body>` tail is present exactly when the body is not empty, and the length leaves room for nothing else |
| Api.HttpErrorCarriesStatus | src/lib/api.ts:60-63 | the status code can be read back out of every HTTP error message |
| Api.ApiFetch | src/lib/api.ts:50-65 | a transport failure propagates unchanged, a non-2xx status throws the HTTP error (an unreadable body counts as empty), and a 2xx status yields the decoded body or its decode failure |
| Api.ErrorStatusNeverSucceeds | src/lib/api.ts:60-63 | a non-2xx response never yields a value, and the `Error` it throws names its status |
| Api.FileExtension | src/lib/api.ts:125 | the extension is the text after the last `.`, never empty and dot-free; a name without a dot is its own extension; an empty name or a trailing dot gives `jpg`; any other name keeps the text after its last dot |
| Api.UploadFilename | src/lib/api.ts:123-126 | the generated name is exactly `profile_<timestamp>_<token>.` followed by the file's extension, with nothing in between |
| Api.FilenameCarriesTimestamp | src/lib/api.ts:123-126 | the timestamp can be read back from every generated name |
| Api.FilenamesDifferByTimestamp | src/lib/api.ts:123-126 | uploads started at different times get different names, whatever their tokens and original names |
| Api.UploadFileToS3 | src/lib/api.ts:101-114 | the PUT succeeds exactly on a 2xx status; a transport failure propagates, and a refused PUT throws `Error uploading file: <status> <statusText>` |
| Api.UploadProfileImage | src/lib/api.ts:119-149 | the presign request names the `profiles` folder, the generated filename and the file's type; the PUT goes to the presigned URL only after a successful presign; the result is the storage key exactly when both steps succeed, and otherwise the first failure |
| Api.UploadReturnsKey | src/lib/api.ts:139-144 | a successful upload returns the key from the presign response |
| AuthStorage.SaveUser | src/lib/auth.ts:3-5 | saving writes the stringified user under `user` and leaves every other key as it was |
| AuthStorage.GetUser | src/lib/auth.ts:7-10 | an absent or empty value and a stored `null` read as no user; a parsed user is returned; a malformed value makes the read throw, in both directions |
| AuthStorage.ClearUser | src/lib/auth.ts:12-14 | clearing removes only the `user` key |
| AuthStorage.SaveThenGet | src/lib/auth.ts:3-10 | when the codec round-trips the saved user, what was saved is what is read back |
| AuthStorage.ClearThenGet | src/lib/auth.ts:7-14 | after clearing, no user is read |
| AuthStorage.SaveOverwrites | src/lib/auth.ts:3-5 | a later save replaces an earlier one completely |
| AuthContext.Persist | src/context/AuthContext.tsx:34-40 | after the persistence effect, storage mirrors the user: the key is present exactly when someone is logged in, and other keys are untouched |
| AuthContext.Restore | src/context/AuthContext.tsx:21-31 | an absent, empty or `null` stored value restores nobody and keeps storage; a corrupt value is removed and restores nobody; a value that parses to a user is adopted with storage kept, and only such a value restores anyone |
| AuthContext.Mount | src/context/AuthContext.tsx:17-40 | after mounting, storage mirrors the restored user and other keys are untouched |
| AuthContext.SetUser | src/context/AuthContext.tsx:34-40 | after `setUser`, the session holds the new user and storage mirrors it |
| AuthContext.Logout | src/context/AuthContext.tsx:42-45 | after logout nobody is logged in, the key is gone and other keys are untouched |
| AuthContext.LogoutIdempotent | src/context/AuthContext.tsx:42-45 | logging out twice is logging out once |
| AuthContext.LogoutIsSetNull | src/context/AuthContext.tsx:34-45 | logging out leaves the same session as `setUser(null)` |
| AuthContext.LastWriteWins | src/context/AuthContext.tsx:34-40 | two `setUser` calls leave the state the second alone would |
| AuthContext.ReloadAfterLogout | src/context/AuthContext.tsx:21-45 | a reload after logout finds nobody logged in |
| AuthContext.CorruptValueLogsOut | src/context/AuthContext.tsx:21-31 | a corrupt stored user mounts as logged out, with the key removed |
| AuthContext.ReloadRestoresUser | src/context/AuthContext.tsx:21-40 | when the codec round-trips `u`, a reload after `setUser(u)` restores `u`; after `setUser(null)` it restores no user |
| AuthContext.GetUserSeesSession | src/lib/auth.ts:7-10 | when the codec round-trips the user, the storage helper reads back exactly the user the session store last set (or no user after a logout) |
| ProfileImage.ImageBaseUrl | src/lib/profileImageUtils.ts:4 | the configured image base is used when it is not empty, otherwise `http://localhost:5000` |
| ProfileImage.DefaultProfileImage | src/lib/profileImageUtils.ts:30-33 | the avatar URL is the avatar-service prefix, the encoded seed and the background suffix; the seed is `default` when absent or empty |
| ProfileImage.DefaultAvatarSeedFallback | src/lib/profileImageUtils.ts:30-33 | an absent seed and an empty seed both give the avatar seeded `default` |
| ProfileImage.DefaultAvatarDeterminedBySeed | src/lib/profileImageUtils.ts:30-33 | two avatar URLs are equal exactly when their encoded seeds are |
| ProfileImage.ProfileImageUrl | src/lib/profileImageUtils.ts:10-25 | without a photo the URL is the avatar seeded by the username; an `http` key is used as is; any other key is served under the base with the first `Fotos_Publicadas/` removed |
| ProfileImage.PublishedKeyServedByName | src/lib/profileImageUtils.ts:21-22 | a key under the published folder is served as the base, `/`, and its bare name |
| ProfileImage.PlainKeyServedAsIs | src/lib/profileImageUtils.ts:21-22 | a key not containing the folder is served unchanged under the base |
| ProfileImage.ValidateImageFile | src/lib/profileImageUtils.ts:38-58 | a file is valid exactly when its type is JPEG, PNG, GIF or WebP and its size is at most 5 MiB; the type error takes precedence over the size error |
| ProfileImage.SizeBoundary | src/lib/profileImageUtils.ts:49-55 | exactly 5 MiB passes and one byte more fails with the size error |
| GalleryItem.ImageBase | src/components/GalleryItem.tsx:5 | the configured image base is used when it is not empty, otherwise `http://localhost:5000/images` |
| GalleryItem.GetImageUrl | src/components/GalleryItem.tsx:8-19 | no URL for a missing or empty name; an `http` name is used as is; any other name is served under the base with all its leading slashes dropped |
| GalleryItem.ArtImageUrl | src/components/GalleryItem.tsx:21 | an artwork has an image URL exactly when its image key is not empty |
| GalleryItem.HasBuyControl | src/components/GalleryItem.tsx:103-111 | the buy control is rendered for an available artwork when a handler is given |
| GalleryItem.StatusLabel | src/components/GalleryItem.tsx:91-99 | the badge reads sold exactly when the artwork is not available, and available exactly when it is |
| GalleryItem.SoldNeverBuyable | src/components/GalleryItem.tsx:91-111 | a sold artwork never shows a buy control and is labelled sold; an available one shows it exactly when a handler is given |
| GalleryItem.LeadingSlashesCollapse | src/components/GalleryItem.tsx:17-18 | a name behind any number of leading slashes, none included, is served under the base with exactly one slash at the join |
| GalleryPage.FirstLoad | src/pages/index.tsx:8-31 | the page's first load ends loading either way; on success it holds and renders the catalogue; on failure it holds an empty list and the load error and renders the error screen |
| GalleryPage.Render | src/pages/index.tsx:67-88 | the spinner exactly while loading, then the error screen exactly when an error is held, otherwise the held catalogue |
| GalleryPage.LoadGallery | src/pages/index.tsx:13-31 | the gallery is requested whatever the session; a successful load holds the fetched artworks and clears the error; a failure keeps the list and holds the load error; loading ends either way |
| GalleryPage.MarkSold | src/pages/index.tsx:54-60 | marking sold keeps length and order, marks every artwork with that id sold, and leaves all others unchanged |
| GalleryPage.MarkSoldFlipsOne | src/pages/index.tsx:54-60 | with unique ids, buying the artwork at one position flips exactly that one |
| GalleryPage.MarkSoldMonotone | src/pages/index.tsx:54-60 | marking sold never makes an artwork available again, and doing it twice is doing it once |
| GalleryPage.HandleBuy | src/pages/index.tsx:33-65 | without a session user nothing is sent; otherwise the purchase is sent for that user and artwork, and a confirmed purchase sets the balance to the server's figure and marks the artwork sold; a failed one changes nothing |
| GalleryPage.ConfirmedPurchaseIsFinal | src/pages/index.tsx:48-60 | after a confirmed purchase the artwork offers no buy control and reads as sold, and the balance is the server's figure |
| GalleryPage.PurchaseScenario | src/pages/index.tsx:33-65 | a balance of 500, a piece priced 120 and a server balance of 380 leave 380 and the piece sold |
| TopupForm.Validate | src/components/TopupForm.tsx:11-24 | an amount is accepted exactly when the input is not blank and the number is finite, positive and at most 1,000,000; each refusal carries its own alert, in check order |
| TopupForm.HandleTopup | src/components/TopupForm.tsx:7-35 | a refused amount alerts and calls nothing; an accepted one calls the callback once with the amount, and the input is cleared only if the callback did not throw |
| TopupForm.SubmitDisabled | src/components/TopupForm.tsx:82 | the button is disabled while loading, for an empty input, or when the number is at most 0 under JavaScript comparison, which NaN is not |
| TopupForm.AcceptedIsSubmittable | src/components/TopupForm.tsx:82 | every amount the handler accepts can be submitted when idle |
| TopupForm.NaNEnabledButRejected | src/components/TopupForm.tsx:11-19 | a non-numeric input leaves the button enabled, and the handler refuses it without a call |
| TopupForm.CeilingInclusive | src/components/TopupForm.tsx:21-24 | every quick amount passes, the ceiling included; an amount above it is refused with the ceiling alert |
| ProfilePage.LoadProfile | src/pages/profile.tsx:15-27 | with no session user nothing is fetched or changed; otherwise the profile is requested for that user, a fetched profile replaces the held one, a failed fetch keeps the held one, and loading ends either way |
| ProfilePage.FirstLoadShowsProfileIffFetched | src/pages/profile.tsx:12-27 | after the first load the page holds a profile exactly when the fetch succeeded |
| ProfilePage.HandleTopup | src/pages/profile.tsx:54-77 | the top-up is sent for the session user; on success both the loaded profile and the session user take the server's balance, and a failure changes neither |
| ProfilePage.TopupThenRefetch | src/pages/profile.tsx:15-27 | a confirmed top-up replaces the session user, so the profile is fetched again for the same username; a failed re-fetch keeps the loaded profile with the server's new balance, a successful one holds the fetched profile |
| ProfilePage.FormDrivesTopup | src/pages/profile.tsx:54-77 | a valid form amount reaches the server for the session user and the input is cleared, because the page handler never throws; a refused amount sends nothing |
| ProfilePage.AvatarUrl | src/pages/profile.tsx:79 | the avatar comes from the loaded profile when there is one, otherwise from the session username |
| ProfilePage.AvatarIgnoresSessionPhoto | src/pages/profile.tsx:79 | until the profile loads, the session user's own photo does not affect the avatar |
| ImageUpload.HandleFileSelect | src/components/ImageUpload.tsx:23-33 | a file is passed on exactly when the validator accepts it, with the error cleared; otherwise the validator's message is shown |
| ImageUpload.HandleFiles | src/components/ImageUpload.tsx:35-50 | an empty selection changes nothing; otherwise only the first file is handled |
| ImageUpload.OnlyValidFilesSelected | src/components/ImageUpload.tsx:23-50 | whatever reaches the parent is the first file and is valid; a refused file is always explained by the type or size message |
| ImageUpload.DisplayImageUrl | src/components/ImageUpload.tsx:61 | a non-empty preview is shown in place of the current image |
| EditProfileForm.InitialForm | src/components/EditProfileForm.tsx:11-16 | the form starts from the user's current name fields, with no password and no photo |
| EditProfileForm.SelectImage | src/components/EditProfileForm.tsx:18-27 | selecting an image records the file for the next submit; the preview is an input |
| EditProfileForm.HandleSubmit | src/components/EditProfileForm.tsx:29-62 | the save record carries the form's fields; it has a photo key exactly when a photo was selected and its upload succeeded; a failed upload alerts but still saves |
| EditProfileForm.UploadFailureIsNonFatal | src/components/EditProfileForm.tsx:48-58 | a failed upload saves exactly what a submit without a photo saves |
| EditProfileForm.HasChanges | src/components/EditProfileForm.tsx:64-66 | the form has changes when either name field differs from the user's or a photo is selected |
| EditProfileForm.SubmitEnabled | src/components/EditProfileForm.tsx:159 | the save button is enabled with changes, a password and no upload in flight |
| EditProfileForm.ChangeTracking | src/components/EditProfileForm.tsx:64-66 | a fresh form has no changes and cannot be submitted and selecting a photo is a change |
| EditProfileForm.DisplayImageUrl | src/components/EditProfileForm.tsx:68-69 | a non-empty preview wins; otherwise the user's profile image is shown |
| EditProfilePage.Merge | src/pages/profile/edit.tsx:51-59 | each non-empty submitted field replaces the session value and an empty one keeps it; the balance and the id are never touched |
| EditProfilePage.HandleSave | src/pages/profile/edit.tsx:28-74 | without a password nothing is sent and the password error is held; otherwise the update is sent for the session user; success merges the fields, and failure keeps the user and holds the error |
| EditProfilePage.MergeUnchangedIsIdentity | src/pages/profile/edit.tsx:51-59 | submitting the user's own values changes nothing |
| EditProfilePage.PhotoFailureStillSavesName | src/pages/profile/edit.tsx:51-59 | with a failed photo upload, a new name still reaches the server and the session, and the old photo stays |
| EditProfilePage.EnabledSubmitSendsRequest | src/pages/profile/edit.tsx:34-37 | an enabled submit button never stops at the password gate |
| EditProfilePage.ChangesAfterSave | src/components/EditProfileForm.tsx:29-66 | after a save has merged the submitted fields into the session user, the form still reports a change exactly when a photo was selected (it is never cleared) or a field was emptied and fell back to a different old value; without a password the changes are those before the submit |
| RegisterPage.PasswordsAcceptable | src/pages/register.tsx:36-46 | the two password checks pass: the fields match and the password has at least 6 characters |
| RegisterPage.ErrorMessage | src/pages/register.tsx:81-90 | an `Error` shows its message, a thrown string shows itself, and anything else shows the fixed fallback |
| RegisterPage.ErrorMessageExtendsMessageOr | src/pages/register.tsx:81-90 | the registration error rule is the shared `Error`-message-or-fallback rule, except that a thrown string is shown as is |
| RegisterPage.HandleSubmit | src/pages/register.tsx:31-95 | a mismatch or a password under 6 characters is refused before anything is sent, mismatch first; otherwise the account is registered, with the photo key only when the upload succeeded, and an upload failure leaves only a warning |
| RegisterPage.ChecksGateEverything | src/pages/register.tsx:36-46 | nothing is uploaded or sent unless both password checks pass |
| RegisterPage.UploadFailureIsNonFatal | src/pages/register.tsx:52-64 | a failed upload registers the same account a photo-less submit would, and registration still depends only on the server |
| RegisterPage.SubmitDisabled | src/pages/register.tsx:194 | the button is disabled while loading, while uploading, or while the passwords differ |
| RegisterPage.EnabledPassesMismatchCheck | src/pages/register.tsx:194 | with the button enabled, a submit is either sent or refused only for a short password |
| RegisterPage.DefaultImage | src/pages/register.tsx:97 | the preview avatar is seeded by the username when one is typed, and unseeded otherwise |
| RegisterPage.DefaultImageSeededByUsername | src/pages/register.tsx:97 | the preview avatar is always the one seeded by the username; an empty username gives the `default` seed |
| RegisterPage.DisplayImage | src/pages/register.tsx:98 | a non-empty preview wins; otherwise the username-seeded avatar is shown |
| LoginPage.HandleSubmit | src/pages/login.tsx:15-33 | the login is sent with the typed credentials; success makes the server's user the session user with no error; failure keeps the session and holds the error |
| LoginPage.RefusedLoginShowsStatus | src/pages/login.tsx:24-29 | a login refused with a non-2xx status holds the HTTP error, from which its status can be read back |
| LoginPage.LoginSurvivesReload | src/pages/login.tsx:21-22 | when the codec round-trips the fetched user, the logged-in user is restored after a reload |
| PurchasedPage.Load | src/pages/profile/purchased.tsx:14-24 | with no session user nothing is fetched; otherwise the user's purchases are requested, and a failure keeps the list and holds the error |
| PurchasedPage.PriceOrZero | src/pages/profile/purchased.tsx:66 | a numeric price counts as itself and a non-numeric one as 0 |
| PurchasedPage.TotalInvestment | src/pages/profile/purchased.tsx:65-68 | the left-to-right reduce gives the sum of the prices, with a non-numeric price counting 0 |
| PurchasedPage.SumPricesAppend | src/pages/profile/purchased.tsx:65-68 | the total of two lists joined is the sum of their totals |
| PurchasedPage.NonNumericAddsNothing | src/pages/profile/purchased.tsx:66 | an artwork with a non-numeric price does not change the total |
| PurchasedPage.TotalBoundsPrices | src/pages/profile/purchased.tsx:65-68 | with non-negative prices the total is non-negative and at least every single price |
| PurchasedPage.PluralSuffix | src/pages/profile/purchased.tsx:79 | the suffix is `s` exactly when the count is not 1 |
| PurchasedPage.Summarize | src/pages/profile/purchased.tsx:76-128 | an empty list gives the empty state; otherwise the count, the total, an average that times the count gives back the total, and the suffix `s` for any count but 1, where it is empty |
| PurchasedPage.LoadedSummary | src/pages/profile/purchased.tsx:14-79 | after the fetch effect the list the page holds summarises to exactly the fetched collection (its count and total, or the empty state); without a user or after a failure it summarises to what the list held before did |
| PurchasedPage.Render | src/pages/profile/purchased.tsx:26-79 | the access screen exactly without a session user, then the spinner while loading, then the error screen when an error is held, otherwise the summary of the held list |
| PurchasedPage.LoadedScreen | src/pages/profile/purchased.tsx:14-62 | after the fetch effect: no user shows the access screen; a failure shows the load error; a success shows the fetched collection when no error was held, and otherwise still the held error |
| PurchasedPage.StaleErrorHidesCollection | src/pages/profile/purchased.tsx:14-24 | a failed fetch followed by a successful one still shows the error screen, since the success path never clears the error |
| Strings.LastSegment | src/lib/api.ts:125 | the part after the last separator: a suffix free of the separator, preceded by it or making up the whole text |
| Strings.TrimEmptyIffBlank | src/components/TopupForm.tsx:11 | trimming leaves nothing exactly when the text is all JavaScript whitespace |
| Decimal.ParseNatToDecimal | src/lib/api.ts:62 | a status code rendered in decimal parses back to itself |

## Left out

- Rendering is not modelled beyond which screen the gallery and
  purchased-collection pages choose (`GalleryPage.Render`,
  `PurchasedPage.Render`): JSX, CSS, icons, hover state, `alert` pop-ups
  other than the top-up validation alerts and the upload-failure flag,
  `console` logging, and router redirects and links.
- React's scheduling is not modelled. Each handler is its settled result,
  and each effect is a function of the state it starts from. The model
  does not decide when React re-runs an effect; lemmas compose an effect
  after the change that triggers it. Fetches still in flight when a newer
  one starts are not modelled.
- The network, `res.text()` and `res.json()` are not modelled. Their settled
  results are inputs.
- The `FileReader` that produces previews is not modelled. A preview is an
  input string.
- `Number(...)`, `encodeURIComponent`, `Date.now()` and `Math.random()` are
  parameters (see above). The random token's base-36 form is not modelled.
- JSON encoding is abstract (`AuthStorage.Codec`). A stored value that
  parses to something other than a user object or `null` is not modelled.
- Api.MergeHeaders: header names are compared exactly, whereas `fetch`
  treats them case-insensitively.
- RegisterPage.HandleSubmit: the password length is counted in characters,
  whereas JavaScript counts UTF-16 code units. They differ only for
  characters outside the Basic Multilingual Plane.
- PurchasedPage.TotalInvestment: money is an exact `real`, not an IEEE
  double. Rounding and the `toFixed`/`toLocaleString` display formatting
  are not modelled.
- An infinite artwork price is not modelled. `Types.Price` is a finite
  amount or a non-numeric value.
- The purchase failure alert in `src/pages/index.tsx` is not modelled; a
  failed purchase leaves the page state unchanged.
- ProfilePage.HandleTopup: it is modelled only once a profile has loaded.
  The page renders the top-up form only in that case, and the source's
  non-null assertion relies on it.
- `src/components/Navbar.tsx`, `src/components/ProfileInfo.tsx`,
  `src/pages/_app.tsx` and `next.config` are layout and configuration.
  They are not part of this model.
- Drag-over styling in `src/components/ImageUpload.tsx` is left out. Only
  the drop handler's file choice is modelled.

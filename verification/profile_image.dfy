/** src/lib/profileImageUtils.ts: the profile-photo URL, the generated
    default avatar, and the validator every selected image goes through.
    `encodeURIComponent` is the parameter `encode`; the configured image base
    is the parameter `base` (see `ImageBaseUrl`). */
module ProfileImage {
  import opened Js
  import opened Types
  import Strings

  const DefaultImageBaseUrl := "http://localhost:5000"
  /** Folder prefix removed from stored photo keys. */
  const PublishedFolder := "Fotos_Publicadas/"
  const AvatarPrefix := "https://api.dicebear.com/7.x/avataaars/svg?seed="
  const AvatarSuffix := "&backgroundColor=b6e3f4"
  const DefaultSeed := "default"

  const AllowedTypes: seq<string> := ["image/jpeg", "image/png", "image/gif", "image/webp"]
  /** 5 MiB; a file of exactly this size is accepted. */
  const MaxFileSize: nat := 5 * 1024 * 1024
  const TypeError := "Solo se permiten archivos de imagen (JPEG, PNG, GIF, WebP)"
  const SizeError := "La imagen debe ser menor a 5MB"

  /** `NEXT_PUBLIC_IMAGE_BASE_URL || "http://localhost:5000"`. */
  function ImageBaseUrl(env: Option<string>): (r: string)
    ensures TruthyOpt(env) ==> r == env.value
    ensures !TruthyOpt(env) ==> r == DefaultImageBaseUrl
  {
    OptionOr(env, DefaultImageBaseUrl)
  }

  /** A user has a photo when the key is present and not empty. */
  predicate HasPhoto(user: Option<User>)
  {
    user.Some? && TruthyOpt(user.value.fotoPerfilS3)
  }

  /** `getDefaultProfileImage(seed)`: the avatar service URL whose seed is the
      given one, or 'default' when it is absent or empty. */
  function DefaultProfileImage(encode: string -> string, seed: Option<string>): (r: string)
    ensures Strings.StartsWith(r, AvatarPrefix)
    ensures Strings.EndsWith(r, AvatarSuffix)
    ensures |r| == |AvatarPrefix| + |encode(OptionOr(seed, DefaultSeed))| + |AvatarSuffix|
    ensures r[|AvatarPrefix|..|r| - |AvatarSuffix|] == encode(if TruthyOpt(seed) then seed.value else DefaultSeed)
  {
    AvatarPrefix + encode(OptionOr(seed, DefaultSeed)) + AvatarSuffix
  }

  /** An absent seed and an empty seed both give the avatar seeded 'default'. */
  lemma DefaultAvatarSeedFallback(encode: string -> string)
    ensures DefaultProfileImage(encode, None) == DefaultProfileImage(encode, Some(DefaultSeed))
    ensures DefaultProfileImage(encode, Some("")) == DefaultProfileImage(encode, Some(DefaultSeed))
  {
  }

  /** Two avatar URLs are equal exactly when their encoded seeds are: the URL
      carries the seed and nothing else. */
  lemma DefaultAvatarDeterminedBySeed(encode: string -> string, a: Option<string>, b: Option<string>)
    ensures DefaultProfileImage(encode, a) == DefaultProfileImage(encode, b)
        <==> encode(OptionOr(a, DefaultSeed)) == encode(OptionOr(b, DefaultSeed))
  {
    var ra := DefaultProfileImage(encode, a);
    var rb := DefaultProfileImage(encode, b);
    if ra == rb {
      assert ra[|AvatarPrefix|..|ra| - |AvatarSuffix|] == rb[|AvatarPrefix|..|rb| - |AvatarSuffix|];
    }
  }

  /** `getProfileImageUrl(user)`. */
  function ProfileImageUrl(base: string, encode: string -> string, user: Option<User>): (r: string)
    ensures !HasPhoto(user) ==>
      r == DefaultProfileImage(encode, if user.Some? then Some(user.value.username) else None)
    ensures HasPhoto(user) && Strings.StartsWith(user.value.fotoPerfilS3.value, "http") ==>
      r == user.value.fotoPerfilS3.value
    ensures HasPhoto(user) && !Strings.StartsWith(user.value.fotoPerfilS3.value, "http") ==>
      r == base + "/" + Strings.ReplaceFirst(user.value.fotoPerfilS3.value, PublishedFolder, "")
  {
    if !HasPhoto(user) then
      DefaultProfileImage(encode, if user.Some? then Some(user.value.username) else None)
    else
      var key := user.value.fotoPerfilS3.value;
      if Strings.StartsWith(key, "http") then key
      else base + "/" + Strings.ReplaceFirst(key, PublishedFolder, "")
  }

  /** A key stored under the published folder is served from the image base
      under its bare file name. */
  lemma PublishedKeyServedByName(base: string, encode: string -> string, user: User, name: string)
    requires user.fotoPerfilS3 == Some(PublishedFolder + name)
    ensures ProfileImageUrl(base, encode, Some(user)) == base + "/" + name
  {
    var key := PublishedFolder + name;
    assert !Strings.StartsWith(key, "http") by {
      assert key[0] == 'F';
    }
    assert key[|PublishedFolder|..] == name;
    Strings.RemoveLeadingOccurrence(key, PublishedFolder);
  }

  /** A key holding no occurrence of the folder is served unchanged under the
      image base. */
  lemma PlainKeyServedAsIs(base: string, encode: string -> string, user: User, key: string)
    requires user.fotoPerfilS3 == Some(key) && key != ""
    requires !Strings.StartsWith(key, "http")
    requires forall j :: 0 <= j ==> !Strings.OccursAt(key, PublishedFolder, j)
    ensures ProfileImageUrl(base, encode, Some(user)) == base + "/" + key
  {
    Strings.ReplaceFirstAbsent(key, PublishedFolder, "");
  }

  /** The validator's verdict: `valid`, and an error message when invalid. */
  datatype Validation = Validation(valid: bool, error: Option<string>)

  /** `validateImageFile(file)`: the type check comes first, then the size
      check. */
  function ValidateImageFile(file: FileInfo): (r: Validation)
    ensures r.valid <==> file.mimeType in AllowedTypes && file.size <= MaxFileSize
    ensures r.valid ==> r.error == None
    ensures file.mimeType !in AllowedTypes ==> r == Validation(false, Some(TypeError))
    ensures file.mimeType in AllowedTypes && file.size > MaxFileSize ==> r == Validation(false, Some(SizeError))
  {
    if file.mimeType !in AllowedTypes then Validation(false, Some(TypeError))
    else if file.size > MaxFileSize then Validation(false, Some(SizeError))
    else Validation(true, None)
  }

  /** The size bound is inclusive: 5 MiB passes, one byte more fails. */
  lemma SizeBoundary(name: string, mimeType: string)
    requires mimeType in AllowedTypes
    ensures ValidateImageFile(FileInfo(name, mimeType, 5242880)).valid
    ensures ValidateImageFile(FileInfo(name, mimeType, 5242881)).error == Some(SizeError)
  {
  }
}

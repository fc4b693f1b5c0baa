/** src/components/GalleryItem.tsx: the artwork image URL, the status label
    and the rule for when a buy control is shown. */
module GalleryItem {
  import opened Js
  import opened Types
  import Strings

  const DefaultImageBase := "http://localhost:5000/images"
  const AvailableLabel := "Disponible"
  const SoldLabel := "Vendido"

  /** `NEXT_PUBLIC_IMAGE_BASE_URL || "http://localhost:5000/images"`; note the
      default differs from the profile-photo one. */
  function ImageBase(env: Option<string>): (r: string)
    ensures TruthyOpt(env) ==> r == env.value
    ensures !TruthyOpt(env) ==> r == DefaultImageBase
  {
    OptionOr(env, DefaultImageBase)
  }

  /** `getImageUrl(filename)`: null for a null or empty name, a full URL as
      is, otherwise the name without its leading slashes under the base. */
  function GetImageUrl(base: string, filename: Option<string>): (r: Option<string>)
    ensures r.None? <==> !TruthyOpt(filename)
    ensures TruthyOpt(filename) && Strings.StartsWith(filename.value, "http") ==> r == filename
    ensures TruthyOpt(filename) && !Strings.StartsWith(filename.value, "http") ==>
      exists clean: string {:trigger base + "/" + clean} ::
        && r == Some(base + "/" + clean)
        && Strings.EndsWith(filename.value, clean)
        && (clean == "" || clean[0] != '/')
        && forall i :: 0 <= i < |filename.value| - |clean| ==> filename.value[i] == '/'
  {
    if !TruthyOpt(filename) then None
    else if Strings.StartsWith(filename.value, "http") then filename
    else
      var clean := Strings.StripLeading(filename.value, '/');
      assert clean == "" || clean[0] != '/';
      Some(base + "/" + clean)
  }

  /** `art.imagen_s3 ? getImageUrl(art.imagen_s3) : null`. */
  function ArtImageUrl(base: string, art: Artwork): (r: Option<string>)
    ensures r.None? <==> art.imagenS3 == ""
    ensures r == GetImageUrl(base, Some(art.imagenS3))
  {
    if art.imagenS3 != "" then GetImageUrl(base, Some(art.imagenS3)) else None
  }

  /** The buy control is rendered for an available artwork when a handler is
      supplied. */
  predicate HasBuyControl(art: Artwork, onBuyGiven: bool)
  {
    art.disponible && onBuyGiven
  }

  /** The badge: sold exactly when the artwork is not available. */
  function StatusLabel(art: Artwork): (badge: string)
    ensures badge == SoldLabel <==> !art.disponible
    ensures badge == AvailableLabel <==> art.disponible
  {
    if art.disponible then AvailableLabel else SoldLabel
  }

  /** A sold artwork never offers a purchase, and its label says so; an
      available one offers it exactly when there is a handler. */
  lemma SoldNeverBuyable(art: Artwork, onBuyGiven: bool)
    ensures !art.disponible ==> !HasBuyControl(art, onBuyGiven) && StatusLabel(art) == SoldLabel
    ensures art.disponible ==> (HasBuyControl(art, onBuyGiven) <==> onBuyGiven) && StatusLabel(art) == AvailableLabel
  {
  }

  /** A name behind any number of leading slashes, none included, is served
      under the base with exactly one slash at the join. */
  lemma LeadingSlashesCollapse(base: string, pre: string, name: string)
    requires forall i :: 0 <= i < |pre| ==> pre[i] == '/'
    requires name != "" && name[0] != '/' && !Strings.StartsWith(name, "http")
    ensures GetImageUrl(base, Some(pre + name)) == Some(base + "/" + name)
  {
    if pre != [] {
      assert (pre + name)[0] == '/';
      assert !Strings.StartsWith(pre + name, "http");
    } else {
      assert pre + name == name;
    }
    Strings.DropWhileExact(pre, name, x => x == '/');
  }
}

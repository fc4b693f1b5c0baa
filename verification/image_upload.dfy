/** src/components/ImageUpload.tsx: the file picker. A selected or dropped
    file passes the validator before the parent hears of it. */
module ImageUpload {
  import opened Js
  import opened Types
  import ProfileImage

  const InvalidFileFallback := "Archivo inválido"

  /** The picker's error text and the file handed to `onImageSelect`, if any. */
  datatype Selection = Selection(error: string, selected: Option<FileInfo>)

  /** `handleFileSelect(file)`: the error is cleared, then the validator
      decides; only a valid file reaches `onImageSelect`, exactly once. */
  function HandleFileSelect(file: FileInfo): (s: Selection)
    ensures ProfileImage.ValidateImageFile(file).valid <==> s.selected == Some(file)
    ensures ProfileImage.ValidateImageFile(file).valid ==> s.error == ""
    ensures !ProfileImage.ValidateImageFile(file).valid ==>
      s.selected == None && s.error == OptionOr(ProfileImage.ValidateImageFile(file).error, InvalidFileFallback)
  {
    var validation := ProfileImage.ValidateImageFile(file);
    if !validation.valid then Selection(OptionOr(validation.error, InvalidFileFallback), None)
    else Selection("", Some(file))
  }

  /** The input's `change` and the drop zone's `drop`: the first file is
      handled; an empty selection does nothing at all, the previous error
      included. */
  function HandleFiles(error: string, files: seq<FileInfo>): (s: Selection)
    ensures files == [] ==> s == Selection(error, None)
    ensures files != [] ==> s == HandleFileSelect(files[0])
  {
    if files == [] then Selection(error, None) else HandleFileSelect(files[0])
  }

  /** Whatever reaches the parent is the first file and is valid; and an
      invalid file is always explained by the validator's own message. */
  lemma OnlyValidFilesSelected(error: string, files: seq<FileInfo>)
    ensures var s := HandleFiles(error, files);
      && (s.selected.Some? ==> files != [] && s.selected.value == files[0]
                               && ProfileImage.ValidateImageFile(files[0]).valid)
      && (files != [] && s.selected.None? ==>
            s.error == ProfileImage.TypeError || s.error == ProfileImage.SizeError)
  {
  }

  /** `preview || currentImageUrl`. */
  function DisplayImageUrl(preview: Option<string>, current: Option<string>): (r: Option<string>)
    ensures TruthyOpt(preview) ==> r == preview
    ensures !TruthyOpt(preview) ==> r == current
  {
    if TruthyOpt(preview) then preview else current
  }
}

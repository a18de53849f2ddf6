/** The `EwasteImage` component (frontend/src/components/EwasteImage.tsx): turn
    a stored image path into the URL the browser loads.  `API_BASE` comes from
    a configuration module that is not part of this model, so it is a
    parameter; the `onError` placeholder swap is a browser event and is left out. */
module EwasteImage {
  import opened Wrappers

  /** A character of the split pattern `/[\/\\]/`. */
  predicate IsSeparator(c: char) {
    c == '/' || c == '\\'
  }

  /** `path.split(/[\/\\]/).pop()`: the part after the last separator. */
  function LastSegment(path: string): (f: string)
    ensures |f| <= |path| && f == path[|path| - |f|..]
    ensures forall i :: 0 <= i < |f| ==> !IsSeparator(f[i])
    ensures |f| < |path| ==> IsSeparator(path[|path| - |f| - 1])
  {
    if path == [] then []
    else if IsSeparator(path[|path| - 1]) then []
    else LastSegment(path[..|path| - 1]) + [path[|path| - 1]]
  }

  /** The `<img>` element the component renders. */
  datatype Img = Img(src: string, alt: string)

  /** `${API_BASE}/uploads/${filename}`, or nothing for a null or empty path. */
  function ImageUrl(apiBase: string, imagePath: Option<string>): (url: Option<string>)
    ensures url.None? <==> imagePath.None? || imagePath.value == ""
    ensures url.Some? ==> url.value == apiBase + "/uploads/" + LastSegment(imagePath.value)
  {
    if imagePath.None? || imagePath.value == "" then None
    else Some(apiBase + "/uploads/" + LastSegment(imagePath.value))
  }

  /** What the component renders: nothing, or an image with that URL whose
      alternative text is the product name, or 'Product image' when the name
      is null (callers pass the nullable `product_name` column) or empty. */
  function Render(apiBase: string, imagePath: Option<string>, productName: Option<string>): (r: Option<Img>)
    ensures r.None? <==> ImageUrl(apiBase, imagePath).None?
    ensures r.Some? ==> r.value.src == ImageUrl(apiBase, imagePath).value
    ensures r.Some? && productName.Some? && productName.value != "" ==> r.value.alt == productName.value
    ensures r.Some? && (productName.None? || productName.value == "") ==> r.value.alt == "Product image"
  {
    match ImageUrl(apiBase, imagePath)
    case None => None
    case Some(url) =>
      var alt := if productName.Some? && productName.value != "" then productName.value else "Product image";
      Some(Img(url, alt))
  }

  /** The extracted name is determined by the two facts that it holds no
      separator and is preceded by one (or is the whole path). */
  lemma LastSegmentUnique(path: string, f: string)
    requires |f| <= |path| && f == path[|path| - |f|..]
    requires forall i :: 0 <= i < |f| ==> !IsSeparator(f[i])
    requires |f| < |path| ==> IsSeparator(path[|path| - |f| - 1])
    ensures LastSegment(path) == f
  {
  }

  /** A path with no separator is its own file name. */
  lemma NoSeparator(path: string)
    requires forall i :: 0 <= i < |path| ==> !IsSeparator(path[i])
    ensures LastSegment(path) == path
  {
    LastSegmentUnique(path, path);
  }

  /** A path that ends in a separator yields the empty name. */
  lemma TrailingSeparator(path: string)
    requires path != [] && IsSeparator(path[|path| - 1])
    ensures LastSegment(path) == ""
  {
  }

  /** Whatever precedes the last separator is dropped. */
  lemma {:induction false} AfterSeparator(dir: string, sep: char, f: string)
    requires IsSeparator(sep)
    requires forall i :: 0 <= i < |f| ==> !IsSeparator(f[i])
    ensures LastSegment(dir + [sep] + f) == f
  {
    var path := dir + [sep] + f;
    assert path[|path| - |f|..] == f;
    assert path[|path| - |f| - 1] == sep;
    LastSegmentUnique(path, f);
  }
}

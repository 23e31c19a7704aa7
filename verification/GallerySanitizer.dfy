/** The sanitization of the raw images of an envelope: filter, first-seen wins, cap. */
module GallerySanitizer {
  import opened Wrappers
  import opened Text

  const MAX_SIZE_BYTES: int := 20 * 1024 * 1024
  const MAX_GALLERY_ITEMS: nat := 20

  datatype Role = BrandAsset | Content | Reference | Unknown

  /** A field of a raw image after the `or` with its fallback: falsy, a string, another
      hashable value, or a list or object, which cannot be looked up in a set. */
  datatype Field = Missing | Str(s: string) | Scalar | Container

  datatype Size = Bytes(n: int) | NoSize

  /** `urlparse` of the URL, and the extension found in its path. */
  datatype ParsedUrl = Malformed | Parsed(scheme: string, netloc: string, extension: Option<string>)

  datatype RawImage = RawImage(url: Field, parsed: ParsedUrl, extension: Field, mime: Field, size: Size, role: Option<Role>)

  datatype Image = Image(url: string, extension: string, size: Size, role: Role)

  datatype ImageError = UrlParseError | ExtensionNotText | UnhashableMime

  predicate AllowedExtension(e: string) {
    e in ["jpg", "jpeg", "png"]
  }

  /** `_is_allowed_image`: the extension to record, if the image is allowed. */
  function AllowedImage(raw: RawImage): Result<Option<string>, ImageError>
    requires raw.parsed.Parsed?
  {
    if raw.extension.Scalar? || raw.extension.Container? then Raised(ExtensionNotText)
    else if raw.extension.Str? && AllowedExtension(Lower(raw.extension.s)) then Ok(Some(Lower(raw.extension.s)))
    else if raw.mime.Container? then Raised(UnhashableMime)
    else if raw.mime == Str("image/jpeg") then Ok(Some("jpeg"))
    else if raw.mime == Str("image/png") then Ok(Some("png"))
    else if raw.parsed.extension.Some? && AllowedExtension(raw.parsed.extension.value) then Ok(raw.parsed.extension)
    else Ok(None)
  }

  /** `_sanitize_gallery_item`: None rejects the image. */
  function Sanitized(raw: RawImage, defaultRole: Role): (r: Result<Option<Image>, ImageError>)
    ensures r.Ok? && r.value.Some? ==> raw.url == Str(r.value.value.url)
  {
    if !raw.url.Str? then Ok(None)
    else if raw.parsed.Malformed? then Raised(UrlParseError)
    else if raw.parsed.scheme !in ["http", "https"] || raw.parsed.netloc == "" then Ok(None)
    else match AllowedImage(raw)
      case Raised(e) => Raised(e)
      case Ok(None) => Ok(None)
      case Ok(Some(ext)) =>
        if raw.size.Bytes? && (raw.size.n == 0 || raw.size.n > MAX_SIZE_BYTES) then Ok(None)
        else Ok(Some(Image(raw.url.s, ext, raw.size, if raw.role.Some? then raw.role.value else defaultRole)))
  }

  type Raw = (RawImage, Role)

  predicate Raises(raw: Raw) {
    Sanitized(raw.0, raw.1).Raised?
  }

  predicate Accepts(raw: Raw) {
    Sanitized(raw.0, raw.1).Ok? && Sanitized(raw.0, raw.1).value.Some?
  }

  function Accepted(raw: Raw): Image
    requires Accepts(raw)
  {
    Sanitized(raw.0, raw.1).value.value
  }

  predicate IsAllowedText(f: Field) {
    f.Str? && Lower(f.s) in ["jpg", "jpeg", "png"]
  }

  /** An image is accepted if and only if it has a web address, a type that is allowed by its
      extension field, or else by its MIME type, or else by its path, and a size that is
      unknown or neither zero nor above 20 MiB. */
  lemma AcceptsMeans(raw: RawImage, role: Role)
    ensures Accepts((raw, role)) <==>
            && raw.url.Str? && raw.parsed.Parsed? && raw.parsed.scheme in ["http", "https"] && raw.parsed.netloc != ""
            && !raw.extension.Scalar? && !raw.extension.Container?
            && (|| IsAllowedText(raw.extension)
                || raw.mime == Str("image/jpeg") || raw.mime == Str("image/png")
                || (!raw.mime.Container? && raw.parsed.extension.Some? && raw.parsed.extension.value in ["jpg", "jpeg", "png"]))
            && (raw.size.Bytes? ==> raw.size.n != 0 && raw.size.n <= 20_971_520)
    ensures Accepts((raw, role)) ==>
              var image := Accepted((raw, role));
              && raw.url == Str(image.url) && image.size == raw.size
              && image.role == (match raw.role case Some(own) => own case None => role)
              && (if IsAllowedText(raw.extension) then image.extension == Lower(raw.extension.s)
                  else if raw.mime == Str("image/jpeg") then image.extension == "jpeg"
                  else if raw.mime == Str("image/png") then image.extension == "png"
                  else raw.parsed.extension == Some(image.extension))
  {
  }

  /** Sanitizing raises if and only if there is a URL and it cannot be parsed, or it is a web
      address and the extension field is no text, or no extension is given that is allowed and
      the MIME type cannot be looked up. */
  lemma RaisesMeans(raw: RawImage, role: Role)
    ensures Raises((raw, role)) <==>
            && raw.url.Str?
            && (|| raw.parsed.Malformed?
                || (&& raw.parsed.scheme in ["http", "https"] && raw.parsed.netloc != ""
                    && (|| raw.extension.Scalar? || raw.extension.Container?
                        || (!IsAllowedText(raw.extension) && raw.mime.Container?))))
  {
  }

  // ---- Specification ----

  function Urls(images: seq<Image>): set<string> {
    set image | image in images :: image.url
  }

  /** The accepted images, each URL at its first valid occurrence. */
  function Distinct(raws: seq<Raw>): seq<Image> {
    if raws == [] then [] else
    var before, last := Distinct(raws[..|raws| - 1]), raws[|raws| - 1];
    if Accepts(last) && Accepted(last).url !in Urls(before) then before + [Accepted(last)] else before
  }

  function Rejections(raws: seq<Raw>): nat {
    if raws == [] then 0 else
    Rejections(raws[..|raws| - 1]) + (if Accepts(raws[|raws| - 1]) then 0 else 1)
  }

  /** Accepted images whose URL was accepted before. */
  function Duplicates(raws: seq<Raw>): nat {
    if raws == [] then 0 else
    var before, last := raws[..|raws| - 1], raws[|raws| - 1];
    Duplicates(before) + (if Accepts(last) && Accepted(last).url in Urls(Distinct(before)) then 1 else 0)
  }

  datatype Gallery = Gallery(images: seq<Image>, rawCount: nat, rejected: nat, truncated: bool)

  // ---- The code ----

  /** `_sanitize_gallery`. */
  method SanitizeGallery(raws: seq<Raw>) returns (outcome: Result<Gallery, ImageError>)
    ensures outcome.Raised? <==> exists i :: 0 <= i < |raws| && Raises(raws[i])
    ensures outcome.Ok? ==>
              var g := outcome.value;
              && g.rawCount == |raws| && g.rejected == Rejections(raws)
              && g.truncated == (|Distinct(raws)| > MAX_GALLERY_ITEMS)
              && g.images == (if g.truncated then Distinct(raws)[..MAX_GALLERY_ITEMS] else Distinct(raws))
  {
    var accepted: seq<Image> := [];
    var rejected := 0;
    var seen: set<string> := {};
    for i := 0 to |raws|
      invariant forall j :: 0 <= j < i ==> !Raises(raws[j])
      invariant accepted == Distinct(raws[..i]) && rejected == Rejections(raws[..i]) && seen == Urls(accepted)
    {
      assert raws[..i + 1][..i] == raws[..i];
      match Sanitized(raws[i].0, raws[i].1)
      case Raised(e) =>
        assert Raises(raws[i]);
        return Raised(e);
      case Ok(None) =>
        rejected := rejected + 1;
      case Ok(Some(image)) =>
        if image.url !in seen {
          seen := seen + {image.url};
          UrlsSnoc(accepted, image);
          accepted := accepted + [image];
        }
    }
    assert raws[..|raws|] == raws;
    var truncated := |accepted| > MAX_GALLERY_ITEMS;
    if truncated {
      accepted := accepted[..MAX_GALLERY_ITEMS];
    }
    outcome := Ok(Gallery(accepted, |raws|, rejected, truncated));
  }

  lemma UrlsSnoc(images: seq<Image>, image: Image)
    ensures Urls(images + [image]) == Urls(images) + {image.url}
  {
  }

  // ---- Properties ----

  /** Every raw image is accepted before the cap, rejected or a duplicate, and exactly one
      of these. */
  lemma {:induction false} EveryImageIsCounted(raws: seq<Raw>)
    ensures |Distinct(raws)| + Rejections(raws) + Duplicates(raws) == |raws|
  {
    if raws != [] {
      EveryImageIsCounted(raws[..|raws| - 1]);
    }
  }

  /** The positions of the images that are not accepted. */
  function RejectedAt(raws: seq<Raw>): set<int> {
    set i | 0 <= i < |raws| && !Accepts(raws[i])
  }

  lemma RejectedAtSnoc(raws: seq<Raw>, raw: Raw)
    ensures |RejectedAt(raws + [raw])| == |RejectedAt(raws)| + (if Accepts(raw) then 0 else 1)
  {
    assert |raws| !in RejectedAt(raws);
    assert RejectedAt(raws + [raw]) == RejectedAt(raws) + (if Accepts(raw) then {} else {|raws|});
  }

  lemma {:induction false} RejectionsCount(raws: seq<Raw>)
    ensures Rejections(raws) == |RejectedAt(raws)|
  {
    if raws != [] {
      var n := |raws| - 1;
      RejectionsCount(raws[..n]);
      RejectedAtSnoc(raws[..n], raws[n]);
      assert raws == raws[..n] + [raws[n]];
    }
  }

  /** `i` is the first position at which a valid image with its URL stands. */
  ghost predicate FirstValid(raws: seq<Raw>, i: int) {
    && 0 <= i < |raws| && Accepts(raws[i])
    && forall j :: 0 <= j < i && Accepts(raws[j]) ==> Accepted(raws[j]).url != Accepted(raws[i]).url
  }

  /** The positions of the images that are listed. */
  ghost function Positions(raws: seq<Raw>): (at: seq<int>)
    ensures |at| == |Distinct(raws)|
    ensures forall k :: 0 <= k < |at| ==> 0 <= at[k] < |raws|
    ensures forall k, l :: 0 <= k < l < |at| ==> at[k] < at[l]
  {
    if raws == [] then [] else
    var n := |raws| - 1;
    if Accepts(raws[n]) && Accepted(raws[n]).url !in Urls(Distinct(raws[..n])) then Positions(raws[..n]) + [n]
    else Positions(raws[..n])
  }

  lemma {:induction false} UrlsOfDistinct(raws: seq<Raw>, u: string)
    ensures u in Urls(Distinct(raws)) <==> exists i :: 0 <= i < |raws| && Accepts(raws[i]) && Accepted(raws[i]).url == u
  {
    if raws != [] {
      var n := |raws| - 1;
      UrlsOfDistinct(raws[..n], u);
      assert forall i :: 0 <= i < n ==> raws[i] == raws[..n][i];
      if Accepts(raws[n]) {
        UrlsSnoc(Distinct(raws[..n]), Accepted(raws[n]));
      }
    }
  }

  lemma FirstValidInPrefix(raws: seq<Raw>, n: nat, i: int)
    requires n <= |raws|
    ensures i < n ==> (FirstValid(raws, i) <==> FirstValid(raws[..n], i))
  {
    assert forall j :: 0 <= j < n ==> raws[j] == raws[..n][j];
  }

  lemma LastIsFirstValid(raws: seq<Raw>)
    requires raws != []
    ensures var n := |raws| - 1;
            FirstValid(raws, n) <==> Accepts(raws[n]) && Accepted(raws[n]).url !in Urls(Distinct(raws[..n]))
  {
    var n := |raws| - 1;
    assert forall j :: 0 <= j < n ==> raws[j] == raws[..n][j];
    if Accepts(raws[n]) {
      UrlsOfDistinct(raws[..n], Accepted(raws[n]).url);
    }
  }

  /** The accepted images are the first valid occurrences of their URLs, in input order. */
  lemma {:induction false} ListedAreFirstValid(raws: seq<Raw>, k: nat)
    requires k < |Positions(raws)|
    ensures FirstValid(raws, Positions(raws)[k])
    ensures Distinct(raws)[k] == Accepted(raws[Positions(raws)[k]])
  {
    var n := |raws| - 1;
    LastIsFirstValid(raws);
    if k < |Positions(raws[..n])| {
      ListedAreFirstValid(raws[..n], k);
      FirstValidInPrefix(raws, n, Positions(raws[..n])[k]);
    }
  }

  /** No first valid occurrence is left out. */
  lemma {:induction false} FirstValidAreListed(raws: seq<Raw>, i: int) returns (k: nat)
    requires FirstValid(raws, i)
    ensures k < |Positions(raws)| && Positions(raws)[k] == i
  {
    var n := |raws| - 1;
    LastIsFirstValid(raws);
    if i < n {
      FirstValidInPrefix(raws, n, i);
      k := FirstValidAreListed(raws[..n], i);
    } else {
      k := |Positions(raws[..n])|;
    }
  }

  /** URLs are distinct, so the cap cuts whole entries only: the gallery is a prefix of the
      first valid occurrences, at most 20 of them, and truncated exactly when one is cut. */
  lemma GalleryIsCapped(raws: seq<Raw>, g: Gallery)
    requires g.truncated == (|Distinct(raws)| > MAX_GALLERY_ITEMS)
    requires g.images == (if g.truncated then Distinct(raws)[..MAX_GALLERY_ITEMS] else Distinct(raws))
    ensures |g.images| <= 20 && g.images <= Distinct(raws)
    ensures |g.images| == if |Distinct(raws)| > 20 then 20 else |Distinct(raws)|
    ensures g.truncated <==> |g.images| < |Distinct(raws)|
    ensures forall k, l :: 0 <= k < l < |g.images| ==> g.images[k].url != g.images[l].url
  {
    forall k, l | 0 <= k < l < |g.images| ensures g.images[k].url != g.images[l].url {
      ListedAreFirstValid(raws, k);
      ListedAreFirstValid(raws, l);
      assert Positions(raws)[k] < Positions(raws)[l];
    }
  }

  // ---- The gallery warning of normalize ----

  datatype Warning = GalleryEmpty | AllFiltered | PartiallyFiltered | NoWarning

  function GalleryWarning(g: Gallery): Warning {
    if g.rawCount == 0 && g.images == [] then GalleryEmpty
    else if g.rawCount > 0 && g.images == [] then AllFiltered
    else if g.rejected > 0 then PartiallyFiltered
    else NoWarning
  }

  lemma {:induction false} NoneAcceptedIff(raws: seq<Raw>)
    ensures Distinct(raws) == [] <==> forall i :: 0 <= i < |raws| ==> !Accepts(raws[i])
  {
    if raws != [] {
      var n := |raws| - 1;
      NoneAcceptedIff(raws[..n]);
      assert forall i :: 0 <= i < n ==> raws[i] == raws[..n][i];
    }
  }

  lemma {:induction false} SomeRejectedIff(raws: seq<Raw>)
    ensures Rejections(raws) > 0 <==> exists i :: 0 <= i < |raws| && !Accepts(raws[i])
  {
    if raws != [] {
      var n := |raws| - 1;
      SomeRejectedIff(raws[..n]);
      assert forall i :: 0 <= i < n ==> raws[i] == raws[..n][i];
    }
  }

  /** Each warning, in terms of the raw images alone. */
  lemma WarningMeans(raws: seq<Raw>, g: Gallery)
    requires g.rawCount == |raws| && g.rejected == Rejections(raws)
    requires g.images == (if |Distinct(raws)| > MAX_GALLERY_ITEMS then Distinct(raws)[..MAX_GALLERY_ITEMS] else Distinct(raws))
    ensures GalleryWarning(g) == GalleryEmpty <==> raws == []
    ensures GalleryWarning(g) == AllFiltered <==> raws != [] && forall i :: 0 <= i < |raws| ==> !Accepts(raws[i])
    ensures GalleryWarning(g) == PartiallyFiltered <==>
              (exists i :: 0 <= i < |raws| && Accepts(raws[i])) && (exists i :: 0 <= i < |raws| && !Accepts(raws[i]))
  {
    NoneAcceptedIff(raws);
    SomeRejectedIff(raws);
  }
}

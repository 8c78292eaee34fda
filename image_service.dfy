/** The image service: URL building against the CDN base, format and size
    checks, the category placeholder, the responsive `srcset`, and the cache of
    loaded and failed images.  The CDN base is a build-time setting, so it is a
    parameter here; the placeholder's SVG data URL is represented by the colour
    and label it is drawn with. */
module ImageService {
  import opened Wrappers
  import opened Text

  /** A URL the service hands out: the generated placeholder, or a link. */
  datatype ImageRef = Placeholder(color: string, caption: string) | Link(url: string)

  const FORMATS: seq<string> := ["jpg", "jpeg", "png", "webp"]
  const MAX_SIZE_MB := 5
  const BYTES_PER_MB := 1024 * 1024
  const DEFAULT_IMAGE_SIZES: seq<int> := [320, 640, 1024, 1920]
  const DEFAULT_COLOR := "#6b7280"
  const DEFAULT_LABEL := "PRODUCT"

  // ---------------------------------------------------------------------------
  // Category placeholder
  // ---------------------------------------------------------------------------

  /** The categories with their own colour and label. */
  predicate KnownCategory(category: string) {
    category in {"Beef Burgers", "Chicken Burgers", "Veggie Burger", "Sides", "Beverages", "Desserts"}
  }

  /** `_getCategoryColor(category)`: `colors[category] || colors.default`. */
  function CategoryColor(category: string): (r: string)
    ensures !KnownCategory(category) ==> r == DEFAULT_COLOR
    ensures KnownCategory(category) ==> r != DEFAULT_COLOR && |r| == 7 && r[0] == '#'
  {
    match category
    case "Beef Burgers" => "#b91c1c"
    case "Chicken Burgers" => "#ea580c"
    case "Veggie Burger" => "#16a34a"
    case "Sides" => "#ca8a04"
    case "Beverages" => "#0284c7"
    case "Desserts" => "#c026d3"
    case _ => DEFAULT_COLOR
  }

  /** `_getCategoryLabel(category)`: `labels[category] || labels.default`. */
  function CategoryLabel(category: string): (r: string)
    ensures !KnownCategory(category) ==> r == DEFAULT_LABEL
    ensures KnownCategory(category) ==> r != DEFAULT_LABEL && Capitals(r)
  {
    match category
    case "Beef Burgers" => "BEEF"
    case "Chicken Burgers" => "CHICKEN"
    case "Veggie Burger" => "VEGGIE"
    case "Sides" => "SIDES"
    case "Beverages" => "BEVERAGE"
    case "Desserts" => "DESSERT"
    case _ => DEFAULT_LABEL
  }

  /** No lower-case ASCII letter: the label is written in capitals. */
  predicate Capitals(s: string) {
    forall i :: 0 <= i < |s| ==> !('a' <= s[i] <= 'z')
  }

  /** Distinct known categories are told apart by both colour and label. */
  lemma KnownCategoriesDistinguished(a: string, b: string)
    requires KnownCategory(a) && KnownCategory(b) && a != b
    ensures CategoryColor(a) != CategoryColor(b) && CategoryLabel(a) != CategoryLabel(b)
  {
  }

  /** `getPlaceholder(category = 'default')`. */
  function PlaceholderFor(category: Option<string>): (r: ImageRef)
    ensures r.Placeholder?
    ensures r.color == CategoryColor(category.GetOr("default"))
    ensures r.caption == CategoryLabel(category.GetOr("default"))
    ensures category.None? ==> r == Placeholder(DEFAULT_COLOR, DEFAULT_LABEL)
  {
    var c := category.GetOr("default");
    Placeholder(CategoryColor(c), CategoryLabel(c))
  }

  // ---------------------------------------------------------------------------
  // URLs
  // ---------------------------------------------------------------------------

  /** `/^https?:\/\//i.test(url)` (the flag folds ASCII letters only). */
  predicate IsAbsoluteUrl(url: string) {
    (|url| >= 7 && Lower(url[..7]) == "http://") || (|url| >= 8 && Lower(url[..8]) == "https://")
  }

  /** The test ignores letter case. */
  lemma AbsoluteUrlIgnoresCase(url: string)
    ensures IsAbsoluteUrl(Lower(url)) <==> IsAbsoluteUrl(url)
  {
    if |url| >= 7 {
      LowerPrefix(url, 7);
      LowerIdempotent(url[..7]);
    }
    if |url| >= 8 {
      LowerPrefix(url, 8);
      LowerIdempotent(url[..8]);
    }
  }

  lemma LowerPrefix(s: string, n: nat)
    requires n <= |s|
    ensures Lower(s)[..n] == Lower(s[..n])
  {
  }

  lemma LowerIdempotent(s: string)
    ensures Lower(Lower(s)) == Lower(s)
  {
  }

  /** `getImageUrl(imagePath)` with the CDN base `cdnUrl`: a falsy path gives the
      default placeholder, an absolute URL is kept, and anything else is put
      under the CDN base. */
  function ImageUrl(cdnUrl: string, path: string): (r: ImageRef)
    ensures path == "" <==> r.Placeholder?
    ensures path == "" ==> r == PlaceholderFor(None)
    ensures path != "" && IsAbsoluteUrl(path) ==> r == Link(path)
    ensures path != "" && !IsAbsoluteUrl(path) ==> r == Link(cdnUrl + "/" + path)
  {
    if path == "" then PlaceholderFor(None)
    else if IsAbsoluteUrl(path) then Link(path)
    else Link(cdnUrl + "/" + path)
  }

  /** With an absolute CDN base every link is absolute, so resolving a resolved
      link again changes nothing.  With a relative base (the development setting
      `/images`) that fails: the base is prepended once more. */
  lemma ImageUrlIdempotent(cdnUrl: string, path: string)
    requires IsAbsoluteUrl(cdnUrl) && path != ""
    ensures ImageUrl(cdnUrl, path).Link?
    ensures IsAbsoluteUrl(ImageUrl(cdnUrl, path).url)
    ensures ImageUrl(cdnUrl, ImageUrl(cdnUrl, path).url) == ImageUrl(cdnUrl, path)
  {
    if !IsAbsoluteUrl(path) {
      var u := cdnUrl + "/" + path;
      if |cdnUrl| >= 7 && Lower(cdnUrl[..7]) == "http://" {
        assert u[..7] == cdnUrl[..7];
      } else {
        assert u[..8] == cdnUrl[..8];
      }
    }
  }

  /** A URL whose first character is not an 'h' of either case is relative. */
  lemma NotAbsolute(url: string)
    requires |url| > 0 && LowerChar(url[0]) != 'h'
    ensures !IsAbsoluteUrl(url)
  {
    if |url| >= 7 { assert Lower(url[..7])[0] == LowerChar(url[0]); }
    if |url| >= 8 { assert Lower(url[..8])[0] == LowerChar(url[0]); }
  }

  /** With a relative base (the development setting `/images`) a resolved
      link stays relative, so resolving it again prepends the base once more. */
  lemma RelativeBaseResolvesTwice(cdnUrl: string, path: string)
    requires |cdnUrl| > 0 && cdnUrl[0] == '/' && path != "" && !IsAbsoluteUrl(path)
    ensures ImageUrl(cdnUrl, path) == Link(cdnUrl + "/" + path)
    ensures ImageUrl(cdnUrl, ImageUrl(cdnUrl, path).url) == Link(cdnUrl + "/" + cdnUrl + "/" + path)
    ensures ImageUrl(cdnUrl, ImageUrl(cdnUrl, path).url) != ImageUrl(cdnUrl, path)
  {
    var u := cdnUrl + "/" + path;
    assert u[0] == '/';
    NotAbsolute(u);
    assert |cdnUrl + "/" + u| > |u|;
  }

  // ---------------------------------------------------------------------------
  // Format and size
  // ---------------------------------------------------------------------------

  /** `isValidFormat(filename)`: the text after the last '.', lower-cased, is an
      accepted image extension; an empty name is refused. */
  predicate IsValidFormat(filename: string) {
    filename != "" && Lower(LastSegment(filename, '.')) in FORMATS
  }

  /** Upper-case extensions are accepted like lower-case ones. */
  lemma ValidFormatIgnoresCase(filename: string)
    ensures IsValidFormat(Lower(filename)) <==> IsValidFormat(filename)
  {
    LastSegmentOfLower(filename);
    LowerIdempotent(LastSegment(filename, '.'));
  }

  /** Lower-casing and taking the last '.'-segment commute. */
  lemma {:induction false} LastSegmentOfLower(s: string)
    ensures LastSegment(Lower(s), '.') == Lower(LastSegment(s, '.'))
  {
    if s != [] {
      var prefix, c := s[..|s| - 1], s[|s| - 1];
      assert s == prefix + [c];
      LowerSnoc(prefix, c);
      assert Lower(s)[..|s| - 1] == Lower(prefix);
      if c != '.' {
        LastSegmentOfLower(prefix);
        LowerSnoc(LastSegment(prefix, '.'), c);
      }
    }
  }

  lemma LowerSnoc(s: string, c: char)
    ensures Lower(s + [c]) == Lower(s) + [LowerChar(c)]
  {
    assert forall i :: 0 <= i < |s| ==> Lower(s + [c])[i] == LowerChar((s + [c])[i]);
  }

  /** Whatever the name, adding an accepted extension makes it acceptable. */
  lemma ExtensionDecides(name: string, ext: string)
    requires ext in FORMATS
    ensures LastSegment(name + "." + ext, '.') == ext
    ensures IsValidFormat(name + "." + ext)
  {
    var s := name + "." + ext;
    SuffixSegment(name + ".", ext);
    LowerIdempotent(ext);
    assert Lower(ext) == ext;
  }

  /** The last segment of `prefix + ext`, where `prefix` ends in '.' and `ext`
      has none, is `ext`. */
  lemma {:induction false} SuffixSegment(prefix: string, ext: string)
    requires |prefix| > 0 && prefix[|prefix| - 1] == '.' && '.' !in ext
    ensures LastSegment(prefix + ext, '.') == ext
  {
    if ext != [] {
      var shorter := ext[..|ext| - 1];
      assert (prefix + ext)[..|prefix + ext| - 1] == prefix + shorter;
      SuffixSegment(prefix, shorter);
      assert shorter + [ext[|ext| - 1]] == ext;
    } else {
      assert prefix + ext == prefix;
    }
  }

  /** `validateFileSize(file)`: at most `MAX_SIZE_MB` megabytes. */
  predicate ValidFileSize(size: int) {
    size <= MAX_SIZE_MB * BYTES_PER_MB
  }

  /** The limit is 5 MiB, inclusive, and a smaller file is never refused when a
      larger one is accepted. */
  lemma FileSizeLimit(size: int, smaller: int)
    requires smaller <= size
    ensures ValidFileSize(size) ==> ValidFileSize(smaller)
    ensures ValidFileSize(5242880) && !ValidFileSize(5242881)
  {
  }

  // ---------------------------------------------------------------------------
  // srcset
  // ---------------------------------------------------------------------------

  /** One `srcset` candidate: `${imagePath}?w=${size} ${size}w`. */
  function SrcSetEntry(path: string, size: int): string {
    path + "?w=" + IntToString(size) + " " + IntToString(size) + "w"
  }

  function SrcSetEntries(path: string, sizes: seq<int>): (r: seq<string>)
    ensures |r| == |sizes|
    ensures forall i :: 0 <= i < |sizes| ==> r[i] == SrcSetEntry(path, sizes[i])
  {
    seq(|sizes|, i requires 0 <= i < |sizes| => SrcSetEntry(path, sizes[i]))
  }

  /** `generateSrcSet(imagePath, sizes = DEFAULT_IMAGE_SIZES)`: null unless the
      path is a non-empty absolute URL; else the candidates joined by ", ". */
  function GenerateSrcSet(path: string, sizes: Option<seq<int>>): (r: Option<string>)
    ensures r.Some? <==> IsAbsoluteUrl(path)
    ensures r.Some? ==> r.value == Join(SrcSetEntries(path, sizes.GetOr(DEFAULT_IMAGE_SIZES)), ", ")
  {
    if path == "" || !IsAbsoluteUrl(path) then None
    else Some(Join(SrcSetEntries(path, sizes.GetOr(DEFAULT_IMAGE_SIZES)), ", "))
  }

  /** The joined list starts with its first candidate and, after each ", ",
      continues with the rest in order. */
  lemma SrcSetShape(path: string, sizes: seq<int>)
    requires |sizes| >= 2 && IsAbsoluteUrl(path)
    ensures GenerateSrcSet(path, Some(sizes)) ==
              Some(SrcSetEntry(path, sizes[0]) + ", " + GenerateSrcSet(path, Some(sizes[1..])).value)
  {
    assert SrcSetEntries(path, sizes)[1..] == SrcSetEntries(path, sizes[1..]);
  }

  /** A single size gives a single candidate. */
  lemma SrcSetSingle(path: string, size: int)
    requires IsAbsoluteUrl(path)
    ensures GenerateSrcSet(path, Some([size])) == Some(path + "?w=" + IntToString(size) + " " + IntToString(size) + "w")
  {
  }

  /** With the default sizes: four candidates, 320 to 1920 pixels wide. */
  lemma DefaultSrcSet(path: string)
    requires IsAbsoluteUrl(path)
    ensures GenerateSrcSet(path, None) ==
              Some(SrcSetEntry(path, 320) + ", " + SrcSetEntry(path, 640) + ", "
                   + SrcSetEntry(path, 1024) + ", " + SrcSetEntry(path, 1920))
  {
    var e0, e1, e2, e3 := SrcSetEntry(path, 320), SrcSetEntry(path, 640), SrcSetEntry(path, 1024), SrcSetEntry(path, 1920);
    SrcSetSingle(path, 1920);
    var g3 := GenerateSrcSet(path, Some([1920])).value;
    SrcSetShape(path, [1024, 1920]);
    assert [1024, 1920][1..] == [1920];
    var g2 := GenerateSrcSet(path, Some([1024, 1920])).value;
    assert g2 == e2 + ", " + e3;
    SrcSetShape(path, [640, 1024, 1920]);
    assert [640, 1024, 1920][1..] == [1024, 1920];
    var g1 := GenerateSrcSet(path, Some([640, 1024, 1920])).value;
    assert g1 == e1 + ", " + e2 + ", " + e3;
    SrcSetShape(path, DEFAULT_IMAGE_SIZES);
    assert DEFAULT_IMAGE_SIZES[1..] == [640, 1024, 1920];
    assert GenerateSrcSet(path, None).value == e0 + ", " + g1;
    var x := e0 + ", ";
    Assoc(x, e1 + ", " + e2 + ", ", e3);
    Assoc(x, e1 + ", " + e2, ", ");
    Assoc(x, e1 + ", ", e2);
    Assoc(x, e1, ", ");
  }

  lemma Assoc(a: string, b: string, c: string)
    ensures a + (b + c) == a + b + c
  {
  }

  // ---------------------------------------------------------------------------
  // The cache
  // ---------------------------------------------------------------------------

  /** A loaded image element. */
  datatype LoadedImage = LoadedImage(src: string)

  /** The service's two caches: loaded images by URL and URLs that failed. */
  class ImageCache {
    var cache: map<string, LoadedImage>
    var failedImages: set<string>

    constructor()
      ensures cache == map[] && failedImages == {}
    {
      cache := map[];
      failedImages := {};
    }

    /** `preloadImage(url)`, with the browser's load outcome `loads` as a
        parameter: a cached image is returned, a known failure gives null
        without another attempt, and otherwise the outcome is recorded. */
    method PreloadImage(url: string, loads: bool) returns (r: Option<LoadedImage>)
      modifies this
      ensures url in old(cache) ==> r == Some(old(cache)[url]) && unchanged(this)
      ensures url !in old(cache) && url in old(failedImages) ==> r == None && unchanged(this)
      ensures url !in old(cache) && url !in old(failedImages) && loads ==>
                r == Some(LoadedImage(url)) && cache == old(cache)[url := LoadedImage(url)]
                && failedImages == old(failedImages)
      ensures url !in old(cache) && url !in old(failedImages) && !loads ==>
                r == None && cache == old(cache) && failedImages == old(failedImages) + {url}
    {
      if url in cache {
        return Some(cache[url]);
      }
      if url in failedImages {
        return None;
      }
      if loads {
        cache := cache[url := LoadedImage(url)];
        r := Some(LoadedImage(url));
      } else {
        failedImages := failedImages + {url};
        r := None;
      }
    }

    /** `clearCache()`: both stores end up empty. */
    method ClearCache()
      modifies this
      ensures cache == map[] && failedImages == {}
    {
      cache := map[];
      failedImages := {};
    }
  }
}

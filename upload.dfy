/** The multer file filter of upload.middleware.js: image extensions only. */
module Upload {
  import opened Wrappers
  import opened ErrorHandler

  /** The alternatives of `/\.(jpg|jpeg|png|gif)$/`, without the dot. */
  const ImageExtensions: set<string> := {"jpg", "jpeg", "png", "gif"}

  const OnlyImages := "Only image files are allowed!"

  predicate EndsWith(s: string, suffix: string)
  {
    |suffix| <= |s| && s[|s| - |suffix|..] == suffix
  }

  /**
   * What the regular expression means: some '.' in the name is followed by
   * one of the extensions and then the end of the string (`$`, no `m` flag).
   */
  ghost predicate RegexMatches(name: string)
  {
    exists k :: 0 <= k < |name| && name[k] == '.' && name[k + 1..] in ImageExtensions
  }

  /** The suffix test that decides the filter. */
  predicate HasImageExtension(name: string)
  {
    EndsWith(name, ".jpg") || EndsWith(name, ".jpeg") || EndsWith(name, ".png") || EndsWith(name, ".gif")
  }

  /** The suffix test and the regular expression accept exactly the same names. */
  lemma ExtensionTestIsRegex(name: string)
    ensures HasImageExtension(name) <==> RegexMatches(name)
  {
    if HasImageExtension(name) {
      var ext := if EndsWith(name, ".jpg") then "jpg" else if EndsWith(name, ".jpeg") then "jpeg"
                 else if EndsWith(name, ".png") then "png" else "gif";
      SuffixWitness(name, ext);
    }
    if RegexMatches(name) {
      var k :| 0 <= k < |name| && name[k] == '.' && name[k + 1..] in ImageExtensions;
      WitnessSuffix(name, k);
    }
  }

  /** A dot followed by an extension up to the end makes the name end in that dotted extension. */
  lemma WitnessSuffix(name: string, k: int)
    requires 0 <= k < |name| && name[k] == '.' && name[k + 1..] in ImageExtensions
    ensures HasImageExtension(name)
  {
    var ext := name[k + 1..];
    assert name[k..] == "." + ext;
    assert |name| - |"." + ext| == k;
    assert EndsWith(name, "." + ext);
    if ext == "jpg" {
    } else if ext == "jpeg" {
    } else if ext == "png" {
    } else {
      assert ext == "gif";
    }
  }

  /** A name ending in "." + ext matches at the position of that dot. */
  lemma SuffixWitness(name: string, ext: string)
    requires ext in ImageExtensions && EndsWith(name, "." + ext)
    ensures RegexMatches(name)
  {
    var k := |name| - |ext| - 1;
    assert name[k..] == "." + ext;
    assert name[k] == '.' && name[k + 1..] == ext;
  }

  /** `fileFilter`: `cb(null, true)` for an image name, `cb(new ApiError(..., 400), false)` otherwise. */
  function FileFilter(originalName: string): (r: Result<bool, Thrown>)
    ensures r.Success? <==> RegexMatches(originalName)
    ensures r.Success? ==> r.value
    ensures r.Failure? ==> r.error == ApiError(OnlyImages, 400)
  {
    ExtensionTestIsRegex(originalName);
    if HasImageExtension(originalName) then Success(true) else Failure(ApiError(OnlyImages, 400))
  }

  /** The match is case-sensitive: an upper-case extension is refused. */
  lemma UpperCaseRefused()
    ensures FileFilter("photo.JPG") == Failure(ApiError(OnlyImages, 400))
  {
    assert !EndsWith("photo.JPG", ".jpg") && !EndsWith("photo.JPG", ".jpeg");
  }

  /** Only the suffix matters: a bare extension and a name with several dots both pass. */
  lemma SuffixOnly()
    ensures FileFilter(".png").Success?
    ensures FileFilter("archive.tar.gif").Success?
  {
    assert EndsWith(".png", ".png");
    assert EndsWith("archive.tar.gif", ".gif");
  }
}

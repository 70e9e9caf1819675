/** How the JavaScript `Sound` turns a file name and an optional base path into the data source
    string it sends to the native `load`. All three revisions share these definitions; the older
    one spells the bundled-file test through `isRelativePath`. */
module JsDataSource {
  import opened Wrappers
  import opened Text
  import opened Bridge

  /** `/^(\/|http(s?)|asset)/.test(path)`: the path starts with `/`, `http`, `https` or `asset`. */
  predicate IsAbsolutePath(path: string) {
    "/" <= path || "http" <= path || "https" <= path || "asset" <= path
  }

  /** The `https` alternative of the pattern adds nothing: every `https` path starts with `http`. */
  lemma AbsolutePathPrefixes(path: string)
    ensures IsAbsolutePath(path) <==> "/" <= path || "http" <= path || "asset" <= path
  {
    if "https" <= path {
      assert path[..4] == "https"[..4];
    }
  }

  /** The older revision's `isRelativePath`. */
  predicate IsRelativePath(path: string) {
    !IsAbsolutePath(path)
  }

  /** A bare name on Android names a raw resource of the application. */
  predicate IsBundledFile(platform: Platform, fileName: string) {
    platform == Android && !IsAbsolutePath(fileName)
  }

  /** The older revision's `IS_ANDROID && isRelativePath(fileName)` is the same test. */
  lemma LegacyBundledTestAgrees(platform: Platform, fileName: string)
    ensures (platform == Android && IsRelativePath(fileName)) <==> IsBundledFile(platform, fileName)
  {
  }

  /** Raw resource names are lower case and carry no extension: the name is lower-cased and its
      last extension dropped. */
  function ParseBundledFileName(fileName: string): (r: string)
    ensures |r| <= |fileName|
    ensures forall i :: 0 <= i < |r| ==> !IsUpper(r[i])
    ensures r == ToLower(StripExtension(fileName))
  {
    ToLowerHasNoUpper(fileName);
    StripExtensionRemovesLastExtension(ToLower(fileName));
    StripExtensionLowerCommute(fileName);
    StripExtension(ToLower(fileName))
  }

  /** `!path` is false only for a non-empty string. */
  predicate PathGiven(path: Option<string>) {
    path.Some? && path.value != ""
  }

  /** `parseDataSource(fileName, path)`. `resolve` stands for `resolveAssetSource`, giving the
      URI of a packaged asset or nothing. */
  function ParseDataSource(platform: Platform, resolve: string -> Option<string>, fileName: string, path: Option<string>): string
  {
    match resolve(fileName)
    case Some(uri) => uri
    case None =>
      if !PathGiven(path) && IsBundledFile(platform, fileName) then ParseBundledFileName(fileName)
      else if PathGiven(path) then path.value + "/" + fileName
      else fileName
  }

  /** What each input can influence: a packaged asset's URI depends on neither the platform
      nor the base path, an empty base path counts as none, and once a base path is given the
      platform no longer matters. */
  lemma ParseDataSourceIndependence(p1: Platform, p2: Platform, resolve: string -> Option<string>, fileName: string,
                                    path1: Option<string>, path2: Option<string>)
    ensures resolve(fileName).Some? ==>
              ParseDataSource(p1, resolve, fileName, path1) == ParseDataSource(p2, resolve, fileName, path2)
    ensures ParseDataSource(p1, resolve, fileName, Some("")) == ParseDataSource(p1, resolve, fileName, None)
    ensures PathGiven(path1) ==>
              ParseDataSource(p1, resolve, fileName, path1) == ParseDataSource(p2, resolve, fileName, path1)
  {
  }

  /** Unless the name is an asset or an Android raw resource name, the name reaches the native
      side intact, at the end of the string, after the base path and a `/` when one is given. */
  lemma ParseDataSourceKeepsName(platform: Platform, resolve: string -> Option<string>, fileName: string, path: Option<string>)
    requires resolve(fileName).None?
    requires PathGiven(path) || !IsBundledFile(platform, fileName)
    ensures var r := ParseDataSource(platform, resolve, fileName, path);
      && |r| >= |fileName|
      && r[|r| - |fileName|..] == fileName
      && (PathGiven(path) ==> r[..|path.value|] == path.value && r[|path.value|] == '/')
      && (!PathGiven(path) ==> r == fileName)
  {
  }

  /** Off Android nothing is rewritten: the result is the asset's URI, the joined path, or the
      name itself. */
  lemma NoRewriteOffAndroid(platform: Platform, resolve: string -> Option<string>, fileName: string, path: Option<string>)
    requires platform != Android
    ensures var r := ParseDataSource(platform, resolve, fileName, path);
      r == fileName || (PathGiven(path) && r == path.value + "/" + fileName) ||
      (resolve(fileName).Some? && r == resolve(fileName).value)
  {
  }

  /** A bundled name loses at most a final `.ext` and its upper case: either the lower-cased name
      is the result, or it is the result followed by a dot and a dot-free, non-empty extension. */
  lemma {:induction false} BundledNameShape(fileName: string)
    ensures var r, lower := ParseBundledFileName(fileName), ToLower(fileName);
      r == lower ||
      (exists ext :: lower == r + "." + ext && ext != [] && '.' !in ext)
  {
    var r, lower := ParseBundledFileName(fileName), ToLower(fileName);
    StripExtensionRemovesLastExtension(lower);
    if r != lower {
      var ext := lower[|r| + 1..];
      assert lower == r + "." + ext;
    }
  }
}

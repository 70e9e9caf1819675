/** Data-source classification of the native module: a source string is tried, in this order, as a
    raw resource bundled with the application, as an `asset:/` path, as an http(s) URL, and last
    as a local file, which must exist. */
module NativeDataSource {
  import opened Wrappers
  import opened Text

  /** What the application package and the device hold. The resource table, the asset manager and
      the file system are platform services, so the model sees only which names they know. */
  datatype Device = Device(packageName: string, rawResources: set<string>, assets: set<string>, files: set<string>)

  /** The four ways a player can be given its content. */
  datatype SourceDescriptor =
    | RawResource(uri: string)
    | Asset(path: string)
    | Network(url: string)
    | LocalFile(path: string)

  /** Why a source could not be set: the exception that rejects the load. */
  datatype LoadError =
    | FileMissing(message: string)
    | AssetMissing(path: string)

  datatype Result<T> = Ok(value: T) | Err(error: LoadError)

  const ASSET_PREFIX := "asset:/"

  /** The characters Java's regular-expression `.` does not match. */
  predicate IsJavaLineTerminator(c: char) {
    c == '\n' || c == '\r' || c == '\U{85}' || c == '\U{2028}' || c == '\U{2029}'
  }

  predicate NoLineTerminator(s: string) {
    forall i :: 0 <= i < |s| ==> !IsJavaLineTerminator(s[i])
  }

  /** `s.matches("^(https?)://.*$")`: the whole string is a scheme, `://`, and one line. */
  predicate IsNetworkUrl(s: string) {
    ("http://" <= s && NoLineTerminator(s[7..])) || ("https://" <= s && NoLineTerminator(s[8..]))
  }

  function RawResourceUri(packageName: string, name: string): string {
    "android.resource://" + packageName + "/raw/" + name
  }

  /** `setMediaPlayerDataSource` with its four helpers: the descriptor the player is given, or the
      exception raised when the content is missing. */
  function Classify(device: Device, dataSource: string): (r: Result<SourceDescriptor>)
    ensures dataSource in device.rawResources ==>
              r == Ok(RawResource(RawResourceUri(device.packageName, dataSource)))
    ensures r.Ok? && r.value.RawResource? ==> dataSource in device.rawResources
    ensures dataSource !in device.rawResources && ASSET_PREFIX <= dataSource ==>
              (r.Ok? <==> RemoveAll(dataSource, ASSET_PREFIX) in device.assets)
    ensures dataSource !in device.rawResources && !(ASSET_PREFIX <= dataSource) ==>
              (r.Ok? <==> IsNetworkUrl(dataSource) || dataSource in device.files)
    ensures r.Ok? && r.value.Asset? ==>
              dataSource !in device.rawResources && ASSET_PREFIX <= dataSource &&
              r.value.path == RemoveAll(dataSource, ASSET_PREFIX) && r.value.path in device.assets
    ensures r.Ok? && r.value.Network? ==>
              dataSource !in device.rawResources && !(ASSET_PREFIX <= dataSource) &&
              IsNetworkUrl(dataSource) && r.value.url == dataSource
    ensures r.Ok? && r.value.LocalFile? ==>
              dataSource !in device.rawResources && !(ASSET_PREFIX <= dataSource) &&
              !IsNetworkUrl(dataSource) && r.value.path == dataSource && dataSource in device.files
    ensures r.Err? ==>
              dataSource !in device.rawResources &&
              if ASSET_PREFIX <= dataSource then r.error == AssetMissing(RemoveAll(dataSource, ASSET_PREFIX))
              else !IsNetworkUrl(dataSource) && dataSource !in device.files &&
                   r.error == FileMissing("File does not exist with name: " + dataSource)
  {
    if dataSource in device.rawResources then
      Ok(RawResource(RawResourceUri(device.packageName, dataSource)))
    else if ASSET_PREFIX <= dataSource then
      var path := RemoveAll(dataSource, ASSET_PREFIX);
      if path in device.assets then Ok(Asset(path)) else Err(AssetMissing(path))
    else if IsNetworkUrl(dataSource) then Ok(Network(dataSource))
    else if dataSource in device.files then Ok(LocalFile(dataSource))
    else Err(FileMissing("File does not exist with name: " + dataSource))
  }

  /** A raw resource wins over a file of the same name, whatever the file system holds. */
  lemma BundledWinsOverFile(device: Device, name: string)
    requires name in device.rawResources && name in device.files
    ensures Classify(device, name).Ok? && Classify(device, name).value.RawResource?
  {
  }

  /** `asset:/` followed by a path that does not itself contain `asset:/` opens exactly that
      path in the asset manager. */
  lemma AssetRoundTrip(device: Device, path: string)
    requires !Contains(path, ASSET_PREFIX) && ASSET_PREFIX + path !in device.rawResources
    ensures Classify(device, ASSET_PREFIX + path) ==
            if path in device.assets then Ok(Asset(path)) else Err(AssetMissing(path))
  {
    RemoveAllLeadingTarget(ASSET_PREFIX, path);
  }

  /** Every source that is neither a known resource nor prefixed with `asset:/` and that names an
      existing file or is a one-line http(s) URL is accepted; the classifier fails only when the
      content it settled on is missing. */
  lemma ClassifyFailsOnlyOnMissingContent(device: Device, dataSource: string)
    requires dataSource !in device.rawResources && !(ASSET_PREFIX <= dataSource)
    ensures Classify(device, dataSource).Err? <==>
            !IsNetworkUrl(dataSource) && dataSource !in device.files
  {
  }

  /** A source that begins with `/` is never taken for an asset or a URL. */
  lemma AbsolutePathIsLocal(device: Device, path: string)
    requires "/" <= path && path !in device.rawResources
    ensures Classify(device, path) ==
            if path in device.files then Ok(LocalFile(path))
            else Err(FileMissing("File does not exist with name: " + path))
  {
    assert path[0] == '/';
  }
}

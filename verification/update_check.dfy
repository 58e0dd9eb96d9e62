/**
 * Deciding whether an update is offered: the installed version as the package manager reports
 * it (with its fallbacks), and the gate `checkUpdate` applies to the fetched manifest.
 * The HTTP request and the JSON decoding are inputs here: a fetch either throws or yields a
 * status code together with the decoded manifest, if the body decoded to one.
 */
module UpdateCheck {
  import opened Optional
  import opened JvmInt
  import opened UpdateData

  const HTTP_OK: int := 200
  const FALLBACK_VERSION_CODE: int32 := 1
  const FALLBACK_VERSION_NAME: string := "1.0"

  /**
   * What `getPackageInfo` gives for the installed package: its 64-bit version code and its
   * version name, which may be null; or it throws.
   */
  datatype PackageLookup = LookupFailed | Installed(longVersionCode: int64, versionName: Option<string>)

  /**
   * `getCurrentVersionCode`: the low 32 bits of the long version code (what `toInt()` and the
   * legacy `versionCode` field both give), or 1 when the lookup throws.
   */
  function CurrentVersionCode(p: PackageLookup): (code: int32)
    ensures p.LookupFailed? ==> code == FALLBACK_VERSION_CODE
    ensures p.Installed? && IsInt(p.longVersionCode) ==> code == p.longVersionCode
    ensures p.Installed? ==> (code - p.longVersionCode) % TWO_32 == 0
  {
    match p
    case LookupFailed => FALLBACK_VERSION_CODE
    case Installed(code, _) => ToInt(code)
  }

  /** `getCurrentVersionName`: the version name, or "1.0" when it is null or the lookup throws. */
  function CurrentVersionName(p: PackageLookup): (name: string)
    ensures p.Installed? && p.versionName.Some? ==> name == p.versionName.value
    ensures p.LookupFailed? || p.versionName.None? ==> name == FALLBACK_VERSION_NAME
  {
    match p
    case LookupFailed => FALLBACK_VERSION_NAME
    case Installed(_, name) => name.GetOr(FALLBACK_VERSION_NAME)
  }

  /**
   * The outcome of fetching the manifest: the connection or the read threw, or a response
   * arrived with a status code and, when the body decoded to a record, that record.
   */
  datatype Fetch = Unreachable | Response(status: int, manifest: Option<UpdateInfo>)

  /**
   * `checkUpdate`: the manifest when the response is OK, decodes, and names a version code
   * strictly greater than the installed one; null otherwise, including every failure.
   */
  function CheckUpdate(fetch: Fetch, installed: PackageLookup): (offer: Option<UpdateInfo>)
    ensures offer.Some? <==>
      fetch.Response? && fetch.status == HTTP_OK && fetch.manifest.Some? &&
      fetch.manifest.value.versionCode > CurrentVersionCode(installed)
    ensures offer.Some? ==> offer == fetch.manifest
  {
    match fetch
    case Unreachable => None
    case Response(status, manifest) =>
      if status != HTTP_OK then None
      else if manifest.None? then None
      else if manifest.value.versionCode > CurrentVersionCode(installed) then manifest
      else None
  }

  /** Once the offered version is installed, the same manifest offers nothing more. */
  lemma NoOfferAfterInstalling(fetch: Fetch, installed: PackageLookup, name: Option<string>)
    requires CheckUpdate(fetch, installed).Some?
    ensures var info := CheckUpdate(fetch, installed).value;
      CheckUpdate(fetch, Installed(info.versionCode, name)).None?
  {
  }

  /**
   * Installing an older build never hides an update: whatever is offered to an install is
   * also offered to any install with a lower version code.
   */
  lemma OfferedToOlderInstalls(fetch: Fetch, code: int32, olderCode: int32, name: Option<string>)
    requires olderCode <= code
    requires CheckUpdate(fetch, Installed(code, name)).Some?
    ensures CheckUpdate(fetch, Installed(olderCode, name)) == CheckUpdate(fetch, Installed(code, name))
  {
  }
}

/** The record the update manifest decodes into. */
module UpdateData {
  import opened JvmInt

  /**
   * The latest published version: `versionCode` is what versions are compared by, the other
   * fields are shown to the user or used for the download; `forceUpdate` defaults to false.
   */
  datatype UpdateInfo = UpdateInfo(
    versionCode: int32,
    versionName: string,
    apkUrl: string,
    updateLog: string,
    forceUpdate: bool := false)

  /** A manifest that does not set `forceUpdate` describes an optional update; the other fields are kept as given. */
  lemma OptionalUnlessForced(versionCode: int32, versionName: string, apkUrl: string, updateLog: string)
    ensures var info := UpdateInfo(versionCode, versionName, apkUrl, updateLog);
      !info.forceUpdate && info == UpdateInfo(versionCode, versionName, apkUrl, updateLog, false)
  {
  }
}

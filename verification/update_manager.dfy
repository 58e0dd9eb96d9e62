/**
 * The `downloadId` the update manager keeps between starting a download and finishing or
 * cancelling it; -1 means that no download is being tracked. The platform download manager is
 * represented by the ids handed to its `remove`.
 */
module UpdateManagerState {
  import opened Optional
  import opened JvmInt

  const NO_DOWNLOAD: int64 := -1

  /**
   * A broadcast delivered to the completion receiver: the intent may be null, and
   * `getLongExtra(EXTRA_DOWNLOAD_ID, -1)` reads the id it carries, -1 when it carries none.
   */
  datatype Broadcast = NullIntent | CompletionIntent(downloadIdExtra: Option<int64>)

  class UpdateManager {
    var downloadId: int64
    /** The ids passed to the download manager's `remove`, oldest first. */
    var removed: seq<int64>

    constructor ()
      ensures downloadId == NO_DOWNLOAD && removed == []
    {
      downloadId := NO_DOWNLOAD;
      removed := [];
    }

    /**
     * The part of `downloadAndInstall` that touches the id: `downloadId = enqueue(request)`.
     * `None` stands for an exception before the id is stored, which leaves it as it was.
     */
    method StartDownload(enqueued: Option<int64>) returns (started: bool)
      modifies this
      ensures started <==> enqueued.Some?
      ensures downloadId == (if started then enqueued.value else old(downloadId))
      ensures removed == old(removed)
    {
      started := enqueued.Some?;
      if started {
        downloadId := enqueued.value;
      }
    }

    /** `cancelDownload`: with a download tracked, remove it and forget its id; otherwise nothing. */
    method CancelDownload()
      modifies this
      ensures downloadId == NO_DOWNLOAD
      ensures removed == old(removed) + (if old(downloadId) == NO_DOWNLOAD then [] else [old(downloadId)])
    {
      if downloadId != NO_DOWNLOAD {
        removed := removed + [downloadId];
        downloadId := NO_DOWNLOAD;
      }
    }

    /**
     * The receiver's test `id == downloadId`: a null intent never matches; otherwise the id the
     * intent carries (or -1) must equal the tracked one. Once nothing is tracked, only an intent
     * that carries no id, or carries -1, matches.
     */
    function IsOwnCompletion(b: Broadcast): (own: bool)
      reads this
      ensures b.NullIntent? ==> !own
      ensures b.CompletionIntent? && b.downloadIdExtra.Some? ==> (own <==> b.downloadIdExtra.value == downloadId)
      ensures downloadId == NO_DOWNLOAD ==> (own <==> b.CompletionIntent? && b.downloadIdExtra.GetOr(-1) == -1)
    {
      match b
      case NullIntent => false
      case CompletionIntent(extra) => extra.GetOr(-1) == downloadId
    }
  }

  /** Cancelling twice removes the download at most once: the second call does nothing. */
  method CancelTwice(m: UpdateManager)
    modifies m
    ensures m.downloadId == NO_DOWNLOAD
    ensures m.removed == old(m.removed) + (if old(m.downloadId) == NO_DOWNLOAD then [] else [old(m.downloadId)])
  {
    m.CancelDownload();
    m.CancelDownload();
  }

  /** After a cancel, the completion broadcast for the download that was cancelled is ignored. */
  method CancelledCompletionIgnored(m: UpdateManager) returns (own: bool)
    modifies m
    ensures old(m.downloadId) != NO_DOWNLOAD ==> !own
  {
    var id := m.downloadId;
    m.CancelDownload();
    own := m.IsOwnCompletion(CompletionIntent(Some(id)));
  }
}

/**
  What the resource manager receives from, and asks of, the host: how an
  operation's inner promise settles (what its callback receives), the outcomes
  the WeChat file-system and download calls report, and a record of the calls
  it issues. The host calls themselves are not modelled; each operation takes
  their outcome as a parameter.
 */
module Host {

  datatype Option<T> = None | Some(value: T)

  /**
    How an operation's inner promise settles, which is what its callback
    receives: the result on success, the error as the first argument on
    failure. The promise handed back to the caller is a different one: it
    always fulfils, with the error as its value on failure. Values the source
    settles with that are not strings (the empty object `{}`, `null`) are
    shown as "".
   */
  datatype Reply = Resolved(value: string) | Rejected(reason: string)

  /** `fs.saveFile`: success reports where the file was moved to. */
  datatype SaveOutcome = Saved(savedFilePath: string) | SaveFailed(reason: string)

  /** `fs.copyFile`, `fs.unlink`, `fs.rmdir`, `fs.unzip`. */
  datatype StoreOutcome = StoreOk | StoreFailed(reason: string)

  /**
    `wx.downloadFile`. On success the host reports one path: the requested
    destination (`res.filePath`) when the request named one, otherwise a
    temporary file (`res.tempFilePath`).
   */
  datatype DownloadOutcome = Downloaded(path: string) | DownloadFailed(reason: string)

  /**
    Reading the completion marker during the update check: either it could not
    be read or parsed (a failed read, empty contents, a JSON syntax error), or
    it parsed and its `zip` field holds the given text ("" when the field is
    missing or falsy).
   */
  datatype MarkerRead = MarkerUnreadable | MarkerParsed(zip: string)

  /** The completion marker `{timestamp, zip}` written after provisioning. */
  datatype Marker = Marker(timestamp: int, zip: string)

  /**
    Everything one provisioning attempt learns from the host: the archive
    download, the extraction, whether the synchronous marker write went
    through (a throw skips the rest of the callback), and the clock reading
    taken for the marker.
   */
  datatype BundleHost = BundleHost(download: DownloadOutcome, unzip: StoreOutcome,
                                   markerWritten: bool, timestamp: int)

  /**
    A host call issued by the manager; the manager keeps a ghost log of them so
    that contracts can say which calls an operation makes, and in what order.
    `DownloadFile.dest` is "" when no destination was requested. Only calls
    that fetch, move or delete files, or read or write the completion marker,
    are logged; the folder scan (`fs.readdir`), access checks
    (`fs.accessSync`), folder creation (`fs.mkdirSync`) and file probes
    (`wx.getFileInfo`) are not.
   */
  datatype HostCall =
    | DownloadFile(url: string, dest: string)
    | SaveFile(src: string, dir: string)
    | CopyFile(src: string, dest: string)
    | Unlink(path: string)
    | RemoveDir(path: string)
    | Unzip(archive: string, dir: string)
    | ReadMarker(path: string)
    | WriteMarker(path: string, marker: Marker)
}

/**
  The bundle lifecycle as values: the configuration the manager is built
  with, what one provisioning attempt asks of the host and when it counts as
  done, when the update check re-provisions, and where configured bundle names
  point before and after provisioning.
 */
module Bundle {
  import opened Paths
  import opened Host
  import opened Namespaces

  /**
    Construction options: the archive url (`zip`, "" for none), the resource
    server (`serverURL`, "" for none) and the configured bundle names.
   */
  datatype Options = Options(zip: string, serverURL: string, publics: seq<string>)

  /** The completion marker lives inside the bundle folder. */
  function MarkerPath(root: string): string
  {
    PublicFullPathName(root, CompleteSign)
  }

  /**
    Whether `downloadZip` resolves. A failed download, or one that reports no
    file, resolves too (with the error, or with nothing); only a failed
    extraction rejects.
   */
  predicate ArchiveAccepted(host: BundleHost)
  {
    match host.download
    case DownloadFailed(_) => true
    case Downloaded(path) => path == "" || host.unzip.StoreOk?
  }

  /**
    The host calls of one provisioning attempt for a non-empty archive url:
    the download, the extraction when the download produced a file, and the
    marker write when the archive was accepted.
   */
  function ProvisionCalls(root: string, zip: string, host: BundleHost): (calls: seq<HostCall>)
    ensures |calls| > 0 && calls[0] == DownloadFile(zip, "")
    ensures forall i :: 0 < i < |calls| ==> !calls[i].DownloadFile?
    ensures WriteMarker(MarkerPath(root), Marker(host.timestamp, zip)) in calls <==> ArchiveAccepted(host)
  {
    var mark := if ArchiveAccepted(host) then [WriteMarker(MarkerPath(root), Marker(host.timestamp, zip))] else [];
    [DownloadFile(zip, "")] + ExtractCalls(root, host) + mark
  }

  /** `downloadZip` extracts into the bundle folder only a download that produced a file. */
  function ExtractCalls(root: string, host: BundleHost): seq<HostCall>
  {
    match host.download
    case Downloaded(path) => if path != "" then [Unzip(path, PublicFullPath(root))] else []
    case DownloadFailed(_) => []
  }

  /**
    The marker is written even when the archive download failed: the failure
    reaches `toDownloadZipFile` as a resolved promise.
   */
  lemma FailedDownloadStillMarks(root: string, zip: string, host: BundleHost)
    requires host.download.DownloadFailed?
    ensures ArchiveAccepted(host)
    ensures ProvisionCalls(root, zip, host)
         == [DownloadFile(zip, ""), WriteMarker(MarkerPath(root), Marker(host.timestamp, zip))]
  {
  }

  /** Only a failed extraction keeps the marker from being written. */
  lemma OnlyFailedExtractionRejects(host: BundleHost)
    ensures !ArchiveAccepted(host) <==>
      host.download.Downloaded? && host.download.path != "" && host.unzip.StoreFailed?
  {
  }

  /**
    The update check re-provisions exactly when the marker names an archive
    and that archive is not the configured one.
   */
  predicate NeedsUpdate(read: MarkerRead, zip: string)
  {
    read.MarkerParsed? && read.zip != "" && read.zip != zip
  }

  /** Same archive: no update; a different archive: update. */
  lemma UpdateOnlyOnChange(recorded: string, zip: string)
    requires recorded != ""
    ensures NeedsUpdate(MarkerParsed(recorded), zip) <==> recorded != zip
    ensures !NeedsUpdate(MarkerParsed(""), zip) && !NeedsUpdate(MarkerUnreadable, zip)
  {
  }

  /**
    The bundle map right after construction, before any provisioning: each
    configured name points at the server, or at its local path when no server
    is configured.
   */
  function Seeded(root: string, options: Options): map<string, string>
  {
    Mapped(map[], options.publics,
           if options.serverURL != "" then Server(options.serverURL) else PublicLocal(root))
  }

  /**
    The bundle map once provisioning has completed: every configured name
    points at its local path.
   */
  function Provisioned(root: string, options: Options): map<string, string>
  {
    Mapped(map[], options.publics, PublicLocal(root))
  }

  /** Remapping the seeded map locally yields the provisioned map. */
  lemma RemapAfterSeed(root: string, options: Options)
    ensures Mapped(Seeded(root, options), options.publics, PublicLocal(root)) == Provisioned(root, options)
  {
    RemapOverrides(map[], options.publics,
                   if options.serverURL != "" then Server(options.serverURL) else PublicLocal(root),
                   PublicLocal(root));
  }

  /**
    Before provisioning completes, a configured bundle name resolves to its
    server url (when a server is configured); a name that is not configured
    does not resolve.
   */
  lemma SeededResolvesRemotely(root: string, options: Options, m: Maps, name: string, present: set<string>)
    requires m.publics == Seeded(root, options)
    ensures options.serverURL != "" && name != "" && name in options.publics ==>
      Resolve(m, name, PublicSign, present).reply == Resolved(ServerFullPathName(name, options.serverURL))
    ensures name !in options.publics ==>
      Resolve(m, name, PublicSign, present).reply == Rejected(NoPublicFile)
  {
    MappedAt(map[], options.publics,
             if options.serverURL != "" then Server(options.serverURL) else PublicLocal(root), name);
  }

  /** After provisioning, a configured bundle name resolves to its local path. */
  lemma ProvisionedResolvesLocally(root: string, options: Options, m: Maps, name: string, present: set<string>)
    requires m.publics == Provisioned(root, options)
    ensures name != "" && name in options.publics ==>
      Resolve(m, name, PublicSign, present).reply == Resolved(PublicFullPathName(root, name))
    ensures name !in options.publics ==>
      Resolve(m, name, PublicSign, present).reply == Rejected(NoPublicFile)
  {
    MappedAt(map[], options.publics, PublicLocal(root), name);
  }
}

/**
  The resource manager `FS`: one object holding the bundle map (`publics`),
  the cache map (`statics`), the scratch map (`temps`) with the url each
  scratch file came from (`mapTempUrls`), and the `completed` flag of bundle
  provisioning. Every operation updates these fields in place; the outcome of
  each host call it makes is a parameter, and the ghost `hostCalls` records
  the calls in the order they are issued.
 */
module ResourceManager {
  import opened Paths
  import opened Host
  import opened Namespaces
  import opened Bundle

  const SaveNoFileName: string := "save no file name"
  const SaveNoTempPath: string := "save no temp file path"
  const SaveToStaticError: string := "save to static error"
  const CopyNoFileName: string := "copy no file name"
  const CopyNoTempPath: string := "copy no temp file path"
  const RemoveNoFileName: string := "remove no file name"

  /** The cache map after the start-up scan; a failed scan leaves it empty. */
  function Listed(root: string, listing: Option<seq<string>>): map<string, string>
  {
    if listing.Some? then Mapped(map[], listing.value, StaticLocal(root)) else map[]
  }

  /**
    The destination a download asks for: the cache file of its name, unless
    it has no name or goes to the scratch space ("" for none).
   */
  function DownloadDest(root: string, name: string, kind: string): string
  {
    if name != "" && kind != TempSign then StaticFullPathName(root, name) else ""
  }

  class FS {
    /** The host's user-data directory. */
    const root: string
    var serverURL: string
    var publics: map<string, string>
    var statics: map<string, string>
    var temps: map<string, string>
    var mapTempUrls: map<string, string>
    var completed: bool
    ghost var hostCalls: seq<HostCall>

    /** The four maps as one value. */
    function Snapshot(): Maps
      reads this
    {
      Maps(publics, statics, temps, mapTempUrls)
    }

    /**
      Construction: seed the bundle map from the configured names, scan the
      cache folder (`listing`, None when the scan fails), then, when an
      archive is configured, either provision it (no marker on disk) or trust
      the marker and point the bundle names at their local files.
     */
    constructor (root: string, options: Options, listing: Option<seq<string>>,
                 markerExists: bool, host: BundleHost)
      ensures this.root == root && serverURL == options.serverURL
      ensures temps == map[] && mapTempUrls == map[]
      ensures statics == Listed(root, listing)
      ensures options.zip == "" ==>
        publics == Seeded(root, options) && !completed && hostCalls == []
      ensures options.zip != "" && markerExists ==>
        publics == Provisioned(root, options) && completed && hostCalls == []
      ensures options.zip != "" && !markerExists ==>
        && hostCalls == ProvisionCalls(root, options.zip, host)
        && completed == (ArchiveAccepted(host) && host.markerWritten)
        && publics == if completed then Provisioned(root, options) else Seeded(root, options)
    {
      this.root := root;
      serverURL := options.serverURL;
      publics, statics, temps := map[], map[], map[];
      completed := false;
      mapTempUrls := map[];
      hostCalls := [];
      new;
      MapPublicServerFiles(options.publics);
      MapStaticFiles(listing);
      if options.zip != "" {
        RemapAfterSeed(root, options);
        if !markerExists {
          ToDownloadZipFile(options.zip, host, Some(options.publics));
        } else {
          MapPublicFiles(options.publics);
          completed := true;
        }
      }
    }

    /**
      Points each configured bundle name at the resource server, or, with no
      server configured, at its local file.
     */
    method MapPublicServerFiles(files: seq<string>)
      modifies this`publics
      ensures publics == Mapped(old(publics), files,
                                if serverURL != "" then Server(serverURL) else PublicLocal(root))
    {
      if serverURL == "" {
        MapPublicFiles(files);
        return;
      }
      var i := 0;
      while i < |files|
        invariant 0 <= i <= |files|
        invariant publics == Mapped(old(publics), files[..i], Server(serverURL))
      {
        var file := files[i];
        if file != "" {
          publics := publics[file := ServerFullPathName(file, serverURL)];
        }
        assert files[..i + 1][..i] == files[..i];
        i := i + 1;
      }
      assert files[..i] == files;
    }

    /** Points each configured bundle name at its file in the bundle folder. */
    method MapPublicFiles(files: seq<string>)
      modifies this`publics
      ensures publics == Mapped(old(publics), files, PublicLocal(root))
    {
      var i := 0;
      while i < |files|
        invariant 0 <= i <= |files|
        invariant publics == Mapped(old(publics), files[..i], PublicLocal(root))
      {
        var file := files[i];
        if file != "" {
          publics := publics[file := PublicFullPathName(root, file)];
        }
        assert files[..i + 1][..i] == files[..i];
        i := i + 1;
      }
      assert files[..i] == files;
    }

    /**
      Registers every file the cache-folder scan lists under its own name;
      a failed scan (None) changes nothing.
     */
    method MapStaticFiles(listing: Option<seq<string>>)
      modifies this`statics
      ensures statics == if listing.Some? then Mapped(old(statics), listing.value, StaticLocal(root))
                         else old(statics)
    {
      if listing.None? {
        return;
      }
      var files := listing.value;
      var i := 0;
      while i < |files|
        invariant 0 <= i <= |files|
        invariant statics == Mapped(old(statics), files[..i], StaticLocal(root))
      {
        var file := files[i];
        if file != "" {
          statics := statics[file := StaticFullPathName(root, file)];
        }
        assert files[..i + 1][..i] == files[..i];
        i := i + 1;
      }
      assert files[..i] == files;
    }

    /**
      The contract of `tsave`: validate both arguments, then register the
      scratch path under the name. No host call is made.
     */
    twostate predicate TempSaved(name: string, tempPath: string, r: Reply)
      reads this
    {
      && (name == "" ==> r == Rejected(SaveNoFileName) && temps == old(temps))
      && (name != "" && tempPath == "" ==> r == Rejected(SaveNoTempPath) && temps == old(temps))
      && (name != "" && tempPath != "" ==> r == Resolved(tempPath) && temps == old(temps)[name := tempPath])
    }

    method TSave(name: string, tempPath: string) returns (r: Reply)
      modifies this`temps
      ensures TempSaved(name, tempPath, r)
    {
      if name == "" {
        return Rejected(SaveNoFileName);
      }
      if tempPath == "" {
        return Rejected(SaveNoTempPath);
      }
      temps := temps[name := tempPath];
      r := Resolved(tempPath);
    }

    /** `tset` forwards to `tsave`. */
    method TSet(name: string, tempPath: string) returns (r: Reply)
      modifies this`temps
      ensures TempSaved(name, tempPath, r)
    {
      r := TSave(name, tempPath);
    }

    /**
      The contract of `save`: validate both arguments before any host call;
      then move the file into the cache folder and register the path the host
      reports, rejecting when it reports none.
     */
    twostate predicate Saved(name: string, tempPath: string, outcome: SaveOutcome, r: Reply)
      reads this
    {
      && (name == "" ==>
            r == Rejected(SaveNoFileName) && statics == old(statics) && hostCalls == old(hostCalls))
      && (name != "" && tempPath == "" ==>
            r == Rejected(SaveNoTempPath) && statics == old(statics) && hostCalls == old(hostCalls))
      && (name != "" && tempPath != "" ==>
            && hostCalls == old(hostCalls) + [SaveFile(tempPath, StaticFullPath(root))]
            && match outcome
               case Saved(path) =>
                 if path != "" then r == Resolved(path) && statics == old(statics)[name := path]
                 else r == Rejected(SaveToStaticError) && statics == old(statics)
               case SaveFailed(reason) =>
                 r == Rejected(reason) && statics == old(statics))
    }

    method Save(name: string, tempPath: string, outcome: SaveOutcome) returns (r: Reply)
      modifies this`statics, this`hostCalls
      ensures Saved(name, tempPath, outcome, r)
    {
      if name == "" {
        return Rejected(SaveNoFileName);
      }
      if tempPath == "" {
        return Rejected(SaveNoTempPath);
      }
      hostCalls := hostCalls + [SaveFile(tempPath, StaticFullPath(root))];
      match outcome {
        case Saved(path) =>
          if path != "" {
            statics := statics[name := path];
            return Resolved(path);
          }
          r := Rejected(SaveToStaticError);
        case SaveFailed(reason) =>
          r := Rejected(reason);
      }
    }

    /** `set` forwards to `save`. */
    method Set(name: string, tempPath: string, outcome: SaveOutcome) returns (r: Reply)
      modifies this`statics, this`hostCalls
      ensures Saved(name, tempPath, outcome, r)
    {
      r := Save(name, tempPath, outcome);
    }

    /**
      Validates both arguments before any host call; then copies the file
      into the cache folder and registers the cache path computed from the
      name (not a path reported by the host).
     */
    method Copy(name: string, tempPath: string, outcome: StoreOutcome) returns (r: Reply)
      modifies this`statics, this`hostCalls
      ensures name == "" ==>
        r == Rejected(CopyNoFileName) && statics == old(statics) && hostCalls == old(hostCalls)
      ensures name != "" && tempPath == "" ==>
        r == Rejected(CopyNoTempPath) && statics == old(statics) && hostCalls == old(hostCalls)
      ensures name != "" && tempPath != "" ==>
        hostCalls == old(hostCalls) + [CopyFile(tempPath, StaticFullPath(root))]
      ensures name != "" && tempPath != "" && outcome.StoreOk? ==>
        && r == Resolved(StaticFullPathName(root, name))
        && statics == old(statics)[name := StaticFullPathName(root, name)]
      ensures name != "" && tempPath != "" && outcome.StoreFailed? ==>
        r == Rejected(outcome.reason) && statics == old(statics)
    {
      if name == "" {
        return Rejected(CopyNoFileName);
      }
      if tempPath == "" {
        return Rejected(CopyNoTempPath);
      }
      hostCalls := hostCalls + [CopyFile(tempPath, StaticFullPath(root))];
      match outcome {
        case StoreOk =>
          var savedFilePath := StaticFullPathName(root, name);
          statics := statics[name := savedFilePath];
          r := Resolved(savedFilePath);
        case StoreFailed(reason) =>
          r := Rejected(reason);
      }
    }

    /**
      The resolver `get`; it reads the maps and changes nothing. `present` is
      what `wx.getFileInfo` would report about each local path.
     */
    method Get(name: string, kind: string, present: set<string>) returns (r: Resolution)
      ensures r == Resolve(Snapshot(), name, kind, present)
    {
      var k := if kind == "" then StaticSign else kind;
      if k == TempSign {
        var fullFileName := if name in temps then temps[name] else "";
        if fullFileName != "" {
          if fullFileName in present {
            return Resolution(Resolved(fullFileName), Some(fullFileName));
          }
          var fileNameUrl := if name in mapTempUrls then mapTempUrls[name] else "";
          if fileNameUrl != "" {
            return Resolution(Resolved(fileNameUrl), Some(fullFileName));
          }
          return Resolution(Rejected(NoTempFile), Some(fullFileName));
        }
        return Resolution(Rejected(NoTempFile), None);
      }
      if k == StaticSign {
        var fullFileName := if name in statics then statics[name] else "";
        if fullFileName != "" {
          return Resolution(Resolved(fullFileName), None);
        }
        return Resolution(Rejected(NoStaticFile), None);
      }
      var fullFileName := if name in publics then publics[name] else "";
      if fullFileName != "" {
        return Resolution(Resolved(fullFileName), None);
      }
      r := Resolution(Rejected(NoPublicFile), None);
    }

    /** `sget`: `get` in the cache. */
    method SGet(name: string) returns (r: Reply)
      ensures r == Resolve(Snapshot(), name, StaticSign, {}).reply
    {
      var res := Get(name, StaticSign, {});
      r := res.reply;
    }

    /** `pget`: `get` in the bundle. */
    method PGet(name: string) returns (r: Reply)
      ensures r == Resolve(Snapshot(), name, PublicSign, {}).reply
    {
      var res := Get(name, PublicSign, {});
      r := res.reply;
    }

    /** `tget`: `get` in the scratch space. */
    method TGet(name: string, present: set<string>) returns (r: Resolution)
      ensures r == Resolve(Snapshot(), name, TempSign, present)
    {
      r := Get(name, TempSign, present);
    }

    /**
      Deletes the cache file of a name. An empty name rejects before any host
      call; a failed delete still resolves, with the host's error, and leaves
      the map as it was.
     */
    method Remove(name: string, outcome: StoreOutcome) returns (r: Reply)
      modifies this`statics, this`hostCalls
      ensures name == "" ==>
        r == Rejected(RemoveNoFileName) && statics == old(statics) && hostCalls == old(hostCalls)
      ensures name != "" ==> hostCalls == old(hostCalls) + [Unlink(StaticFullPathName(root, name))]
      ensures name != "" && outcome.StoreOk? ==>
        r == Resolved(StaticFullPathName(root, name)) && statics == old(statics) - {name}
      ensures name != "" && outcome.StoreFailed? ==>
        r == Resolved(outcome.reason) && statics == old(statics)
    {
      if name == "" {
        return Rejected(RemoveNoFileName);
      }
      var filePath := StaticFullPathName(root, name);
      hostCalls := hostCalls + [Unlink(filePath)];
      match outcome {
        case StoreOk =>
          statics := statics - {name};
          r := Resolved(filePath);
        case StoreFailed(reason) =>
          r := Resolved(reason);
      }
    }

    /**
      Removes the cache folder and, on success, empties the cache map; it
      never rejects. The bundle, the scratch space and the provisioning flag
      are outside its frame.
     */
    method Clear(outcome: StoreOutcome) returns (r: Reply)
      modifies this`statics, this`hostCalls
      ensures hostCalls == old(hostCalls) + [RemoveDir(StaticFullPath(root))]
      ensures outcome.StoreOk? ==> r == Resolved("") && statics == map[]
      ensures outcome.StoreFailed? ==> r == Resolved(outcome.reason) && statics == old(statics)
    {
      hostCalls := hostCalls + [RemoveDir(StaticFullPath(root))];
      match outcome {
        case StoreOk =>
          statics := map[];
          r := Resolved("");
        case StoreFailed(reason) =>
          r := Resolved(reason);
      }
    }

    /**
      Downloads `url` with no argument checks. A scratch download registers
      the file and remembers its url; any other download with a name asks for
      that name's cache file and registers it when the host reports the file.
      A failed download registers nothing.
     */
    method Download(url: string, name: string, kind: string, outcome: DownloadOutcome) returns (r: Reply)
      modifies this`statics, this`temps, this`mapTempUrls, this`hostCalls
      ensures hostCalls == old(hostCalls) + [DownloadFile(url, DownloadDest(root, name, kind))]
      ensures outcome.DownloadFailed? ==>
        && r == Rejected(outcome.reason)
        && statics == old(statics) && temps == old(temps) && mapTempUrls == old(mapTempUrls)
      ensures outcome.Downloaded? && kind == TempSign ==>
        && r == Resolved(outcome.path)
        && temps == old(temps)[name := outcome.path]
        && mapTempUrls == old(mapTempUrls)[name := url]
        && statics == old(statics)
      ensures outcome.Downloaded? && kind != TempSign ==>
        && r == Resolved(outcome.path)
        && temps == old(temps) && mapTempUrls == old(mapTempUrls)
        && statics == if name != "" && outcome.path != "" then old(statics)[name := outcome.path]
                      else old(statics)
    {
      var dest := DownloadDest(root, name, kind);
      hostCalls := hostCalls + [DownloadFile(url, dest)];
      match outcome {
        case Downloaded(path) =>
          var filePath := if dest != "" then path else "";
          var tempFilePath := if dest != "" then "" else path;
          if kind == TempSign {
            temps := temps[name := tempFilePath];
            mapTempUrls := mapTempUrls[name := url];
          } else if filePath != "" {
            statics := statics[name := filePath];
          }
          r := Resolved(if filePath != "" then filePath else tempFilePath);
        case DownloadFailed(reason) =>
          r := Rejected(reason);
      }
    }

    /**
      The contract of `downloadTemp`: a download into the scratch space,
      which on success records both the scratch path and the url.
     */
    twostate predicate TempDownloaded(url: string, name: string, outcome: DownloadOutcome, r: Reply)
      reads this
    {
      && hostCalls == old(hostCalls) + [DownloadFile(url, "")]
      && statics == old(statics)
      && match outcome
         case Downloaded(path) =>
           r == Resolved(path) && temps == old(temps)[name := path]
           && mapTempUrls == old(mapTempUrls)[name := url]
         case DownloadFailed(reason) =>
           r == Rejected(reason) && temps == old(temps) && mapTempUrls == old(mapTempUrls)
    }

    method DownloadTemp(url: string, name: string, outcome: DownloadOutcome) returns (r: Reply)
      modifies this`statics, this`temps, this`mapTempUrls, this`hostCalls
      ensures TempDownloaded(url, name, outcome, r)
    {
      r := Download(url, name, TempSign, outcome);
    }

    /** `tdownload` forwards to `downloadTemp`. */
    method TDownload(url: string, name: string, outcome: DownloadOutcome) returns (r: Reply)
      modifies this`statics, this`temps, this`mapTempUrls, this`hostCalls
      ensures TempDownloaded(url, name, outcome, r)
    {
      r := DownloadTemp(url, name, outcome);
    }

    /**
      Downloads the archive (no name, so nothing is registered) and extracts
      it into the bundle folder. Whether it resolves is `ArchiveAccepted`: a
      failed download resolves too.
     */
    method DownloadZip(url: string, host: BundleHost) returns (resolved: bool)
      modifies this`statics, this`temps, this`mapTempUrls, this`hostCalls
      ensures resolved == ArchiveAccepted(host)
      ensures hostCalls == old(hostCalls) + [DownloadFile(url, "")] + ExtractCalls(root, host)
      ensures statics == old(statics) && temps == old(temps) && mapTempUrls == old(mapTempUrls)
    {
      var d := Download(url, "", "", host.download);
      if d.Rejected? || d.value == "" {
        return true;
      }
      hostCalls := hostCalls + [Unzip(d.value, PublicFullPath(root))];
      resolved := host.unzip.StoreOk?;
    }

    /**
      One provisioning attempt. An empty archive url does nothing. Otherwise,
      once the archive is accepted, the marker `{timestamp, zip}` is written;
      if that write goes through, provisioning is complete and the callback
      (`remap`, when given) points those names at their local files.
     */
    method ToDownloadZipFile(zip: string, host: BundleHost, remap: Option<seq<string>>)
      modifies this`publics, this`statics, this`temps, this`mapTempUrls, this`completed, this`hostCalls
      ensures statics == old(statics) && temps == old(temps) && mapTempUrls == old(mapTempUrls)
      ensures hostCalls == old(hostCalls) + if zip != "" then ProvisionCalls(root, zip, host) else []
      ensures completed == (old(completed) || (zip != "" && ArchiveAccepted(host) && host.markerWritten))
      ensures publics == if zip != "" && ArchiveAccepted(host) && host.markerWritten && remap.Some?
                         then Mapped(old(publics), remap.value, PublicLocal(root))
                         else old(publics)
    {
      if zip == "" {
        return;
      }
      var resolved := DownloadZip(zip, host);
      if !resolved {
        return;
      }
      hostCalls := hostCalls + [WriteMarker(MarkerPath(root), Marker(host.timestamp, zip))];
      if !host.markerWritten {
        return;
      }
      completed := true;
      if remap.Some? {
        MapPublicFiles(remap.value);
      }
    }

    /**
      The update check: read the marker and re-provision (without remapping)
      exactly when the marker names an archive other than the configured
      one. An unreadable marker changes nothing.
     */
    method ToCheckUpdate(zip: string, read: MarkerRead, host: BundleHost)
      modifies this`publics, this`statics, this`temps, this`mapTempUrls, this`completed, this`hostCalls
      ensures publics == old(publics) && statics == old(statics)
      ensures temps == old(temps) && mapTempUrls == old(mapTempUrls)
      ensures hostCalls == old(hostCalls) + [ReadMarker(MarkerPath(root))]
                           + if NeedsUpdate(read, zip) && zip != "" then ProvisionCalls(root, zip, host) else []
      ensures completed == (old(completed) ||
                            (NeedsUpdate(read, zip) && zip != "" && ArchiveAccepted(host) && host.markerWritten))
    {
      hostCalls := hostCalls + [ReadMarker(MarkerPath(root))];
      if read.MarkerParsed? && read.zip != "" && read.zip != zip {
        ToDownloadZipFile(zip, host, None);
      }
    }
  }
}

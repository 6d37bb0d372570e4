# FS resource manager: a verified model

This is a Dafny model of `FS`, the resource manager of the WeChat mini-program package
`packages/fs`. `FS` keeps three namespaces of named files:

- `public` is the bundle. Its file names are configured up front. When a resource server is
  configured they point at it, otherwise at the user-data folder `public` from the start. They are
  pointed at that folder once a provisioning attempt (download of a zip archive, extraction into
  `public`, completion marker) writes its marker, which also happens after a failed download (see
  the list of quirks below).
- `static` is the cache. Files are saved, copied or downloaded into the user-data folder `static`.
- `temp` is the scratch space. Each entry is a host temporary file plus the url it came from.

The model covers:

- the class state (four name maps and the `completed` flag);
- the path builders;
- the loops that fill the maps from name lists;
- every operation that registers or drops a name;
- the resolver `get` and its per-namespace policy;
- the bundle lifecycle: the constructor's choice between provisioning and trusting the completion
  marker, one provisioning attempt, and the update check.

Layout:

- `paths.dfy` (module `Paths`): the path builders, as pure functions.
- `host.dfy` (module `Host`): what the host hands back. Every WeChat call (`fs.saveFile`,
  `fs.copyFile`, `fs.unlink`, `fs.rmdir`, `fs.unzip`, `fs.readdir`, `fs.readFile`,
  `fs.writeFileSync`, `fs.accessSync`, `wx.downloadFile`, `wx.getFileInfo`) is replaced by an
  outcome parameter of the operation that makes it. `Reply` is how an operation's inner promise
  settles, which is what its callback receives. `HostCall` records the calls that move, delete or
  fetch files or touch the completion marker: `wx.downloadFile`, `fs.saveFile`, `fs.copyFile`,
  `fs.unlink`, `fs.rmdir`, `fs.unzip`, and the marker read and write. It does not record
  `fs.readdir`, `fs.accessSync`, `fs.mkdirSync` or `wx.getFileInfo`; the resolver's probe stands
  for the last one.
- `namespaces.dfy` (module `Namespaces`): the four maps as a value. `Mapped` is what one pass of a
  name-list loop does. `Resolve` is the meaning of `get`. The lemmas here relate resolution to the
  writes of the other operations.
- `bundle.dfy` (module `Bundle`): the construction options, and when a provisioning attempt is
  accepted. It also gives the host calls of one attempt, the update-check test, and where
  configured names point before and after provisioning.
- `fs.dfy` (module `ResourceManager`): class `FS`.
  - Its fields are `publics`, `statics`, `temps`, `mapTempUrls`, `completed` and `serverURL`.
  - `root` is the host's user-data directory.
  - The ghost `hostCalls` is the log of the host calls issued, in order.
  - Each method updates the fields in place. Its contract gives the new value of every field it may
    change, in terms of the old values and the host outcome.
  - The loops are proved against `Mapped`, and `Get` against `Resolve`.

Asynchrony is flattened. Each callback chain runs to completion inside the call that starts it,
with the host outcomes given up front. The constructor runs its first provisioning attempt this
way. The update check, which the source schedules on a timer, is the separate method
`ToCheckUpdate`, for the host to call later.

Some behaviours depart from what the code's names and comments suggest. The model follows the code:

- A failed archive download still writes the completion marker and sets `completed`.
  `downloadZip` resolves, not rejects, when the download fails or reports no file
  (index.js:830-835). Only a failed extraction rejects. See `Bundle.FailedDownloadStillMarks`.
- `download` checks neither the name nor the url. It issues the host call whatever they are.
- `remove` and `clear` never reject on a store failure. They resolve with the host's error.
- `tsave` also creates scratch entries, without any download.
- `get` never looks at `completed` (the check is commented out at index.js:632-638). Bundle names
  resolve to whatever `publics` holds at that moment.
- `tsave` writes `self.temps` but never declares `self`. It works only through the global `self`
  that `get` assigns (index.js:574). Before any `get`, the statement throws and the promise
  rejects. The model gives the evident intent: `TSave` writes `temps`.

## Model

| member | source | states |
|---|---|---|
| `Paths.TrimTrailingSlash` | packages/fs/src/index.js:349 | drops exactly one trailing `/` when there is one; otherwise the url is unchanged |
| `Paths.TrimLeadingSlash` | packages/fs/src/index.js:350 | drops exactly one leading `/` when there is one; otherwise the name is unchanged |
| `Paths.ServerFullPathName` | packages/fs/src/index.js:347-353 | the result starts with the url and ends with the name; they meet at exactly one `/` (shared when the url ends or the name starts with one, inserted otherwise); the length clause pins the result down |
| `Paths.FullPathName` | packages/fs/src/index.js:359-363 | the result is `name` directly inside `root/folder/`, the folder defaulting to `static` when omitted |
| `Paths.PublicFullPath` | packages/fs/src/index.js:367-370 | the bundle folder is the child `public` of the user-data directory |
| `Paths.StaticFullPath` | packages/fs/src/index.js:382-385 | the cache folder is the child `static` of the user-data directory |
| `Paths.PublicFullPathName` | packages/fs/src/index.js:375-378 | the result is `name` directly inside the bundle folder |
| `Paths.StaticFullPathName` | packages/fs/src/index.js:390-393 | the result is `name` directly inside the cache folder |
| `Paths.DefaultFolderIsStatic` | packages/fs/src/index.js:360 | omitting the folder is the same as asking for `static` |
| `Paths.FullPathNameInjective` | packages/fs/src/index.js:359-363 | two names in one folder never share a path |
| `Paths.PublicStaticDisjoint` | packages/fs/src/index.js:375-393 | a bundle file's path never equals a cache file's path |
| `Paths.ServerUrlSlashIrrelevant` | packages/fs/src/index.js:349 | a server url with or without a trailing slash gives the same location |
| `Paths.ServerNameSlashIrrelevant` | packages/fs/src/index.js:350 | a name with or without a leading slash gives the same location |
| `Namespaces.MappedAt` | packages/fs/src/index.js:312-321 | after a name-list loop, every non-empty listed name maps to its location; every other key keeps its old value; no other key is added |
| `Namespaces.MappedIsUnion` | packages/fs/src/index.js:312-321 | the loop equals the order-free reference `old map + {listed name -> location}`, so a repeated name is harmless (last write wins with the same value) |
| `Namespaces.RemapOverrides` | packages/fs/src/index.js:101-109 | remapping a name list overrides every location an earlier pass over the same list wrote |
| `Namespaces.Resolve` | packages/fs/src/index.js:573-653 | a missing type means `static`; `static` resolves iff the cache entry is truthy, else rejects `no this static file`; every other non-temp type is looked up in the bundle the same way with `no this public file`; `temp` probes the registered path only when there is one; it returns that path if the host still has it, else the recorded url if truthy, else rejects `no this temp file`; a resolution is never empty |
| `Namespaces.ResolveFrame` | packages/fs/src/index.js:573-653 | resolution of a name depends only on that name's entries in the namespace asked for |
| `Namespaces.CachedResolves` | packages/fs/src/index.js:617-625 | after a non-empty path is registered in the cache, `get` (explicit or default type) returns that path |
| `Namespaces.ClearedCacheMisses` | packages/fs/src/index.js:708-716 | after the cache map is emptied, every cache lookup rejects and the bundle and scratch lookups are unchanged |
| `Namespaces.RemovedMisses` | packages/fs/src/index.js:678-684 | after a name is deleted from the cache, its lookup rejects |
| `Namespaces.ScratchFallback` | packages/fs/src/index.js:584-615 | after a scratch download, `get` probes the local file; it returns the file while the host has it, the url once the file is reclaimed, and rejects only when the url is empty |
| `Bundle.ProvisionCalls` | packages/fs/src/index.js:203-231 | a provisioning attempt downloads exactly once, first, and writes the marker `{timestamp, zip}` iff the archive is accepted |
| `Bundle.FailedDownloadStillMarks` | packages/fs/src/index.js:826-835 | a failed archive download is accepted, so the attempt is the download followed directly by the marker write |
| `Bundle.OnlyFailedExtractionRejects` | packages/fs/src/index.js:830-851 | an attempt is refused iff the download produced a file and its extraction failed |
| `Bundle.UpdateOnlyOnChange` | packages/fs/src/index.js:247-254 | the update check re-provisions iff the marker's `zip` is truthy and differs from the configured one; an unreadable marker or an empty `zip` never does |
| `Bundle.RemapAfterSeed` | packages/fs/src/index.js:101-109 | remapping the seeded bundle map locally gives the fully local map, with no server url left |
| `Bundle.SeededResolvesRemotely` | packages/fs/src/index.js:292-306 | before provisioning, a configured name resolves to its server location, and a name that is not configured does not resolve |
| `Bundle.ProvisionedResolvesLocally` | packages/fs/src/index.js:312-321 | after provisioning, a configured name resolves to its file in the bundle folder |
| `ResourceManager.FS.constructor` | packages/fs/src/index.js:51-122 | empty scratch maps; cache map from the folder scan; with no archive, the seeded bundle map, not completed, and no download and no marker read or write logged (the folder scan, access checks and folder creation are not logged); with an archive and a marker, the local bundle map, completed, no download; with an archive and no marker, exactly one provisioning attempt, completed iff it was accepted and the marker written, and the local map only then |
| `ResourceManager.FS.MapPublicServerFiles` | packages/fs/src/index.js:292-306 | `publics` becomes the `Mapped` result for the server location, or for the local location when no server is configured |
| `ResourceManager.FS.MapPublicFiles` | packages/fs/src/index.js:312-321 | `publics` becomes the `Mapped` result for local bundle paths |
| `ResourceManager.FS.MapStaticFiles` | packages/fs/src/index.js:325-341 | a successful scan maps each listed file to its cache path; a failed scan changes nothing |
| `ResourceManager.FS.TSave` | packages/fs/src/index.js:420-442 | an empty name or empty path rejects with its message and leaves `temps` as it was; otherwise `temps[name]` becomes the path; nothing else may change |
| `ResourceManager.FS.TSet` | packages/fs/src/index.js:410-413 | the same contract as `TSave` |
| `ResourceManager.FS.Save` | packages/fs/src/index.js:450-495 | validation rejects before any host call, with nothing changed; on host success with a path, `statics[name]` becomes that path; with no path it rejects `save to static error`; on failure it rejects with the host's error and `statics` is unchanged |
| `ResourceManager.FS.Set` | packages/fs/src/index.js:400-403 | the same contract as `Save` |
| `ResourceManager.FS.Copy` | packages/fs/src/index.js:502-540 | validation rejects before any host call; on success `statics[name]` becomes the cache path of the name; on failure it rejects and `statics` is unchanged |
| `ResourceManager.FS.Get` | packages/fs/src/index.js:573-654 | returns exactly `Resolve` of the current maps, and has no frame to change anything in |
| `ResourceManager.FS.SGet` | packages/fs/src/index.js:546-549 | `get` in the cache |
| `ResourceManager.FS.PGet` | packages/fs/src/index.js:555-558 | `get` in the bundle |
| `ResourceManager.FS.TGet` | packages/fs/src/index.js:564-567 | `get` in the scratch space, probe included |
| `ResourceManager.FS.Remove` | packages/fs/src/index.js:660-694 | an empty name rejects with no host call; otherwise it unlinks the name's cache file; on success it drops exactly that name from `statics`; on failure it still resolves and changes nothing |
| `ResourceManager.FS.Clear` | packages/fs/src/index.js:699-726 | removes the cache folder; on success `statics` becomes empty; on failure it resolves and changes nothing; the bundle and scratch maps and `completed` are outside its frame |
| `ResourceManager.FS.Download` | packages/fs/src/index.js:737-793 | issues the download with no argument check; the destination is the name's cache file only for a named non-temp download; on success a temp download records the path and the url, and a named non-temp download records a reported file in `statics`; a failure changes no map |
| `ResourceManager.FS.DownloadTemp` | packages/fs/src/index.js:800-811 | a download forced into the scratch space: no destination requested; on success `temps[name]` is the path and `mapTempUrls[name]` the url; `statics` never changes |
| `ResourceManager.FS.TDownload` | packages/fs/src/index.js:812-815 | the same contract as `DownloadTemp` |
| `ResourceManager.FS.DownloadZip` | packages/fs/src/index.js:821-856 | downloads with no name (nothing registered), then extracts into the bundle folder when a file came back; it resolves iff `ArchiveAccepted` |
| `ResourceManager.FS.ToDownloadZipFile` | packages/fs/src/index.js:203-231 | an empty url does nothing; otherwise it makes the calls of one attempt; `completed` is set iff the archive was accepted and the marker write went through, and only then are the callback's names remapped locally |
| `ResourceManager.FS.ToCheckUpdate` | packages/fs/src/index.js:236-259 | reads the marker; makes one provisioning attempt iff the marker's `zip` is truthy and differs from the configured one; never remaps the bundle map; changes no other map |

## Left out

- The singleton. A second construction in the source returns the first instance and ignores its
  options. Each `FS` here is independent.
- Callbacks and the promise glue `toReturn`. Each operation returns how its inner promise settles,
  which is what its callback receives. `set` drops its callback argument in the source; the model
  carries no callbacks at all.
- The promise `toReturn` hands back to the caller never rejects: on failure it fulfils with the
  reason as its value, and an exception thrown inside a callback is swallowed. Only the callback's
  first argument tells success from failure; the model's `Rejected` is that case.
- The `setTimeout` delay before the update check, and any interleaving of asynchronous callbacks.
  The source's `readdir` scan completes after construction; the model applies it inside the
  constructor.
- `Date.now()`. The marker's timestamp is a parameter (`BundleHost.timestamp`).
- `read`, `readJSON`, `write`. They are thin wrappers over file I/O and JSON.
- The marker's JSON encoding. The update check sees only the outcome `MarkerRead`. A `zip` field
  that is not a string is not modelled.
- `toAccessSync` and `toMkDir`. Whether the marker exists is a constructor parameter. Folder
  creation is not modelled or logged.
- Dynamic argument shapes. This covers a function passed as `get`'s type or as `download`'s name,
  and `download`'s string-or-options first argument. The model takes explicit strings. A missing
  argument is the empty string, so a download with no name registers under `""` (the source would
  use the key `"undefined"`).
- Lookups of inherited object keys such as `constructor`. The source's plain objects return
  inherited values for these.
- What `wx.downloadFile` counts as success. An HTTP error status still succeeds there; here success
  is whatever the outcome parameter says.
- `ResourceManager.FS.TSave`: does not model the `ReferenceError` that rejects `tsave` when no
  `get` has run yet; it models the evident intent of writing `temps`.

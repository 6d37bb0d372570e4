/**
  Path builders of the resource manager: where each namespace keeps its files
  under the host's user-data directory, and how a bundle name is located on the
  resource server. All of them are pure string functions.
 */
module Paths {

  /** Folder of the downloaded bundle (the `public` namespace). */
  const PublicSign: string := "public"
  /** Folder of saved and downloaded files (the `static` namespace). */
  const StaticSign: string := "static"
  /** Name of the scratch namespace; it has no folder of its own. */
  const TempSign: string := "temp"
  /** File name of the completion marker inside the bundle folder. */
  const CompleteSign: string := "_COMPLETE_SIGN_"

  predicate EndsWithSlash(s: string) { |s| > 0 && s[|s| - 1] == '/' }

  predicate StartsWithSlash(s: string) { |s| > 0 && s[0] == '/' }

  /** `url.replace(/\/$/, '')`: drops one trailing slash, if there is one. */
  function TrimTrailingSlash(url: string): (r: string)
    ensures EndsWithSlash(url) ==> r + "/" == url
    ensures !EndsWithSlash(url) ==> r == url
  {
    if EndsWithSlash(url) then url[..|url| - 1] else url
  }

  /** `name.replace(/^\//, '')`: drops one leading slash, if there is one. */
  function TrimLeadingSlash(name: string): (r: string)
    ensures StartsWithSlash(name) ==> "/" + r == name
    ensures !StartsWithSlash(name) ==> r == name
  {
    if StartsWithSlash(name) then name[1..] else name
  }

  /**
    Location of a bundle file on the resource server. The url and the name meet
    at exactly one slash: a slash that ends the url or starts the name is
    shared, otherwise one is inserted. Together the clauses determine the
    result completely.
   */
  function ServerFullPathName(name: string, url: string): (r: string)
    ensures |r| == |url| + |name| + 1
                   - (if EndsWithSlash(url) then 1 else 0)
                   - (if StartsWithSlash(name) then 1 else 0)
    ensures url <= r
    ensures !EndsWithSlash(url) ==> url + "/" <= r
    ensures r[|r| - |name|..] == name
    ensures !StartsWithSlash(name) ==> r[|r| - |name| - 1..] == "/" + name
  {
    var u, n := TrimTrailingSlash(url), TrimLeadingSlash(name);
    assert u + "/" + n == u + ("/" + n);
    assert u + "/" + n == (u + "/") + n;
    u + "/" + n
  }

  /** An omitted folder (the empty string) means the static folder. */
  function Folder(folder: string): string
  {
    if folder == "" then StaticSign else folder
  }

  /**
    `root/folder/name`, the folder defaulting to `static`: the file `name`
    directly inside that folder of the user-data directory `root`.
   */
  function FullPathName(root: string, name: string, folder: string): (r: string)
    ensures |r| == |root| + |Folder(folder)| + |name| + 2
    ensures root + "/" + Folder(folder) + "/" <= r
    ensures r[|r| - |name|..] == name
  {
    root + "/" + Folder(folder) + "/" + name
  }

  /** The bundle folder: the child `public` of the user-data directory. */
  function PublicFullPath(root: string): (r: string)
    ensures root + "/" <= r && r[|root| + 1..] == PublicSign
  {
    root + "/" + PublicSign
  }

  /** The cache folder: the child `static` of the user-data directory. */
  function StaticFullPath(root: string): (r: string)
    ensures root + "/" <= r && r[|root| + 1..] == StaticSign
  {
    root + "/" + StaticSign
  }

  /** The file `name` directly inside the bundle folder. */
  function PublicFullPathName(root: string, name: string): (r: string)
    ensures PublicFullPath(root) + "/" <= r
    ensures |r| == |PublicFullPath(root)| + 1 + |name|
    ensures r[|r| - |name|..] == name
  {
    FullPathName(root, name, PublicSign)
  }

  /** The file `name` directly inside the cache folder. */
  function StaticFullPathName(root: string, name: string): (r: string)
    ensures StaticFullPath(root) + "/" <= r
    ensures |r| == |StaticFullPath(root)| + 1 + |name|
    ensures r[|r| - |name|..] == name
  {
    FullPathName(root, name, StaticSign)
  }

  /** Leaving the folder out is the same as asking for the static folder. */
  lemma DefaultFolderIsStatic(root: string, name: string)
    ensures FullPathName(root, name, "") == StaticFullPathName(root, name)
  {
  }

  /** Different names in one folder never share a local path. */
  lemma FullPathNameInjective(root: string, folder: string, a: string, b: string)
    requires FullPathName(root, a, folder) == FullPathName(root, b, folder)
    ensures a == b
  {
  }

  /** A bundle file and a cache file never share a local path. */
  lemma PublicStaticDisjoint(root: string, a: string, b: string)
    ensures PublicFullPathName(root, a) != StaticFullPathName(root, b)
  {
    var p, s := PublicFullPathName(root, a), StaticFullPathName(root, b);
    assert (root + "/" + PublicSign + "/")[|root| + 1] == 'p';
    assert (root + "/" + StaticSign + "/")[|root| + 1] == 's';
    assert p[|root| + 1] == 'p';
    assert s[|root| + 1] == 's';
  }

  /** A trailing slash on the server url makes no difference. */
  lemma ServerUrlSlashIrrelevant(name: string, url: string)
    requires !EndsWithSlash(url)
    ensures ServerFullPathName(name, url + "/") == ServerFullPathName(name, url)
  {
  }

  /** A leading slash on the name makes no difference. */
  lemma ServerNameSlashIrrelevant(name: string, url: string)
    requires !StartsWithSlash(name)
    ensures ServerFullPathName("/" + name, url) == ServerFullPathName(name, url)
  {
  }
}

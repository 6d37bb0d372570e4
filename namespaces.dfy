/**
  The three namespaces as values: name-to-location maps for the bundle
  (`publics`), the cache (`statics`) and the scratch space (`temps`, with
  `tempUrls` holding the remote url each scratch file came from). This module
  gives the meaning of the manager's name-list loops (`Mapped`) and of its
  resolver (`Resolve`); the class in ResourceManager is proved against both.
 */
module Namespaces {
  import opened Paths
  import opened Host

  const NoTempFile: string := "no this temp file"
  const NoStaticFile: string := "no this static file"
  const NoPublicFile: string := "no this public file"

  datatype Maps = Maps(publics: map<string, string>, statics: map<string, string>,
                       temps: map<string, string>, tempUrls: map<string, string>)

  /**
    A property lookup on one of the manager's plain objects: a missing name
    reads as "", which the source treats like any other falsy value.
   */
  function Entry(m: map<string, string>, name: string): string
  {
    if name in m then m[name] else ""
  }

  /** Where a name-list loop points each name. */
  datatype Target = PublicLocal(root: string) | StaticLocal(root: string) | Server(url: string)

  function Locate(t: Target, name: string): string
  {
    match t
    case PublicLocal(root) => PublicFullPathName(root, name)
    case StaticLocal(root) => StaticFullPathName(root, name)
    case Server(url) => ServerFullPathName(name, url)
  }

  /**
    The effect of one pass of a name-list loop over `files`, in order, on the
    map `m`: every non-empty name is pointed at `Locate(t, name)`; empty names
    are skipped.
   */
  function Mapped(m: map<string, string>, files: seq<string>, t: Target): map<string, string>
    decreases |files|
  {
    if files == [] then m
    else
      var before := Mapped(m, files[..|files| - 1], t);
      var file := files[|files| - 1];
      if file != "" then before[file := Locate(t, file)] else before
  }

  /** The names a name-list loop writes, each with its location. */
  function Named(files: seq<string>, t: Target): map<string, string>
  {
    map name | name in files && name != "" :: Locate(t, name)
  }

  /**
    After a name-list loop, a non-empty listed name is mapped to its location;
    every other key keeps its old value; no other key appears.
   */
  lemma {:induction false} MappedAt(m: map<string, string>, files: seq<string>, t: Target, k: string)
    ensures k in Mapped(m, files, t) <==> k in m || (k != "" && k in files)
    ensures k != "" && k in files ==> Mapped(m, files, t)[k] == Locate(t, k)
    ensures (k == "" || k !in files) && k in m ==> Mapped(m, files, t)[k] == m[k]
  {
    if files != [] {
      var init, last := files[..|files| - 1], files[|files| - 1];
      var before := Mapped(m, init, t);
      assert Mapped(m, files, t) == if last != "" then before[last := Locate(t, last)] else before;
      assert k in files <==> k in init || k == last by {
        assert files == init + [last];
      }
      MappedAt(m, init, t, k);
    }
  }

  /**
    The loop agrees with an order-free reference: the old map overridden by
    the listed names. Repeating a name changes nothing, so the last write and
    the first write agree.
   */
  lemma MappedIsUnion(m: map<string, string>, files: seq<string>, t: Target)
    ensures Mapped(m, files, t) == m + Named(files, t)
  {
    var r, u := Mapped(m, files, t), m + Named(files, t);
    forall k | true
      ensures k in r <==> k in u
      ensures k in r ==> r[k] == u[k]
    {
      MappedAt(m, files, t, k);
    }
  }

  /**
    Remapping a name list overrides every location an earlier pass over the
    same list wrote: after provisioning, no configured name still points at
    the server.
   */
  lemma RemapOverrides(m: map<string, string>, files: seq<string>, first: Target, second: Target)
    ensures Mapped(Mapped(m, files, first), files, second) == Mapped(m, files, second)
  {
    MappedIsUnion(m, files, first);
    MappedIsUnion(Mapped(m, files, first), files, second);
    MappedIsUnion(m, files, second);
    var a, b := Named(files, first), Named(files, second);
    assert a.Keys == b.Keys;
    assert (m + a) + b == m + b;
  }

  /** A missing or function-valued namespace argument (shown as "") means `static`. */
  function Kind(kind: string): string
  {
    if kind == "" then StaticSign else kind
  }

  /**
    What `get` settles with, and the path it asks `wx.getFileInfo` about
    (None when it asks nothing). `present` is the set of local files the host
    reports as existing.
   */
  datatype Resolution = Resolution(reply: Reply, probe: Option<string>)

  /**
    The resolver. `temp` trusts a scratch path only when the host still has
    the file, and otherwise falls back to the url it came from; `static` and
    every other namespace (treated as `public`) are plain lookups.
   */
  function Resolve(m: Maps, name: string, kind: string, present: set<string>): (r: Resolution)
    ensures r.reply.Resolved? ==> r.reply.value != ""
    ensures r.probe.Some? <==> Kind(kind) == TempSign && Entry(m.temps, name) != ""
    ensures r.probe.Some? ==> r.probe.value == m.temps[name]
    ensures Kind(kind) == TempSign ==>
      && (r.reply.Resolved? <==> r.probe.Some? && (r.probe.value in present || Entry(m.tempUrls, name) != ""))
      && (r.reply.Resolved? ==>
            r.reply.value == if r.probe.value in present then r.probe.value else m.tempUrls[name])
      && (r.reply.Rejected? ==> r.reply.reason == NoTempFile)
    ensures Kind(kind) == StaticSign ==>
      && (r.reply.Resolved? <==> Entry(m.statics, name) != "")
      && (r.reply.Resolved? ==> r.reply.value == m.statics[name])
      && (r.reply.Rejected? ==> r.reply.reason == NoStaticFile)
    ensures Kind(kind) != TempSign && Kind(kind) != StaticSign ==>
      && (r.reply.Resolved? <==> Entry(m.publics, name) != "")
      && (r.reply.Resolved? ==> r.reply.value == m.publics[name])
      && (r.reply.Rejected? ==> r.reply.reason == NoPublicFile)
  {
    if Kind(kind) == TempSign then
      var local := Entry(m.temps, name);
      if local == "" then Resolution(Rejected(NoTempFile), None)
      else if local in present then Resolution(Resolved(local), Some(local))
      else if Entry(m.tempUrls, name) != "" then Resolution(Resolved(m.tempUrls[name]), Some(local))
      else Resolution(Rejected(NoTempFile), Some(local))
    else if Kind(kind) == StaticSign then
      if Entry(m.statics, name) != "" then Resolution(Resolved(m.statics[name]), None)
      else Resolution(Rejected(NoStaticFile), None)
    else
      if Entry(m.publics, name) != "" then Resolution(Resolved(m.publics[name]), None)
      else Resolution(Rejected(NoPublicFile), None)
  }

  /**
    Resolution of a name depends on that name's entries in the namespace asked
    for and nothing else: writes to other names, or to other namespaces, leave
    it as it was.
   */
  lemma ResolveFrame(m: Maps, m': Maps, name: string, kind: string, present: set<string>)
    requires Kind(kind) == TempSign ==>
      Entry(m.temps, name) == Entry(m'.temps, name) && Entry(m.tempUrls, name) == Entry(m'.tempUrls, name)
    requires Kind(kind) == StaticSign ==> Entry(m.statics, name) == Entry(m'.statics, name)
    requires Kind(kind) != TempSign && Kind(kind) != StaticSign ==>
      Entry(m.publics, name) == Entry(m'.publics, name)
    ensures Resolve(m, name, kind, present) == Resolve(m', name, kind, present)
  {
  }

  /** After a non-empty path is registered in the cache, `get` returns it. */
  lemma CachedResolves(m: Maps, name: string, path: string, present: set<string>)
    requires path != ""
    ensures Resolve(m.(statics := m.statics[name := path]), name, StaticSign, present).reply == Resolved(path)
    ensures Resolve(m.(statics := m.statics[name := path]), name, "", present).reply == Resolved(path)
  {
  }

  /**
    After the cache is emptied, every cache lookup misses, and every other
    namespace resolves as before.
   */
  lemma ClearedCacheMisses(m: Maps, name: string, kind: string, present: set<string>)
    ensures Kind(kind) == StaticSign ==>
      Resolve(m.(statics := map[]), name, kind, present).reply == Rejected(NoStaticFile)
    ensures Kind(kind) != StaticSign ==>
      Resolve(m.(statics := map[]), name, kind, present) == Resolve(m, name, kind, present)
  {
  }

  /** After a name is removed from the cache, its lookup misses. */
  lemma RemovedMisses(m: Maps, name: string, present: set<string>)
    ensures Resolve(m.(statics := m.statics - {name}), name, StaticSign, present).reply == Rejected(NoStaticFile)
  {
  }

  /**
    After a scratch download registers `local` with the url it came from,
    `get` probes `local` and returns it while the host still has it, and the
    url once the host has reclaimed it.
   */
  lemma ScratchFallback(m: Maps, name: string, local: string, url: string, present: set<string>)
    requires local != ""
    ensures var r := Resolve(m.(temps := m.temps[name := local], tempUrls := m.tempUrls[name := url]),
                             name, TempSign, present);
      && r.probe == Some(local)
      && r.reply == if local in present then Resolved(local)
                    else if url != "" then Resolved(url)
                    else Rejected(NoTempFile)
  {
  }
}

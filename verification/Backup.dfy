/**
Writing a backup, one file-system call at a time, with power lost after any of them.

A volume holds what the calls have made of the backup directory: which contents are synced, which names are. A
crash keeps what was synced and any part of the rest. The volume remembers every state it went through.
*/
module Backup {
  import opened Wrappers
  import opened Text
  import opened Archive

  /** `linked` says that the name itself is on disk: its directory was synced since. */
  datatype Node = FileNode(content: Content, synced: bool, linked: bool) | DirNode(linked: bool)

  type Nodes = map<Path, Node>

  function ItemOf(n: Node): Item { if n.FileNode? then FileItem(n.content) else DirItem }

  function View(nodes: Nodes): Files { map p | p in nodes :: ItemOf(nodes[p]) }

  // ----- crashes

  predicate Rooted(files: Files, p: Path) { |p| <= 1 || Parent(p) in files }

  /**
  `image` may be what a crash leaves of `nodes`: synced names and contents stay, an unsynced name may be gone and
  everything below it with it, an unsynced content may be torn.
  */
  ghost predicate CrashImage(nodes: Nodes, image: Files) {
    && (forall p :: p in image ==>
          p in nodes && p != [] && Rooted(image, p)
          && (image[p] == ItemOf(nodes[p]) || (nodes[p].FileNode? && !nodes[p].synced && image[p] == FileItem(Torn))))
    && (forall p :: p in nodes && p != [] && nodes[p].linked && Rooted(image, p) ==> p in image)
  }

  predicate Solid(n: Node) { n.linked && (n.FileNode? ==> n.synced) }

  /** Every name hangs below a name that is there. */
  ghost predicate Connected(nodes: Nodes) { forall p :: p in nodes ==> p != [] && (|p| == 1 || Parent(p) in nodes) }

  /** A manifest may be there only once everything else is complete and on disk, and it describes exactly that. */
  ghost predicate ManifestLast(src: Source, pass: Option<string>, nodes: Nodes) {
    [ManifestFile] in nodes ==>
      && ItemOf(nodes[[ManifestFile]]) in {FileItem(Doc(ManifestOf(src, pass.Some?))), FileItem(Torn)}
      && Connected(nodes)
      && (forall p :: p in nodes && p != [ManifestFile] ==> Solid(nodes[p]))
      && View(nodes - {[ManifestFile]}) == Payload(src, pass) && (forall p :: p in nodes && |p| > 1 ==> Parent(p) != [ManifestFile])
  }

  lemma {:induction false} SolidSurvives(nodes: Nodes, image: Files, p: Path)
    requires CrashImage(nodes, image) && Connected(nodes) && p in nodes && p != [ManifestFile]
    requires forall q :: q in nodes && q != [ManifestFile] ==> Solid(nodes[q])
    requires forall q :: q in nodes && |q| > 1 ==> Parent(q) != [ManifestFile]
    ensures p in image && image[p] == ItemOf(nodes[p])
    decreases |p|
  {
    if |p| > 1 { SolidSurvives(nodes, image, Parent(p)); }
  }

  lemma DataSurvives(src: Source, pass: Option<string>, nodes: Nodes, image: Files, p: Path)
    requires ManifestLast(src, pass, nodes) && CrashImage(nodes, image) && [ManifestFile] in nodes && p != [ManifestFile]
    ensures p in image <==> p in Payload(src, pass)
    ensures p in image ==> image[p] == Payload(src, pass)[p]
  {
    assert View(nodes - {[ManifestFile]}) == Payload(src, pass);
    hide Payload, Connected, Solid;
    if p in nodes {
      assert p in nodes - {[ManifestFile]};
      SolidSurvives(nodes, image, p);
    }
  }

  /**
  Crash safety: at any state of the protocol and whatever the crash takes, a manifest that is still there and
  parses describes the set, and the set is there in full, so it restores just as the finished backup does.
  */
  lemma SurvivingManifestIsComplete(src: Source, pass: Option<string>, nodes: Nodes, image: Files, m: Manifest)
    requires ManifestLast(src, pass, nodes) && CrashImage(nodes, image)
    requires [ManifestFile] in image && image[[ManifestFile]] == FileItem(Doc(m))
    ensures m == ManifestOf(src, pass.Some?) && image == BackupSet(src, pass)
  {
    hide Payload, ManifestOf, Connected, Solid, View;
    forall p | p != [ManifestFile]
      ensures (p in image <==> p in Payload(src, pass)) && (p in image ==> image[p] == Payload(src, pass)[p])
    {
      DataSurvives(src, pass, nodes, image, p);
    }
  }

  /** A crash at any state leaves either no readable manifest or a set that restores to exactly what was captured. */
  lemma CrashedBackupRestores(src: Source, pass: Option<string>, nodes: Nodes, image: Files, m: Manifest)
    requires ManifestLast(src, pass, nodes) && CrashImage(nodes, image)
    requires [ManifestFile] in image && image[[ManifestFile]] == FileItem(Doc(m))
    requires WellNamed(src) && (pass.Some? ==> !Blank(pass.value))
    ensures Restorable(image, pass) == if Refused(src) then Err(PhoenixdCorrelationLost) else Ok(Captured(src))
  {
    hide *;
    SurvivingManifestIsComplete(src, pass, nodes, image, m);
    RoundTrip(src, pass);
  }

  // ----- the calls

  /** Every state since `old` came before the manifest. */
  predicate Grew(before: seq<Nodes>, after: seq<Nodes>) {
    before <= after && forall i :: |before| <= i < |after| ==> [ManifestFile] !in after[i]
  }

  /** Everything under `at` is synced, names and contents; `at` itself waits for its own directory. */
  ghost predicate SolidBelow(nodes: Nodes, at: Path) {
    forall p :: p in nodes && at <= p ==> (nodes[p].FileNode? ==> nodes[p].synced) && (p != at ==> nodes[p].linked)
  }

  /** `now` is `before` plus the files `more`, none of them there before. */
  ghost predicate Added(before: Nodes, now: Nodes, more: Files) {
    && (forall p :: p in now <==> p in before || p in more)
    && (forall p :: p in before ==> p !in more && now[p] == before[p])
    && (forall p :: p in more ==> ItemOf(now[p]) == more[p])
  }

  /** The names in `dir` are on disk. */
  function Synced(nodes: Nodes, dir: Path): Nodes {
    map p | p in nodes :: if p != [] && Parent(p) == dir then nodes[p].(linked := true) else nodes[p]
  }

  predicate Lacks(nodes: Nodes, name: Name) { [name] !in nodes }

  /** All but the top-level names is on disk. */
  predicate Pending(nodes: Nodes) {
    forall p :: p in nodes ==> p != [] && (nodes[p].FileNode? ==> nodes[p].synced) && (|p| > 1 ==> nodes[p].linked)
  }

  /** On a `reliable` volume every call works; on any other each may fail. */
  class Volume {
    const reliable: bool
    var nodes: Nodes
    ghost var past: seq<Nodes>

    constructor (reliable: bool)
      ensures this.reliable == reliable && nodes == map[] && past == []
    {
      this.reliable := reliable;
      nodes, past := map[], [];
    }

    /** Create and write a file; a failed write may leave a torn one. */
    method Write(p: Path, c: Content) returns (ok: bool)
      requires p != [] && p !in nodes
      modifies this
      ensures past == old(past) + [nodes] && (reliable ==> ok)
      ensures ok ==> nodes == old(nodes)[p := FileNode(c, false, false)]
      ensures !ok ==> nodes == old(nodes) || nodes == old(nodes)[p := FileNode(Torn, false, false)]
    {
      ok := *;
      if reliable { ok := true; }
      var created := *;
      if ok {
        nodes := nodes[p := FileNode(c, false, false)];
      } else if created {
        nodes := nodes[p := FileNode(Torn, false, false)];
      }
      past := past + [nodes];
    }

    method MakeDir(p: Path) returns (ok: bool)
      requires p != [] && p !in nodes
      modifies this
      ensures past == old(past) + [nodes] && (reliable ==> ok)
      ensures nodes == if ok then old(nodes)[p := DirNode(false)] else old(nodes)
    {
      ok := *;
      if reliable { ok := true; }
      if ok { nodes := nodes[p := DirNode(false)]; }
      past := past + [nodes];
    }

    method FsyncFile(p: Path) returns (ok: bool)
      requires p in nodes && nodes[p].FileNode?
      modifies this
      ensures past == old(past) + [nodes] && (reliable ==> ok)
      ensures nodes == if ok then old(nodes)[p := old(nodes)[p].(synced := true)] else old(nodes)
    {
      ok := *;
      if reliable { ok := true; }
      if ok { nodes := nodes[p := nodes[p].(synced := true)]; }
      past := past + [nodes];
    }

    /** Sync a directory's names. */
    method FsyncDir(dir: Path) returns (ok: bool)
      modifies this
      ensures past == old(past) + [nodes] && (reliable ==> ok)
      ensures nodes == if ok then Synced(old(nodes), dir) else old(nodes)
      ensures nodes.Keys == old(nodes.Keys)
    {
      ok := *;
      if reliable { ok := true; }
      if ok { nodes := Synced(nodes, dir); }
      past := past + [nodes];
    }

    /** One file of the set: written, then synced. */
    method PutFile(p: Path, c: Content) returns (ok: bool)
      requires p != [] && p != [ManifestFile] && p !in nodes && [ManifestFile] !in nodes
      modifies this
      ensures Grew(old(past), past) && [ManifestFile] !in nodes
      ensures ok ==> nodes == old(nodes)[p := FileNode(c, true, false)]
      ensures reliable ==> ok
    {
      ok := Write(p, c);
      if ok { ok := FsyncFile(p); }
    }

    /** copy_if_present, and vacuum_if_present: an absent artifact is not an error. */
    method PutOptional(name: Name, data: Option<string>) returns (ok: bool)
      requires name != ManifestFile && Lacks(nodes, name) && [ManifestFile] !in nodes && Pending(nodes)
      modifies this
      ensures Grew(old(past), past) && [ManifestFile] !in nodes
      ensures ok ==> Pending(nodes) && View(nodes) == old(View(nodes)) + OptionalFile(name, data)
      ensures ok ==> forall other :: other != name && Lacks(old(nodes), other) ==> Lacks(nodes, other)
      ensures reliable ==> ok
    {
      ok := true;
      if data.Some? { ok := PutFile([name], Bytes(data.value)); }
    }

    /** copy_dir_recursive: files and subdirectories in listing order; a symlink refuses the whole copy. */
    method CopyDir(t: Tree, at: Path) returns (ok: bool)
      requires t.TDir? && Named(t) && at != [] && at[0] != ManifestFile && [ManifestFile] !in nodes
      requires FreeBelow(nodes, at)
      modifies this
      ensures Grew(old(past), past) && [ManifestFile] !in nodes
      ensures ok ==> LinkFree(t) && Added(old(nodes), nodes, Flat(t, at)) && SolidBelow(nodes, at)
      ensures reliable && LinkFree(t) ==> ok
      decreases t
    {
      hide Added, Copying, SolidBelow, FreeBelow, Synced, FlatFirst, Flat, Named;
      AtIsFree(nodes, at);
      ok := MakeDir(at);
      if !ok { return; }
      CopyStarts(old(nodes), nodes, t, at);
      var i := 0;
      while i < |t.children|
        invariant 0 <= i <= |t.children| && [ManifestFile] !in nodes && Grew(old(past), past)
        invariant forall j :: 0 <= j < i ==> LinkFree(t.children[j].1)
        invariant Copying(old(nodes), nodes, t, i, at)
      {
        ok := CopyChild(t, i, at, old(nodes));
        if !ok { return; }
        i := i + 1;
      }
      ghost var copied := nodes;
      ok := FsyncDir(at);
      if ok { CopyEnds(old(nodes), copied, t, at); }
    }

    /** One entry of the listing. */
    method CopyChild(t: Tree, i: nat, at: Path, ghost before: Nodes) returns (ok: bool)
      requires t.TDir? && Named(t) && i < |t.children| && at != [] && at[0] != ManifestFile && [ManifestFile] !in nodes
      requires FreeBelow(before, at) && Copying(before, nodes, t, i, at)
      modifies this
      ensures Grew(old(past), past) && [ManifestFile] !in nodes
      ensures ok ==> LinkFree(t.children[i].1) && Copying(before, nodes, t, i + 1, at)
      ensures reliable && LinkFree(t.children[i].1) ==> ok
      decreases t, 0
    {
      var child, to := t.children[i].1, at + [Other(t.children[i].0)];
      FreshChild(t, i, at, before, nodes);
      match child {
        case TLink => return false;
        case TDir(_) => ok := CopyDir(child, to);
        case TFile(c) =>
          ok := PutFile(to, c);
          if ok { FileAdded(old(nodes), nodes, to, c); }
      }
      if ok { ChildCopied(t, i, at, before, old(nodes), nodes); }
    }

    /** Everything is written and synced; now the names, then the manifest, then its name. */
    method Finish(src: Source, pass: Option<string>) returns (r: Option<Manifest>)
      requires WellNamed(src) && Pending(nodes) && [ManifestFile] !in nodes && View(nodes) == Payload(src, pass)
      requires AlwaysManifestLast(src, pass, past)
      modifies this
      ensures AlwaysManifestLast(src, pass, past)
      ensures r.Some? ==> r.value == ManifestOf(src, pass.Some?) && View(nodes) == BackupSet(src, pass) && AllSolid(nodes)
      ensures reliable ==> r.Some?
    {
      hide Pending, Synced, View, Payload, BackupSet, ManifestOf, ManifestLast, AllSolid;
      WithoutManifest(src, pass, nodes);
      var ok := FsyncDir([]);
      WithoutManifest(src, pass, nodes);
      if !ok { return None; }
      NamesSolid(src, pass, old(nodes), nodes);
      ghost var data := nodes;
      var m := ManifestOf(src, pass.Some?);
      ok := Write([ManifestFile], Doc(m));
      ManifestOnTop(src, pass, data, FileNode(Torn, false, false));
      ManifestOnTop(src, pass, data, FileNode(Doc(m), false, false));
      if !ok { return None; }
      ok := FsyncFile([ManifestFile]);
      ManifestOnTop(src, pass, data, FileNode(Doc(m), true, false));
      if !ok { return None; }
      assert nodes == data[[ManifestFile] := FileNode(Doc(m), true, false)];
      ok := FsyncDir([]);
      SyncTop(data, FileNode(Doc(m), true, false));
      ManifestOnTop(src, pass, data, FileNode(Doc(m), true, true));
      if !ok { return None; }
      r := Some(m);
    }

    method PutSubtree(src: Source) returns (ok: bool)
      requires WellNamed(src) && Pending(nodes) && [ManifestFile] !in nodes && FreeBelow(nodes, [FedimintDir])
      modifies this
      ensures Grew(old(past), past) && [ManifestFile] !in nodes
      ensures ok ==> NoLinks(src) && Pending(nodes) && View(nodes) == old(View(nodes)) + Subtree(src)
      ensures ok ==> forall p :: p in nodes ==> p in old(nodes) || [FedimintDir] <= p
      ensures reliable && NoLinks(src) ==> ok
    {
      ok := true;
      if src.fedimint.Some? {
        var t := TDir(src.fedimint.value);
        ok := CopyDir(t, [FedimintDir]);
        if ok { SubtreeAdded(old(nodes), nodes, t); }
      }
    }

    /** The database and the subtree. */
    method PutBooks(src: Source) returns (ok: bool)
      requires WellNamed(src) && nodes == map[]
      modifies this
      ensures Grew(old(past), past) && [ManifestFile] !in nodes
      ensures ok ==> NoLinks(src) && Pending(nodes) && View(nodes) == map[[StateDbFile] := FileItem(Database(src.db))] + Subtree(src)
      ensures ok ==> forall name :: name != StateDbFile && name != FedimintDir ==> Lacks(nodes, name)
      ensures reliable && NoLinks(src) ==> ok
    {
      hide Pending, FreeBelow, View, Subtree, NoLinks, WellNamed;
      ok := PutFile([StateDbFile], Database(src.db));
      if !ok { return; }
      OneFile(nodes, StateDbFile, Database(src.db));
      ok := PutSubtree(src);
      if ok {
        forall name | name != StateDbFile && name != FedimintDir ensures Lacks(nodes, name) {
          assert [name][0] != [FedimintDir][0] && [name][0] != [StateDbFile][0];
        }
      }
    }

    /** The flat artifacts, in the order they are copied. */
    method PutArtifacts(src: Source) returns (ok: bool)
      requires WellNamed(src) && nodes == map[]
      modifies this
      ensures Grew(old(past), past) && [ManifestFile] !in nodes
      ensures ok ==> NoLinks(src) && Pending(nodes) && View(nodes) == Payload(src, None)
      ensures reliable && NoLinks(src) ==> ok
    {
      hide Pending, View, Subtree, OptionalFile, NoLinks, WellNamed, SideFile, Lacks;
      ok := PutBooks(src);
      if !ok { return; }
      ok := PutOptional(ConfigFile, src.config);
      if !ok { return; }
      ok := PutOptional(SeedFile, src.seed);
      if !ok { return; }
      ok := PutOptional(IndexFile, SideFile(src));
    }

    /** backup_plaintext: the database, the subtree, the root artifacts, and the manifest last. */
    method BackupPlaintext(src: Source) returns (r: Option<Manifest>)
      requires WellNamed(src) && nodes == map[] && past == []
      modifies this
      ensures AlwaysManifestLast(src, None, past)
      ensures r.Some? ==> r.value == ManifestOf(src, false) && View(nodes) == BackupSet(src, None) && AllSolid(nodes)
      ensures r.Some? ==> NoLinks(src)
      ensures reliable && NoLinks(src) ==> r.Some?
    {
      var ok := PutArtifacts(src);
      StillSafe(src, None, old(past), past);
      if !ok { return None; }
      hide *;
      r := Finish(src, None);
    }

    /** backup_encrypted: the whole set goes into one sealed bundle; nothing else touches the destination before the manifest. */
    method BackupEncrypted(src: Source, pass: string) returns (r: Option<Manifest>)
      requires WellNamed(src) && nodes == map[] && past == []
      modifies this
      ensures AlwaysManifestLast(src, Some(pass), past)
      ensures r.Some? ==> r.value == ManifestOf(src, true) && View(nodes) == BackupSet(src, Some(pass)) && AllSolid(nodes)
      ensures r.Some? ==> NoLinks(src)
      ensures reliable && NoLinks(src) ==> r.Some?
    {
      if !Archivable(src) { return None; }
      hide Captured, Pending, View, ManifestLast, NoLinks, FreeBelow, WellNamed, Grew;
      var ok := PutFile([AgeFile], Bundle(pass, Captured(src)));
      StillSafe(src, Some(pass), old(past), past);
      if !ok { return None; }
      OneFile(nodes, AgeFile, Bundle(pass, Captured(src)));
      hide *;
      r := Finish(src, Some(pass));
    }

    /** backup: a blank passphrase is refused before anything is created; otherwise the passphrase picks the mode. */
    method BackupTo(src: Source, pass: Option<string>) returns (r: Option<Manifest>)
      requires WellNamed(src) && nodes == map[] && past == []
      modifies this
      ensures AlwaysManifestLast(src, pass, past)
      ensures pass.Some? && Blank(pass.value) ==> r.None? && nodes == map[]
      ensures r.Some? ==> r.value == ManifestOf(src, pass.Some?) && View(nodes) == BackupSet(src, pass) && AllSolid(nodes)
      ensures r.Some? ==> NoLinks(src)
      ensures reliable && NoLinks(src) && !(pass.Some? && Blank(pass.value)) ==> r.Some?
    {
      hide WellNamed, AlwaysManifestLast, View, BackupSet, ManifestOf, AllSolid, NoLinks;
      match pass {
        case None => r := BackupPlaintext(src);
        case Some(key) =>
          if Blank(key) {
            EmptyPast(src, pass);
            return None;
          }
          r := BackupEncrypted(src, key);
      }
    }
  }

  ghost predicate AlwaysManifestLast(src: Source, pass: Option<string>, past: seq<Nodes>) {
    forall i :: 0 <= i < |past| ==> ManifestLast(src, pass, past[i])
  }

  lemma OneFile(nodes: Nodes, name: Name, c: Content)
    requires nodes == map[[name] := FileNode(c, true, false)] && name != ManifestFile
    ensures Pending(nodes) && View(nodes) == map[[name] := FileItem(c)]
    ensures name != FedimintDir ==> FreeBelow(nodes, [FedimintDir])
  {
    assert name != FedimintDir ==> [name][0] != [FedimintDir][0];
  }

  lemma EmptyPast(src: Source, pass: Option<string>)
    ensures AlwaysManifestLast(src, pass, [])
  {
  }

  lemma StillSafe(src: Source, pass: Option<string>, before: seq<Nodes>, after: seq<Nodes>)
    requires AlwaysManifestLast(src, pass, before) && Grew(before, after)
    ensures AlwaysManifestLast(src, pass, after)
  {
  }

  predicate AllSolid(nodes: Nodes) { forall p :: p in nodes ==> Solid(nodes[p]) }

  /** The tar walk refuses a symlink anywhere in the subtree. */
  predicate Archivable(src: Source) { NoLinks(src) }

  lemma PayloadConnected(src: Source, pass: Option<string>, nodes: Nodes)
    requires WellNamed(src) && View(nodes) == Payload(src, pass)
    ensures Connected(nodes) && forall p :: p in nodes && |p| > 1 ==> Parent(p) != [ManifestFile]
  {
    forall p | p in nodes ensures p != [] && (|p| == 1 || (Parent(p) in nodes && Parent(p) != [ManifestFile])) {
      assert p in View(nodes);
      if pass.None? {
        CapturedConnected(src, p);
        assert |p| > 1 ==> Parent(p) in View(nodes);
      }
    }
  }

  lemma NamesSolid(src: Source, pass: Option<string>, before: Nodes, nodes: Nodes)
    requires WellNamed(src) && Pending(before) && nodes == Synced(before, []) && View(before) == Payload(src, pass)
    ensures AllSolid(nodes) && View(nodes) == Payload(src, pass)
  {
    forall p | p in nodes ensures Solid(nodes[p]) { assert |p| == 1 ==> Parent(p) == []; }
  }

  lemma WithoutManifest(src: Source, pass: Option<string>, nodes: Nodes)
    requires [ManifestFile] !in nodes
    ensures ManifestLast(src, pass, nodes)
  {
  }

  /** With the data on disk, a manifest may be written, synced and named: each state on the way is a safe one. */
  lemma ManifestOnTop(src: Source, pass: Option<string>, data: Nodes, n: Node)
    requires WellNamed(src) && AllSolid(data) && [ManifestFile] !in data && View(data) == Payload(src, pass)
    requires ItemOf(n) in {FileItem(Doc(ManifestOf(src, pass.Some?))), FileItem(Torn)}
    ensures ManifestLast(src, pass, data) && ManifestLast(src, pass, data[[ManifestFile] := n])
    ensures Solid(n) ==> AllSolid(data[[ManifestFile] := n])
    ensures ItemOf(n) == FileItem(Doc(ManifestOf(src, pass.Some?))) ==> View(data[[ManifestFile] := n]) == BackupSet(src, pass)
  {
    hide ManifestOf, Payload, View, WellNamed, Connected;
    PayloadConnected(src, pass, data);
    ManifestAdded(data, n);
    ConnectedOnTop(data, n);
  }

  lemma ManifestAdded(data: Nodes, n: Node)
    requires [ManifestFile] !in data
    ensures data[[ManifestFile] := n] - {[ManifestFile]} == data
    ensures View(data[[ManifestFile] := n]) == View(data)[[ManifestFile] := ItemOf(n)]
  {
  }

  lemma ConnectedOnTop(data: Nodes, n: Node)
    requires Connected(data)
    ensures Connected(data[[ManifestFile] := n])
  {
  }

  /** Syncing the top directory again only adds the manifest's name. */
  lemma SyncTop(data: Nodes, n: Node)
    requires AllSolid(data) && [ManifestFile] !in data
    ensures Synced(data[[ManifestFile] := n], []) == data[[ManifestFile] := n.(linked := true)]
  {
    assert Parent([ManifestFile]) == [];
  }

  lemma SubtreeAdded(before: Nodes, now: Nodes, t: Tree)
    requires t.TDir? && Pending(before) && FreeBelow(before, [FedimintDir])
    requires Added(before, now, Flat(t, [FedimintDir])) && SolidBelow(now, [FedimintDir])
    ensures Pending(now) && View(now) == View(before) + Flat(t, [FedimintDir])
    ensures forall p :: p in now ==> p in before || [FedimintDir] <= p
  {
    forall p | p in Flat(t, [FedimintDir]) ensures [FedimintDir] <= p { FlatBelow(t, [FedimintDir], p); }
    hide Flat;
  }

  ghost predicate FreeBelow(nodes: Nodes, at: Path) { forall p :: p in nodes ==> !(at <= p) }

  lemma AtIsFree(nodes: Nodes, at: Path)
    requires FreeBelow(nodes, at)
    ensures at !in nodes
  {
    assert at <= at;
  }

  /** The first `i` entries of `t` are copied below `at`; names directly in `at` are not on disk yet. */
  ghost predicate Copying(before: Nodes, now: Nodes, t: Tree, i: nat, at: Path)
    requires t.TDir? && i <= |t.children|
  {
    && Added(before, now, map[at := DirItem] + FlatFirst(t, i, at))
    && (forall p :: p in now && at <= p && p != at ==>
          (now[p].FileNode? ==> now[p].synced) && (|p| > |at| + 1 ==> now[p].linked))
  }

  lemma CopyStarts(before: Nodes, now: Nodes, t: Tree, at: Path)
    requires t.TDir? && FreeBelow(before, at) && now == before[at := DirNode(false)]
    ensures Copying(before, now, t, 0, at)
  {
  }

  lemma CopyEnds(before: Nodes, copied: Nodes, t: Tree, at: Path)
    requires t.TDir? && at != [] && FreeBelow(before, at) && Copying(before, copied, t, |t.children|, at)
    ensures Added(before, Synced(copied, at), Flat(t, at)) && SolidBelow(Synced(copied, at), at)
  {
    DirAtRoot(t, at);
    EntriesAdded(before, copied, t, at);
    EntriesNamed(before, copied, t, at);
    hide Flat, FlatFirst, FreeBelow, Copying, Synced;
  }

  lemma EntriesNamed(before: Nodes, copied: Nodes, t: Tree, at: Path)
    requires t.TDir? && at != [] && Copying(before, copied, t, |t.children|, at)
    ensures forall p :: p in copied && at <= p && p != at ==>
              (copied[p].FileNode? ==> Synced(copied, at)[p].synced) && Synced(copied, at)[p].linked
  {
    hide Added;
    forall p | p in copied && at <= p && p != at ensures Synced(copied, at)[p].linked {
      if |p| == |at| + 1 { assert Parent(p) == at; }
    }
  }

  /** Syncing the new directory touches nothing that was there before it. */
  lemma SyncKeepsAdded(before: Nodes, copied: Nodes, more: Files, at: Path)
    requires FreeBelow(before, at) && Added(before, copied, more)
    ensures Added(before, Synced(copied, at), more)
  {
    forall p | p in before && p != [] ensures Parent(p) != at { assert !(at <= p); }
  }

  lemma EntriesAdded(before: Nodes, copied: Nodes, t: Tree, at: Path)
    requires t.TDir? && at != [] && FreeBelow(before, at) && Copying(before, copied, t, |t.children|, at)
    ensures Added(before, Synced(copied, at), Flat(t, at))
  {
    assert Flat(t, at) == map[at := DirItem] + FlatFirst(t, |t.children|, at);
    hide Flat, FlatFirst, Added, FreeBelow, Synced;
    SyncKeepsAdded(before, copied, Flat(t, at), at);
  }

  lemma FileAdded(before: Nodes, now: Nodes, p: Path, c: Content)
    requires FreeBelow(before, p) && now == before[p := FileNode(c, true, false)]
    ensures Added(before, now, map[p := FileItem(c)]) && SolidBelow(now, p)
  {
  }

  /** The next entry's path is free: siblings have other names. */
  lemma FreshChild(t: Tree, i: nat, at: Path, before: Nodes, nodes: Nodes)
    requires t.TDir? && Named(t) && i < |t.children|
    requires FreeBelow(before, at) && Copying(before, nodes, t, i, at)
    ensures FreeBelow(nodes, at + [Other(t.children[i].0)])
  {
    var to := at + [Other(t.children[i].0)];
    forall p | p in nodes ensures !(to <= p) {
      if to <= p {
        assert p[..|at|] == to[..|at|] == at && p[|at|] == to[|at|];
        if p in FlatFirst(t, i, at) { FlatFirstBelow(t, i, at, p); }
      }
    }
  }

  lemma ChildCopied(t: Tree, i: nat, at: Path, before: Nodes, mid: Nodes, now: Nodes)
    requires t.TDir? && i < |t.children| && Copying(before, mid, t, i, at)
    requires Added(mid, now, FlatChild(t, i, at)) && SolidBelow(now, at + [Other(t.children[i].0)])
    ensures Copying(before, now, t, i + 1, at)
  {
    var to := at + [Other(t.children[i].0)];
    forall p | p in FlatChild(t, i, at) ensures to <= p { FlatBelow(t.children[i].1, to, p); }
    ChildAdded(t, i, at, before, mid, now);
    forall p | p in now && at <= p && p != at ensures (now[p].FileNode? ==> now[p].synced) && (|p| > |at| + 1 ==> now[p].linked) {
      if p in mid { assert now[p] == mid[p]; } else { assert to <= p; }
    }
  }

  lemma ChildAdded(t: Tree, i: nat, at: Path, before: Nodes, mid: Nodes, now: Nodes)
    requires t.TDir? && i < |t.children|
    requires Added(before, mid, map[at := DirItem] + FlatFirst(t, i, at))
    requires Added(mid, now, FlatChild(t, i, at))
    ensures Added(before, now, map[at := DirItem] + FlatFirst(t, i + 1, at))
  {
  }
}

/**
What a backup captures, what its manifest claims, and what a restore accepts.

`Captured` is the set of files a data directory is worth; `BackupSet` what a backup directory holds for it, flat
or sealed under a passphrase; `Restorable` the checks a restore makes before and inside its staging directory.
Encryption is symbolic: a sealed bundle opens with its own passphrase and with no other.
*/
module Archive {
  import opened Wrappers
  import opened Text

  /** The names the program fixes (`lnrent.sqlite`, `operator.seed`, ...), and every other name. */
  datatype Name = StateDbFile | SeedFile | ConfigFile | IndexFile | FedimintDir | ManifestFile | AgeFile | Other(name: string)

  /** A path below the backup or data directory. */
  type Path = seq<Name>

  const SCHEMA := "lnrent-backup"

  datatype Backend = Fedimint | Phoenixd | MockBackend

  datatype Attempt = Attempt(sent: bool, hasPaymentId: bool)

  /** The state database, as far as backup looks inside it; `rows` is everything else. */
  datatype StateDb = StateDb(marker: bool, invoiceIds: set<string>, backend: Option<Backend>, attempts: set<Attempt>, rows: string)

  datatype Manifest = Manifest(
    schema: string, version: int, stateDb: bool, fedimintConfig: bool, operatorSeed: bool, phoenixdIndex: bool,
    selfContained: bool, fedimintDir: bool, federations: set<string>, encrypted: bool)

  /** `Torn` is what an interrupted write may leave; it is neither a database, a bundle nor a manifest. */
  datatype Content =
    | Bytes(data: string)
    | Database(db: StateDb)
    | Bundle(pass: string, files: map<Path, Item>)
    | Doc(manifest: Manifest)
    | Torn

  datatype Item = FileItem(content: Content) | DirItem

  type Files = map<Path, Item>

  datatype Tree = TFile(content: Content) | TDir(children: seq<(string, Tree)>) | TLink

  /** A stopped daemon's data directory; `fedimint` lists the children of the subtree. */
  datatype Source = Source(
    db: StateDb, fedimint: Option<seq<(string, Tree)>>, config: Option<string>, seed: Option<string>, phoenixd: Option<string>)

  // ----- the subtree

  /** Directory listings name each entry once. */
  predicate Named(t: Tree) {
    t.TDir? ==>
      (forall i, j :: 0 <= i < j < |t.children| ==> t.children[i].0 != t.children[j].0)
      && (forall i :: 0 <= i < |t.children| ==> Named(t.children[i].1))
  }

  predicate LinkFree(t: Tree) {
    match t
    case TFile(_) => true
    case TDir(children) => forall i :: 0 <= i < |children| ==> LinkFree(children[i].1)
    case TLink => false
  }

  /** Every file and directory of `t`, hung at `at`. */
  function Flat(t: Tree, at: Path): Files
    decreases t, 2, 0
  {
    match t
    case TFile(c) => map[at := FileItem(c)]
    case TDir(children) => map[at := DirItem] + FlatFirst(t, |children|, at)
    case TLink => map[]
  }

  function FlatFirst(t: Tree, n: nat, at: Path): Files
    requires t.TDir? && n <= |t.children|
    decreases t, 1, n
  {
    if n == 0 then map[]
    else FlatFirst(t, n - 1, at) + FlatChild(t, n - 1, at)
  }

  function FlatChild(t: Tree, i: nat, at: Path): Files
    requires t.TDir? && i < |t.children|
    decreases t, 0, 0
  {
    Flat(t.children[i].1, at + [Other(t.children[i].0)])
  }

  /** Everything of a tree hangs below its own path. */
  lemma {:induction false} FlatBelow(t: Tree, at: Path, p: Path)
    requires p in Flat(t, at)
    ensures at <= p
    decreases t, 2, 0
  {
    if t.TDir? && p != at { FlatFirstBelow(t, |t.children|, at, p); }
  }

  lemma {:induction false} FlatFirstBelow(t: Tree, n: nat, at: Path, p: Path)
    requires t.TDir? && n <= |t.children| && p in FlatFirst(t, n, at)
    ensures |at| < |p| && at <= p && exists i :: 0 <= i < n && Other(t.children[i].0) == p[|at|]
    decreases t, 1, n
  {
    if p in FlatChild(t, n - 1, at) {
      FlatBelow(t.children[n - 1].1, at + [Other(t.children[n - 1].0)], p);
      assert p[..|at| + 1] == at + [Other(t.children[n - 1].0)];
      assert Other(t.children[n - 1].0) == p[|at|];
    } else {
      FlatFirstBelow(t, n - 1, at, p);
    }
  }

  // ----- what is captured

  function Federations(children: seq<(string, Tree)>): set<string> {
    set i | 0 <= i < |children| && children[i].1.TDir? :: children[i].0
  }

  function Subtree(src: Source): Files { if src.fedimint.Some? then Flat(TDir(src.fedimint.value), [FedimintDir]) else map[] }

  function OptionalFile(name: Name, data: Option<string>): Files {
    if data.Some? then map[[name] := FileItem(Bytes(data.value))] else map[]
  }

  /** The phoenixd side file, unless the books have already absorbed it. */
  function SideFile(src: Source): Option<string> { if src.db.marker then None else src.phoenixd }

  function Captured(src: Source): Files {
    map[[StateDbFile] := FileItem(Database(src.db))] + Subtree(src) + OptionalFile(ConfigFile, src.config)
    + OptionalFile(SeedFile, src.seed) + OptionalFile(IndexFile, SideFile(src))
  }

  predicate WellNamed(src: Source) { src.fedimint.Some? ==> Named(TDir(src.fedimint.value)) }

  predicate NoLinks(src: Source) { src.fedimint.Some? ==> LinkFree(TDir(src.fedimint.value)) }

  // ----- formats

  function FormatVersion(selfContained: bool, phoenixdIndex: bool): int {
    if selfContained then 3 else if phoenixdIndex then 2 else 1
  }

  function ManifestOf(src: Source, encrypted: bool): Manifest {
    Manifest(SCHEMA, FormatVersion(src.db.marker, SideFile(src).Some?), true, src.config.Some?, src.seed.Some?,
             SideFile(src).Some?, src.db.marker, src.fedimint.Some?,
             if src.fedimint.Some? then Federations(src.fedimint.value) else {}, encrypted)
  }

  /** What the backup directory holds beside the manifest. */
  function Payload(src: Source, pass: Option<string>): Files {
    if pass.None? then Captured(src) else map[[AgeFile] := FileItem(Bundle(pass.value, Captured(src)))]
  }

  function BackupSet(src: Source, pass: Option<string>): Files {
    Payload(src, pass)[[ManifestFile] := FileItem(Doc(ManifestOf(src, pass.Some?)))]
  }

  // ----- what a restore accepts

  datatype Refusal =
    | BlankPassphrase | NoManifest | ForeignSchema | UnknownVersion | Inconsistent
    | MissingBundle | PassphraseNeeded | PossibleDowngrade | Incomplete | WrongMarker | PhoenixdCorrelationLost | WrongPassphrase

  predicate HasFile(files: Files, name: Name) { [name] in files && files[[name]].FileItem? }

  predicate HasDir(files: Files, p: Path) { p in files && files[p].DirItem? }

  function FoldAscii(c: char): char { if 'A' <= c <= 'Z' then c - 'A' + 'a' else c }

  /** LIKE 'phoenixd-%', which folds ASCII case. */
  predicate LikePhoenixd(id: string) {
    |id| >= 9 && forall i :: 0 <= i < 9 ==> FoldAscii(id[i]) == "phoenixd-"[i]
  }

  predicate ReferencesPhoenixd(db: StateDb) {
    (exists id :: id in db.invoiceIds && LikePhoenixd(id))
    || (db.backend == Some(Phoenixd) && exists a :: a in db.attempts && (a.sent || a.hasPaymentId))
  }

  /** check_restored_state_db: the manifest must describe this database, and a format-1 set must not need phoenixd's. */
  function CheckDb(m: Manifest, files: Files): Option<Refusal> {
    if !HasFile(files, StateDbFile) || !files[[StateDbFile]].content.Database? then Some(Incomplete)
    else
      var db := files[[StateDbFile]].content.db;
      if db.marker != m.selfContained then Some(WrongMarker)
      else if m.version == 1 && ReferencesPhoenixd(db) then Some(PhoenixdCorrelationLost)
      else None
  }

  /** Everything the manifest records is there. */
  predicate Recorded(m: Manifest, files: Files) {
    && (m.fedimintConfig ==> HasFile(files, ConfigFile)) && (m.operatorSeed ==> HasFile(files, SeedFile))
    && (m.phoenixdIndex ==> HasFile(files, IndexFile))
    && (m.fedimintDir ==> HasDir(files, [FedimintDir]) && forall f :: f in m.federations ==> HasDir(files, [FedimintDir, Other(f)]))
  }

  function CheckSet(m: Manifest, files: Files): Option<Refusal> {
    if !HasFile(files, StateDbFile) then Some(Incomplete)
    else if CheckDb(m, files).Some? then CheckDb(m, files)
    else if !Recorded(m, files) then Some(Incomplete)
    else None
  }

  /** finalize_decrypted_staging: what the manifest records first, the database after. */
  function CheckUnsealed(m: Manifest, files: Files): Option<Refusal> {
    if !HasFile(files, StateDbFile) || !Recorded(m, files) then Some(Incomplete) else CheckDb(m, files)
  }

  /** The checks before the target is looked at: the passphrase, the manifest, and for a flat set everything it records. */
  function Precheck(set_: Files, pass: Option<string>): Result<Manifest, Refusal> {
    if pass.Some? && Blank(pass.value) then Err(BlankPassphrase)
    else if !HasFile(set_, ManifestFile) || !set_[[ManifestFile]].content.Doc? then Err(NoManifest)
    else
      var m := set_[[ManifestFile]].content.manifest;
      if m.schema != SCHEMA then Err(ForeignSchema)
      else if !(1 <= m.version <= 3) then Err(UnknownVersion)
      else if m.version != FormatVersion(m.selfContained, m.phoenixdIndex) then Err(Inconsistent)
      else if m.encrypted then
        if !HasFile(set_, AgeFile) then Err(MissingBundle) else if pass.None? then Err(PassphraseNeeded) else Ok(m)
      else if pass.Some? || [AgeFile] in set_ then Err(PossibleDowngrade)
      else if !m.stateDb then Err(Incomplete)
      else
        match CheckSet(m, set_)
        case Some(refusal) => Err(refusal)
        case None => Ok(m)
  }

  predicate Wanted(m: Manifest, p: Path) {
    p == [StateDbFile] || (m.fedimintDir && [FedimintDir] <= p) || (m.fedimintConfig && p == [ConfigFile])
    || (m.operatorSeed && p == [SeedFile]) || (m.phoenixdIndex && p == [IndexFile])
  }

  /** What a flat set puts into staging: the artifacts the manifest records and nothing else. */
  function FlatPayload(m: Manifest, set_: Files): Files { map p | p in set_ && Wanted(m, p) :: set_[p] }

  /** What ends up in staging, or why nothing does. A bundle is checked only once it is open. */
  function Staged(m: Manifest, set_: Files, pass: Option<string>): Result<Files, Refusal> {
    if !m.encrypted then Ok(FlatPayload(m, set_))
    else if !HasFile(set_, AgeFile) then Err(MissingBundle)
    else
      match set_[[AgeFile]].content
      case Bundle(key, files) =>
        if pass != Some(key) then Err(WrongPassphrase)
        else (match CheckUnsealed(m, files)
          case Some(refusal) => Err(refusal)
          case None => Ok(files))
      case _ => Err(WrongPassphrase)
  }

  function Restorable(set_: Files, pass: Option<string>): Result<Files, Refusal> {
    match Precheck(set_, pass)
    case Err(e) => Err(e)
    case Ok(m) => Staged(m, set_, pass)
  }

  // ----- the round trip

  lemma DirAtRoot(t: Tree, at: Path)
    requires t.TDir?
    ensures HasDir(Flat(t, at), at)
  {
    if at in FlatFirst(t, |t.children|, at) { FlatFirstBelow(t, |t.children|, at, at); assert false; }
  }

  /** A directory child is in the flattened tree as a directory: no sibling hides it. */
  lemma {:induction false} ChildAt(t: Tree, n: nat, i: nat, at: Path)
    requires t.TDir? && Named(t) && i < n <= |t.children| && t.children[i].1.TDir?
    ensures HasDir(FlatFirst(t, n, at), at + [Other(t.children[i].0)])
  {
    var p := at + [Other(t.children[i].0)];
    if i == n - 1 {
      DirAtRoot(t.children[i].1, p);
    } else {
      ChildAt(t, n - 1, i, at);
      var sibling := at + [Other(t.children[n - 1].0)];
      assert sibling[|at|] != p[|at|];
      if p in FlatChild(t, n - 1, at) { FlatBelow(t.children[n - 1].1, sibling, p); }
    }
  }

  lemma SubtreeRecorded(src: Source, p: Path)
    requires WellNamed(src)
    ensures p in Subtree(src) ==> src.fedimint.Some? && p != [] && p[0] == FedimintDir
    ensures src.fedimint.Some? ==> HasDir(Subtree(src), [FedimintDir])
    ensures src.fedimint.Some? ==> forall f :: f in Federations(src.fedimint.value) ==> HasDir(Subtree(src), [FedimintDir, Other(f)])
  {
    if src.fedimint.Some? {
      var t, at := TDir(src.fedimint.value), [FedimintDir];
      if p in Subtree(src) { FlatBelow(t, at, p); assert p[0] == at[0]; }
      DirAtRoot(t, at);
      forall f | f in Federations(t.children) ensures HasDir(Subtree(src), [FedimintDir, Other(f)]) {
        var i :| 0 <= i < |t.children| && t.children[i].1.TDir? && t.children[i].0 == f;
        ChildAt(t, |t.children|, i, at);
        assert at + [Other(f)] == [FedimintDir, Other(f)];
      }
    }
  }

  predicate OptionallyAt(files: Files, p: Path, data: Option<string>) {
    (p in files <==> data.Some?) && (p in files ==> files[p] == FileItem(Bytes(data.value)))
  }

  /** Path by path: a root artifact is where its option says, and everything else is the subtree. */
  lemma CapturedAt(src: Source, p: Path)
    requires WellNamed(src)
    ensures p == [StateDbFile] ==> p in Captured(src) && Captured(src)[p] == FileItem(Database(src.db))
    ensures p == [ConfigFile] ==> OptionallyAt(Captured(src), p, src.config)
    ensures p == [SeedFile] ==> OptionallyAt(Captured(src), p, src.seed)
    ensures p == [IndexFile] ==> OptionallyAt(Captured(src), p, SideFile(src))
    ensures p !in {[StateDbFile], [ConfigFile], [SeedFile], [IndexFile]} ==>
              (p in Captured(src) <==> p in Subtree(src)) && (p in Subtree(src) ==> Captured(src)[p] == Subtree(src)[p])
    ensures p in Subtree(src) <==> p in Captured(src) && [FedimintDir] <= p
  {
    SubtreeRecorded(src, p);
    hide Subtree;
  }

  /** The same set, whatever either holds as its manifest. */
  ghost predicate SameSet(a: Files, b: Files) {
    forall p :: p != [ManifestFile] ==> (p in a <==> p in b) && (p in a ==> a[p] == b[p])
  }

  /** What the manifest records of a flat backup is what the backup was made from. */
  lemma FlatRoundTrip(src: Source, set_: Files)
    requires WellNamed(src) && SameSet(set_, Captured(src))
    ensures FlatPayload(ManifestOf(src, false), set_) == Captured(src)
  {
    hide Captured, Subtree;
    var m := ManifestOf(src, false);
    forall p ensures p in FlatPayload(m, set_) <==> p in Captured(src) {
      CapturedAt(src, p);
      SubtreeRecorded(src, p);
    }
    forall p | p in Captured(src) ensures FlatPayload(m, set_)[p] == Captured(src)[p] {
      CapturedAt(src, [ManifestFile]);
      SubtreeRecorded(src, [ManifestFile]);
    }
  }

  lemma SubtreeChecks(src: Source, set_: Files)
    requires WellNamed(src) && SameSet(set_, Captured(src)) && src.fedimint.Some?
    ensures HasDir(set_, [FedimintDir]) && forall f :: f in Federations(src.fedimint.value) ==> HasDir(set_, [FedimintDir, Other(f)])
  {
    SubtreeRecorded(src, []);
    CapturedAt(src, [FedimintDir]);
    forall f | f in Federations(src.fedimint.value) ensures HasDir(set_, [FedimintDir, Other(f)]) {
      CapturedAt(src, [FedimintDir, Other(f)]);
    }
  }

  /** The manifest describes its own set; what can still be refused is a format-1 set whose books need phoenixd's. */
  lemma CapturedChecks(src: Source, set_: Files, encrypted: bool)
    requires WellNamed(src) && SameSet(set_, Captured(src))
    ensures CheckSet(ManifestOf(src, encrypted), set_) == if Refused(src) then Some(PhoenixdCorrelationLost) else None
    ensures CheckUnsealed(ManifestOf(src, encrypted), set_) == if Refused(src) then Some(PhoenixdCorrelationLost) else None
  {
    hide Captured, Subtree, ReferencesPhoenixd, Federations, HasDir;
    CapturedAt(src, [StateDbFile]);
    CapturedAt(src, [ConfigFile]);
    CapturedAt(src, [SeedFile]);
    CapturedAt(src, [IndexFile]);
    if src.fedimint.Some? { SubtreeChecks(src, set_); }
  }

  /** A set the round trip refuses: format 1, no phoenixd correlation captured, and books that refer to it. */
  predicate Refused(src: Source) { !src.db.marker && src.phoenixd.None? && ReferencesPhoenixd(src.db) }

  lemma ManifestConsistent(src: Source, encrypted: bool)
    ensures var m := ManifestOf(src, encrypted);
            m.schema == SCHEMA && 1 <= m.version <= 3 && m.version == FormatVersion(m.selfContained, m.phoenixdIndex) && m.stateDb
  {
  }

  lemma FlatRestores(src: Source)
    requires WellNamed(src)
    ensures Restorable(BackupSet(src, None), None) == if Refused(src) then Err(PhoenixdCorrelationLost) else Ok(Captured(src))
  {
    FlatBackup(src);
    CapturedChecks(src, BackupSet(src, None), false);
    FlatRoundTrip(src, BackupSet(src, None));
    hide CheckSet, FlatPayload, Captured, Refused, SameSet, Wanted;
  }

  lemma SealedRestores(src: Source, pass: string)
    requires WellNamed(src) && !Blank(pass)
    ensures Restorable(BackupSet(src, Some(pass)), Some(pass))
            == if Refused(src) then Err(PhoenixdCorrelationLost) else Ok(Captured(src))
  {
    hide CheckSet, CheckUnsealed, Captured, Refused, Federations, FormatVersion, SideFile;
    assert SameSet(Captured(src), Captured(src));
    CapturedChecks(src, Captured(src), true);
    ManifestConsistent(src, true);
    assert BackupSet(src, Some(pass))[[AgeFile]] == FileItem(Bundle(pass, Captured(src)));
    assert Precheck(BackupSet(src, Some(pass)), Some(pass)) == Ok(ManifestOf(src, true)) by { hide SameSet; }
  }

  /**
  Backup then restore: the set restores to exactly what was captured, flat or sealed alike, unless it is a
  format-1 set whose books reference phoenixd; then it is refused, and for no other reason.
  */
  lemma RoundTrip(src: Source, pass: Option<string>)
    requires WellNamed(src) && (pass.Some? ==> !Blank(pass.value))
    ensures Restorable(BackupSet(src, pass), pass) == if Refused(src) then Err(PhoenixdCorrelationLost) else Ok(Captured(src))
  {
    hide Restorable, Captured, BackupSet, Refused;
    match pass
    case None => FlatRestores(src);
    case Some(key) => SealedRestores(src, key);
  }

  lemma FlatBackup(src: Source)
    requires WellNamed(src)
    ensures SameSet(BackupSet(src, None), Captured(src)) && [AgeFile] !in BackupSet(src, None)
  {
    CapturedAt(src, [AgeFile]);
    SubtreeRecorded(src, [AgeFile]);
    hide Captured, Subtree;
  }

  /** Any other passphrase, or none, restores nothing. */
  lemma WrongPassphraseRestoresNothing(src: Source, pass: string, other: Option<string>)
    requires WellNamed(src) && other != Some(pass)
    ensures Restorable(BackupSet(src, Some(pass)), other).Err?
  {
    hide CheckSet, FlatPayload, Captured;
  }

  /**
  Whatever set a restore is handed, tampered with or not: what it accepts has a manifest whose version says what it
  contains, a database whose marker is the one claimed and which needs no correlation the set lacks, every recorded
  artifact in staging, and a passphrase exactly when the set is sealed.
  */
  lemma AcceptedMeans(set_: Files, pass: Option<string>)
    requires Restorable(set_, pass).Ok?
    ensures HasFile(set_, ManifestFile) && set_[[ManifestFile]].content.Doc?
    ensures var m, files := set_[[ManifestFile]].content.manifest, Restorable(set_, pass).value;
            && m.version == FormatVersion(m.selfContained, m.phoenixdIndex) && m.schema == SCHEMA
            && (m.encrypted <==> pass.Some?) && (!m.encrypted ==> [AgeFile] !in set_)
            && HasFile(files, StateDbFile) && files[[StateDbFile]].content.Database?
            && files[[StateDbFile]].content.db.marker == m.selfContained
            && (m.version == 1 ==> !ReferencesPhoenixd(files[[StateDbFile]].content.db))
            && Recorded(m, files)
  {
    hide ReferencesPhoenixd, Blank, Recorded;
    var m := set_[[ManifestFile]].content.manifest;
    if !m.encrypted { StagedRecorded(m, set_); }
  }

  lemma StagedRecorded(m: Manifest, set_: Files)
    requires Recorded(m, set_)
    ensures Recorded(m, FlatPayload(m, set_))
  {
    forall f | m.fedimintDir && f in m.federations ensures HasDir(FlatPayload(m, set_), [FedimintDir, Other(f)]) {
      assert HasDir(set_, [FedimintDir, Other(f)]);
    }
  }

  // ----- shape of the set

  function Parent(p: Path): Path
    requires p != []
  {
    p[..|p| - 1]
  }

  lemma {:induction false} FlatConnected(t: Tree, at: Path, p: Path)
    requires p in Flat(t, at) && p != at
    ensures p != [] && Parent(p) in Flat(t, at)
    decreases t, 2, 0
  {
    FlatFirstConnected(t, |t.children|, at, p);
    DirAtRoot(t, at);
  }

  lemma {:induction false} FlatFirstConnected(t: Tree, n: nat, at: Path, p: Path)
    requires t.TDir? && n <= |t.children| && p in FlatFirst(t, n, at)
    ensures p != [] && (Parent(p) == at || Parent(p) in FlatFirst(t, n, at))
    decreases t, 1, n
  {
    if p in FlatChild(t, n - 1, at) {
      var child := at + [Other(t.children[n - 1].0)];
      if p == child {
        assert Parent(child) == at;
      } else {
        FlatConnected(t.children[n - 1].1, child, p);
      }
    } else {
      FlatFirstConnected(t, n - 1, at, p);
    }
  }

  /** Every captured path hangs below a captured directory. */
  lemma CapturedConnected(src: Source, p: Path)
    requires WellNamed(src) && p in Captured(src)
    ensures p != [] && p != [ManifestFile] && (|p| == 1 || (Parent(p) in Captured(src) && Parent(p) != [ManifestFile]))
  {
    CapturedAt(src, p);
    SubtreeRecorded(src, p);
    if p in Subtree(src) && p != [FedimintDir] {
      FlatConnected(TDir(src.fedimint.value), [FedimintDir], p);
      SubtreeRecorded(src, Parent(p));
      CapturedAt(src, Parent(p));
    }
    hide Captured;
  }
}

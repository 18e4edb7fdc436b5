/**
What a restore brings back and what it refuses, said without the functions that capture and check: the subtree by
walking it name by name, the refusals by what is wrong with the set.
*/
module Restores {
  import opened Wrappers
  import opened Text
  import opened Archive

  // ----- the subtree, name by name

  function Names(names: seq<string>): Path { seq(|names|, i requires 0 <= i < |names| => Other(names[i])) }

  /** Walking down `t` by `names` leads to `item`: a directory, or a file with that content. Links lead nowhere. */
  ghost predicate Leads(t: Tree, names: seq<string>, item: Item)
    decreases |names|
  {
    if names == [] then
      (t.TDir? && item == DirItem) || (t.TFile? && item == FileItem(t.content))
    else
      t.TDir? && exists i :: 0 <= i < |t.children| && t.children[i].0 == names[0] && Leads(t.children[i].1, names[1..], item)
  }

  /** `files` has `item` at `p`. */
  predicate Holds(files: Files, p: Path, item: Item) { p in files && files[p] == item }

  lemma FirstStep(at: Path, names: seq<string>)
    requires names != []
    ensures at + Names(names) == at + [Other(names[0])] + Names(names[1..])
    ensures |at| < |at + Names(names)| && (at + Names(names))[|at|] == Other(names[0]) && at <= at + Names(names)
  {
  }

  /** The flattened tree holds an item exactly where walking leads to it. */
  lemma {:induction false} FlatIsWalk(t: Tree, at: Path, names: seq<string>, item: Item)
    requires Named(t)
    ensures Holds(Flat(t, at), at + Names(names), item) <==> Leads(t, names, item)
    decreases t, 2, 0
  {
    if names == [] {
      assert at + Names(names) == at;
      if t.TDir? { DirAtRoot(t, at); }
    } else {
      FirstStep(at, names);
      if t.TDir? { FirstIsWalk(t, |t.children|, at, names, item); }
    }
  }

  lemma {:induction false} FirstIsWalk(t: Tree, n: nat, at: Path, names: seq<string>, item: Item)
    requires t.TDir? && Named(t) && n <= |t.children| && names != []
    ensures Holds(FlatFirst(t, n, at), at + Names(names), item) <==>
              exists i :: 0 <= i < n && t.children[i].0 == names[0] && Leads(t.children[i].1, names[1..], item)
    decreases t, 1, n
  {
    if n != 0 {
      var p, child := at + Names(names), t.children[n - 1];
      FirstIsWalk(t, n - 1, at, names, item);
      FirstStep(at, names);
      if child.0 == names[0] {
        FlatIsWalk(child.1, at + [Other(child.0)], names[1..], item);
        if p in FlatFirst(t, n - 1, at) { FlatFirstBelow(t, n - 1, at, p); }
      } else if p in FlatChild(t, n - 1, at) {
        FlatBelow(child.1, at + [Other(child.0)], p);
      }
    }
  }

  /** Everything below the subtree's root is reached by some names. */
  lemma {:induction false} FlatHasNames(t: Tree, at: Path, p: Path) returns (names: seq<string>)
    requires p in Flat(t, at)
    ensures p == at + Names(names)
    decreases t, 2, 0
  {
    if p == at {
      names := [];
    } else {
      names := FirstHasNames(t, |t.children|, at, p);
    }
  }

  lemma {:induction false} FirstHasNames(t: Tree, n: nat, at: Path, p: Path) returns (names: seq<string>)
    requires t.TDir? && n <= |t.children| && p in FlatFirst(t, n, at)
    ensures p == at + Names(names)
    decreases t, 1, n
  {
    if p in FlatChild(t, n - 1, at) {
      var rest := FlatHasNames(t.children[n - 1].1, at + [Other(t.children[n - 1].0)], p);
      names := [t.children[n - 1].0] + rest;
      FirstStep(at, names);
    } else {
      names := FirstHasNames(t, n - 1, at, p);
    }
  }

  // ----- what comes back

  /** What a data directory holds at `p`, artifact by artifact. */
  ghost predicate Has(src: Source, p: Path, item: Item) {
    || (p == [StateDbFile] && item == FileItem(Database(src.db)))
    || (p == [ConfigFile] && src.config.Some? && item == FileItem(Bytes(src.config.value)))
    || (p == [SeedFile] && src.seed.Some? && item == FileItem(Bytes(src.seed.value)))
    || (p == [IndexFile] && !src.db.marker && src.phoenixd.Some? && item == FileItem(Bytes(src.phoenixd.value)))
    || (src.fedimint.Some? && exists names :: p == [FedimintDir] + Names(names) && Leads(TDir(src.fedimint.value), names, item))
  }

  lemma SubtreeIsWalk(src: Source, p: Path, item: Item)
    requires WellNamed(src)
    ensures Holds(Subtree(src), p, item) <==>
              src.fedimint.Some? && exists names :: p == [FedimintDir] + Names(names) && Leads(TDir(src.fedimint.value), names, item)
  {
    hide Flat, Leads, Names;
    if src.fedimint.Some? {
      var t := TDir(src.fedimint.value);
      if p in Subtree(src) {
        var names := FlatHasNames(t, [FedimintDir], p);
        FlatIsWalk(t, [FedimintDir], names, item);
      }
      forall names | p == [FedimintDir] + Names(names) && Leads(t, names, item) ensures Holds(Subtree(src), p, item) {
        FlatIsWalk(t, [FedimintDir], names, item);
      }
    }
  }

  /** A capture holds exactly what the data directory has, byte for byte, but for a side file the books have absorbed. */
  lemma CapturedIsWhatIsThere(src: Source, p: Path, item: Item)
    requires WellNamed(src)
    ensures Holds(Captured(src), p, item) <==> Has(src, p, item)
  {
    hide Leads, Names, Subtree, Captured;
    CapturedAt(src, p);
    SubtreeIsWalk(src, p, item);
    SubtreeRecorded(src, p);
  }

  /** Something only phoenixd's own records can settle: an invoice of its, or a payment through it. */
  ghost predicate NeedsPhoenixd(db: StateDb) {
    || (exists a :: a in db.attempts && a.sent && db.backend == Some(Phoenixd))
    || (exists a :: a in db.attempts && a.hasPaymentId && db.backend == Some(Phoenixd))
    || (exists id :: id in db.invoiceIds && StartsPhoenixd(id))
  }

  const LOWER := "phoenixd-"

  const UPPER := "PHOENIXD-"

  /** `phoenixd-` in either case of each letter, and anything after it. */
  predicate StartsPhoenixd(id: string) {
    |LOWER| <= |id| && forall i :: 0 <= i < |LOWER| ==> id[i] == LOWER[i] || id[i] == UPPER[i]
  }

  lemma StartsIsLike(id: string)
    ensures StartsPhoenixd(id) <==> LikePhoenixd(id)
  {
    assert |LOWER| == 9;
    forall i | 0 <= i < 9 && i < |id| ensures id[i] == LOWER[i] || id[i] == UPPER[i] <==> FoldAscii(id[i]) == "phoenixd-"[i] { }
  }

  lemma NeedsIsReferences(db: StateDb)
    ensures NeedsPhoenixd(db) <==> ReferencesPhoenixd(db)
  {
    forall id ensures StartsPhoenixd(id) <==> LikePhoenixd(id) { StartsIsLike(id); }
    hide StartsPhoenixd, LikePhoenixd;
  }

  /**
  Backup and restore, artifact by artifact, flat or sealed: a set without self-contained books and without phoenixd's
  records is refused when the books need them; every other one comes back as exactly what was there.
  */
  lemma RestoresWhatWasThere(src: Source, pass: Option<string>, p: Path, item: Item)
    requires WellNamed(src) && (pass.Some? ==> !Blank(pass.value))
    ensures var r := Restorable(BackupSet(src, pass), pass);
            if !src.db.marker && src.phoenixd.None? && NeedsPhoenixd(src.db) then r == Err(PhoenixdCorrelationLost)
            else r.Ok? && (Holds(r.value, p, item) <==> Has(src, p, item))
  {
    RoundTrip(src, pass);
    NeedsIsReferences(src.db);
    hide Restorable, BackupSet, Captured, ReferencesPhoenixd, NeedsPhoenixd, Has;
    CapturedIsWhatIsThere(src, p, item);
  }

  // ----- what is refused, and why

  function ManifestIn(set_: Files): Option<Manifest> {
    if [ManifestFile] in set_ && set_[[ManifestFile]].FileItem? && set_[[ManifestFile]].content.Doc?
    then Some(set_[[ManifestFile]].content.manifest) else None
  }

  function BundleIn(set_: Files): Option<(string, Files)> {
    if [AgeFile] in set_ && set_[[AgeFile]].FileItem? && set_[[AgeFile]].content.Bundle?
    then Some((set_[[AgeFile]].content.pass, set_[[AgeFile]].content.files)) else None
  }

  function DbIn(files: Files): Option<StateDb> {
    if [StateDbFile] in files && files[[StateDbFile]].FileItem? && files[[StateDbFile]].content.Database?
    then Some(files[[StateDbFile]].content.db) else None
  }

  /** The artifacts to be looked at: the set itself, or what its bundle holds for the right passphrase. */
  function Opened(set_: Files, pass: Option<string>): Option<Files> {
    var m := ManifestIn(set_);
    if m.None? then None
    else if !m.value.encrypted then Some(set_)
    else if BundleIn(set_).Some? && pass == Some(BundleIn(set_).value.0) then Some(BundleIn(set_).value.1) else None
  }

  predicate FileAt(files: Files, p: Path) { p in files && files[p].FileItem? }

  predicate DirAt(files: Files, p: Path) { p in files && files[p].DirItem? }

  /** Something the manifest records is not there. */
  predicate Lost(m: Manifest, files: Files) {
    || DbIn(files).None?
    || (m.fedimintConfig && !FileAt(files, [ConfigFile]))
    || (m.operatorSeed && !FileAt(files, [SeedFile]))
    || (m.phoenixdIndex && !FileAt(files, [IndexFile]))
    || (m.fedimintDir && !DirAt(files, [FedimintDir]))
    || (m.fedimintDir && exists f :: f in m.federations && !DirAt(files, [FedimintDir, Other(f)]))
  }

  /** What each refusal says is wrong. */
  ghost predicate Fault(set_: Files, pass: Option<string>, refusal: Refusal) {
    var m, files := ManifestIn(set_), Opened(set_, pass);
    match refusal
    case BlankPassphrase => pass.Some? && forall c :: c in pass.value ==> IsSpace(c)
    case NoManifest => m.None?
    case ForeignSchema => m.Some? && m.value.schema != "lnrent-backup"
    case UnknownVersion => m.Some? && m.value.version !in {1, 2, 3}
    case Inconsistent =>
      m.Some? && m.value.version != (if m.value.selfContained then 3 else if m.value.phoenixdIndex then 2 else 1)
    case MissingBundle => m.Some? && m.value.encrypted && !FileAt(set_, [AgeFile])
    case PassphraseNeeded => m.Some? && m.value.encrypted && pass.None?
    case PossibleDowngrade => m.Some? && !m.value.encrypted && (pass.Some? || [AgeFile] in set_)
    case WrongPassphrase => m.Some? && m.value.encrypted && files.None?
    case Incomplete => m.Some? && ((!m.value.encrypted && !m.value.stateDb) || (files.Some? && Lost(m.value, files.value)))
    case WrongMarker => files.Some? && DbIn(files.value).Some? && DbIn(files.value).value.marker != m.value.selfContained
    case PhoenixdCorrelationLost =>
      files.Some? && DbIn(files.value).Some? && m.value.version == 1 && NeedsPhoenixd(DbIn(files.value).value)
  }

  /** The order in which a set is looked at; what it contains comes last. */
  function Turn(refusal: Refusal): nat {
    match refusal
    case BlankPassphrase => 0
    case NoManifest => 1
    case ForeignSchema => 2
    case UnknownVersion => 3
    case Inconsistent => 4
    case MissingBundle => 5
    case PassphraseNeeded => 6
    case PossibleDowngrade => 7
    case WrongPassphrase => 8
    case _ => 9
  }

  lemma LostMeans(m: Manifest, files: Files)
    ensures Lost(m, files) <==> DbIn(files).None? || !Recorded(m, files)
  {
  }

  lemma CheckDbMeans(m: Manifest, files: Files)
    ensures CheckDb(m, files) ==
              if DbIn(files).None? then Some(Incomplete)
              else if DbIn(files).value.marker != m.selfContained then Some(WrongMarker)
              else if m.version == 1 && NeedsPhoenixd(DbIn(files).value) then Some(PhoenixdCorrelationLost)
              else None
  {
    if DbIn(files).Some? { NeedsIsReferences(DbIn(files).value); }
    hide NeedsPhoenixd, ReferencesPhoenixd;
  }

  /** What the checks of the artifacts find. */
  predicate Finds(m: Manifest, files: Files, found: Option<Refusal>, needs: bool) {
    match found
    case None => !Lost(m, files) && DbIn(files).value.marker == m.selfContained && !(m.version == 1 && needs)
    case Some(Incomplete) => Lost(m, files)
    case Some(WrongMarker) => DbIn(files).Some? && DbIn(files).value.marker != m.selfContained
    case Some(PhoenixdCorrelationLost) => DbIn(files).Some? && m.version == 1 && needs
    case _ => false
  }

  lemma ChecksFind(m: Manifest, files: Files)
    ensures var needs := DbIn(files).Some? && NeedsPhoenixd(DbIn(files).value);
            Finds(m, files, CheckSet(m, files), needs) && Finds(m, files, CheckUnsealed(m, files), needs)
  {
    hide NeedsPhoenixd, CheckDb, Recorded, Lost;
    CheckDbMeans(m, files);
    LostMeans(m, files);
  }

  lemma AcceptedHasNoFault(set_: Files, pass: Option<string>, refusal: Refusal)
    requires Restorable(set_, pass).Ok?
    ensures !Fault(set_, pass, refusal)
  {
    hide Recorded, CheckDb, CheckSet, CheckUnsealed, NeedsPhoenixd, FlatPayload, Lost, IsSpace, Blank;
    if pass.Some? { BlankMeans(pass.value); }
    if Opened(set_, pass).Some? { ChecksFind(ManifestIn(set_).value, Opened(set_, pass).value); }
    match refusal
    case BlankPassphrase =>
    case NoManifest =>
    case ForeignSchema =>
    case UnknownVersion =>
    case Inconsistent =>
    case MissingBundle =>
    case PassphraseNeeded =>
    case PossibleDowngrade =>
    case Incomplete =>
    case WrongMarker =>
    case PhoenixdCorrelationLost =>
    case WrongPassphrase =>
  }

  lemma RefusedHasFault(set_: Files, pass: Option<string>)
    requires Restorable(set_, pass).Err?
    ensures var refusal := Restorable(set_, pass).error;
            Fault(set_, pass, refusal) && forall earlier :: Turn(earlier) < Turn(refusal) ==> !Fault(set_, pass, earlier)
  {
    hide Recorded, CheckDb, CheckSet, CheckUnsealed, NeedsPhoenixd, FlatPayload, Lost, IsSpace, Blank;
    if pass.Some? { BlankMeans(pass.value); }
    if Opened(set_, pass).Some? { ChecksFind(ManifestIn(set_).value, Opened(set_, pass).value); }
  }

  /**
  Any set at all, tampered with or not: it is restored exactly when nothing is wrong with it, and a refusal names
  something that is wrong, with nothing looked at earlier being so.
  */
  lemma RestoredUnlessFaulty(set_: Files, pass: Option<string>)
    ensures Restorable(set_, pass).Ok? <==> forall refusal :: !Fault(set_, pass, refusal)
    ensures Restorable(set_, pass).Err? ==>
              var refusal := Restorable(set_, pass).error;
              Fault(set_, pass, refusal) && forall earlier :: Turn(earlier) < Turn(refusal) ==> !Fault(set_, pass, earlier)
  {
    hide Restorable, Fault, Turn;
    if Restorable(set_, pass).Ok? {
      forall refusal ensures !Fault(set_, pass, refusal) { AcceptedHasNoFault(set_, pass, refusal); }
    } else {
      RefusedHasFault(set_, pass);
    }
  }

  /** The manifest asks for what is at `p`: a root artifact it records, or anything in the subtree. */
  predicate Asked(m: Manifest, p: Path) {
    p != [] && match p[0]
      case StateDbFile => |p| == 1
      case ConfigFile => |p| == 1 && m.fedimintConfig
      case SeedFile => |p| == 1 && m.operatorSeed
      case IndexFile => |p| == 1 && m.phoenixdIndex
      case FedimintDir => m.fedimintDir
      case _ => false
  }

  /** What is restored of an accepted set: all a bundle holds; of a flat set what its manifest records and nothing else. */
  lemma RestoredIs(set_: Files, pass: Option<string>, p: Path)
    requires Restorable(set_, pass).Ok?
    ensures var m, files := ManifestIn(set_).value, Restorable(set_, pass).value;
            if m.encrypted then BundleIn(set_).Some? && files == BundleIn(set_).value.1
            else
              && (p in files ==> p in set_ && files[p] == set_[p])
              && (p in files <==> p in set_ && Asked(m, p))
  {
    hide CheckSet, CheckUnsealed, Blank;
  }

  // ----- the backup's own manifest

  /** A backup's manifest records what its capture holds, flag by flag, and says by its version how the books keep track. */
  lemma ManifestDescribes(src: Source, pass: Option<string>, f: string)
    requires WellNamed(src)
    ensures ManifestIn(BackupSet(src, pass)).Some?
    ensures var m, files := ManifestIn(BackupSet(src, pass)).value, Captured(src);
            && m.schema == "lnrent-backup" && m.stateDb && (m.encrypted <==> pass.Some?)
            && (m.fedimintConfig <==> FileAt(files, [ConfigFile])) && (m.operatorSeed <==> FileAt(files, [SeedFile]))
            && (m.phoenixdIndex <==> FileAt(files, [IndexFile])) && (m.selfContained <==> src.db.marker)
            && (m.fedimintDir <==> DirAt(files, [FedimintDir]))
            && (f in m.federations <==> DirAt(files, [FedimintDir, Other(f)]))
            && m.version == (if src.db.marker then 3 else if FileAt(files, [IndexFile]) then 2 else 1)
  {
    CapturedAt(src, [ConfigFile]);
    CapturedAt(src, [SeedFile]);
    CapturedAt(src, [IndexFile]);
    CapturedAt(src, [FedimintDir]);
    CapturedAt(src, [FedimintDir, Other(f)]);
    SubtreeRecorded(src, [FedimintDir]);
    FederationIsDirectory(src, f);
    hide Captured, Subtree;
  }

  lemma FederationIsDirectory(src: Source, f: string)
    requires WellNamed(src)
    ensures DirAt(Subtree(src), [FedimintDir, Other(f)]) <==> src.fedimint.Some? && f in Federations(src.fedimint.value)
  {
    if src.fedimint.Some? {
      var t := TDir(src.fedimint.value);
      assert [FedimintDir] + Names([f]) == [FedimintDir, Other(f)];
      FlatIsWalk(t, [FedimintDir], [f], DirItem);
      assert [f][1..] == [];
      forall i | 0 <= i < |t.children| ensures Leads(t.children[i].1, [], DirItem) <==> t.children[i].1.TDir? { }
      hide Flat, Leads;
    }
  }

  /** Nothing in `more` is where the manifest would look for something. */
  predicate Strays(m: Manifest, more: Files) { forall p :: p in more ==> !Wanted(m, p) }

  lemma StraysPassChecks(m: Manifest, set_: Files, more: Files)
    requires Strays(m, more)
    ensures CheckDb(m, set_ + more) == CheckDb(m, set_)
    ensures Recorded(m, set_ + more) <==> Recorded(m, set_)
    ensures HasFile(set_ + more, StateDbFile) <==> HasFile(set_, StateDbFile)
  {
    hide ReferencesPhoenixd;
    assert [StateDbFile] !in more;
    assert m.fedimintDir ==> [FedimintDir] !in more;
    forall f | m.fedimintDir ensures [FedimintDir, Other(f)] !in more { assert [FedimintDir] <= [FedimintDir, Other(f)]; }
  }

  lemma StraysStayOut(m: Manifest, set_: Files, more: Files)
    requires Strays(m, more)
    ensures FlatPayload(m, set_ + more) == FlatPayload(m, set_)
  {
    hide Wanted;
  }

  lemma UnrecordedAreStrays(src: Source, more: Files)
    requires WellNamed(src)
    requires forall p :: p in more ==> p !in BackupSet(src, None) && !(src.fedimint.Some? && [FedimintDir] <= p)
    ensures Strays(ManifestOf(src, false), more)
  {
    CapturedAt(src, [StateDbFile]);
    CapturedAt(src, [ConfigFile]);
    CapturedAt(src, [SeedFile]);
    CapturedAt(src, [IndexFile]);
    hide Captured, Federations, FormatVersion;
  }

  /** Files that do not belong are left where they are: a flat set with more in it restores to the same. */
  lemma StraysAreNotRestored(src: Source, more: Files)
    requires WellNamed(src)
    requires forall p :: p in more ==> p !in BackupSet(src, None) && p != [AgeFile] && !(src.fedimint.Some? && [FedimintDir] <= p)
    ensures Restorable(BackupSet(src, None) + more, None) == Restorable(BackupSet(src, None), None)
  {
    var set_ := BackupSet(src, None);
    var m := ManifestOf(src, false);
    FlatBackup(src);
    UnrecordedAreStrays(src, more);
    StraysPassChecks(m, set_, more);
    StraysStayOut(m, set_, more);
    assert [AgeFile] !in set_ + more && (set_ + more)[[ManifestFile]] == set_[[ManifestFile]] == FileItem(Doc(m));
    hide CheckDb, Recorded, FlatPayload, Captured, SameSet, BackupSet, FormatVersion, ManifestOf;
  }

  lemma LossIsLost(m: Manifest, set_: Files, p: Path, f: string)
    requires p !in set_
    requires p in {[StateDbFile], [ConfigFile], [SeedFile], [IndexFile], [FedimintDir], [FedimintDir, Other(f)]}
    requires p == [ConfigFile] ==> m.fedimintConfig
    requires p == [SeedFile] ==> m.operatorSeed
    requires p == [IndexFile] ==> m.phoenixdIndex
    requires p == [FedimintDir] ==> m.fedimintDir
    requires p == [FedimintDir, Other(f)] ==> m.fedimintDir && f in m.federations
    ensures Lost(m, set_)
  {
  }

  /** The captured path is one of those, and is of the kind the manifest records. */
  lemma LossKind(src: Source, p: Path, f: string)
    requires WellNamed(src) && p in Captured(src)
    requires |p| == 1 || p == [FedimintDir, Other(f)]
    ensures p in {[StateDbFile], [ConfigFile], [SeedFile], [IndexFile], [FedimintDir], [FedimintDir, Other(f)]}
    ensures p in {[ConfigFile], [SeedFile], [IndexFile]} ==> FileAt(Captured(src), p)
    ensures p == [FedimintDir] ==> DirAt(Captured(src), p)
    ensures p == [FedimintDir, Other(f)] ==> DirAt(Captured(src), [FedimintDir])
  {
    CapturedAt(src, p);
    SubtreeRecorded(src, p);
    CapturedAt(src, [FedimintDir]);
    assert |p| == 1 ==> p == [p[0]];
    hide Captured, Subtree, Federations;
  }

  /** A flat set that lost a root artifact, the subtree's root or a federation is refused; nothing half comes back. */
  lemma LossIsRefused(src: Source, p: Path, f: string)
    requires WellNamed(src) && p in Captured(src)
    requires |p| == 1 || (p == [FedimintDir, Other(f)] && DirAt(Captured(src), p))
    ensures Restorable(BackupSet(src, None) - {p}, None).Err?
  {
    var set_ := BackupSet(src, None) - {p};
    ManifestDescribes(src, None, f);
    LossKind(src, p, f);
    assert ManifestIn(set_) == ManifestIn(BackupSet(src, None));
    hide Captured, Subtree, BackupSet, Restorable, Lost, FileAt, DirAt;
    LossIsLost(ManifestIn(set_).value, set_, p, f);
    assert Fault(set_, None, Incomplete);
    RestoredUnlessFaulty(set_, None);
  }
}

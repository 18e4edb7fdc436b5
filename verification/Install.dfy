/**
Installing a restored set: build it in a staging directory beside the target, then swap the two names.

`target` is what the data directory's name resolves to for running processes; `onDisk` what it may resolve to
after power is lost, which lags until the parent directory is synced. The site remembers every state it was in.
*/
module Install {
  import opened Wrappers
  import opened Text
  import opened Archive

  /** The two directories: the one that was there, and the one being installed. */
  datatype Which = OldDir | NewDir

  /** `oldSynced` and `newSynced` are the contents known to be on disk. */
  datatype Site = Site(
    target: Option<Which>, staging: Option<Which>, aside: Option<Which>,
    oldFiles: Files, oldSynced: Files, newFiles: Files, newSynced: Files, onDisk: set<Option<Which>>)

  datatype Swap = Fresh | Exchanged | MovedAside

  datatype ExchangeAnswer = Swapped | Unsupported | Failed

  /** How the file system answers: the build, the plain rename, the exchange, the fallback's three renames, the parent's sync. */
  datatype Answers = Answers(
    build: bool, rename: bool, exchange: ExchangeAnswer, aside: bool, install: bool, rollback: bool, sync: bool)

  /** The fallback took the old set away and could neither bring the new one in nor the old one back. */
  predicate Stranded(fs: Answers) { fs.aside && !fs.install && !fs.rollback }

  datatype Failure =
    | Invalid(refusal: Refusal)
    | TargetNotEmpty
    | BuildFailed
    | SwapFailed
    | NotSynced

  function FilesOf(s: Site, w: Which): Files { if w.OldDir? then s.oldFiles else s.newFiles }

  /** What a process that opens the data directory finds. */
  function Seen(s: Site): Option<Files> { if s.target.None? then None else Some(FilesOf(s, s.target.value)) }

  /** `f` agrees with both wherever they agree, and has nothing that is in neither. */
  ghost predicate Between(f: Files, a: Files, b: Files) {
    && (forall p :: p in f ==> (p in a && f[p] == a[p]) || (p in b && f[p] == b[p]))
    && (forall p :: p in a && p in b && a[p] == b[p] ==> p in f)
  }

  /** What the data directory may hold once power is back. */
  ghost predicate AfterPowerLoss(s: Site, v: Option<Files>) {
    if v.None? then None in s.onDisk
    else (Some(OldDir) in s.onDisk && Between(v.value, s.oldFiles, s.oldSynced))
         || (Some(NewDir) in s.onDisk && Between(v.value, s.newFiles, s.newSynced))
  }

  /** Nothing under way: at most the old directory, complete and on disk. */
  predicate AtRest(s: Site) {
    && (s.target.None? || s.target == Some(OldDir)) && s.staging.None? && s.aside.None?
    && s.oldSynced == s.oldFiles && s.newFiles == s.newSynced == map[] && s.onDisk == {s.target}
  }

  /** The old set as it was before, or the new one in full. */
  predicate Whole(s0: Site, payload: Files, s: Site) { Seen(s) == Seen(s0) || Seen(s) == Some(payload) }

  /** Or, between the two renames of the fallback: nothing there, and the old set complete under its other name. */
  predicate WholeOrAside(s0: Site, payload: Files, s: Site) {
    Whole(s0, payload, s) || (s.target.None? && s.aside == Some(OldDir) && s.oldFiles == s0.oldFiles)
  }

  /** Power lost now also leaves one of the two complete sets. */
  ghost predicate SafeFromPowerLoss(s0: Site, payload: Files, s: Site) {
    forall v :: AfterPowerLoss(s, v) ==> v == Seen(s0) || v == Some(payload)
  }

  predicate SubFiles(a: Files, b: Files) { forall p :: p in a ==> p in b && a[p] == b[p] }

  // ----- the calls

  function RemoveOne(s: Site, w: Which, p: Path): Site {
    if w.OldDir? then s.(oldFiles := s.oldFiles - {p}) else s.(newFiles := s.newFiles - {p})
  }

  class Installer {
    var site: Site
    ghost var past: seq<Site>

    constructor (s: Site)
      ensures site == s && past == [s]
    {
      site, past := s, [s];
    }

    method Move(next: Site)
      modifies this
      ensures site == next && past == old(past) + [next]
    {
      site := next;
      past := past + [next];
    }

    /** Build the set in staging, entry by entry, and sync it; a failure may come anywhere, and what was built is removed. */
    method WithStaging(payload: Files, fs: Answers) returns (ok: bool)
      requires AtRest(site)
      modifies this
      ensures old(past) <= past && forall i :: |old(past)| <= i < |past| ==> OldUntouched(old(site), past[i])
      ensures OldUntouched(old(site), site)
      ensures ok == fs.build
      ensures ok ==> site == old(site).(staging := Some(NewDir), newFiles := payload, newSynced := payload)
    {
      Move(site.(staging := Some(NewDir)));
      var todo := payload.Keys;
      ok := true;
      while todo != {} && ok
        invariant todo <= payload.Keys && old(past) <= past
        invariant forall i :: |old(past)| <= i < |past| ==> OldUntouched(old(site), past[i])
        invariant site == old(site).(staging := Some(NewDir), newFiles := payload - todo)
        invariant fs.build ==> ok
        decreases todo, ok
      {
        if !fs.build { ok := *; }
        if ok {
          var p :| p in todo;
          todo := todo - {p};
          Move(site.(newFiles := payload - todo));
        }
      }
      ok := fs.build;
      if ok {
        assert payload - {} == payload;
        Move(site.(newSynced := site.newFiles));
      } else {
        var cleaned := RemoveAll(NewDir);
        if cleaned { Move(site.(staging := None)); }
      }
    }

    /** remove_dir_all: entries go one by one, in any order; it may stop anywhere. */
    method RemoveAll(w: Which) returns (ok: bool)
      modifies this
      ensures old(past) <= past
      ensures forall i :: |old(past)| <= i < |past| ==> Shrunk(old(site), w, past[i])
      ensures Shrunk(old(site), w, site) && (ok ==> FilesOf(site, w) == map[])
    {
      ok := true;
      while FilesOf(site, w) != map[] && ok
        invariant old(past) <= past
        invariant forall i :: |old(past)| <= i < |past| ==> Shrunk(old(site), w, past[i])
        invariant Shrunk(old(site), w, site)
        decreases FilesOf(site, w).Keys, ok
      {
        ok := *;
        if ok {
          var p :| p in FilesOf(site, w);
          Move(RemoveOne(site, w, p));
        }
      }
    }

    /** The fallback: move the old set aside, move the new one in, and put the old one back if that fails. */
    method SwapViaMoveAside(payload: Files, fs: Answers, ghost s0: Site) returns (ok: bool)
      requires Poised(site, payload) && site.target.Some? && Seen(site) == Seen(s0) && site.oldFiles == s0.oldFiles
      modifies this
      ensures old(past) <= past && forall i :: |old(past)| <= i < |past| ==> WholeOrAside(s0, payload, past[i])
      ensures forall i :: |old(past)| <= i < |past| ==> MovedAway(s0, payload, past[i])
      ensures ok <==> fs.aside && fs.install
      ensures site.target == if ok then Some(NewDir) else if Stranded(fs) then None else Some(OldDir)
      ensures ok ==> site.newFiles == payload && site.newSynced == payload
      ensures !ok ==> site.oldFiles == s0.oldFiles && (Stranded(fs) ==> site.aside == Some(OldDir))
    {
      if !fs.aside { return false; }
      Move(site.(target := None, aside := Some(OldDir), onDisk := site.onDisk + {None}));
      if fs.install {
        Move(site.(target := Some(NewDir), staging := None, onDisk := site.onDisk + {Some(NewDir)}));
        var cleaned := RemoveAll(OldDir);
        if cleaned { Move(site.(aside := None)); }
      } else {
        if fs.rollback { Move(site.(target := Some(OldDir), aside := None, onDisk := site.onDisk + {Some(OldDir)})); }
        var cleaned := RemoveAll(NewDir);
        if cleaned { Move(site.(staging := None)); }
      }
      ok := fs.install;
    }

    /** The atomic exchange, with its clean-up of the old set, which now sits under the staging name. */
    method ExchangeAndDrop(payload: Files, ghost s0: Site) returns (cleaned: bool)
      requires Poised(site, payload) && site.target.Some? && Seen(site) == Seen(s0) && site.oldFiles == s0.oldFiles
      modifies this
      ensures old(past) <= past && forall i :: |old(past)| <= i < |past| ==> Dropping(s0, payload, past[i])
      ensures Dropping(s0, payload, site) && (cleaned ==> site.oldFiles == map[])
    {
      Move(site.(target := Some(NewDir), staging := Some(OldDir), onDisk := {Some(OldDir), Some(NewDir)}));
      cleaned := RemoveAll(OldDir);
      if cleaned { Move(site.(staging := None)); }
    }

    /** swap_into_place: rename, exchange, or the fallback; then sync the parent. */
    method SwapIntoPlace(payload: Files, fs: Answers, ghost s0: Site) returns (r: Result<(), Failure>)
      requires Poised(site, payload) && Seen(site) == Seen(s0) && site.oldFiles == s0.oldFiles && site.target == s0.target
      modifies this
      ensures old(past) <= past && forall i :: |old(past)| <= i < |past| ==> Survivable(s0, payload, SwapOf(s0, fs), past[i])
      ensures r == Outcome(s0, fs) && site.target == TargetAfter(s0, fs)
      ensures site.target == Some(NewDir) ==> Seen(site) == Some(payload) && site.newSynced == payload
      ensures site.target != Some(NewDir) ==> site.oldFiles == s0.oldFiles
      ensures r.Ok? ==> site.onDisk == {Some(NewDir)}
      ensures LosesTheName(s0, fs) ==> site.aside == Some(OldDir)
    {
      if site.target.Some? {
        match fs.exchange {
          case Swapped =>
            var _ := ExchangeAndDrop(payload, s0);
          case Unsupported =>
            var ok := SwapViaMoveAside(payload, fs, s0);
            if !ok { return Err(SwapFailed); }
          case Failed =>
            var cleaned := RemoveAll(NewDir);
            if cleaned { Move(site.(staging := None)); }
            return Err(SwapFailed);
        }
      } else {
        if !fs.rename { return Err(SwapFailed); }
        Move(site.(target := Some(NewDir), staging := None, onDisk := site.onDisk + {Some(NewDir)}));
      }
      if !fs.sync { return Err(NotSynced); }
      Move(site.(onDisk := {site.target}));
      r := Ok(());
    }

    /**
    restore: every check and the whole build come before the target is touched, and then only by the swap. The
    data directory is the complete old set or the complete new one at every state, whatever fails where, but for
    the window of the fallback; and it ends without its name exactly when the fallback loses it.
    */
    method Restore(set_: Files, pass: Option<string>, force: bool, fs: Answers) returns (r: Result<(), Failure>)
      requires AtRest(site) && past == [site]
      modifies this
      ensures r == RestoreOutcome(old(site), set_, pass, force, fs)
      ensures forall i :: 0 <= i < |past| ==> Survivable(old(site), Restored(set_, pass), SwapOf(old(site), fs), past[i])
      ensures r.Ok? ==> site.newSynced == Restored(set_, pass) && site.onDisk == {Some(NewDir)}
      ensures Seen(site) == if r.Ok? || r.error.NotSynced? then Some(Restored(set_, pass))
                            else if r.error.SwapFailed? && LosesTheName(old(site), fs) then None else Seen(old(site))
      ensures r == Err(SwapFailed) && LosesTheName(old(site), fs) ==> site.aside == Some(OldDir) && site.oldFiles == old(site.oldFiles)
      ensures old(site.target).Some? && old(site.oldFiles) != map[] && !force ==> r.Err? && site == old(site) && past == old(past)
      ensures Restorable(set_, pass).Err? ==> r == Err(Invalid(Restorable(set_, pass).error)) && site == old(site) && past == old(past)
    {
      var staged := Restorable(set_, pass);
      if staged.Err? { return Err(Invalid(staged.error)); }
      if site.target.Some? && site.oldFiles != map[] && !force { return Err(TargetNotEmpty); }
      ghost var s0 := site;
      var built := WithStaging(staged.value, fs);
      UntouchedIsWhole(s0, staged.value, past);
      if !built { return Err(BuildFailed); }
      hide Restorable;
      r := SwapIntoPlace(staged.value, fs, s0);
    }
  }

  /** What a restore answers: the first thing that is wrong, in the order it is looked at. */
  function RestoreOutcome(s0: Site, set_: Files, pass: Option<string>, force: bool, fs: Answers): Result<(), Failure> {
    match Restorable(set_, pass)
    case Err(refusal) => Err(Invalid(refusal))
    case Ok(_) =>
      if s0.target.Some? && s0.oldFiles != map[] && !force then Err(TargetNotEmpty)
      else if !fs.build then Err(BuildFailed)
      else Outcome(s0, fs)
  }

  /** Which way a swap goes: by whether there is a target, and whether the file system can exchange. */
  function SwapOf(s0: Site, fs: Answers): Swap {
    if s0.target.None? then Fresh else if fs.exchange.Unsupported? then MovedAside else Exchanged
  }

  predicate Installs(s0: Site, fs: Answers) {
    match SwapOf(s0, fs)
    case Fresh => fs.rename
    case Exchanged => fs.exchange.Swapped?
    case MovedAside => fs.aside && fs.install
  }

  /** The one way a swap ends without a data directory that was there before. */
  predicate LosesTheName(s0: Site, fs: Answers) { SwapOf(s0, fs).MovedAside? && Stranded(fs) }

  function Outcome(s0: Site, fs: Answers): Result<(), Failure> {
    if !Installs(s0, fs) then Err(SwapFailed) else if fs.sync then Ok(()) else Err(NotSynced)
  }

  function TargetAfter(s0: Site, fs: Answers): Option<Which> {
    if Installs(s0, fs) then Some(NewDir) else if LosesTheName(s0, fs) then None else s0.target
  }

  /** The renames that put the new set in place: one, or the exchange, or without it the fallback's first two. */
  predicate Moves(s0: Site, fs: Answers) {
    if s0.target == None then fs.rename else fs.exchange == Swapped || (fs.exchange == Unsupported && fs.aside && fs.install)
  }

  /**
  What a restore needs, in the order it looks: a valid set; force, or nothing to lose; the build, the renames, the sync.
  The answer names the first that is missing.
  */
  lemma RestoreNeeds(s0: Site, set_: Files, pass: Option<string>, force: bool, fs: Answers)
    ensures var r := RestoreOutcome(s0, set_, pass, force, fs);
            var valid, free := Restorable(set_, pass).Ok?, force || s0.target == None || s0.oldFiles == map[];
            && (r.Ok? <==> valid && free && fs.build && Moves(s0, fs) && fs.sync)
            && (r == Err(NotSynced) <==> valid && free && fs.build && Moves(s0, fs) && !fs.sync)
            && (r == Err(SwapFailed) <==> valid && free && fs.build && !Moves(s0, fs))
            && (r == Err(BuildFailed) <==> valid && free && !fs.build)
            && (r == Err(TargetNotEmpty) <==> valid && !free)
            && (!valid ==> r == Err(Invalid(Restorable(set_, pass).error)))
  {
    hide Restorable;
  }

  /**
  A failed install goes back to the old set exactly when it is not the fallback with both its install and its
  rollback failing after the old set was moved.
  */
  lemma RollsBackIff(s0: Site, fs: Answers)
    requires AtRest(s0) && !Installs(s0, fs)
    ensures TargetAfter(s0, fs) == s0.target <==> !(s0.target.Some? && fs.exchange.Unsupported? && fs.aside && !fs.install && !fs.rollback)
  {
  }

  /** The failing input: over any existing data directory, with no exchange, only the first rename works. */
  method StrandedRestore(s: Site, set_: Files, pass: Option<string>) returns (end: Site, r: Result<(), Failure>)
    requires AtRest(s) && s.target.Some? && Restorable(set_, pass).Ok?
    ensures r == Err(SwapFailed) && Seen(end) == None && end.aside == Some(OldDir) && end.oldFiles == s.oldFiles
  {
    hide Restorable;
    var installer := new Installer(s);
    r := installer.Restore(set_, pass, true, Answers(true, true, Unsupported, true, false, false, true));
    end := installer.site;
  }

  /** The set a restore is about to install; irrelevant when it is refused. */
  function Restored(set_: Files, pass: Option<string>): Files {
    if Restorable(set_, pass).Ok? then Restorable(set_, pass).value else map[]
  }

  /** Staged in full and on disk, the old directory still in place. */
  predicate Poised(s: Site, payload: Files) {
    && s.staging == Some(NewDir) && s.newFiles == s.newSynced == payload && s.aside.None?
    && (s.target.None? || s.target == Some(OldDir)) && s.oldSynced == s.oldFiles && s.onDisk == {s.target}
  }

  /** The new set is in place and the old one, under its other name, is being removed; the parent is not yet synced. */
  predicate Removing(s0: Site, payload: Files, s: Site) {
    && s.target == Some(NewDir) && s.newFiles == s.newSynced == payload && {Some(OldDir), Some(NewDir)} <= s.onDisk
    && s.oldSynced == s0.oldFiles && SubFiles(s.oldFiles, s0.oldFiles)
  }

  /** It is in place by the exchange, so the name always led somewhere. */
  predicate Dropping(s0: Site, payload: Files, s: Site) {
    Removing(s0, payload, s) && s.onDisk == {Some(OldDir), Some(NewDir)}
  }

  /** The fallback, from its first rename on: the name was absent, and on disk it may still be. */
  predicate MovedAway(s0: Site, payload: Files, s: Site) {
    && None in s.onDisk && s.oldSynced == s0.oldFiles
    && if Some(NewDir) in s.onDisk then Removing(s0, payload, s) else Some(OldDir) in s.onDisk && s.oldFiles == s0.oldFiles
  }

  predicate Survivable(s0: Site, payload: Files, swap: Swap, s: Site) {
    if swap.MovedAside? then WholeOrAside(s0, payload, s) else Whole(s0, payload, s)
  }

  lemma UntouchedIsWhole(s0: Site, payload: Files, past: seq<Site>)
    requires AtRest(s0) && forall i :: 1 <= i < |past| ==> OldUntouched(s0, past[i])
    requires past != [] && past[0] == s0
    ensures forall i :: 0 <= i < |past| ==> Seen(past[i]) == Seen(s0)
  {
  }

  /** The old directory, its name and what is on disk of both are as before. */
  predicate OldUntouched(s0: Site, s: Site) {
    s.target == s0.target && s.aside == s0.aside && s.oldFiles == s0.oldFiles && s.oldSynced == s0.oldSynced && s.onDisk == s0.onDisk
  }

  /** Only `w` lost entries. */
  predicate Shrunk(s0: Site, w: Which, s: Site) {
    && s.target == s0.target && s.staging == s0.staging && s.aside == s0.aside && s.onDisk == s0.onDisk && s.oldSynced == s0.oldSynced
    && s.newSynced == s0.newSynced && (if w.OldDir? then s.newFiles == s0.newFiles else s.oldFiles == s0.oldFiles)
    && SubFiles(FilesOf(s, w), FilesOf(s0, w))
  }

  /** Installing a finished backup installs exactly what was captured, in either mode. */
  lemma InstalledIsCaptured(src: Source, pass: Option<string>)
    requires WellNamed(src) && (pass.Some? ==> !Blank(pass.value)) && !Refused(src)
    ensures Restorable(BackupSet(src, pass), pass).Ok? && Restored(BackupSet(src, pass), pass) == Captured(src)
  {
    hide Restorable, Captured, BackupSet;
    RoundTrip(src, pass);
  }

  // ----- power loss before the parent is synced

  /** Where the name still leads anywhere, it leads to a complete set. */
  ghost predicate CompleteIfNamed(s0: Site, payload: Files, s: Site) {
    forall f :: AfterPowerLoss(s, Some(f)) ==> Some(f) == Seen(s0) || f == payload
  }

  lemma SafeIsNamedAndComplete(s0: Site, payload: Files, s: Site)
    requires AtRest(s0) && s0.target.Some?
    ensures SafeFromPowerLoss(s0, payload, s) <==> None !in s.onDisk && CompleteIfNamed(s0, payload, s)
  {
    hide Between, AtRest;
    if SafeFromPowerLoss(s0, payload, s) {
      assert AfterPowerLoss(s, None) <==> None in s.onDisk;
    } else {
      var v :| AfterPowerLoss(s, v) && v != Seen(s0) && v != Some(payload);
      if v.Some? { assert AfterPowerLoss(s, Some(v.value)); }
    }
  }

  /** What may come back part way through the removal: the new set, or anything between what is left of the old one and all of it. */
  lemma RemovalOutcomes(s0: Site, payload: Files, s: Site, f: Files)
    requires AtRest(s0) && s0.target.Some? && Removing(s0, payload, s)
    ensures AfterPowerLoss(s, Some(f)) <==> f == payload || (SubFiles(s.oldFiles, f) && SubFiles(f, s0.oldFiles))
  {
    if Between(f, payload, payload) { assert f == payload; }
    assert Between(f, s.oldFiles, s0.oldFiles) <==> SubFiles(s.oldFiles, f) && SubFiles(f, s0.oldFiles);
  }

  /** One entry is gone, and what is left happens to be the new set. */
  predicate OneGoneToPayload(s0: Site, payload: Files, s: Site) {
    s.oldFiles == payload && exists p :: p in s0.oldFiles && s.oldFiles == s0.oldFiles - {p}
  }

  lemma SameFiles(a: Files, b: Files)
    requires SubFiles(a, b) && forall p :: p in b ==> p in a
    ensures a == b
  {
  }

  /** Nothing gone yet: a name leads to a complete set, and after an exchange both do. */
  lemma BeforeTheDropIsSafe(s0: Site, payload: Files, s: Site)
    requires AtRest(s0) && s0.target.Some? && Removing(s0, payload, s) && s.oldFiles == s0.oldFiles
    ensures CompleteIfNamed(s0, payload, s) && (Dropping(s0, payload, s) ==> SafeFromPowerLoss(s0, payload, s))
  {
    hide Between, AfterPowerLoss;
    forall f | AfterPowerLoss(s, Some(f)) ensures Some(f) == Seen(s0) || f == payload {
      RemovalOutcomes(s0, payload, s, f);
      if f != payload { SameFiles(f, s0.oldFiles); }
    }
    SafeIsNamedAndComplete(s0, payload, s);
  }

  lemma OneGoneIsComplete(s0: Site, payload: Files, s: Site)
    requires AtRest(s0) && s0.target.Some? && Removing(s0, payload, s) && OneGoneToPayload(s0, payload, s)
    ensures CompleteIfNamed(s0, payload, s)
  {
    hide Between, AfterPowerLoss;
    var p :| p in s0.oldFiles && s.oldFiles == s0.oldFiles - {p};
    forall f | AfterPowerLoss(s, Some(f)) ensures Some(f) == Seen(s0) || f == payload {
      RemovalOutcomes(s0, payload, s, f);
      if f != payload { WithOneGone(s0.oldFiles, p, f); }
    }
  }

  lemma WithOneGone(whole: Files, p: Path, f: Files)
    requires p in whole && SubFiles(whole - {p}, f) && SubFiles(f, whole)
    ensures f == whole || f == whole - {p}
  {
    if p in f {
      SameFiles(f, whole);
    } else {
      SameFiles(f, whole - {p});
    }
  }

  /** Otherwise something that is neither set may come back. */
  lemma PartlyGoneIsTorn(s0: Site, payload: Files, s: Site) returns (f: Files)
    requires AtRest(s0) && s0.target.Some? && Removing(s0, payload, s)
    requires s.oldFiles != s0.oldFiles && !OneGoneToPayload(s0, payload, s)
    ensures AfterPowerLoss(s, Some(f)) && f != s0.oldFiles && f != payload
  {
    hide Between, AfterPowerLoss;
    assert SubFiles(s.oldFiles, s0.oldFiles);
    if s.oldFiles == payload {
      f := Halfway(s0.oldFiles, payload);
    } else {
      f := s.oldFiles;
    }
    hide OneGoneToPayload, AtRest;
    RemovalOutcomes(s0, payload, s, f);
  }

  /** Between two sets that differ by more than one entry lies a third. */
  lemma Halfway(whole: Files, left: Files) returns (f: Files)
    requires SubFiles(left, whole) && left != whole && forall p :: p in whole ==> left != whole - {p}
    ensures SubFiles(left, f) && SubFiles(f, whole) && f != whole && f != left
  {
    var p, q := TwoGone(whole, left);
    f := whole - {p};
    assert q in f && p !in f;
  }

  lemma OneMoreGone(left: Files, whole: Files, p: Path)
    requires SubFiles(left, whole) && p in whole && p !in left && forall k :: k in whole && k != p ==> k in left
    ensures left == whole - {p}
  {
    SameFiles(left, whole - {p});
  }

  lemma TwoGone(whole: Files, left: Files) returns (p: Path, q: Path)
    requires SubFiles(left, whole) && left != whole && forall p :: p in whole ==> left != whole - {p}
    ensures p in whole && q in whole && p != q && p !in left && q !in left
  {
    if forall k :: k in whole ==> k in left { SameFiles(left, whole); }
    p :| p in whole && p !in left;
    if forall k :: k in whole && k != p ==> k in left { OneMoreGone(left, whole, p); }
    q :| q in whole && q !in left && q != p;
  }

  /**
  At every state of the removal, what power loss leaves under the name is a complete set exactly when nothing of the
  old set is gone yet (or the one entry gone turned it into the new set).
  */
  lemma RemovingCompleteIff(s0: Site, payload: Files, s: Site)
    requires AtRest(s0) && s0.target.Some? && Removing(s0, payload, s)
    ensures CompleteIfNamed(s0, payload, s) <==> s.oldFiles == s0.oldFiles || OneGoneToPayload(s0, payload, s)
  {
    hide Removing, OneGoneToPayload, AfterPowerLoss, SafeFromPowerLoss;
    if s.oldFiles == s0.oldFiles {
      BeforeTheDropIsSafe(s0, payload, s);
    } else if OneGoneToPayload(s0, payload, s) {
      OneGoneIsComplete(s0, payload, s);
    } else {
      var f := PartlyGoneIsTorn(s0, payload, s);
      assert AfterPowerLoss(s, Some(f));
    }
  }

  /** After the exchange the name leads somewhere, so that is when power loss is safe. */
  lemma DroppingSurvivesIff(s0: Site, payload: Files, s: Site)
    requires AtRest(s0) && s0.target.Some? && Dropping(s0, payload, s)
    ensures SafeFromPowerLoss(s0, payload, s) <==> s.oldFiles == s0.oldFiles || OneGoneToPayload(s0, payload, s)
  {
    hide CompleteIfNamed, OneGoneToPayload, SafeFromPowerLoss;
    SafeIsNamedAndComplete(s0, payload, s);
    RemovingCompleteIff(s0, payload, s);
  }

  /**
  The exchange is not on disk before the parent is synced, but the removal of the old set comes first. Every state
  of it is safe exactly when there was nothing in the old set to remove: always without `force`, and with it only
  over an empty directory.
  */
  lemma ExchangeSurvivesPowerLossIff(s0: Site, payload: Files)
    requires AtRest(s0) && s0.target.Some? && payload != map[]
    ensures (forall s :: Dropping(s0, payload, s) ==> SafeFromPowerLoss(s0, payload, s)) <==> s0.oldFiles == map[]
  {
    if s0.oldFiles == map[] {
      forall s | Dropping(s0, payload, s) ensures SafeFromPowerLoss(s0, payload, s) {
        assert s.oldFiles == map[];
        DroppingSurvivesIff(s0, payload, s);
      }
    } else {
      var s := AllDropped(s0, payload, {Some(OldDir), Some(NewDir)});
      assert Dropping(s0, payload, s);
      DroppingSurvivesIff(s0, payload, s);
    }
  }

  /** The removal done, the parent not yet synced: the state a swap over an old set leaves when its clean-up succeeds. */
  function AllDropped(s0: Site, payload: Files, onDisk: set<Option<Which>>): Site {
    Site(Some(NewDir), Some(OldDir), None, map[], s0.oldFiles, payload, payload, onDisk)
  }

  /**
  The fallback is never safe once it has moved the old set, since the name may be absent; and the name leads to a
  complete set if to any exactly when the removal has not begun (or its one step made the new set of the old).
  */
  lemma FallbackSurvivesIff(s0: Site, payload: Files, s: Site)
    requires AtRest(s0) && s0.target.Some?
    requires MovedAway(s0, payload, s) || (Poised(s, payload) && OldUntouched(s0, s))
    ensures SafeFromPowerLoss(s0, payload, s) <==> !MovedAway(s0, payload, s)
    ensures CompleteIfNamed(s0, payload, s) <==> s.oldFiles == s0.oldFiles || OneGoneToPayload(s0, payload, s)
  {
    hide OneGoneToPayload, SafeFromPowerLoss, Between;
    SafeIsNamedAndComplete(s0, payload, s);
    if MovedAway(s0, payload, s) && Some(NewDir) in s.onDisk {
      RemovingCompleteIff(s0, payload, s);
    } else {
      OldOnDiskIsComplete(s0, payload, s);
    }
  }

  /** The name leads to the old set if it leads anywhere, and the old set is as it was. */
  lemma OldOnDiskIsComplete(s0: Site, payload: Files, s: Site)
    requires AtRest(s0) && s0.target.Some? && Some(NewDir) !in s.onDisk && s.oldFiles == s.oldSynced == s0.oldFiles
    ensures CompleteIfNamed(s0, payload, s)
  {
    forall f | AfterPowerLoss(s, Some(f)) ensures Some(f) == Seen(s0) || f == payload {
      assert Between(f, s0.oldFiles, s0.oldFiles);
      SameFiles(f, s0.oldFiles);
    }
  }

  /** Over every state the fallback passes, the name leads to a complete set if to any exactly when the old set was empty. */
  lemma FallbackSurvivesPowerLossIff(s0: Site, payload: Files)
    requires AtRest(s0) && s0.target.Some? && payload != map[]
    ensures (forall s :: MovedAway(s0, payload, s) ==> CompleteIfNamed(s0, payload, s)) <==> s0.oldFiles == map[]
  {
    hide CompleteIfNamed, SafeFromPowerLoss;
    if s0.oldFiles == map[] {
      forall s | MovedAway(s0, payload, s) ensures CompleteIfNamed(s0, payload, s) {
        assert s.oldFiles == map[];
        FallbackSurvivesIff(s0, payload, s);
      }
    } else {
      var s := AllDropped(s0, payload, {Some(OldDir), None, Some(NewDir)});
      assert MovedAway(s0, payload, s);
      FallbackSurvivesIff(s0, payload, s);
    }
  }
}

/**
Headless bootstrap: three durable writes, the operator row, the federation config and the seed, made in that
order and only after everything that can be refused has been checked.

`Decide` is the decision over what is durable now; `Written` the durable state after the first `k` writes. The
BIP39 code is a parameter with the laws bootstrap relies on: parsing yields a canonical phrase, and the identity
of a phrase is that of its canonical form.
*/
module Bootstrap {
  import opened Wrappers
  import opened Text

  // ----- relays

  const DEFAULT_RELAYS: seq<string> := ["wss://relay.damus.io", "wss://nos.lol", "wss://relay.primal.net"]

  function Kept(relays: seq<string>): (r: seq<string>)
    ensures forall i :: 0 <= i < |r| ==> r[i] != "" && Tight(r[i])
  {
    if relays == [] then []
    else
      var last := NonEmpty(Some(relays[|relays| - 1]));
      Kept(relays[..|relays| - 1]) + if last.Some? then [last.value] else []
  }

  function NormalizeRelays(relays: seq<string>): seq<string> {
    if Kept(relays) == [] then DEFAULT_RELAYS else Kept(relays)
  }

  lemma {:induction false} KeptStays(relays: seq<string>)
    requires forall i :: 0 <= i < |relays| ==> relays[i] != "" && Tight(relays[i])
    ensures Kept(relays) == relays
  {
    if relays != [] {
      KeptStays(relays[..|relays| - 1]);
    }
  }

  lemma DefaultsAreTight()
    ensures forall i :: 0 <= i < |DEFAULT_RELAYS| ==> DEFAULT_RELAYS[i] != "" && Tight(DEFAULT_RELAYS[i])
  {
    assert DEFAULT_RELAYS[0][0] == DEFAULT_RELAYS[1][0] == DEFAULT_RELAYS[2][0] == 'w';
    assert DEFAULT_RELAYS[0][19] == 'o' && DEFAULT_RELAYS[1][12] == 'l' && DEFAULT_RELAYS[2][21] == 't';
  }

  /** Normalised relays are stored, so a retry reads back exactly what it would write. */
  lemma NormalizeIsIdempotent(relays: seq<string>)
    ensures NormalizeRelays(relays) != [] && NormalizeRelays(NormalizeRelays(relays)) == NormalizeRelays(relays)
  {
    DefaultsAreTight();
    KeptStays(NormalizeRelays(relays));
  }

  method Normalize(relays: seq<string>) returns (r: seq<string>)
    ensures r == NormalizeRelays(relays)
  {
    r := [];
    for i := 0 to |relays|
      invariant r == Kept(relays[..i])
    {
      assert relays[..i + 1][..i] == relays[..i];
      var relay := NonEmpty(Some(relays[i]));
      if relay.Some? { r := r + [relay.value]; }
    }
    assert relays[..|relays|] == relays;
    if r == [] { r := DEFAULT_RELAYS; }
  }

  // ----- inputs and durable state

  /** `canon` parses and normalises a phrase; `identity` derives the operator's key from it. */
  datatype Bip39 = Bip39(canon: string -> Option<string>, identity: string -> Option<string>)

  ghost predicate Lawful(bip: Bip39) {
    && (forall m :: bip.canon(m).Some? ==> var c := bip.canon(m).value; c != "" && Tight(c) && bip.canon(c) == Some(c))
    && (forall m :: bip.canon(m).Some? ==> bip.identity(m).Some? && bip.identity(bip.canon(m).value) == bip.identity(m))
    && (forall m :: bip.canon(m).None? ==> bip.identity(m).None?)
  }

  datatype Mode = Mock | Fedimint | Phoenixd

  function Parse(name: string): Option<Mode> {
    if name == "mock" then Some(Mock) else if name == "fedimint" then Some(Fedimint)
    else if name == "phoenixd" then Some(Phoenixd) else None
  }

  function NameOf(mode: Mode): (name: string)
    ensures Parse(name) == Some(mode)
  {
    match mode case Mock => "mock" case Fedimint => "fedimint" case Phoenixd => "phoenixd"
  }

  /** One run's input; `phoenixdOk` says that its phoenixd settings pass validation. */
  datatype Raw = Raw(
    mnemonic: Option<string>, payment: Option<string>, relays: Option<seq<string>>, invite: Option<string>, phoenixdOk: bool)

  /** `relays` is None when the stored JSON does not parse. */
  datatype Row = Row(identity: string, payment: string, compute: string, relays: Option<seq<string>>)

  datatype FedFile = Config(invite: string) | Garbled

  datatype Durable = Durable(rows: seq<Row>, fed: Option<FedFile>, seed: Option<string>)

  datatype Error = ConfigInvalid | ConfigConflict | SeedMissing | SeedConflict | BadMnemonic | NotSingleton

  datatype Resolved = Resolved(mode: Mode, relays: seq<string>)

  datatype Seed = Seed(mnemonic: string, persist: bool)

  /** The writes a bootstrap is going to make; None where the file already holds it. */
  datatype Plan = Plan(row: Row, fed: Option<string>, seed: Option<string>)

  predicate IsWebsocket(relay: string) { "ws://" <= relay || "wss://" <= relay }

  function RelaysOf(raw: Raw): seq<string> {
    if raw.relays.Some? && raw.relays.value != [] then NormalizeRelays(raw.relays.value) else DEFAULT_RELAYS
  }

  predicate RelaysSupplied(raw: Raw) { raw.relays.Some? && Kept(raw.relays.value) != [] }

  function ResolveConfig(raw: Raw): Result<Resolved, Error> {
    var mode := if NonEmpty(raw.payment).None? then Some(Mock) else Parse(NonEmpty(raw.payment).value);
    if mode.None? then Err(ConfigInvalid)
    else if mode.value.Phoenixd? && !raw.phoenixdOk then Err(ConfigInvalid)
    else if exists i :: 0 <= i < |RelaysOf(raw)| && !IsWebsocket(RelaysOf(raw)[i]) then Err(ConfigInvalid)
    else Ok(Resolved(mode.value, RelaysOf(raw)))
  }

  /** The federation config must be supplied and agree with the stored one, or be stored already. */
  function CheckFedimint(fed: Option<FedFile>, raw: Raw): Option<Error> {
    match NonEmpty(raw.invite)
    case Some(invite) =>
      (match fed
       case None => None
       case Some(Config(stored)) => if Trim(stored) != invite then Some(ConfigConflict) else None
       case Some(Garbled) => Some(ConfigConflict))
    case None =>
      (match fed
       case Some(Config(stored)) => if Trim(stored) == "" then Some(ConfigInvalid) else None
       case _ => Some(ConfigInvalid))
  }

  function Canonical(bip: Bip39, m: string): Option<string> { bip.canon(Trim(m)) }

  predicate SameMnemonic(bip: Bip39, a: string, b: string) {
    if Canonical(bip, a).Some? && Canonical(bip, b).Some? then Canonical(bip, a) == Canonical(bip, b) else Trim(a) == Trim(b)
  }

  /** A stored seed wins, and refuses a different one; a first run keeps the canonical phrase for later. */
  function ResolveSeed(bip: Bip39, stored: Option<string>, raw: Raw): Result<Seed, Error> {
    var supplied := NonEmpty(raw.mnemonic);
    match stored
    case Some(file) =>
      if supplied.Some? && !SameMnemonic(bip, supplied.value, Trim(file)) then Err(SeedConflict)
      else Ok(Seed(Trim(file), false))
    case None =>
      if supplied.None? then Err(SeedMissing)
      else Ok(Seed(Canonical(bip, supplied.value).GetOr(supplied.value), true))
  }

  function StoredPayment(rows: seq<Row>, identity: string): Option<string> {
    if rows != [] && rows[0].identity == identity then Some(rows[0].payment) else None
  }

  /** A run that names no backend inherits the stored one, whose config must hold up before anything is written. */
  function CheckInherited(d: Durable, identity: string, raw: Raw): Option<Error> {
    if NonEmpty(raw.payment).Some? then None
    else if StoredPayment(d.rows, identity) == Some("fedimint") then CheckFedimint(d.fed, raw)
    else if StoredPayment(d.rows, identity) == Some("phoenixd") && !raw.phoenixdOk then Some(ConfigInvalid)
    else None
  }

  const DEFAULT_COMPUTE := "host"

  /** The one operator row after this run, or why it is refused. */
  function Reconcile(rows: seq<Row>, identity: string, cfg: Resolved, raw: Raw): Result<Row, Error> {
    if |rows| > 1 then Err(NotSingleton)
    else if rows == [] then Ok(Row(identity, NameOf(cfg.mode), DEFAULT_COMPUTE, Some(cfg.relays)))
    else if rows[0].identity != identity then Err(SeedConflict)
    else if NonEmpty(raw.payment).Some? && rows[0].payment != NameOf(cfg.mode) then Err(ConfigConflict)
    else if Parse(rows[0].payment).None? then Err(ConfigConflict)
    else
      var relays := if RelaysSupplied(raw) || rows[0].relays.None? then cfg.relays else NormalizeRelays(rows[0].relays.value);
      Ok(rows[0].(relays := Some(relays)))
  }

  datatype Admission = Admission(cfg: Resolved, identity: string, seed: Seed)

  /** Everything that is checked before the store is written. */
  function Admit(bip: Bip39, d: Durable, raw: Raw): Result<Admission, Error> {
    match ResolveConfig(raw)
    case Err(e) => Err(e)
    case Ok(cfg) =>
      if cfg.mode.Fedimint? && CheckFedimint(d.fed, raw).Some? then Err(CheckFedimint(d.fed, raw).value)
      else
        match ResolveSeed(bip, d.seed, raw)
        case Err(e) => Err(e)
        case Ok(seed) =>
          match bip.identity(seed.mnemonic)
          case None => Err(BadMnemonic)
          case Some(identity) =>
            if CheckInherited(d, identity, raw).Some? then Err(CheckInherited(d, identity, raw).value)
            else Ok(Admission(cfg, identity, seed))
  }

  function PlanFor(d: Durable, seed: Seed, row: Row, raw: Raw): Plan {
    Plan(row, if row.payment == "fedimint" && d.fed.None? then NonEmpty(raw.invite) else None,
         if seed.persist then Some(seed.mnemonic) else None)
  }

  function Decide(bip: Bip39, d: Durable, raw: Raw): Result<Plan, Error> {
    match Admit(bip, d, raw)
    case Err(e) => Err(e)
    case Ok(a) =>
      match Reconcile(d.rows, a.identity, a.cfg, raw)
      case Err(e) => Err(e)
      case Ok(row) => Ok(PlanFor(d, a.seed, row, raw))
  }

  /** Admitted and reconciled, nothing later can be refused: a stored federation config agrees, a seed to write is not there. */
  lemma AdmittedWritesGoThrough(bip: Bip39, d: Durable, raw: Raw)
    requires Decide(bip, d, raw).Ok?
    ensures var a, plan := Admit(bip, d, raw).value, Decide(bip, d, raw).value;
            && (a.seed.persist ==> d.seed.None?)
            && (plan.row.payment == "fedimint" && NonEmpty(raw.invite).Some? && d.fed.Some? ==>
                  d.fed.value.Config? && Trim(d.fed.value.invite) == Trim(NonEmpty(raw.invite).value))
            && (plan.row.payment == "fedimint" ==> CheckFedimint(d.fed, raw).None?)
  {
  }

  /** What is durable once the first `k` of the three writes are done. */
  function Written(d: Durable, plan: Plan, k: nat): Durable {
    var d1 := if k < 1 then d else d.(rows := [plan.row]);
    var d2 := if k < 2 || plan.fed.None? then d1 else d1.(fed := Some(Config(plan.fed.value)));
    if k < 3 || plan.seed.None? then d2 else d2.(seed := Some(plan.seed.value))
  }

  // ----- bootstrap, write by write

  class Box {
    var durable: Durable
    ghost var past: seq<Durable>

    constructor (d: Durable)
      ensures durable == d && past == [d]
    {
      durable, past := d, [d];
    }

    method Commit(d: Durable)
      modifies this
      ensures durable == d && past == old(past) + [d]
    {
      durable := d;
      past := past + [d];
    }

    /** The operator row, read and written in one transaction. */
    method PersistOperatorRow(identity: string, cfg: Resolved, raw: Raw) returns (r: Result<Row, Error>)
      modifies this
      ensures r == Reconcile(old(durable.rows), identity, cfg, raw)
      ensures r.Ok? ==> durable == old(durable).(rows := [r.value]) && past == old(past) + [durable]
      ensures r.Err? ==> durable == old(durable) && past == old(past)
    {
      if |durable.rows| > 1 { return Err(NotSingleton); }
      if durable.rows == [] {
        var row := Row(identity, NameOf(cfg.mode), DEFAULT_COMPUTE, Some(cfg.relays));
        Commit(durable.(rows := [row]));
        return Ok(row);
      }
      var row := durable.rows[0];
      if row.identity != identity { return Err(SeedConflict); }
      if NonEmpty(raw.payment).Some? && row.payment != NameOf(cfg.mode) { return Err(ConfigConflict); }
      if Parse(row.payment).None? { return Err(ConfigConflict); }
      var relays := cfg.relays;
      if !RelaysSupplied(raw) && row.relays.Some? { relays := Normalize(row.relays.value); }
      row := row.(relays := Some(relays));
      Commit(durable.(rows := [row]));
      r := Ok(row);
    }

    method WriteFedimintConfig(invite: string) returns (r: Option<Error>)
      modifies this
      ensures old(durable.fed).None? ==>
                r.None? && durable == old(durable).(fed := Some(Config(invite))) && past == old(past) + [durable]
      ensures old(durable.fed).Some? ==>
                durable == old(durable) && past == old(past)
                && (r.None? <==> old(durable.fed.value.Config? && Trim(durable.fed.value.invite) == Trim(invite)))
    {
      match durable.fed {
        case Some(Config(stored)) => return if Trim(stored) != Trim(invite) then Some(ConfigConflict) else None;
        case Some(Garbled) => return Some(ConfigConflict);
        case None =>
      }
      Commit(durable.(fed := Some(Config(invite))));
      r := None;
    }

    /** A stored seed is never overwritten. */
    method WriteSeed(mnemonic: string) returns (r: Option<Error>)
      modifies this
      ensures old(durable.seed).None? ==>
                r.None? && durable == old(durable).(seed := Some(mnemonic)) && past == old(past) + [durable]
      ensures old(durable.seed).Some? ==>
                durable == old(durable) && past == old(past) && (r.None? <==> Trim(old(durable.seed.value)) == mnemonic)
    {
      if durable.seed.Some? {
        return if Trim(durable.seed.value) == mnemonic then None else Some(SeedConflict);
      }
      Commit(durable.(seed := Some(mnemonic)));
      r := None;
    }

    method Check(bip: Bip39, raw: Raw) returns (r: Result<Admission, Error>)
      ensures r == Admit(bip, durable, raw)
    {
      var resolved := ResolveConfig(raw);
      if resolved.Err? { return Err(resolved.error); }
      var cfg := resolved.value;
      if cfg.mode.Fedimint? {
        var bad := CheckFedimint(durable.fed, raw);
        if bad.Some? { return Err(bad.value); }
      }
      var seed := ResolveSeed(bip, durable.seed, raw);
      if seed.Err? { return Err(seed.error); }
      var identity := bip.identity(seed.value.mnemonic);
      if identity.None? { return Err(BadMnemonic); }
      var inherited := CheckInherited(durable, identity.value, raw);
      if inherited.Some? { return Err(inherited.value); }
      r := Ok(Admission(cfg, identity.value, seed.value));
    }

    /** All or nothing but for a crash: a refusal writes nothing, and each state on the way is a prefix of the plan. */
    method Bootstrap(bip: Bip39, raw: Raw) returns (r: Result<Row, Error>)
      modifies this
      ensures var plan := Decide(bip, old(durable), raw);
              && (plan.Err? ==> r == Err(plan.error) && durable == old(durable) && past == old(past))
              && (plan.Ok? ==> r == Ok(plan.value.row) && durable == Written(old(durable), plan.value, 3))
              && (plan.Ok? ==> old(past) <= past && forall i :: |old(past)| <= i < |past| ==>
                    exists k :: 0 <= k <= 3 && past[i] == Written(old(durable), plan.value, k))
    {
      var admitted := Check(bip, raw);
      if admitted.Err? { return Err(admitted.error); }
      var cfg, identity, seed := admitted.value.cfg, admitted.value.identity, admitted.value.seed;
      ghost var d := durable;
      hide Admit, Reconcile;
      var row := PersistOperatorRow(identity, cfg, raw);
      if row.Err? { return Err(row.error); }
      ghost var plan := Decide(bip, d, raw).value;
      AdmittedWritesGoThrough(bip, d, raw);
      assert durable == Written(d, plan, 1);
      if row.value.payment == "fedimint" && NonEmpty(raw.invite).Some? {
        var conflict := WriteFedimintConfig(NonEmpty(raw.invite).value);
        assert conflict.None?;
      }
      assert durable == Written(d, plan, 2);
      if seed.persist {
        var conflict := WriteSeed(seed.mnemonic);
        assert conflict.None?;
      }
      assert durable == Written(d, plan, 3);
      r := Ok(row.value);
    }
  }

  lemma AdmittedSeed(bip: Bip39, d: Durable, raw: Raw)
    requires Lawful(bip) && Admit(bip, d, raw).Ok?
    ensures var a := Admit(bip, d, raw).value;
            && bip.identity(a.seed.mnemonic) == Some(a.identity) && Tight(a.seed.mnemonic)
            && (d.seed.Some? ==> a.seed == Seed(Trim(d.seed.value), false))
  {
    hide CheckFedimint, CheckInherited, ResolveConfig, SameMnemonic;
  }

  /** A phrase that agrees with a stored seed derives the identity the stored seed derives. */
  lemma SameMnemonicSameIdentity(bip: Bip39, supplied: string, stored: string)
    requires Lawful(bip) && Tight(supplied) && Tight(stored) && SameMnemonic(bip, supplied, stored) && bip.identity(stored).Some?
    ensures bip.identity(supplied) == bip.identity(stored)
  {
    assert bip.canon(stored).Some?;
    if bip.canon(supplied).Some? {
      assert bip.identity(bip.canon(supplied).value) == bip.identity(supplied);
      assert bip.identity(bip.canon(stored).value) == bip.identity(stored);
    }
  }

  lemma SuppliedPhraseOwnsRow(bip: Bip39, d: Durable, raw: Raw)
    requires Lawful(bip) && Admit(bip, d, raw).Ok? && NonEmpty(raw.mnemonic).Some?
    ensures bip.identity(NonEmpty(raw.mnemonic).value) == Some(Admit(bip, d, raw).value.identity)
  {
    hide CheckFedimint, CheckInherited, ResolveConfig;
    var supplied := NonEmpty(raw.mnemonic).value;
    AdmittedSeed(bip, d, raw);
    if d.seed.Some? {
      SameMnemonicSameIdentity(bip, supplied, Trim(d.seed.value));
    } else {
      assert bip.canon(supplied).Some? ==> bip.identity(bip.canon(supplied).value) == bip.identity(supplied);
    }
  }

  lemma PaymentHonoured(bip: Bip39, d: Durable, raw: Raw)
    requires Decide(bip, d, raw).Ok?
    ensures var row := Decide(bip, d, raw).value.row;
            && (NonEmpty(raw.payment).Some? ==> row.payment == NonEmpty(raw.payment).value)
            && (NonEmpty(raw.payment).None? ==> row.payment == if d.rows == [] then "mock" else d.rows[0].payment)
            && (RelaysSupplied(raw) ==> row.relays == Some(NormalizeRelays(raw.relays.value)))
  {
    hide CheckFedimint, CheckInherited, ResolveSeed, NonEmpty;
  }

  /**
  A bootstrap that succeeds did what it was asked, or what was settled before: the supplied phrase owns the row,
  a named backend is the stored one, an omitted one is inherited, and a fedimint row has its federation on disk,
  the supplied one if any was.
  */
  lemma SuccessMeans(bip: Bip39, d: Durable, raw: Raw)
    requires Lawful(bip) && Decide(bip, d, raw).Ok?
    ensures var plan := Decide(bip, d, raw).value; var end := Written(d, plan, 3);
            && (NonEmpty(raw.mnemonic).Some? ==> bip.identity(NonEmpty(raw.mnemonic).value) == Some(plan.row.identity))
            && (NonEmpty(raw.payment).Some? ==> plan.row.payment == NonEmpty(raw.payment).value)
            && (NonEmpty(raw.payment).None? ==> plan.row.payment == if d.rows == [] then "mock" else d.rows[0].payment)
            && (plan.row.payment == "fedimint" ==>
                  end.fed.Some? && end.fed.value.Config?
                  && (NonEmpty(raw.invite).Some? ==> Trim(end.fed.value.invite) == NonEmpty(raw.invite).value))
            && end.seed.Some?
  {
    if NonEmpty(raw.mnemonic).Some? { SuppliedPhraseOwnsRow(bip, d, raw); }
    PaymentHonoured(bip, d, raw);
    AdmittedWritesGoThrough(bip, d, raw);
    AdmittedSeed(bip, d, raw);
    RowOfAdmitted(bip, d, raw);
    hide Admit, Reconcile, Lawful, NormalizeRelays, RelaysSupplied;
  }

  lemma RowOfAdmitted(bip: Bip39, d: Durable, raw: Raw)
    requires Decide(bip, d, raw).Ok?
    ensures var a, plan := Admit(bip, d, raw).value, Decide(bip, d, raw).value;
            plan.row.identity == a.identity && (d.seed.None? ==> a.seed.persist)
  {
    hide CheckFedimint, CheckInherited, ResolveConfig, NonEmpty, NormalizeRelays, RelaysSupplied, Parse, NameOf;
  }

  // ----- what is refused

  /** Some supplied relay is more than blanks. */
  predicate AsksForRelays(raw: Raw) { raw.relays.Some? && exists i :: 0 <= i < |raw.relays.value| && Trim(raw.relays.value[i]) != "" }

  lemma KeptOne(relay: string)
    ensures Kept([relay]) == if Trim(relay) == "" then [] else [Trim(relay)]
  {
    assert [relay][..0] == [];
  }

  /** A list is normalised entry by entry, in order: each trimmed, the blank ones dropped. */
  lemma {:induction false} KeptAre(relays: seq<string>, more: seq<string>, relay: string)
    ensures Kept(relays + more) == Kept(relays) + Kept(more)
    ensures Kept([relay]) == if Trim(relay) == "" then [] else [Trim(relay)]
  {
    hide NonEmpty, Trim, Tight;
    KeptOne(relay);
    if more == [] {
      assert relays + more == relays;
    } else {
      var n := |more| - 1;
      KeptAre(relays, more[..n], relay);
      assert (relays + more)[..|relays| + n] == relays + more[..n];
    }
  }

  lemma {:induction false} KeptSome(relays: seq<string>)
    ensures Kept(relays) != [] <==> exists i :: 0 <= i < |relays| && Trim(relays[i]) != ""
  {
    if relays != [] {
      var n := |relays| - 1;
      KeptSome(relays[..n]);
      assert forall i :: 0 <= i < n ==> relays[..n][i] == relays[i];
      hide Trim;
    }
  }

  /** The relays a run asks for, or the defaults; a list of blanks asks for nothing. */
  lemma RelaysAre(raw: Raw)
    ensures RelaysSupplied(raw) <==> AsksForRelays(raw)
    ensures RelaysOf(raw) == if AsksForRelays(raw) then Kept(raw.relays.value)
                             else ["wss://relay.damus.io", "wss://nos.lol", "wss://relay.primal.net"]
  {
    if raw.relays.Some? { KeptSome(raw.relays.value); }
    hide Trim;
  }

  /** The trimmed value of a setting that is given and not blank. */
  function Given(s: Option<string>): (r: Option<string>)
  {
    if s.Some? && Trim(s.value) != "" then Some(Trim(s.value)) else None
  }

  /** A federation can be written or agrees: one is supplied and none other is stored, or a usable one is stored. */
  predicate FederationAgrees(d: Durable, raw: Raw) {
    match d.fed
    case None => Given(raw.invite).Some?
    case Some(Garbled) => false
    case Some(Config(stored)) => if Given(raw.invite).Some? then Given(raw.invite) == Given(Some(stored)) else Given(Some(stored)).Some?
  }

  /** The phrase in effect: the stored one, which a supplied one must agree with, or the supplied one, which is kept. */
  function Phrase(bip: Bip39, d: Durable, raw: Raw): Option<string> {
    match (d.seed, Given(raw.mnemonic))
    case (None, None) => None
    case (None, Some(m)) => Some(if bip.canon(m).Some? then bip.canon(m).value else m)
    case (Some(file), None) => Some(Trim(file))
    case (Some(file), Some(m)) =>
      if (if bip.canon(m).Some? && bip.canon(Trim(file)).Some? then bip.canon(m) == bip.canon(Trim(file)) else m == Trim(file))
      then Some(Trim(file)) else None
  }

  /** The backend in effect: the row's, else the one named, else the mock. */
  function BackendOf(d: Durable, raw: Raw): string {
    if d.rows != [] then d.rows[0].payment else Given(raw.payment).GetOr("mock")
  }

  /** Everything a bootstrap needs of its input and of what is durable already. */
  ghost predicate Acceptable(bip: Bip39, d: Durable, raw: Raw) {
    && (Given(raw.payment).Some? ==> Given(raw.payment).value in {"mock", "fedimint", "phoenixd"})
    && BackendOf(d, raw) in {"mock", "fedimint", "phoenixd"}
    && (Given(raw.payment).Some? ==> Given(raw.payment) == Some(BackendOf(d, raw)))
    && (BackendOf(d, raw) == "fedimint" ==> FederationAgrees(d, raw))
    && (BackendOf(d, raw) == "phoenixd" ==> raw.phoenixdOk)
    && (forall i :: 0 <= i < |RelaysOf(raw)| ==> "ws://" <= RelaysOf(raw)[i] || "wss://" <= RelaysOf(raw)[i])
    && Phrase(bip, d, raw).Some? && bip.identity(Phrase(bip, d, raw).value).Some?
    && |d.rows| <= 1 && (d.rows != [] ==> bip.identity(Phrase(bip, d, raw).value) == Some(d.rows[0].identity))
  }

  lemma GivenIsNonEmpty(s: Option<string>)
    ensures Given(s) == NonEmpty(s) && (Given(s).Some? ==> Trim(Given(s).value) == Given(s).value)
  {
  }

  lemma FederationChecks(d: Durable, raw: Raw)
    ensures CheckFedimint(d.fed, raw).None? <==> FederationAgrees(d, raw)
  {
    GivenIsNonEmpty(raw.invite);
    hide Trim;
  }

  lemma PhraseResolves(bip: Bip39, d: Durable, raw: Raw)
    ensures ResolveSeed(bip, d.seed, raw).Ok? <==> Phrase(bip, d, raw).Some?
    ensures Phrase(bip, d, raw).Some? ==> ResolveSeed(bip, d.seed, raw) == Ok(Seed(Phrase(bip, d, raw).value, d.seed.None?))
  {
    GivenIsNonEmpty(raw.mnemonic);
    if d.seed.Some? { GivenIsNonEmpty(d.seed); TrimTwice(d.seed.value); }
    hide NonEmpty;
  }

  lemma TrimTwice(s: string)
    ensures Trim(Trim(s)) == Trim(s)
  {
  }

  /** A bootstrap goes through exactly when its input and what is durable agree. */
  lemma BootstrapsIff(bip: Bip39, d: Durable, raw: Raw)
    ensures Decide(bip, d, raw).Ok? <==> Acceptable(bip, d, raw)
  {
    FederationChecks(d, raw);
    PhraseResolves(bip, d, raw);
    GivenIsNonEmpty(raw.payment);
    hide CheckFedimint, FederationAgrees, ResolveSeed, Phrase, NonEmpty, Given, RelaysOf, NormalizeRelays, RelaysSupplied;
  }

  /**
  What a bootstrap leaves, field by field: the relays asked for, or the stored ones, or the defaults; everything else
  stored as it was, and what was not stored from the input.
  */
  lemma BootstrapLeaves(bip: Bip39, d: Durable, raw: Raw)
    requires Decide(bip, d, raw).Ok?
    ensures var end := Written(d, Decide(bip, d, raw).value, 3);
            |end.rows| == 1 && var row := end.rows[0];
            && row.payment == BackendOf(d, raw) && Some(row.identity) == bip.identity(Phrase(bip, d, raw).value)
            && row.compute == (if d.rows != [] then d.rows[0].compute else "host")
            && row.relays == Some(if AsksForRelays(raw) then Kept(raw.relays.value)
                                  else if d.rows != [] && d.rows[0].relays.Some? then NormalizeRelays(d.rows[0].relays.value)
                                  else RelaysOf(raw))
            && end.seed == (if d.seed.Some? then d.seed else Phrase(bip, d, raw))
            && end.fed == (if d.fed.Some? || row.payment != "fedimint" then d.fed else Some(Config(Given(raw.invite).value)))
  {
    BootstrapsIff(bip, d, raw);
    PhraseResolves(bip, d, raw);
    GivenIsNonEmpty(raw.invite);
    GivenIsNonEmpty(raw.payment);
    RelaysAre(raw);
    hide CheckFedimint, ResolveSeed, Phrase, NonEmpty, Given, RelaysOf, NormalizeRelays, RelaysSupplied, AsksForRelays;
  }

  /** What each refusal says is wrong. */
  ghost predicate Wrong(bip: Bip39, d: Durable, raw: Raw, e: Error) {
    match e
    case NotSingleton => |d.rows| > 1
    case SeedMissing => d.seed.None? && Given(raw.mnemonic).None?
    case BadMnemonic => Phrase(bip, d, raw).Some? && bip.identity(Phrase(bip, d, raw).value).None?
    case SeedConflict =>
      || (d.seed.Some? && Given(raw.mnemonic).Some? && Phrase(bip, d, raw).None?)
      || (d.rows != [] && Phrase(bip, d, raw).Some? && bip.identity(Phrase(bip, d, raw).value) != Some(d.rows[0].identity))
    case ConfigConflict =>
      || (d.rows != [] && (d.rows[0].payment !in {"mock", "fedimint", "phoenixd"}
                           || (Given(raw.payment).Some? && Given(raw.payment).value != d.rows[0].payment)))
      || (Given(raw.invite).Some? && d.fed.Some? && !FederationAgrees(d, raw))
    case ConfigInvalid =>
      || (Given(raw.payment).Some? && Given(raw.payment).value !in {"mock", "fedimint", "phoenixd"})
      || (exists i :: 0 <= i < |RelaysOf(raw)| && !IsWebsocket(RelaysOf(raw)[i]))
      || (Given(raw.invite).None? && !FederationAgrees(d, raw))
      || !raw.phoenixdOk
  }

  lemma AdmissionRefusal(bip: Bip39, d: Durable, raw: Raw)
    requires Admit(bip, d, raw).Err?
    ensures Wrong(bip, d, raw, Admit(bip, d, raw).error)
  {
    hide CheckFedimint, FederationAgrees, ResolveSeed, Phrase, NonEmpty, Given, RelaysOf;
    FederationChecks(d, raw);
    FederationRefusal(d, raw);
    PhraseResolves(bip, d, raw);
    if ResolveSeed(bip, d.seed, raw).Err? { SeedRefusal(bip, d, raw); }
    GivenIsNonEmpty(raw.payment);
  }

  lemma RowRefusal(bip: Bip39, d: Durable, raw: Raw)
    requires Admit(bip, d, raw).Ok? && Decide(bip, d, raw).Err?
    ensures Wrong(bip, d, raw, Decide(bip, d, raw).error)
  {
    hide CheckFedimint, CheckInherited, FederationAgrees, ResolveSeed, Phrase, NonEmpty, Given, RelaysOf, NormalizeRelays, RelaysSupplied;
    PhraseResolves(bip, d, raw);
    GivenIsNonEmpty(raw.payment);
  }

  /** A refused bootstrap says something that is so. */
  lemma RefusalMeans(bip: Bip39, d: Durable, raw: Raw)
    requires Decide(bip, d, raw).Err?
    ensures Wrong(bip, d, raw, Decide(bip, d, raw).error)
  {
    hide Admit, Reconcile, Wrong;
    if Admit(bip, d, raw).Err? { AdmissionRefusal(bip, d, raw); } else { RowRefusal(bip, d, raw); }
  }

  lemma FederationRefusal(d: Durable, raw: Raw)
    ensures CheckFedimint(d.fed, raw).Some? ==>
              CheckFedimint(d.fed, raw).value == if Given(raw.invite).Some? then ConfigConflict else ConfigInvalid
    ensures CheckFedimint(d.fed, raw) == Some(ConfigConflict) ==> d.fed.Some?
  {
    GivenIsNonEmpty(raw.invite);
    hide Trim;
  }

  lemma SeedRefusal(bip: Bip39, d: Durable, raw: Raw)
    requires ResolveSeed(bip, d.seed, raw).Err?
    ensures ResolveSeed(bip, d.seed, raw).error == if d.seed.Some? then SeedConflict else SeedMissing
    ensures d.seed.Some? <==> Given(raw.mnemonic).Some?
  {
    GivenIsNonEmpty(raw.mnemonic);
    hide NonEmpty;
  }

  // ----- crash and retry

  /** The stored seed, if any, is the supplied phrase in its canonical form: the retry resolves to it unchanged. */
  lemma SeedRetries(bip: Bip39, stored: Option<string>, raw: Raw)
    requires Lawful(bip) && ResolveSeed(bip, stored, raw).Ok? && ResolveSeed(bip, stored, raw).value.persist
    requires bip.identity(ResolveSeed(bip, stored, raw).value.mnemonic).Some?
    ensures var m := ResolveSeed(bip, stored, raw).value.mnemonic; ResolveSeed(bip, Some(m), raw) == Ok(Seed(m, false))
  {
    var m := ResolveSeed(bip, stored, raw).value.mnemonic;
    assert bip.canon(m).Some?;
  }

  lemma RelaysAreNormal(raw: Raw)
    ensures NormalizeRelays(RelaysOf(raw)) == RelaysOf(raw)
  {
    if raw.relays.Some? && raw.relays.value != [] {
      NormalizeIsIdempotent(raw.relays.value);
    } else {
      DefaultsAreTight();
      KeptStays(DEFAULT_RELAYS);
    }
  }

  /** A written row reconciles with itself: the same input leaves it exactly as it is. */
  lemma RowRetries(rows: seq<Row>, identity: string, cfg: Resolved, raw: Raw)
    requires ResolveConfig(raw) == Ok(cfg) && Reconcile(rows, identity, cfg, raw).Ok?
    ensures var row := Reconcile(rows, identity, cfg, raw).value;
            row.identity == identity && Reconcile([row], identity, cfg, raw) == Ok(row)
  {
    assert cfg.relays == RelaysOf(raw);
    RelaysAreNormal(raw);
    if rows != [] && rows[0].relays.Some? { NormalizeIsIdempotent(rows[0].relays.value); }
    hide NormalizeRelays, RelaysOf, RelaysSupplied, ResolveConfig, Parse, NameOf;
  }

  /** What a stopped run leaves of the federation config still agrees with the same input. */
  lemma FedRetries(d: Durable, raw: Raw, fed: Option<FedFile>)
    requires CheckFedimint(d.fed, raw).None?
    requires fed == d.fed || (d.fed.None? && NonEmpty(raw.invite).Some? && fed == Some(Config(NonEmpty(raw.invite).value)))
    ensures CheckFedimint(fed, raw).None?
  {
  }

  lemma InheritedRetries(d: Durable, mid: Durable, identity: string, cfg: Resolved, raw: Raw)
    requires ResolveConfig(raw) == Ok(cfg) && CheckInherited(d, identity, raw).None? && Reconcile(d.rows, identity, cfg, raw).Ok?
    requires mid.rows == d.rows || mid.rows == [Reconcile(d.rows, identity, cfg, raw).value]
    requires CheckFedimint(d.fed, raw).None? ==> CheckFedimint(mid.fed, raw).None?
    ensures CheckInherited(mid, identity, raw).None?
  {
    hide CheckFedimint, NonEmpty, RelaysOf, NormalizeRelays, RelaysSupplied;
  }

  /** The checks pass again, on the same identity, whatever part of the plan was written. */
  lemma AdmitRetries(bip: Bip39, d: Durable, raw: Raw, k: nat)
    requires Lawful(bip) && Decide(bip, d, raw).Ok?
    ensures var a, mid := Admit(bip, d, raw).value, Written(d, Decide(bip, d, raw).value, k);
            Admit(bip, mid, raw) == Ok(a.(seed := if a.seed.persist && 3 <= k then a.seed.(persist := false) else a.seed))
  {
    var a, plan := Admit(bip, d, raw).value, Decide(bip, d, raw).value;
    var mid := Written(d, plan, k);
    if a.seed.persist { SeedRetries(bip, d.seed, raw); }
    if CheckFedimint(d.fed, raw).None? { FedRetries(d, raw, mid.fed); }
    InheritedRetries(d, mid, a.identity, a.cfg, raw);
    hide CheckFedimint, CheckInherited, ResolveConfig, ResolveSeed, Reconcile, NonEmpty, Lawful;
  }

  /**
  Crash and retry: stopped after any of its writes, a bootstrap that would have succeeded succeeds on the same
  input, and leaves exactly what it would have left without the crash.
  */
  lemma RetryConverges(bip: Bip39, d: Durable, raw: Raw, k: nat)
    requires Lawful(bip) && Decide(bip, d, raw).Ok?
    ensures var plan := Decide(bip, d, raw).value; var mid := Written(d, plan, k);
            Decide(bip, mid, raw).Ok? && Written(mid, Decide(bip, mid, raw).value, 3) == Written(d, plan, 3)
  {
    var a, plan := Admit(bip, d, raw).value, Decide(bip, d, raw).value;
    AdmitRetries(bip, d, raw, k);
    RowRetries(d.rows, a.identity, a.cfg, raw);
    hide Admit, Reconcile, NonEmpty;
  }

  // ----- any sequence of bootstraps

  /** A run on some input, stopped after `cut` of its writes. */
  datatype Attempt = Attempt(raw: Raw, cut: nat)

  function Tried(bip: Bip39, d: Durable, attempt: Attempt): Durable {
    match Decide(bip, d, attempt.raw)
    case Err(_) => d
    case Ok(plan) => Written(d, plan, attempt.cut)
  }

  function AfterAll(bip: Bip39, d: Durable, attempts: seq<Attempt>): Durable {
    if attempts == [] then d
    else Tried(bip, AfterAll(bip, d, attempts[..|attempts| - 1]), attempts[|attempts| - 1])
  }

  /** What is set once stays: the row's identity, backend and compute column, the federation, the seed. */
  predicate Settled(d: Durable, d': Durable) {
    && (d.rows != [] ==> d'.rows != [] && d'.rows[0].(relays := d.rows[0].relays) == d.rows[0])
    && (d.fed.Some? ==> d'.fed == d.fed) && (d.seed.Some? ==> d'.seed == d.seed)
    && (|d.rows| <= 1 ==> |d'.rows| <= 1)
  }

  lemma TriedSettles(bip: Bip39, d: Durable, attempt: Attempt)
    ensures Settled(d, Tried(bip, d, attempt))
  {
    if Decide(bip, d, attempt.raw).Ok? { AdmittedWritesGoThrough(bip, d, attempt.raw); }
    hide Admit, NonEmpty, CheckFedimint, NormalizeRelays, RelaysSupplied, Parse, NameOf;
  }

  /**
  Over any bootstraps with any inputs, refused, crashed or finished: never a second operator row, and identity,
  payment backend, federation and seed never change once they are durable.
  */
  lemma {:induction false} NothingSettledChanges(bip: Bip39, d: Durable, attempts: seq<Attempt>, i: nat)
    requires i <= |attempts|
    ensures Settled(AfterAll(bip, d, attempts[..i]), AfterAll(bip, d, attempts))
    decreases |attempts|
  {
    if i == |attempts| {
      assert attempts[..i] == attempts;
    } else {
      var init := attempts[..|attempts| - 1];
      NothingSettledChanges(bip, d, init, i);
      assert init[..i] == attempts[..i];
      TriedSettles(bip, AfterAll(bip, d, init), attempts[|attempts| - 1]);
    }
  }

  /** The seed a bootstrap leaves is one whose identity owns the row. */
  predicate Owned(bip: Bip39, d: Durable) {
    d.rows != [] && d.seed.Some? ==> bip.identity(Trim(d.seed.value)) == Some(d.rows[0].identity)
  }

  lemma TriedStaysOwned(bip: Bip39, d: Durable, attempt: Attempt)
    requires Lawful(bip) && Owned(bip, d)
    ensures Owned(bip, Tried(bip, d, attempt))
  {
    if Decide(bip, d, attempt.raw).Ok? {
      AdmittedSeed(bip, d, attempt.raw);
    }
    hide Admit, NonEmpty, NormalizeRelays, RelaysSupplied, Parse, NameOf;
  }

  lemma {:induction false} SeedOwnsRow(bip: Bip39, d: Durable, attempts: seq<Attempt>)
    requires Lawful(bip) && Owned(bip, d)
    ensures Owned(bip, AfterAll(bip, d, attempts))
  {
    if attempts != [] {
      SeedOwnsRow(bip, d, attempts[..|attempts| - 1]);
      TriedStaysOwned(bip, AfterAll(bip, d, attempts[..|attempts| - 1]), attempts[|attempts| - 1]);
    }
  }
}

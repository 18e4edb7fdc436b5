/**
The pay key as the backend sees it: one string for an external id and a resolution generation. The money machine
keeps the two apart; here is when the strings do: always, for the external ids the daemon mints.
*/
module Keys {
  import opened Ledger

  function Digit(n: nat): char
    requires n < 10
  {
    '0' + n as char
  }

  predicate IsDigit(c: char) { '0' <= c <= '9' }

  function Decimal(n: nat): (s: string)
    ensures s != "" && forall i :: 0 <= i < |s| ==> IsDigit(s[i])
  {
    if n < 10 then [Digit(n)] else Decimal(n / 10) + [Digit(n % 10)]
  }

  /** gen_key. */
  function GenKey(key: PayKey): string {
    if key.gen == 0 then "refund:" + key.ext else "refund:" + key.ext + ":g" + Decimal(key.gen)
  }

  lemma {:induction false} DecimalIsInjective(m: nat, n: nat)
    requires Decimal(m) == Decimal(n)
    ensures m == n
  {
    var s := Decimal(m);
    if 10 <= m && 10 <= n {
      assert s[..|s| - 1] == Decimal(m / 10) == Decimal(n / 10);
      assert s[|s| - 1] == Digit(m % 10) == Digit(n % 10);
      DecimalIsInjective(m / 10, n / 10);
    }
  }

  /** A generation suffix is read off the end in one way only: nothing in a number looks like its marker. */
  lemma SuffixSplits(x: string, c: string, y: string, d: string)
    requires x + ":g" + c == y + ":g" + d
    requires (forall i :: 0 <= i < |c| ==> IsDigit(c[i])) && (forall i :: 0 <= i < |d| ==> IsDigit(d[i]))
    ensures x == y && c == d
  {
    var s := x + ":g" + c;
    assert s == y + ":g" + d;
    assert s[|x| + 1] == 'g' && s[|y| + 1] == 'g';
    assert x == s[..|x|] && y == s[..|y|];
    assert c == s[|x| + 2..] && d == s[|y| + 2..];
  }

  /** `long` is an external id that reads like a later generation of `short`. */
  predicate Mimics(long: PayKey, short: PayKey) {
    long.gen == 0 && short.gen != 0 && long.ext == short.ext + ":g" + Decimal(short.gen)
  }

  /** Two pay keys are one string exactly when they are one key, or one external id spells out the other's generation. */
  lemma KeysCollideIff(k: PayKey, l: PayKey)
    ensures GenKey(k) == GenKey(l) <==> k == l || Mimics(k, l) || Mimics(l, k)
  {
    assert ("refund:" + k.ext)[7..] == k.ext && ("refund:" + l.ext)[7..] == l.ext;
    if k.gen != 0 && l.gen != 0 {
      if GenKey(k) == GenKey(l) {
        SuffixSplits("refund:" + k.ext, Decimal(k.gen), "refund:" + l.ext, Decimal(l.gen));
        DecimalIsInjective(k.gen, l.gen);
      }
    } else if k.gen == 0 && l.gen != 0 {
      Spelled(k.ext, l);
    } else if k.gen != 0 {
      Spelled(l.ext, k);
    }
  }

  lemma Spelled(ext: string, key: PayKey)
    requires key.gen != 0
    ensures "refund:" + ext == GenKey(key) <==> ext == key.ext + ":g" + Decimal(key.gen)
  {
    var tail := key.ext + ":g" + Decimal(key.gen);
    assert GenKey(key) == "refund:" + tail;
    assert ("refund:" + ext)[7..] == ext && ("refund:" + tail)[7..] == tail;
  }

  // ----- the external ids the daemon mints

  /** What an invoice is for: an order or a renewal a buyer asked for under an id of their own, or a cycle's reminder. */
  datatype Purpose =
    | Order(buyer: string, id: string)
    | Renewal(buyer: string, id: string)
    | Cycle(sub: string, anchor: int)

  predicate IsHex(c: char) { IsDigit(c) || 'a' <= c <= 'f' }

  predicate IsIdChar(c: char) { 'A' <= c <= 'Z' || 'a' <= c <= 'z' || IsDigit(c) || c == '_' || c == '-' }

  /** The buyer is a public key in hex and their id has passed the gate; a subscription may be called anything. */
  predicate Gated(p: Purpose) {
    match p
    case Order(buyer, id) => (forall c :: c in buyer ==> IsHex(c)) && 1 <= |id| <= 128 && forall c :: c in id ==> IsIdChar(c)
    case Renewal(buyer, id) => (forall c :: c in buyer ==> IsHex(c)) && 1 <= |id| <= 128 && forall c :: c in id ==> IsIdChar(c)
    case Cycle(_, _) => true
  }

  function Printed(n: int): (s: string)
    ensures s != "" && (s[0] == '-' <==> n < 0) && (s[0] == '-' || IsDigit(s[0])) && forall i :: 1 <= i < |s| ==> IsDigit(s[i])
  {
    if n < 0 then "-" + Decimal(-n) else Decimal(n)
  }

  /** What comes before the last colon, and after it. */
  function Stem(p: Purpose): string {
    match p
    case Order(buyer, _) => "order:" + buyer
    case Renewal(buyer, _) => "renew:req:" + buyer
    case Cycle(sub, _) => "renew:auto:" + sub
  }

  function Tail(p: Purpose): string {
    match p
    case Order(_, id) => id
    case Renewal(_, id) => id
    case Cycle(_, anchor) => Printed(anchor)
  }

  function ExtOf(p: Purpose): string { Stem(p) + ":" + Tail(p) }

  ghost predicate Minted(ext: string) { exists p :: Gated(p) && ext == ExtOf(p) }

  lemma LastColonSplits(x: string, c: string, y: string, d: string)
    requires x + ":" + c == y + ":" + d && ':' !in c && ':' !in d
    ensures x == y && c == d
  {
    var s := x + ":" + c;
    assert s == y + ":" + d;
    assert s[|x|] == ':' && s[|y|] == ':';
    assert forall i :: |x| < i < |s| ==> s[i] == c[i - |x| - 1];
    assert forall i :: |y| < i < |s| ==> s[i] == d[i - |y| - 1];
    assert x == s[..|x|] && y == s[..|y|];
    assert c == s[|x| + 1..] && d == s[|y| + 1..];
  }

  lemma PrintedIsInjective(m: int, n: int)
    requires Printed(m) == Printed(n)
    ensures m == n
  {
    if m < 0 && n < 0 {
      assert Printed(m)[1..] == Decimal(-m) && Printed(n)[1..] == Decimal(-n);
      DecimalIsInjective(-m, -n);
    } else if 0 <= m && 0 <= n {
      DecimalIsInjective(m, n);
    }
  }

  lemma TailHasNoColon(p: Purpose)
    requires Gated(p)
    ensures ':' !in Tail(p)
  {
  }

  /** Stems of one kind are as different as what they name, and no two kinds share one. */
  lemma StemsDiffer(p: Purpose, q: Purpose)
    requires Stem(p) == Stem(q)
    ensures p.Order? == q.Order? && p.Renewal? == q.Renewal?
    ensures p.Order? ==> p.buyer == q.buyer
    ensures p.Renewal? ==> p.buyer == q.buyer
    ensures p.Cycle? ==> p.sub == q.sub
  {
    var s, t := Stem(p), Stem(q);
    assert p.Order? ==> s[0] == 'o' && s[6..] == p.buyer;
    assert q.Order? ==> t[0] == 'o' && t[6..] == q.buyer;
    assert p.Renewal? ==> s[0] == 'r' && s[6] == 'r' && s[10..] == p.buyer;
    assert q.Renewal? ==> t[0] == 'r' && t[6] == 'r' && t[10..] == q.buyer;
    assert p.Cycle? ==> s[0] == 'r' && s[6] == 'a' && s[11..] == p.sub;
    assert q.Cycle? ==> t[0] == 'r' && t[6] == 'a' && t[11..] == q.sub;
  }

  /** One external id is minted for one purpose only. */
  lemma MintedForOnePurpose(p: Purpose, q: Purpose)
    requires Gated(p) && Gated(q)
    ensures ExtOf(p) == ExtOf(q) <==> p == q
  {
    if ExtOf(p) == ExtOf(q) {
      TailHasNoColon(p);
      TailHasNoColon(q);
      LastColonSplits(Stem(p), Tail(p), Stem(q), Tail(q));
      StemsDiffer(p, q);
      if p.Cycle? { PrintedIsInjective(p.anchor, q.anchor); }
    }
  }

  lemma StemsAreLong(p: Purpose)
    ensures Stem(p) != "order" && Stem(p) != "renew:req"
  {
    assert p.Order? ==> |Stem(p)| > 5 && Stem(p)[0] == 'o';
    assert !p.Order? ==> |Stem(p)| > 9;
  }

  /** What a buyer's id is appended to is not itself a minted id: it has one part too few. */
  lemma StemIsNotMinted(p: Purpose, q: Purpose)
    requires Gated(p) && Gated(q) && !p.Cycle?
    ensures Stem(p) != ExtOf(q)
  {
    var head := if p.Order? then "order" else "renew:req";
    assert Stem(p) == head + ":" + p.buyer;
    TailHasNoColon(q);
    StemsAreLong(q);
    hide Stem, Tail;
    if Stem(p) == ExtOf(q) { LastColonSplits(head, p.buyer, Stem(q), Tail(q)); }
  }

  lemma Regroup(x: string, digits: string)
    ensures x + ":g" + digits == x + ":" + ("g" + digits)
  {
    assert ":" + ("g" + digits) == ":g" + digits;
  }

  lemma CycleIsNotMarked(p: Purpose, digits: string)
    requires p.Cycle?
    ensures Tail(p) != "g" + digits
  {
    assert ("g" + digits)[0] == 'g';
  }

  /** No minted id spells out a generation of another: either its last part is a number, or its stem would be minted. */
  lemma NoMintedMimic(p: Purpose, q: Purpose, gen: nat)
    requires Gated(p) && Gated(q)
    ensures ExtOf(p) != ExtOf(q) + ":g" + Decimal(gen)
  {
    hide Stem, Tail, Gated, Decimal;
    var mark := "g" + Decimal(gen);
    Regroup(ExtOf(q), Decimal(gen));
    TailHasNoColon(p);
    if p.Cycle? { CycleIsNotMarked(p, Decimal(gen)); } else { StemIsNotMinted(p, q); }
    if Stem(p) + ":" + Tail(p) == ExtOf(q) + ":" + mark { LastColonSplits(Stem(p), Tail(p), ExtOf(q), mark); }
  }

  /** So the pay keys of minted ids never collide: the string names the refund and the generation. */
  lemma MintedKeysAreDistinct(k: PayKey, l: PayKey)
    requires Minted(k.ext) && Minted(l.ext)
    ensures GenKey(k) == GenKey(l) <==> k == l
  {
    var p :| Gated(p) && k.ext == ExtOf(p);
    var q :| Gated(q) && l.ext == ExtOf(q);
    KeysCollideIff(k, l);
    NoMintedMimic(p, q, l.gen);
    NoMintedMimic(q, p, k.gen);
  }
}

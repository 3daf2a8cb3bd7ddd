/**
 * The write-once price-to-beat table: its text key, and the insert-or-ignore and read-back
 * that every resolution goes through. A row holds the columns that a read returns.
 */
module PtbRepository {
  import opened Common
  import opened Canonical

  datatype Identity = Identity(
    asset: Asset,
    horizon: Horizon,
    marketId: string,
    conditionId: string,
    windowStart: int,
    officialSource: string)

  datatype Row = Row(
    referenceId: string, value: real, sourceTs: int, recvTs: int, effectiveTs: int, establishedAt: int)

  type Table = map<string, Row>

  /** The key omits the market id. */
  function PersistenceId(i: Identity): string {
    KeyHead(i.asset, i.horizon) + KeyTail(i.conditionId, IntText(WholeSeconds(i.windowStart)), i.officialSource)
  }

  function KeyHead(a: Asset, h: Horizon): string {
    "ptb:" + AssetCode(a) + ":" + HorizonCode(h) + ":"
  }

  function KeyTail(conditionId: string, start: string, source: string): string {
    conditionId + ":" + start + ":" + source
  }

  function MarketIdentity(m: Market): Identity {
    Identity(m.asset, m.horizon, m.marketId, m.conditionId, m.windowStart, m.settlementSource)
  }

  function RowOf(r: PriceToBeatRecord): Row {
    Row(r.reference.referenceId, r.reference.value, r.reference.sourceTs, r.reference.recvTs,
        r.reference.effectiveTs, r.establishedAt)
  }

  /** A read rebuilds the reference from the caller's identity and the stored columns. */
  function Rebuild(i: Identity, row: Row): PriceToBeatRecord {
    PriceToBeatRecord(
      i.conditionId,
      OfficialReference(row.referenceId, i.marketId, i.asset, row.value, i.officialSource,
                        row.sourceTs, row.recvTs, row.effectiveTs, true),
      row.establishedAt,
      PersistenceId(i))
  }

  function InsertOrIgnore(t: Table, key: string, row: Row): Table {
    if key in t then t else t[key := row]
  }

  function Lookup(t: Table, i: Identity): Option<PriceToBeatRecord> {
    if PersistenceId(i) in t then Some(Rebuild(i, t[PersistenceId(i)])) else None
  }

  datatype SaveError = PersistenceIdentityMismatch | ConditionMismatch | NotPersisted

  class PriceToBeatRepository {
    var rows: Table

    constructor ()
      ensures rows == map[]
    {
      rows := map[];
    }

    method Get(identity: Identity) returns (r: Option<PriceToBeatRecord>)
      ensures r == Lookup(rows, identity)
    {
      var key := PersistenceId(identity);
      if key !in rows {
        return None;
      }
      return Some(Rebuild(identity, rows[key]));
    }

    /** Nothing already stored changes, and what comes back is the first row ever stored. */
    method SaveOnce(identity: Identity, record: PriceToBeatRecord)
      returns (r: Result<PriceToBeatRecord, SaveError>)
      modifies this
      ensures r.Ok? <==> record.persistenceId == PersistenceId(identity) && record.conditionId == identity.conditionId
      ensures r.Err? ==> rows == old(rows) && r.error != NotPersisted
      ensures r.Ok? ==> rows == InsertOrIgnore(old(rows), PersistenceId(identity), RowOf(record))
      ensures r.Ok? && PersistenceId(identity) in old(rows) ==>
                rows == old(rows) && r.value == Rebuild(identity, old(rows)[PersistenceId(identity)])
      ensures r.Ok? && PersistenceId(identity) !in old(rows) ==> r.value == Rebuild(identity, RowOf(record))
    {
      if record.persistenceId != PersistenceId(identity) {
        return Err(PersistenceIdentityMismatch);
      }
      if record.conditionId != identity.conditionId {
        return Err(ConditionMismatch);
      }
      rows := InsertOrIgnore(rows, PersistenceId(identity), RowOf(record));
      var restored := Get(identity);
      if restored.None? {
        return Err(NotPersisted);
      }
      return Ok(restored.value);
    }
  }

  // ---------------------------------------------------------------- what a read gives back

  datatype Save = Save(identity: Identity, record: PriceToBeatRecord)

  /** A record in the name of an identity: what establishing hands to the repository. */
  predicate InNameOf(i: Identity, r: PriceToBeatRecord) {
    && r.conditionId == i.conditionId && r.persistenceId == PersistenceId(i)
    && r.reference.marketId == i.marketId && r.reference.asset == i.asset
    && r.reference.source == i.officialSource && r.reference.isPriceToBeat
  }

  predicate ValidSaves(saves: seq<Save>) {
    forall k :: 0 <= k < |saves| ==> InNameOf(saves[k].identity, saves[k].record)
  }

  function AfterSaves(t: Table, saves: seq<Save>): Table
    decreases |saves|
  {
    if saves == [] then t
    else
      var i := saves[0].identity;
      AfterSaves(InsertOrIgnore(t, PersistenceId(i), RowOf(saves[0].record)), saves[1..])
  }

  predicate IsFirstUnder(saves: seq<Save>, k: nat, key: string)
    requires k < |saves|
  {
    && PersistenceId(saves[k].identity) == key
    && forall j :: 0 <= j < k ==> PersistenceId(saves[j].identity) != key
  }

  lemma {:induction false} StoredStays(t: Table, saves: seq<Save>, key: string)
    requires key in t
    ensures key in AfterSaves(t, saves) && AfterSaves(t, saves)[key] == t[key]
    decreases |saves|
  {
    if saves != [] {
      var i := saves[0].identity;
      StoredStays(InsertOrIgnore(t, PersistenceId(i), RowOf(saves[0].record)), saves[1..], key);
    }
  }

  lemma {:induction false} FirstIsStored(t: Table, saves: seq<Save>, k: nat, key: string)
    requires key !in t && k < |saves| && IsFirstUnder(saves, k, key)
    ensures key in AfterSaves(t, saves) && AfterSaves(t, saves)[key] == RowOf(saves[k].record)
    decreases |saves|
  {
    var rows := InsertOrIgnore(t, PersistenceId(saves[0].identity), RowOf(saves[0].record));
    if k == 0 {
      StoredStays(rows, saves[1..], key);
    } else {
      assert PersistenceId(saves[0].identity) != key;
      forall j | 0 <= j < k - 1 ensures PersistenceId(saves[1..][j].identity) != key {
        assert saves[1..][j] == saves[j + 1];
      }
      FirstIsStored(rows, saves[1..], k - 1, key);
    }
  }

  lemma {:induction false} StoredWasSaved(t: Table, saves: seq<Save>, key: string) returns (k: nat)
    requires key !in t && key in AfterSaves(t, saves)
    ensures k < |saves| && IsFirstUnder(saves, k, key)
    decreases |saves|
  {
    if PersistenceId(saves[0].identity) == key {
      k := 0;
    } else {
      k := StoredWasSaved(
        InsertOrIgnore(t, PersistenceId(saves[0].identity), RowOf(saves[0].record)), saves[1..], key);
      forall j | 0 < j < k + 1 ensures PersistenceId(saves[j].identity) != key {
        assert saves[1..][j - 1] == saves[j];
      }
      k := k + 1;
    }
  }

  /** The row of the save in the reader's name, and its very record for the identity that made it. */
  predicate GivesBack(found: Option<PriceToBeatRecord>, save: Save, i: Identity) {
    && found.Some? && InNameOf(i, found.value)
    && RowOf(found.value) == RowOf(save.record)
    && (save.identity == i ==> found.value == save.record)
  }

  lemma StoredIsGivenBack(t: Table, save: Save, i: Identity)
    requires InNameOf(save.identity, save.record)
    requires PersistenceId(i) in t && t[PersistenceId(i)] == RowOf(save.record)
    ensures GivesBack(Lookup(t, i), save, i)
  {
  }

  /**
   * After any saves into an empty table, a read finds something exactly when there was a save under
   * its key, and then gives back the first of them.
   */
  lemma ReadsGiveTheFirstSaved(saves: seq<Save>, i: Identity)
    requires ValidSaves(saves)
    ensures var found, key := Lookup(AfterSaves(map[], saves), i), PersistenceId(i);
            && (found.Some? <==> exists k :: 0 <= k < |saves| && IsFirstUnder(saves, k, key))
            && forall k :: 0 <= k < |saves| && IsFirstUnder(saves, k, key) ==> GivesBack(found, saves[k], i)
  {
    var t, key := AfterSaves(map[], saves), PersistenceId(i);
    if key in t {
      var k := StoredWasSaved(map[], saves, key);
    }
    forall k | 0 <= k < |saves| && IsFirstUnder(saves, k, key) ensures GivesBack(Lookup(t, i), saves[k], i) {
      FirstIsStored(map[], saves, k, key);
      StoredIsGivenBack(t, saves[k], i);
    }
  }

  // ---------------------------------------------------------------- the key as text

  predicate ColonFree(s: string) {
    forall k :: 0 <= k < |s| ==> s[k] != ':'
  }

  lemma {:induction false} DigitsInjective(a: nat, b: nat)
    requires Digits(a) == Digits(b)
    ensures a == b
    decreases a + b
  {
    var s := Digits(a);
    if a >= 10 && b >= 10 {
      assert s[..|s| - 1] == Digits(a / 10) == Digits(b / 10);
      assert s[|s| - 1] == '0' + (a % 10) as char == '0' + (b % 10) as char;
      DigitsInjective(a / 10, b / 10);
    } else if a < 10 && b < 10 {
      assert s[0] == '0' + a as char == '0' + b as char;
    }
  }

  lemma IntTextInjective(a: int, b: int)
    requires IntText(a) == IntText(b)
    ensures a == b
  {
    assert IntText(a)[0] == IntText(b)[0];
    if a < 0 {
      assert IntText(a)[1..] == Digits(-a) && IntText(b)[1..] == Digits(-b);
      DigitsInjective(-a, -b);
    } else {
      DigitsInjective(a, b);
    }
  }

  lemma IntTextColonFree(n: int)
    ensures ColonFree(IntText(n)) && |IntText(n)| > 0
  {
    assert forall k :: 0 <= k < |Digits(Abs(n))| ==> Digits(Abs(n))[k] != ':';
  }

  /** Reading from the right, a colon-free last field can be cut off in one way only. */
  lemma LastFieldSplits(a: string, x: string, b: string, y: string)
    requires a + ":" + x == b + ":" + y
    requires ColonFree(x) && ColonFree(y)
    ensures a == b && x == y
  {
    var l, r := a + ":" + x, b + ":" + y;
    assert l[|a|] == ':' && r[|b|] == ':';
    assert l[..|a|] == a && r[..|b|] == b;
    assert l[|a| + 1..] == x && r[|b| + 1..] == y;
  }

  predicate CanonicalIdentity(i: Identity) {
    && i.officialSource == OfficialSource(Bucket(i.asset, i.horizon))
    && i.windowStart % SECOND == 0
  }

  lemma KeyNamesBucket(i: Identity, j: Identity)
    requires PersistenceId(i) == PersistenceId(j)
    ensures i.asset == j.asset && i.horizon == j.horizon
  {
    var s := PersistenceId(i);
    assert s[4] == AssetCode(i.asset)[0] && s[4] == AssetCode(j.asset)[0];
    assert s[8] == HorizonCode(i.horizon)[0] && s[8] == HorizonCode(j.horizon)[0];
    assert s[9] == HorizonCode(i.horizon)[1] && s[9] == HorizonCode(j.horizon)[1];
  }

  lemma SamePrefix(p: string, x: string, y: string)
    requires p + x == p + y
    ensures x == y
  {
    assert (p + x)[|p|..] == x && (p + y)[|p|..] == y;
  }

  lemma TailSplits(c: string, t: string, d: string, u: string, source: string)
    requires KeyTail(c, t, source) == KeyTail(d, u, source)
    requires ColonFree(t) && ColonFree(u)
    ensures c == d && t == u
  {
    var l, r := c + ":" + t, d + ":" + u;
    var rest := ":" + source;
    assert KeyTail(c, t, source) == l + rest && KeyTail(d, u, source) == r + rest;
    assert |l| == |r|;
    assert (l + rest)[..|l|] == l && (r + rest)[..|r|] == r;
    LastFieldSplits(c, t, d, u);
  }

  /** Among identities with the official source of their bucket the key decides all but the market id. */
  lemma KeyIsInjective(i: Identity, j: Identity)
    requires CanonicalIdentity(i) && CanonicalIdentity(j)
    ensures PersistenceId(i) == PersistenceId(j) <==> i == j.(marketId := i.marketId)
  {
    if PersistenceId(i) == PersistenceId(j) {
      KeyNamesBucket(i, j);
      var si, sj := WholeSeconds(i.windowStart), WholeSeconds(j.windowStart);
      SamePrefix(KeyHead(i.asset, i.horizon), KeyTail(i.conditionId, IntText(si), i.officialSource),
                 KeyTail(j.conditionId, IntText(sj), i.officialSource));
      IntTextColonFree(si);
      IntTextColonFree(sj);
      TailSplits(i.conditionId, IntText(si), j.conditionId, IntText(sj), i.officialSource);
      IntTextInjective(si, sj);
      SecondsAround(i.windowStart);
      SecondsAround(j.windowStart);
    }
  }

  /** A window of the official source whose condition id holds a colon, and a later one of another source. */
  const OFFICIAL_TWIN: Identity := Identity(BTC, FiveMinutes, "m", "a:600", 300 * SECOND, TwapSource(BTC))
  const OTHER_TWIN: Identity := Identity(BTC, FiveMinutes, "n", "a", 600 * SECOND, "300:" + TwapSource(BTC))

  /** Without the official source the key is ambiguous: these two share it. */
  lemma KeyCollidesOffSource()
    ensures CanonicalIdentity(OFFICIAL_TWIN) && !CanonicalIdentity(OTHER_TWIN)
    ensures PersistenceId(OFFICIAL_TWIN) == PersistenceId(OTHER_TWIN)
    ensures OTHER_TWIN.windowStart == OFFICIAL_TWIN.windowStart + 300 * SECOND
  {
    SourcesDiffer(TwapSource(BTC));
    KeysCollide(TwapSource(BTC));
  }

  lemma SourcesDiffer(source: string)
    ensures "300:" + source != source
  {
    assert |"300:" + source| == |source| + 4;
  }

  lemma KeysCollide(source: string)
    ensures PersistenceId(Identity(BTC, FiveMinutes, "m", "a:600", 300 * SECOND, source))
            == PersistenceId(Identity(BTC, FiveMinutes, "n", "a", 600 * SECOND, "300:" + source))
  {
    TextsOfStarts();
    TailsCollide(source);
    KeySpelled(Identity(BTC, FiveMinutes, "m", "a:600", 300 * SECOND, source), 300, "300");
    KeySpelled(Identity(BTC, FiveMinutes, "n", "a", 600 * SECOND, "300:" + source), 600, "600");
  }

  lemma KeySpelled(i: Identity, start: nat, text: string)
    requires i.windowStart == start * SECOND && IntText(start) == text
    ensures PersistenceId(i) == KeyHead(i.asset, i.horizon) + KeyTail(i.conditionId, text, i.officialSource)
  {
    SecondsOfWhole(start);
  }

  lemma TextsOfStarts()
    ensures IntText(300) == "300" && IntText(600) == "600"
  {
    assert Digits(30) == Digits(3) + ['0'] == "30" && Digits(60) == Digits(6) + ['0'] == "60";
    assert IntText(300) == Digits(30) + ['0'] && IntText(600) == Digits(60) + ['0'];
  }

  lemma TailsCollide(source: string)
    ensures KeyTail("a:600", "300", source) == KeyTail("a", "600", "300:" + source)
  {
    assert "a:600" + ":" + "300" + ":" == "a:600:300:" == "a" + ":" + "600" + ":" + "300:";
  }
}

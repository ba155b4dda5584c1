/** The execution tool catalog: platform and module tools merged, collisions surfaced, order made canonical. */
module ToolCatalog {
  import opened CanonicalJson

  /** Contract references, handler, idempotency and side effect of a tool, as one value. */
  type Payload = nat

  datatype Tool = Tool(logicalId: Text, version: Text, ref: Text, refVersion: Text, payload: Payload)

  datatype Contribution = Contribution(logicalId: Text, version: Text, payload: Payload)

  datatype Installation = Installation(name: Text, version: Text, contributions: seq<Contribution>)

  datatype Source = Platform | Module

  datatype Entry = Entry(logicalId: Text, version: Text, source: Source, sourceRef: Text, sourceVersion: Text, payload: Payload)

  function FromPlatform(tool: Tool): Entry {
    Entry(tool.logicalId, tool.version, Platform, tool.ref, tool.refVersion, tool.payload)
  }

  function FromModule(installation: Installation, c: Contribution): Entry {
    Entry(c.logicalId, c.version, Module, installation.name, installation.version, c.payload)
  }

  // ---- the comparator and the sort ------------------------------------------------------------

  /** `compareCatalogEntries(a, b) < 0`: logical id, then version, then platform before module. */
  predicate Before(a: Entry, b: Entry) {
    if a.logicalId != b.logicalId then TextLess(a.logicalId, b.logicalId)
    else if a.version != b.version then TextLess(a.version, b.version)
    else a.source == Platform && b.source == Module
  }

  predicate SameKey(a: Entry, b: Entry) {
    a.logicalId == b.logicalId && a.version == b.version && a.source == b.source
  }

  /** One entry is listed before another by the first of id, version and side in which they differ; platform entries lead. */
  lemma BeforeIff(a: Entry, b: Entry)
    ensures Before(a, b) <==>
      || (exists k: nat :: PartsAt(a.logicalId, b.logicalId, k))
      || (a.logicalId == b.logicalId && exists k: nat :: PartsAt(a.version, b.version, k))
      || (a.logicalId == b.logicalId && a.version == b.version && a.source.Platform? && b.source.Module?)
  {
    TextLessIff(a.logicalId, b.logicalId);
    TextLessIff(a.version, b.version);
    TextLessTotal(a.logicalId, b.logicalId);
    TextLessTotal(a.version, b.version);
    hide TextLess, PartsAt;
  }

  lemma BeforeTotal(a: Entry, b: Entry)
    ensures !(Before(a, b) && Before(b, a))
    ensures !Before(a, b) && !Before(b, a) <==> SameKey(a, b)
  {
    TextLessTotal(a.logicalId, b.logicalId);
    TextLessTotal(a.version, b.version);
  }

  lemma BeforeTransitive(a: Entry, b: Entry, c: Entry)
    requires !Before(b, a) && !Before(c, b)
    ensures !Before(c, a)
  {
    BeforeTotal(a, b);
    BeforeTotal(b, c);
    BeforeTotal(a, c);
    if Before(a, b) && Before(b, c) {
      if a.logicalId != b.logicalId && b.logicalId != c.logicalId {
        TextLessTransitive(a.logicalId, b.logicalId, c.logicalId);
        TextLessTotal(a.logicalId, c.logicalId);
      } else if a.logicalId == b.logicalId && b.logicalId == c.logicalId && a.version != b.version && b.version != c.version {
        TextLessTransitive(a.version, b.version, c.version);
        TextLessTotal(a.version, c.version);
      }
    }
  }

  /** Array.prototype.sort: stable, so an entry goes before those of the same key that came after it. */
  function Place(e: Entry, sorted: seq<Entry>): seq<Entry>
    decreases |sorted|
  {
    if sorted == [] || !Before(sorted[0], e) then [e] + sorted else [sorted[0]] + Place(e, sorted[1..])
  }

  function StableSort(entries: seq<Entry>): seq<Entry>
    decreases |entries|
  {
    if entries == [] then [] else Place(entries[0], StableSort(entries[1..]))
  }

  predicate Sorted(entries: seq<Entry>) {
    forall i, j | 0 <= i < j < |entries| :: !Before(entries[j], entries[i])
  }

  lemma {:induction false} PlaceSorts(e: Entry, sorted: seq<Entry>)
    requires Sorted(sorted)
    ensures Sorted(Place(e, sorted)) && multiset(Place(e, sorted)) == multiset{e} + multiset(sorted)
    decreases |sorted|
  {
    if sorted == [] || !Before(sorted[0], e) {
      forall j | 0 <= j < |sorted| ensures !Before(sorted[j], e) {
        if j > 0 {
          assert !Before(sorted[j], sorted[0]);
          BeforeTransitive(e, sorted[0], sorted[j]);
        }
      }
      SortedCons(e, sorted);
    } else {
      assert sorted == [sorted[0]] + sorted[1..];
      PlaceSorts(e, sorted[1..]);
      var tail := Place(e, sorted[1..]);
      BeforeTotal(sorted[0], e);
      forall j | 0 <= j < |tail| ensures !Before(tail[j], sorted[0]) {
        assert tail[j] in multiset(tail);
        if tail[j] != e {
          var k :| 0 <= k < |sorted[1..]| && sorted[1..][k] == tail[j];
          assert sorted[k + 1] == tail[j];
        }
      }
      SortedCons(sorted[0], tail);
    }
    hide Before, Sorted;
  }

  lemma SortedCons(e: Entry, tail: seq<Entry>)
    requires Sorted(tail) && forall j | 0 <= j < |tail| :: !Before(tail[j], e)
    ensures Sorted([e] + tail)
  {
    hide Before;
    var r := [e] + tail;
    forall i, j | 0 <= i < j < |r| ensures !Before(r[j], r[i]) {
      assert r[j] == tail[j - 1];
      if i > 0 { assert r[i] == tail[i - 1]; }
    }
  }

  lemma {:induction false} StableSortSorts(entries: seq<Entry>)
    ensures Sorted(StableSort(entries)) && multiset(StableSort(entries)) == multiset(entries)
    decreases |entries|
  {
    if entries != [] {
      assert entries == [entries[0]] + entries[1..];
      StableSortSorts(entries[1..]);
      PlaceSorts(entries[0], StableSort(entries[1..]));
    }
  }

  // ---- stability -----------------------------------------------------------------------------------

  /** The entries with the key of `k`, in order. */
  function WithKey(entries: seq<Entry>, k: Entry): seq<Entry>
    decreases |entries|
  {
    if entries == [] then []
    else (if SameKey(entries[0], k) then [entries[0]] else []) + WithKey(entries[1..], k)
  }

  lemma {:induction false} PlaceIsStable(e: Entry, sorted: seq<Entry>, k: Entry)
    requires Sorted(sorted)
    ensures WithKey(Place(e, sorted), k) == (if SameKey(e, k) then [e] else []) + WithKey(sorted, k)
    decreases |sorted|
  {
    var r := Place(e, sorted);
    if sorted == [] || !Before(sorted[0], e) {
      assert r[1..] == sorted;
    } else {
      assert r[1..] == Place(e, sorted[1..]);
      PlaceIsStable(e, sorted[1..], k);
      BeforeTotal(sorted[0], e);
    }
  }

  lemma {:induction false} SortIsStable(entries: seq<Entry>, k: Entry)
    ensures WithKey(StableSort(entries), k) == WithKey(entries, k)
    decreases |entries|
  {
    if entries != [] {
      SortIsStable(entries[1..], k);
      StableSortSorts(entries[1..]);
      PlaceIsStable(entries[0], StableSort(entries[1..]), k);
    }
  }

  // ---- order independence ------------------------------------------------------------------------------

  /** Entries that compare equal are equal. */
  predicate KeysDecide(entries: seq<Entry>) {
    forall i, j | 0 <= i < |entries| && 0 <= j < |entries| && SameKey(entries[i], entries[j]) :: entries[i] == entries[j]
  }

  lemma KeysDecideHead(a: seq<Entry>, b: seq<Entry>)
    requires Sorted(a) && Sorted(b) && KeysDecide(a) && multiset(a) == multiset(b) && a != []
    ensures b != [] && a[0] == b[0]
  {
    assert a[0] in multiset(b);
    assert b[0] in multiset(a);
    var i :| 0 <= i < |b| && b[i] == a[0];
    var j :| 0 <= j < |a| && a[j] == b[0];
    BeforeTotal(a[0], b[0]);
    if i > 0 { assert !Before(b[i], b[0]); }
    if j > 0 { assert !Before(a[j], a[0]); }
  }

  lemma TailMembers(a: seq<Entry>)
    requires a != []
    ensures multiset(a[1..]) == multiset(a) - multiset{a[0]} && a == [a[0]] + a[1..]
  {
    assert a == [a[0]] + a[1..];
  }

  lemma {:induction false} SortedUnique(a: seq<Entry>, b: seq<Entry>)
    requires Sorted(a) && Sorted(b) && KeysDecide(a) && multiset(a) == multiset(b)
    ensures a == b
    decreases |a|
  {
    if a == [] {
      assert |multiset(b)| == 0;
    } else {
      KeysDecideHead(a, b);
      TailMembers(a);
      TailMembers(b);
      forall i, j | 0 <= i < |a[1..]| && 0 <= j < |a[1..]| && SameKey(a[1..][i], a[1..][j]) ensures a[1..][i] == a[1..][j] {
        assert a[i + 1] == a[1..][i] && a[j + 1] == a[1..][j];
      }
      SortedUnique(a[1..], b[1..]);
    }
  }

  lemma SameMembersKeysDecide(a: seq<Entry>, b: seq<Entry>)
    requires multiset(a) == multiset(b) && KeysDecide(a)
    ensures KeysDecide(b)
  {
    forall i, j | 0 <= i < |b| && 0 <= j < |b| && SameKey(b[i], b[j]) ensures b[i] == b[j] {
      assert b[i] in multiset(a) && b[j] in multiset(a);
      var x :| 0 <= x < |a| && a[x] == b[i];
      var y :| 0 <= y < |a| && a[y] == b[j];
    }
  }

  /** The last same-key entry moved to the front: a permutation that puts it first among its key. */
  function MovedFirst(entries: seq<Entry>, j: nat): seq<Entry>
    requires j < |entries|
  {
    [entries[j]] + (entries[..j] + entries[j + 1..])
  }

  lemma MovedIsPermutation(entries: seq<Entry>, j: nat)
    requires j < |entries|
    ensures multiset(MovedFirst(entries, j)) == multiset(entries)
  {
    assert entries == entries[..j] + ([entries[j]] + entries[j + 1..]);
  }

  lemma {:induction false} FirstWithKey(entries: seq<Entry>, k: Entry, i: nat)
    requires i < |entries| && SameKey(entries[i], k) && forall x | 0 <= x < i :: !SameKey(entries[x], k)
    ensures WithKey(entries, k) != [] && WithKey(entries, k)[0] == entries[i]
    decreases |entries|
  {
    if i > 0 {
      assert WithKey(entries, k) == WithKey(entries[1..], k);
      FirstWithKey(entries[1..], k, i - 1);
    }
  }

  lemma {:induction false} FirstIndex(entries: seq<Entry>, k: Entry, i: nat) returns (f: nat)
    requires i < |entries| && SameKey(entries[i], k)
    ensures f <= i && SameKey(entries[f], k) && forall x | 0 <= x < f :: !SameKey(entries[x], k)
    decreases i
  {
    if x: nat :| x < i && SameKey(entries[x], k) {
      f := FirstIndex(entries, k, x);
    } else {
      f := i;
    }
  }

  /** The catalog is the same for every order of its inputs exactly when equal keys mean equal entries. */
  lemma OrderIndependentIff(entries: seq<Entry>)
    ensures KeysDecide(entries) <==>
      forall other: seq<Entry> | multiset(other) == multiset(entries) :: StableSort(other) == StableSort(entries)
  {
    if KeysDecide(entries) {
      forall other: seq<Entry> | multiset(other) == multiset(entries) ensures StableSort(other) == StableSort(entries) {
        StableSortSorts(other);
        StableSortSorts(entries);
        SameMembersKeysDecide(entries, StableSort(entries));
        SortedUnique(StableSort(entries), StableSort(other));
      }
    } else {
      var i, j :| 0 <= i < |entries| && 0 <= j < |entries| && SameKey(entries[i], entries[j]) && entries[i] != entries[j];
      TiesFollowInput(entries, i, j);
    }
  }

  /** Two different entries of one key: some permutation of the input sorts differently. */
  lemma TiesFollowInput(entries: seq<Entry>, i: nat, j: nat)
    requires i < |entries| && j < |entries| && SameKey(entries[i], entries[j]) && entries[i] != entries[j]
    ensures exists other: seq<Entry> :: multiset(other) == multiset(entries) && StableSort(other) != StableSort(entries)
  {
    var k := entries[i];
    var f := FirstIndex(entries, k, i);
    var m := if entries[f] == entries[i] then j else i;
    var other := MovedFirst(entries, m);
    MovedIsPermutation(entries, m);
    FirstWithKey(entries, k, f);
    FirstWithKey(other, k, 0);
    SortIsStable(entries, k);
    SortIsStable(other, k);
    assert StableSort(other) != StableSort(entries);
  }

  // ---- assembly ---------------------------------------------------------------------------------------

  function PlatformEntries(capabilities: seq<seq<Tool>>): seq<Entry>
    decreases |capabilities|
  {
    if capabilities == [] then [] else EntriesOf(capabilities[0]) + PlatformEntries(capabilities[1..])
  }

  function EntriesOf(tools: seq<Tool>): seq<Entry> {
    seq(|tools|, i requires 0 <= i < |tools| => FromPlatform(tools[i]))
  }

  function Owned(capabilities: seq<seq<Tool>>): set<Text> {
    set e | e in PlatformEntries(capabilities) :: e.logicalId
  }

  /** The module contributions whose id no platform package owns. */
  function Contributed(installation: Installation, cs: seq<Contribution>, owned: set<Text>): seq<Entry>
    decreases |cs|
  {
    if cs == [] then []
    else (if cs[0].logicalId in owned then [] else [FromModule(installation, cs[0])]) + Contributed(installation, cs[1..], owned)
  }

  function ModuleEntries(installations: seq<Installation>, owned: set<Text>): seq<Entry>
    decreases |installations|
  {
    if installations == [] then []
    else Contributed(installations[0], installations[0].contributions, owned) + ModuleEntries(installations[1..], owned)
  }

  predicate Contributes(installations: seq<Installation>, id: Text) {
    exists i | 0 <= i < |installations| :: Offers(installations[i].contributions, id)
  }

  predicate Offers(cs: seq<Contribution>, id: Text) {
    exists j | 0 <= j < |cs| :: cs[j].logicalId == id
  }

  /** Default sort of distinct strings. */
  function InsertText(t: Text, sorted: seq<Text>): seq<Text>
    decreases |sorted|
  {
    if sorted == [] || TextLess(t, sorted[0]) then [t] + sorted else [sorted[0]] + InsertText(t, sorted[1..])
  }

  function SortTexts(ts: seq<Text>): seq<Text>
    decreases |ts|
  {
    if ts == [] then [] else InsertText(ts[0], SortTexts(ts[1..]))
  }

  predicate Ascending(ts: seq<Text>) {
    forall i, j | 0 <= i < j < |ts| :: TextLess(ts[i], ts[j])
  }

  predicate AllDistinct(ts: seq<Text>) {
    forall i, j | 0 <= i < j < |ts| :: ts[i] != ts[j]
  }

  lemma {:induction false} InsertTextSorts(t: Text, sorted: seq<Text>)
    requires Ascending(sorted) && t !in sorted
    ensures Ascending(InsertText(t, sorted)) && forall x :: x in InsertText(t, sorted) <==> x == t || x in sorted
    decreases |sorted|
  {
    var r := InsertText(t, sorted);
    if sorted != [] && !TextLess(t, sorted[0]) {
      InsertTextSorts(t, sorted[1..]);
      var tail := InsertText(t, sorted[1..]);
      TextLessTotal(t, sorted[0]);
      forall i, j | 0 <= i < j < |r| ensures TextLess(r[i], r[j]) {
        if i == 0 {
          assert r[j] in tail;
        } else {
          assert r[i] == tail[i - 1] && r[j] == tail[j - 1];
        }
      }
      assert sorted == [sorted[0]] + sorted[1..];
    } else {
      forall i, j | 0 <= i < j < |r| ensures TextLess(r[i], r[j]) {
        if i == 0 && j > 1 {
          TextLessTransitive(t, sorted[0], sorted[j - 1]);
        }
      }
    }
  }

  lemma {:induction false} SortTextsSorts(ts: seq<Text>)
    requires AllDistinct(ts)
    ensures Ascending(SortTexts(ts)) && forall x :: x in SortTexts(ts) <==> x in ts
    decreases |ts|
  {
    if ts != [] {
      SortTextsSorts(ts[1..]);
      InsertTextSorts(ts[0], SortTexts(ts[1..]));
      assert ts == [ts[0]] + ts[1..];
    }
  }

  datatype Catalog = Catalog(entries: seq<Entry>, platformCount: nat, moduleCount: nat, collisions: seq<Text>)

  /** What the catalog must be, whatever loop built it. */
  predicate Assembled(capabilities: seq<seq<Tool>>, installations: seq<Installation>, catalog: Catalog) {
    var platform, modules := PlatformEntries(capabilities), ModuleEntries(installations, Owned(capabilities));
    && catalog.entries == StableSort(platform + modules)
    && Sorted(catalog.entries) && multiset(catalog.entries) == multiset(platform) + multiset(modules)
    && catalog.platformCount == |platform| && catalog.moduleCount == |modules|
    && Ascending(catalog.collisions)
  }

  method AssembleExecutionToolCatalog(capabilities: seq<seq<Tool>>, installations: seq<Installation>) returns (catalog: Catalog)
    ensures Assembled(capabilities, installations, catalog)
    ensures forall id: Text :: id in catalog.collisions <==> id in Owned(capabilities) && Contributes(installations, id)
  {
    hide ModuleEntries, Contributes, Sorted, Ascending, AllDistinct, StableSort, SortTexts;
    var platform := CollectPlatform(capabilities);
    var owned := set e | e in platform :: e.logicalId;
    var modules, collisions := CollectModules(installations, owned);
    StableSortSorts(platform + modules);
    SortTextsSorts(collisions);
    catalog := Catalog(StableSort(platform + modules), |platform|, |modules|, SortTexts(collisions));
  }

  method CollectModules(installations: seq<Installation>, owned: set<Text>) returns (modules: seq<Entry>, collisions: seq<Text>)
    ensures modules == ModuleEntries(installations, owned)
    ensures AllDistinct(collisions) && forall id: Text :: id in collisions <==> id in owned && Contributes(installations, id)
  {
    hide AllDistinct, Contributed, Offers;
    modules, collisions := [], [];
    NoTexts();
    assert installations[0..] == installations && [] + ModuleEntries(installations, owned) == ModuleEntries(installations, owned);
    for i := 0 to |installations|
      invariant modules + ModuleEntries(installations[i..], owned) == ModuleEntries(installations, owned)
      invariant AllDistinct(collisions)
      invariant forall id: Text :: id in collisions <==> id in owned && Contributes(installations[..i], id)
    {
      ContributesNext(installations, i);
      ModuleEntriesNext(installations, i, owned, modules);
      modules, collisions := CollectModule(installations[i], owned, modules, collisions);
    }
    assert installations[..|installations|] == installations && modules + [] == modules;
  }

  lemma NoTexts()
    ensures AllDistinct([])
  {
  }

  lemma ModuleEntriesNext(installations: seq<Installation>, i: nat, owned: set<Text>, done: seq<Entry>)
    requires i < |installations|
    ensures done + ModuleEntries(installations[i..], owned)
            == (done + Contributed(installations[i], installations[i].contributions, owned)) + ModuleEntries(installations[i + 1..], owned)
  {
    hide Contributed;
    assert installations[i..][0] == installations[i] && installations[i..][1..] == installations[i + 1..];
  }

  // ---- what the merge keeps -----------------------------------------------------------------------------

  lemma {:induction false} ContributedExact(installation: Installation, cs: seq<Contribution>, owned: set<Text>, e: Entry)
    ensures e in Contributed(installation, cs, owned) <==>
      exists j | 0 <= j < |cs| :: e == FromModule(installation, cs[j]) && cs[j].logicalId !in owned
    decreases |cs|
  {
    if cs != [] {
      ContributedExact(installation, cs[1..], owned, e);
      if j :| 0 <= j < |cs| && e == FromModule(installation, cs[j]) && cs[j].logicalId !in owned {
        if j > 0 { assert cs[1..][j - 1] == cs[j]; }
      }
      if j :| 0 <= j < |cs[1..]| && e == FromModule(installation, cs[1..][j]) && cs[1..][j].logicalId !in owned {
        assert cs[j + 1] == cs[1..][j];
      }
    }
  }

  predicate IsContributed(installations: seq<Installation>, owned: set<Text>, e: Entry, i: nat, j: nat) {
    && i < |installations| && j < |installations[i].contributions|
    && e == FromModule(installations[i], installations[i].contributions[j])
    && installations[i].contributions[j].logicalId !in owned
  }

  /** The module half: exactly the contributions whose id no platform package owns. */
  lemma {:induction false} ModuleEntriesExact(installations: seq<Installation>, owned: set<Text>, e: Entry)
    ensures e in ModuleEntries(installations, owned) <==> exists i: nat, j: nat :: IsContributed(installations, owned, e, i, j)
    decreases |installations|
  {
    if installations != [] {
      var head, tail := installations[0], installations[1..];
      ContributedExact(head, head.contributions, owned, e);
      ModuleEntriesExact(tail, owned, e);
      if e in Contributed(head, head.contributions, owned) {
        var j :| 0 <= j < |head.contributions| && e == FromModule(head, head.contributions[j]) && head.contributions[j].logicalId !in owned;
        assert IsContributed(installations, owned, e, 0, j);
      }
      if i: nat, j: nat :| IsContributed(tail, owned, e, i, j) {
        assert IsContributed(installations, owned, e, i + 1, j);
      }
      if i: nat, j: nat :| IsContributed(installations, owned, e, i, j) {
        if i > 0 { assert IsContributed(tail, owned, e, i - 1, j); }
      }
    }
  }

  /** The catalog never lists one id from both sides, and drops no platform tool. */
  lemma PlatformWins(capabilities: seq<seq<Tool>>, installations: seq<Installation>, catalog: Catalog, e: Entry)
    requires Assembled(capabilities, installations, catalog)
    ensures e in catalog.entries && e.source == Module ==> e.logicalId !in Owned(capabilities)
    ensures e in PlatformEntries(capabilities) ==> e in catalog.entries
  {
    assert e in catalog.entries <==> e in multiset(catalog.entries);
    assert e in PlatformEntries(capabilities) <==> e in multiset(PlatformEntries(capabilities));
    ModuleEntriesExact(installations, Owned(capabilities), e);
    PlatformSource(capabilities, e);
    assert e in ModuleEntries(installations, Owned(capabilities)) <==> e in multiset(ModuleEntries(installations, Owned(capabilities)));
    hide StableSort, Sorted, Ascending, ModuleEntries;
  }

  lemma {:induction false} PlatformSource(capabilities: seq<seq<Tool>>, e: Entry)
    ensures e in PlatformEntries(capabilities) ==> e.source == Platform
    decreases |capabilities|
  {
    if capabilities != [] {
      PlatformSource(capabilities[1..], e);
    }
  }

  // ---- the collecting loops -----------------------------------------------------------------------------

  method CollectPlatform(capabilities: seq<seq<Tool>>) returns (platform: seq<Entry>)
    ensures platform == PlatformEntries(capabilities)
  {
    platform := [];
    assert capabilities[0..] == capabilities;
    for i := 0 to |capabilities|
      invariant platform + PlatformEntries(capabilities[i..]) == PlatformEntries(capabilities)
    {
      assert capabilities[i..][0] == capabilities[i] && capabilities[i..][1..] == capabilities[i + 1..];
      ghost var before := platform;
      var tools := capabilities[i];
      for j := 0 to |tools|
        invariant platform == before + EntriesOf(tools)[..j]
      {
        platform := platform + [FromPlatform(tools[j])];
      }
      assert EntriesOf(tools)[..|tools|] == EntriesOf(tools);
      assert (before + EntriesOf(tools)) + PlatformEntries(capabilities[i + 1..]) == before + (EntriesOf(tools) + PlatformEntries(capabilities[i + 1..]));
    }
    assert platform + [] == platform;
  }

  method CollectModule(installation: Installation, owned: set<Text>, modules0: seq<Entry>, collisions0: seq<Text>)
    returns (modules: seq<Entry>, collisions: seq<Text>)
    requires AllDistinct(collisions0)
    ensures modules == modules0 + Contributed(installation, installation.contributions, owned)
    ensures AllDistinct(collisions)
    ensures forall id: Text :: id in collisions <==> id in collisions0 || (id in owned && Offers(installation.contributions, id))
  {
    modules, collisions := modules0, collisions0;
    var cs := installation.contributions;
    assert cs[0..] == cs;
    for j := 0 to |cs|
      invariant modules + Contributed(installation, cs[j..], owned) == modules0 + Contributed(installation, cs, owned)
      invariant AllDistinct(collisions)
      invariant forall id: Text :: id in collisions <==> id in collisions0 || (id in owned && Offers(cs[..j], id))
    {
      assert cs[j..][0] == cs[j] && cs[j..][1..] == cs[j + 1..];
      OffersNext(cs, j);
      if cs[j].logicalId in owned {
        assert [] + Contributed(installation, cs[j + 1..], owned) == Contributed(installation, cs[j + 1..], owned);
        if cs[j].logicalId !in collisions {
          collisions := collisions + [cs[j].logicalId];
        }
      } else {
        ghost var before := modules;
        modules := modules + [FromModule(installation, cs[j])];
        assert before + ([FromModule(installation, cs[j])] + Contributed(installation, cs[j + 1..], owned))
            == modules + Contributed(installation, cs[j + 1..], owned);
      }
    }
    assert cs[..|cs|] == cs && modules + [] == modules;
  }

  lemma OffersNext(cs: seq<Contribution>, j: nat)
    requires j < |cs|
    ensures forall id: Text :: Offers(cs[..j + 1], id) <==> Offers(cs[..j], id) || id == cs[j].logicalId
  {
    forall id: Text ensures Offers(cs[..j + 1], id) <==> Offers(cs[..j], id) || id == cs[j].logicalId {
      assert cs[..j + 1][j] == cs[j];
      if Offers(cs[..j], id) {
        var k :| 0 <= k < |cs[..j]| && cs[..j][k].logicalId == id;
        assert cs[..j + 1][k].logicalId == id;
      }
      if Offers(cs[..j + 1], id) {
        var k :| 0 <= k < |cs[..j + 1]| && cs[..j + 1][k].logicalId == id;
        if k < j { assert cs[..j][k].logicalId == id; }
      }
    }
  }

  lemma ContributesNext(installations: seq<Installation>, i: nat)
    requires i < |installations|
    ensures forall id: Text ::
      Contributes(installations[..i + 1], id) <==> Contributes(installations[..i], id) || Offers(installations[i].contributions, id)
  {
    forall id: Text
      ensures Contributes(installations[..i + 1], id) <==> Contributes(installations[..i], id) || Offers(installations[i].contributions, id)
    {
      assert installations[..i + 1][i] == installations[i];
      if Contributes(installations[..i], id) {
        var k :| 0 <= k < |installations[..i]| && Offers(installations[..i][k].contributions, id);
        assert Offers(installations[..i + 1][k].contributions, id);
      }
      if Contributes(installations[..i + 1], id) {
        var k :| 0 <= k < |installations[..i + 1]| && Offers(installations[..i + 1][k].contributions, id);
        if k < i { assert Offers(installations[..i][k].contributions, id); }
      }
    }
  }
}

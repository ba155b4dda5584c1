/** Canonical JSON: recursive key sorting over JavaScript objects, and the text it prints. */
module CanonicalJson {
  import opened Results

  /** A UTF-16 code unit; JavaScript strings and property keys are sequences of them. */
  type CodeUnit = u: int | 0 <= u < 0x1_0000 witness 0

  type Text = seq<CodeUnit>

  /**
   * A JSON value as JavaScript holds it: numbers by the text they print as, an
   * object by its own members in enumeration order.
   */
  datatype Json =
    | Null
    | Bool(flag: bool)
    | Number(digits: Text)
    | String(text: Text)
    | Array(items: seq<Json>)
    | Object(members: seq<Member>)

  datatype Member = Member(key: Text, value: Json)

  /** `__proto__` */
  const PROTO: Text := [95, 95, 112, 114, 111, 116, 111, 95, 95]

  predicate DistinctKeys(ms: seq<Member>) {
    forall i, j | 0 <= i < j < |ms| :: ms[i].key != ms[j].key
  }

  /** Own property keys are distinct at every depth. */
  predicate WellFormed(v: Json)
    decreases v
  {
    match v
    case Array(items) => forall i | 0 <= i < |items| :: WellFormed(items[i])
    case Object(ms) => DistinctKeys(ms) && forall i | 0 <= i < |ms| :: WellFormed(ms[i].value)
    case _ => true
  }

  // ---- key orders --------------------------------------------------------------------------

  /** The default sort order of strings: by code unit. */
  predicate TextLess(a: Text, b: Text)
    decreases |a|
  {
    b != [] && (a == [] || a[0] < b[0] || (a[0] == b[0] && TextLess(a[1..], b[1..])))
  }

  lemma {:induction false} TextLessTotal(a: Text, b: Text)
    ensures !(TextLess(a, b) && TextLess(b, a)) && !TextLess(a, a)
    ensures a != b ==> TextLess(a, b) || TextLess(b, a)
    decreases |a|
  {
    if a != [] {
      TextLessTotal(a[1..], a[1..]);
      if b != [] {
        TextLessTotal(a[1..], b[1..]);
        assert a == [a[0]] + a[1..] && b == [b[0]] + b[1..];
      }
    }
  }

  lemma {:induction false} TextLessTransitive(a: Text, b: Text, c: Text)
    requires TextLess(a, b) && TextLess(b, c)
    ensures TextLess(a, c)
    decreases |a|
  {
    if a != [] && a[0] == b[0] && b[0] == c[0] {
      TextLessTransitive(a[1..], b[1..], c[1..]);
    }
  }

  /** The texts agree before `k`; there the first ends, or has the smaller code unit. */
  predicate PartsAt(a: Text, b: Text, k: nat) {
    k <= |a| && k < |b| && a[..k] == b[..k] && (k == |a| || a[k] < b[k])
  }

  /** Lexicographic order: the first difference decides, and a prefix comes first. */
  lemma {:induction false} TextLessIff(a: Text, b: Text)
    ensures TextLess(a, b) <==> exists k: nat :: PartsAt(a, b, k)
    decreases |a|
  {
    if TextLess(a, b) {
      if a == [] || a[0] < b[0] {
        assert PartsAt(a, b, 0);
      } else {
        TextLessIff(a[1..], b[1..]);
        var k: nat :| PartsAt(a[1..], b[1..], k);
        assert a[..k + 1] == [a[0]] + a[1..][..k] && b[..k + 1] == [b[0]] + b[1..][..k];
        assert PartsAt(a, b, k + 1);
      }
    }
    if k: nat :| PartsAt(a, b, k) {
      if k > 0 {
        assert a[..k][0] == b[..k][0];
        assert a[1..][..k - 1] == a[..k][1..] && b[1..][..k - 1] == b[..k][1..];
        assert PartsAt(a[1..], b[1..], k - 1);
        TextLessIff(a[1..], b[1..]);
      }
    }
  }

  predicate IsDigit(u: CodeUnit) { 48 <= u <= 57 }

  function DecimalValue(key: Text): nat
    requires forall i | 0 <= i < |key| :: IsDigit(key[i])
    decreases |key|
  {
    if key == [] then 0 else assert IsDigit(key[|key| - 1]); DecimalValue(key[..|key| - 1]) * 10 + (key[|key| - 1] as int - 48)
  }

  /** Canonical decimal: digits with no leading zero. */
  predicate PlainDecimal(key: Text) {
    && key != [] && (forall i | 0 <= i < |key| :: IsDigit(key[i]))
    && (|key| > 1 ==> key[0] != 48)
  }

  /** An array index, which an object enumerates before its other keys. */
  function IndexOf(key: Text): Option<nat> {
    if PlainDecimal(key) && DecimalValue(key) < 0xFFFF_FFFF then Some(DecimalValue(key)) else None
  }

  lemma {:induction false} DecimalAtLeast(key: Text)
    requires PlainDecimal(key)
    ensures |key| == 1 ==> DecimalValue(key) == key[0] as int - 48
    ensures |key| > 1 ==> DecimalValue(key) >= 10
    decreases |key|
  {
    var init := key[..|key| - 1];
    if |key| == 1 {
      assert DecimalValue(init) == 0;
    } else {
      DecimalAtLeast(init);
      assert DecimalValue(init) >= 1;
    }
  }

  lemma {:induction false} DecimalInjective(a: Text, b: Text)
    requires PlainDecimal(a) && PlainDecimal(b) && DecimalValue(a) == DecimalValue(b)
    ensures a == b
    decreases |a|
  {
    DecimalAtLeast(a);
    DecimalAtLeast(b);
    if |a| > 1 {
      var x, y := a[..|a| - 1], b[..|b| - 1];
      assert DecimalValue(x) == DecimalValue(a) / 10 == DecimalValue(b) / 10 == DecimalValue(y);
      DecimalInjective(x, y);
      assert a == x + [a[|a| - 1]] && b == y + [b[|b| - 1]];
    }
  }

  /** The decimal digits of a number, no zero in front. */
  function Numeral(n: nat): (t: Text)
    ensures t != []
  {
    if n < 10 then [48 + n] else Numeral(n / 10) + [48 + n % 10]
  }

  lemma {:induction false} NumeralIsDecimal(n: nat)
    ensures PlainDecimal(Numeral(n)) && DecimalValue(Numeral(n)) == n
    ensures |Numeral(n)| > 1 <==> n >= 10
    ensures Numeral(n)[0] == 48 ==> n == 0
    decreases n
  {
    var t := Numeral(n);
    if n >= 10 {
      NumeralIsDecimal(n / 10);
      assert t[..|t| - 1] == Numeral(n / 10) && t[|t| - 1] == 48 + n % 10;
    } else {
      assert t[..0] == [] && DecimalValue(t[..0]) == 0;
    }
  }

  /** The keys an object enumerates first are the numerals of the array indices. */
  lemma IndexOfIff(key: Text, n: nat)
    ensures IndexOf(key) == Some(n) <==> n < 4_294_967_295 && key == Numeral(n)
  {
    NumeralIsDecimal(n);
    if IndexOf(key) == Some(n) {
      DecimalInjective(key, Numeral(n));
    }
  }

  /** Enumeration order of an object filled in sorted key order: indices by value, then the rest by code unit. */
  predicate KeyBefore(a: Text, b: Text) {
    match (IndexOf(a), IndexOf(b))
    case (Some(x), Some(y)) => x < y
    case (Some(_), None) => true
    case (None, Some(_)) => false
    case (None, None) => TextLess(a, b)
  }

  lemma KeyBeforeTotal(a: Text, b: Text)
    ensures !(KeyBefore(a, b) && KeyBefore(b, a)) && !KeyBefore(a, a)
    ensures a != b ==> KeyBefore(a, b) || KeyBefore(b, a)
  {
    TextLessTotal(a, b);
    if IndexOf(a).Some? && IndexOf(a) == IndexOf(b) {
      DecimalInjective(a, b);
    }
  }

  lemma KeyBeforeTransitive(a: Text, b: Text, c: Text)
    requires KeyBefore(a, b) && KeyBefore(b, c)
    ensures KeyBefore(a, c)
  {
    if IndexOf(a).None? && IndexOf(b).None? && IndexOf(c).None? {
      TextLessTransitive(a, b, c);
    }
  }

  predicate Ordered(ms: seq<Member>) {
    forall i, j | 0 <= i < j < |ms| :: KeyBefore(ms[i].key, ms[j].key)
  }

  predicate Has(ms: seq<Member>, m: Member) {
    exists i | 0 <= i < |ms| :: ms[i] == m
  }

  predicate HasKey(ms: seq<Member>, key: Text) {
    exists i | 0 <= i < |ms| :: ms[i].key == key
  }

  // ---- sorting one object ----------------------------------------------------------------------

  /** Array.prototype.sort on the keys, carrying the members. */
  function InsertByText(ms: seq<Member>, m: Member): seq<Member>
    decreases |ms|
  {
    if ms == [] || TextLess(m.key, ms[0].key) then [m] + ms else [ms[0]] + InsertByText(ms[1..], m)
  }

  function SortByText(ms: seq<Member>): seq<Member>
    decreases |ms|
  {
    if ms == [] then [] else InsertByText(SortByText(ms[1..]), ms[0])
  }

  /** Creating a new own property: an index goes to its numeric place, any other key to the end. */
  function Create(ms: seq<Member>, m: Member): seq<Member>
    decreases |ms|
  {
    if IndexOf(m.key).None? || ms == [] then ms + [m]
    else if IndexOf(ms[0].key).Some? && IndexOf(ms[0].key).value < IndexOf(m.key).value then [ms[0]] + Create(ms[1..], m)
    else [m] + ms
  }

  /** `result[key] = value` on a plain object: assigning `__proto__` creates no own property. */
  function Assign(ms: seq<Member>, m: Member): seq<Member> {
    if m.key == PROTO then ms else Create(ms, m)
  }

  function Rebuild(done: seq<Member>, sorted: seq<Member>): seq<Member>
    decreases |sorted|
  {
    if sorted == [] then done else Rebuild(Assign(done, sorted[0]), sorted[1..])
  }

  function SortItems(items: seq<Json>): (r: seq<Json>)
    ensures |r| == |items|
    decreases items
  {
    if items == [] then [] else [SortValue(items[0])] + SortItems(items[1..])
  }

  function SortValues(ms: seq<Member>): (r: seq<Member>)
    ensures |r| == |ms| && forall i | 0 <= i < |ms| :: r[i].key == ms[i].key
    decreases ms
  {
    if ms == [] then [] else [Member(ms[0].key, SortValue(ms[0].value))] + SortValues(ms[1..])
  }

  /** `sortValue`: arrays keep their order, objects are rebuilt key by key in sorted order. */
  function SortValue(v: Json): Json
    decreases v
  {
    match v
    case Array(items) => Array(SortItems(items))
    case Object(ms) => Object(Rebuild([], SortByText(SortValues(ms))))
    case other => other
  }

  // ---- what the rebuilt object contains ------------------------------------------------------------

  predicate TextSorted(ms: seq<Member>) {
    forall i, j | 0 <= i < j < |ms| :: TextLess(ms[i].key, ms[j].key)
  }

  lemma {:induction false} InsertByTextEffect(ms: seq<Member>, m: Member)
    requires TextSorted(ms) && !HasKey(ms, m.key)
    ensures TextSorted(InsertByText(ms, m))
    ensures forall x :: Has(InsertByText(ms, m), x) <==> x == m || Has(ms, x)
    decreases |ms|
  {
    var r := InsertByText(ms, m);
    if ms != [] && !TextLess(m.key, ms[0].key) {
      HasTail(ms);
      InsertByTextEffect(ms[1..], m);
      var tail := InsertByText(ms[1..], m);
      HasHead(ms[0], tail);
      TextLessTotal(ms[0].key, m.key);
      forall i, j | 0 <= i < j < |r| ensures TextLess(r[i].key, r[j].key) {
        if i == 0 {
          assert Has(tail, r[j]);
          if r[j] != m {
            var k :| 0 <= k < |ms[1..]| && ms[1..][k] == r[j];
            assert ms[k + 1] == r[j];
          }
        } else {
          assert r[i] == tail[i - 1] && r[j] == tail[j - 1];
        }
      }
    } else {
      HasHead(m, ms);
      forall i, j | 0 <= i < j < |r| ensures TextLess(r[i].key, r[j].key) {
        if i == 0 && j > 1 {
          TextLessTransitive(m.key, ms[0].key, ms[j - 1].key);
        }
      }
    }
  }

  lemma HasHead(m: Member, ms: seq<Member>)
    ensures forall x :: Has([m] + ms, x) <==> x == m || Has(ms, x)
  {
    var r := [m] + ms;
    assert r[0] == m;
    forall x | Has(ms, x) ensures Has(r, x) {
      var i :| 0 <= i < |ms| && ms[i] == x;
      assert r[i + 1] == x;
    }
  }

  lemma HasTail(ms: seq<Member>)
    requires ms != []
    ensures forall x :: Has(ms, x) <==> x == ms[0] || Has(ms[1..], x)
    ensures forall k :: HasKey(ms[1..], k) ==> HasKey(ms, k)
  {
    assert ms == [ms[0]] + ms[1..];
    HasHead(ms[0], ms[1..]);
    forall k | HasKey(ms[1..], k) ensures HasKey(ms, k) {
      var i :| 0 <= i < |ms[1..]| && ms[1..][i].key == k;
      assert ms[i + 1].key == k;
    }
  }

  lemma {:induction false} SortByTextEffect(ms: seq<Member>)
    requires DistinctKeys(ms)
    ensures TextSorted(SortByText(ms))
    ensures forall x :: Has(SortByText(ms), x) <==> Has(ms, x)
    decreases |ms|
  {
    if ms != [] {
      HasTail(ms);
      SortByTextEffect(ms[1..]);
      var tail := SortByText(ms[1..]);
      FreshKey(ms, tail);
      InsertByTextEffect(tail, ms[0]);
    }
  }

  lemma FreshKey(ms: seq<Member>, tail: seq<Member>)
    requires ms != [] && DistinctKeys(ms) && forall x :: Has(tail, x) ==> Has(ms[1..], x)
    ensures !HasKey(tail, ms[0].key)
  {
    forall i | 0 <= i < |tail| ensures tail[i].key != ms[0].key {
      assert Has(tail, tail[i]);
      var j :| 0 <= j < |ms[1..]| && ms[1..][j] == tail[i];
      assert ms[j + 1].key == tail[i].key;
    }
  }

  /** Every plain key already created comes before `key` in code-unit order. */
  predicate PlainBefore(ms: seq<Member>, key: Text) {
    forall i | 0 <= i < |ms| :: ms[i].key != key && (IndexOf(ms[i].key).None? ==> TextLess(ms[i].key, key))
  }

  lemma {:induction false} CreateEffect(ms: seq<Member>, m: Member)
    requires Ordered(ms) && PlainBefore(ms, m.key)
    ensures Ordered(Create(ms, m))
    ensures forall x :: Has(Create(ms, m), x) <==> x == m || Has(ms, x)
    decreases |ms|
  {
    var r := Create(ms, m);
    if IndexOf(m.key).None? || ms == [] {
      HasLast(ms, m);
    } else if IndexOf(ms[0].key).Some? && IndexOf(ms[0].key).value < IndexOf(m.key).value {
      HasTail(ms);
      CreateEffect(ms[1..], m);
      var tail := Create(ms[1..], m);
      HasHead(ms[0], tail);
      forall i, j | 0 <= i < j < |r| ensures KeyBefore(r[i].key, r[j].key) {
        if i == 0 {
          assert Has(tail, r[j]);
          if r[j] != m {
            var k :| 0 <= k < |ms[1..]| && ms[1..][k] == r[j];
            assert ms[k + 1] == r[j];
          }
        } else {
          assert r[i] == tail[i - 1] && r[j] == tail[j - 1];
        }
      }
    } else {
      HasHead(m, ms);
      KeyBeforeTotal(m.key, ms[0].key);
      forall i, j | 0 <= i < j < |r| ensures KeyBefore(r[i].key, r[j].key) {
        if i == 0 && j > 1 {
          KeyBeforeTransitive(m.key, ms[0].key, ms[j - 1].key);
        }
      }
    }
  }

  lemma HasLast(ms: seq<Member>, m: Member)
    ensures forall x :: Has(ms + [m], x) <==> x == m || Has(ms, x)
  {
    var r := ms + [m];
    assert r[|ms|] == m;
    forall x | Has(ms, x) ensures Has(r, x) {
      var i :| 0 <= i < |ms| && ms[i] == x;
      assert r[i] == x;
    }
  }

  lemma {:induction false} RebuildEffect(done: seq<Member>, sorted: seq<Member>)
    requires Ordered(done) && TextSorted(sorted) && forall k | 0 <= k < |sorted| :: PlainBefore(done, sorted[k].key)
    ensures Ordered(Rebuild(done, sorted))
    ensures forall x :: Has(Rebuild(done, sorted), x) <==> Has(done, x) || (Has(sorted, x) && x.key != PROTO)
    decreases |sorted|
  {
    if sorted != [] {
      var m := sorted[0];
      HasTail(sorted);
      CreateEffect(done, m);
      var next := Assign(done, m);
      forall k | 0 <= k < |sorted[1..]| ensures PlainBefore(next, sorted[1..][k].key) {
        var key := sorted[1..][k].key;
        assert sorted[k + 1].key == key && TextLess(m.key, key);
        TextLessTotal(m.key, key);
        forall i | 0 <= i < |next| ensures next[i].key != key && (IndexOf(next[i].key).None? ==> TextLess(next[i].key, key)) {
          assert Has(next, next[i]);
          if next[i] != m {
            var j :| 0 <= j < |done| && done[j] == next[i];
            assert PlainBefore(done, sorted[k + 1].key);
          }
        }
      }
      RebuildEffect(next, sorted[1..]);
    }
  }

  /** The members of a sorted object, exactly. */
  lemma SortedMembers(ms: seq<Member>)
    requires DistinctKeys(ms)
    ensures Ordered(Rebuild([], SortByText(SortValues(ms))))
    ensures forall x :: Has(Rebuild([], SortByText(SortValues(ms))), x) <==> Has(SortValues(ms), x) && x.key != PROTO
  {
    assert DistinctKeys(SortValues(ms));
    SortByTextEffect(SortValues(ms));
    RebuildEffect([], SortByText(SortValues(ms)));
  }

  /** Two ordered objects with the same members are the same. */
  lemma {:induction false} OrderedUnique(a: seq<Member>, b: seq<Member>)
    requires Ordered(a) && Ordered(b) && forall x :: Has(a, x) <==> Has(b, x)
    ensures a == b
    decreases |a|
  {
    HasFirst(a);
    HasFirst(b);
    if a != [] && b != [] {
      FirstIsSame(a, b);
      HasTail(a);
      HasTail(b);
      HeadNotInTail(a);
      HeadNotInTail(b);
      assert Ordered(a[1..]) && Ordered(b[1..]);
      OrderedUnique(a[1..], b[1..]);
      assert a == [a[0]] + a[1..] && b == [b[0]] + b[1..];
    }
  }

  lemma HasFirst(ms: seq<Member>)
    ensures ms != [] ==> Has(ms, ms[0])
    ensures ms == [] ==> forall x :: !Has(ms, x)
  {
  }

  lemma FirstIsSame(a: seq<Member>, b: seq<Member>)
    requires Ordered(a) && Ordered(b) && a != [] && b != [] && Has(b, a[0]) && Has(a, b[0])
    ensures a[0] == b[0]
  {
    var i :| 0 <= i < |b| && b[i] == a[0];
    var j :| 0 <= j < |a| && a[j] == b[0];
    KeyBeforeTotal(a[0].key, b[0].key);
  }

  lemma HeadNotInTail(a: seq<Member>)
    requires Ordered(a) && a != []
    ensures !Has(a[1..], a[0])
  {
    if Has(a[1..], a[0]) {
      var i :| 0 <= i < |a[1..]| && a[1..][i] == a[0];
      assert KeyBefore(a[0].key, a[i + 1].key);
      KeyBeforeTotal(a[0].key, a[0].key);
    }
  }

  // ---- the equivalence the normal form decides ------------------------------------------------------

  /** Whether a member takes part in a comparison: the stripping one ignores `__proto__`. */
  predicate Kept(key: Text, strip: bool) {
    !(strip && key == PROTO)
  }

  /** Same up to member order at every depth, with or without ignoring `__proto__` members. */
  predicate Equivalent(v: Json, w: Json, strip: bool)
    decreases v, 2
  {
    match (v, w)
    case (Array(a), Array(b)) => |a| == |b| && forall i | 0 <= i < |a| :: Equivalent(a[i], b[i], strip)
    case (Object(a), Object(b)) =>
      && (forall i | 0 <= i < |a| :: Kept(a[i].key, strip) ==> Answered(a[i], b, strip))
      && (forall j | 0 <= j < |b| :: Kept(b[j].key, strip) ==> AnsweredBy(a, b[j], strip))
    case (Array(_), _) => false
    case (Object(_), _) => false
    case (_, Array(_)) => false
    case (_, Object(_)) => false
    case (x, y) => x == y
  }

  predicate Paired(m: Member, n: Member, strip: bool)
    decreases m, 0
  {
    m.key == n.key && Equivalent(m.value, n.value, strip)
  }

  predicate Answered(m: Member, b: seq<Member>, strip: bool)
    decreases m, 1
  {
    exists j | 0 <= j < |b| :: Paired(m, b[j], strip)
  }

  predicate AnsweredBy(a: seq<Member>, n: Member, strip: bool)
    decreases a, 1
  {
    exists i | 0 <= i < |a| :: Paired(a[i], n, strip)
  }

  lemma {:induction false} SortItemsAt(items: seq<Json>, i: nat)
    requires i < |items|
    ensures SortItems(items)[i] == SortValue(items[i])
    decreases items
  {
    if i > 0 {
      SortItemsAt(items[1..], i - 1);
    }
  }

  lemma {:induction false} SortValuesAt(ms: seq<Member>, i: nat)
    requires i < |ms|
    ensures SortValues(ms)[i] == Member(ms[i].key, SortValue(ms[i].value))
    decreases ms
  {
    if i > 0 {
      SortValuesAt(ms[1..], i - 1);
    }
  }

  /** Which members a sorted object has, in terms of the object it was made from. */
  lemma SortedHas(ms: seq<Member>, x: Member)
    requires DistinctKeys(ms)
    ensures Has(SortValue(Object(ms)).members, x) <==>
      x.key != PROTO && exists i | 0 <= i < |ms| :: ms[i].key == x.key && SortValue(ms[i].value) == x.value
  {
    SortedMembers(ms);
    var s := SortValues(ms);
    if Has(s, x) {
      var i :| 0 <= i < |s| && s[i] == x;
      SortValuesAt(ms, i);
    }
    if i :| 0 <= i < |ms| && ms[i].key == x.key && SortValue(ms[i].value) == x.value {
      SortValuesAt(ms, i);
      assert s[i] == x;
    }
  }

  /** The normal form decides the values of two members. */
  predicate Decided(m: Member, n: Member) {
    SortValue(m.value) == SortValue(n.value) <==> Equivalent(m.value, n.value, true)
  }

  lemma EquivalentHas(a: seq<Member>, b: seq<Member>, x: Member)
    requires DistinctKeys(a) && DistinctKeys(b) && forall i, j | 0 <= i < |a| && 0 <= j < |b| :: Decided(a[i], b[j])
    requires Equivalent(Object(a), Object(b), true)
    ensures Has(SortValue(Object(a)).members, x) <==> Has(SortValue(Object(b)).members, x)
  {
    SortedHas(a, x);
    SortedHas(b, x);
    hide SortValue, Has;
    if i :| 0 <= i < |a| && a[i].key == x.key && SortValue(a[i].value) == x.value && x.key != PROTO {
      assert Answered(a[i], b, true);
      var j :| 0 <= j < |b| && Paired(a[i], b[j], true);
      assert Decided(a[i], b[j]);
    }
    if j :| 0 <= j < |b| && b[j].key == x.key && SortValue(b[j].value) == x.value && x.key != PROTO {
      assert AnsweredBy(a, b[j], true);
      var i :| 0 <= i < |a| && Paired(a[i], b[j], true);
      assert Decided(a[i], b[j]);
    }
  }

  lemma SameHasEquivalent(a: seq<Member>, b: seq<Member>)
    requires DistinctKeys(a) && DistinctKeys(b) && forall i, j | 0 <= i < |a| && 0 <= j < |b| :: Decided(a[i], b[j])
    requires SortValue(Object(a)) == SortValue(Object(b))
    ensures Equivalent(Object(a), Object(b), true)
  {
    forall i | 0 <= i < |a| && a[i].key != PROTO ensures Answered(a[i], b, true) {
      var x := Member(a[i].key, SortValue(a[i].value));
      SortedHas(a, x);
      SortedHas(b, x);
      var j :| 0 <= j < |b| && b[j].key == x.key && SortValue(b[j].value) == x.value;
      assert Decided(a[i], b[j]) && Paired(a[i], b[j], true);
    }
    forall j | 0 <= j < |b| && b[j].key != PROTO ensures AnsweredBy(a, b[j], true) {
      var x := Member(b[j].key, SortValue(b[j].value));
      SortedHas(a, x);
      SortedHas(b, x);
      var i :| 0 <= i < |a| && a[i].key == x.key && SortValue(a[i].value) == x.value;
      assert Decided(a[i], b[j]) && Paired(a[i], b[j], true);
    }
  }

  lemma MembersDecide(a: seq<Member>, b: seq<Member>)
    requires DistinctKeys(a) && DistinctKeys(b) && forall i, j | 0 <= i < |a| && 0 <= j < |b| :: Decided(a[i], b[j])
    ensures SortValue(Object(a)) == SortValue(Object(b)) <==> Equivalent(Object(a), Object(b), true)
  {
    if SortValue(Object(a)) == SortValue(Object(b)) {
      SameHasEquivalent(a, b);
    }
    if Equivalent(Object(a), Object(b), true) {
      SortedMembers(a);
      SortedMembers(b);
      forall x ensures Has(SortValue(Object(a)).members, x) <==> Has(SortValue(Object(b)).members, x) {
        EquivalentHas(a, b, x);
      }
      OrderedUnique(SortValue(Object(a)).members, SortValue(Object(b)).members);
    }
    hide Equivalent, Decided, Has, DistinctKeys;
  }

  lemma ItemsDecide(a: seq<Json>, b: seq<Json>)
    requires forall i | 0 <= i < |a| && i < |b| :: SortValue(a[i]) == SortValue(b[i]) <==> Equivalent(a[i], b[i], true)
    ensures SortItems(a) == SortItems(b) <==> Equivalent(Array(a), Array(b), true)
  {
    forall i | 0 <= i < |a| ensures SortItems(a)[i] == SortValue(a[i]) { SortItemsAt(a, i); }
    forall i | 0 <= i < |b| ensures SortItems(b)[i] == SortValue(b[i]) { SortItemsAt(b, i); }
    hide SortItems, SortValue;
    if SortItems(a) == SortItems(b) {
      forall i | 0 <= i < |a| ensures Equivalent(a[i], b[i], true) {
        assert SortItems(a)[i] == SortItems(b)[i];
      }
    }
  }

  /** Equal normal forms exactly when the values agree up to member order and `__proto__` members. */
  lemma {:induction false} NormalFormDecides(v: Json, w: Json)
    requires WellFormed(v) && WellFormed(w)
    ensures SortValue(v) == SortValue(w) <==> Equivalent(v, w, true)
    decreases v
  {
    if v.Array? && w.Array? {
      forall i | 0 <= i < |v.items| && i < |w.items|
        ensures SortValue(v.items[i]) == SortValue(w.items[i]) <==> Equivalent(v.items[i], w.items[i], true)
      {
        NormalFormDecides(v.items[i], w.items[i]);
      }
      ItemsDecide(v.items, w.items);
    } else if v.Object? && w.Object? {
      forall i, j | 0 <= i < |v.members| && 0 <= j < |w.members|
        ensures Decided(v.members[i], w.members[j])
      {
        NormalFormDecides(v.members[i].value, w.members[j].value);
      }
      MembersDecide(v.members, w.members);
    }
  }

  // ---- idempotence, and what the normal form loses ---------------------------------------------------

  predicate ProtoFree(v: Json)
    decreases v
  {
    match v
    case Array(items) => forall i | 0 <= i < |items| :: ProtoFree(items[i])
    case Object(ms) => forall i | 0 <= i < |ms| :: ms[i].key != PROTO && ProtoFree(ms[i].value)
    case _ => true
  }

  lemma SortedFrom(ms: seq<Member>, i: nat) returns (k: nat)
    requires DistinctKeys(ms) && i < |SortValue(Object(ms)).members|
    ensures k < |ms|
    ensures SortValue(Object(ms)).members[i] == Member(ms[k].key, SortValue(ms[k].value)) && ms[k].key != PROTO
  {
    var n := SortValue(Object(ms)).members;
    assert Has(n, n[i]);
    SortedHas(ms, n[i]);
    k :| 0 <= k < |ms| && ms[k].key == n[i].key && SortValue(ms[k].value) == n[i].value;
  }

  lemma OrderedDistinct(ms: seq<Member>)
    requires Ordered(ms)
    ensures DistinctKeys(ms)
  {
    forall i, j | 0 <= i < j < |ms| ensures ms[i].key != ms[j].key {
      KeyBeforeTotal(ms[i].key, ms[j].key);
    }
  }

  /** Sorting twice is sorting once, and a normal form is well formed without any `__proto__` member. */
  lemma {:induction false} SortValueIsIdempotent(v: Json)
    requires WellFormed(v)
    ensures SortValue(SortValue(v)) == SortValue(v)
    ensures WellFormed(SortValue(v)) && ProtoFree(SortValue(v))
    decreases v
  {
    match v
    case Array(items) =>
      forall i | 0 <= i < |items|
        ensures SortItems(items)[i] == SortValue(items[i])
        ensures SortValue(SortItems(items)[i]) == SortItems(items)[i]
        ensures WellFormed(SortItems(items)[i]) && ProtoFree(SortItems(items)[i])
      {
        SortItemsAt(items, i);
        SortValueIsIdempotent(items[i]);
      }
      SortItemsFixed(SortItems(items));
    case Object(ms) =>
      forall k | 0 <= k < |ms|
        ensures SortValue(SortValue(ms[k].value)) == SortValue(ms[k].value)
        ensures WellFormed(SortValue(ms[k].value)) && ProtoFree(SortValue(ms[k].value))
      {
        SortValueIsIdempotent(ms[k].value);
      }
      SortObjectTwice(ms);
    case _ =>
  }

  lemma SortItemsFixed(items: seq<Json>)
    requires forall i | 0 <= i < |items| :: SortValue(items[i]) == items[i]
    ensures SortItems(items) == items
  {
    forall i | 0 <= i < |items| ensures SortItems(items)[i] == items[i] { SortItemsAt(items, i); }
  }

  lemma SortObjectTwice(ms: seq<Member>)
    requires DistinctKeys(ms)
    requires forall k | 0 <= k < |ms| ::
      && SortValue(SortValue(ms[k].value)) == SortValue(ms[k].value)
      && WellFormed(SortValue(ms[k].value)) && ProtoFree(SortValue(ms[k].value))
    ensures
      var n := SortValue(Object(ms));
      SortValue(n) == n && WellFormed(n) && ProtoFree(n)
  {
    var n := SortValue(Object(ms)).members;
    SortedMembers(ms);
    OrderedDistinct(n);
    forall i | 0 <= i < |n|
      ensures n[i].key != PROTO && SortValue(n[i].value) == n[i].value && WellFormed(n[i].value) && ProtoFree(n[i].value)
    {
      var k := SortedFrom(ms, i);
    }
    SortedMembers(n);
    var twice := SortValue(Object(n)).members;
    hide SortValues, SortByText, Rebuild, WellFormed, ProtoFree;
    forall x ensures Has(twice, x) <==> Has(n, x) {
      SortedHas(n, x);
      if Has(n, x) {
        var i :| 0 <= i < |n| && n[i] == x;
      }
      if i :| 0 <= i < |n| && n[i].key == x.key && SortValue(n[i].value) == x.value {
        assert n[i] == x;
      }
    }
    OrderedUnique(twice, n);
  }

  lemma {:induction false} StrippingIsIdle(v: Json, w: Json)
    requires ProtoFree(v) && ProtoFree(w)
    ensures Equivalent(v, w, true) <==> Equivalent(v, w, false)
    decreases v
  {
    if v.Array? && w.Array? && |v.items| == |w.items| {
      forall i | 0 <= i < |v.items| ensures Equivalent(v.items[i], w.items[i], true) <==> Equivalent(v.items[i], w.items[i], false) {
        StrippingIsIdle(v.items[i], w.items[i]);
      }
    } else if v.Object? && w.Object? {
      var a, b := v.members, w.members;
      forall i, j | 0 <= i < |a| && 0 <= j < |b| ensures Paired(a[i], b[j], true) <==> Paired(a[i], b[j], false) {
        StrippingIsIdle(a[i].value, b[j].value);
      }
      PairsSuffice(a, b);
    }
  }

  lemma PairsSuffice(a: seq<Member>, b: seq<Member>)
    requires forall i | 0 <= i < |a| :: a[i].key != PROTO
    requires forall j | 0 <= j < |b| :: b[j].key != PROTO
    requires forall i, j | 0 <= i < |a| && 0 <= j < |b| :: Paired(a[i], b[j], true) <==> Paired(a[i], b[j], false)
    ensures Equivalent(Object(a), Object(b), true) <==> Equivalent(Object(a), Object(b), false)
  {
    hide Paired;
    forall i | 0 <= i < |a| ensures Answered(a[i], b, true) <==> Answered(a[i], b, false) {}
    forall j | 0 <= j < |b| ensures AnsweredBy(a, b[j], true) <==> AnsweredBy(a, b[j], false) {}
    hide Answered, AnsweredBy;
  }

  lemma {:induction false} ProtoFreeSpreads(v: Json, w: Json)
    requires ProtoFree(v) && Equivalent(v, w, false)
    ensures ProtoFree(w)
    decreases w
  {
    match w
    case Array(items) =>
      forall i | 0 <= i < |items| ensures ProtoFree(items[i]) {
        ProtoFreeSpreads(v.items[i], items[i]);
      }
    case Object(ms) =>
      forall j | 0 <= j < |ms| ensures ms[j].key != PROTO && ProtoFree(ms[j].value) {
        assert AnsweredBy(v.members, ms[j], false);
        var i :| 0 <= i < |v.members| && Paired(v.members[i], ms[j], false);
        ProtoFreeSpreads(v.members[i].value, ms[j].value);
      }
    case _ =>
  }

  /** A value survives normalisation, up to member order, exactly when it has no `__proto__` member at any depth. */
  lemma NormalFormKeepsIff(v: Json)
    requires WellFormed(v)
    ensures Equivalent(SortValue(v), v, false) <==> ProtoFree(v)
  {
    SortValueIsIdempotent(v);
    NormalFormDecides(SortValue(v), v);
    hide SortValue, Equivalent, ProtoFree, WellFormed;
    if ProtoFree(v) {
      StrippingIsIdle(SortValue(v), v);
    } else if Equivalent(SortValue(v), v, false) {
      ProtoFreeSpreads(SortValue(v), v);
    }
  }

  /** On values without `__proto__` members it is a complete normal form for member order. */
  lemma NormalFormIsComplete(v: Json, w: Json)
    requires WellFormed(v) && WellFormed(w) && ProtoFree(v) && ProtoFree(w)
    ensures SortValue(v) == SortValue(w) <==> Equivalent(v, w, false)
  {
    NormalFormDecides(v, w);
    StrippingIsIdle(v, w);
  }

  /** On the others it is not: a parsed `{"__proto__":null}` normalises to the empty object. */
  lemma ProtoMemberIsLost()
    ensures
      var v, w := Object([Member(PROTO, Null)]), Object([]);
      WellFormed(v) && WellFormed(w) && SortValue(v) == SortValue(w) && !Equivalent(v, w, false)
  {
    var ms := [Member(PROTO, Null)];
    assert SortValues(ms[1..]) == [];
    assert SortByText(SortValues(ms)[1..]) == [];
    assert SortByText(SortValues(ms)) == SortValues(ms);
    assert Rebuild([], SortValues(ms)) == Rebuild([], SortValues(ms)[1..]) == [];
    assert Kept(ms[0].key, false) && !Answered(ms[0], [], false);
  }

  // ---- the imperative form ------------------------------------------------------------------------------

  /** The loop over sorted keys that fills a fresh record. */
  method FillRecord(sorted: seq<Member>) returns (record: seq<Member>)
    ensures record == Rebuild([], sorted)
  {
    record := [];
    assert sorted[0..] == sorted;
    for i := 0 to |sorted|
      invariant Rebuild(record, sorted[i..]) == Rebuild([], sorted)
    {
      assert sorted[i..][0] == sorted[i] && sorted[i..][1..] == sorted[i + 1..];
      record := Assign(record, sorted[i]);
    }
  }

  /** The recursive walk over arrays and objects. */
  method Normalize(v: Json) returns (r: Json)
    ensures r == SortValue(v)
    decreases v, 1
  {
    hide SortByText, Rebuild, SortItems, SortValues;
    match v {
      case Array(items) =>
        var done := NormalizeItems(items);
        r := Array(done);
      case Object(ms) =>
        var values := NormalizeMembers(ms);
        var record := FillRecord(SortByText(values));
        r := Object(record);
      case _ =>
        r := v;
    }
  }

  method NormalizeItems(items: seq<Json>) returns (done: seq<Json>)
    ensures done == SortItems(items)
    decreases items, 0
  {
    hide SortItems, SortValue;
    done := [];
    for i := 0 to |items|
      invariant done == SortItems(items)[..i]
    {
      var item := Normalize(items[i]);
      SortItemsAt(items, i);
      done := done + [item];
    }
  }

  method NormalizeMembers(ms: seq<Member>) returns (values: seq<Member>)
    ensures values == SortValues(ms)
    decreases ms, 0
  {
    hide SortValues, SortValue;
    values := [];
    for i := 0 to |ms|
      invariant values == SortValues(ms)[..i]
    {
      var value := Normalize(ms[i].value);
      SortValuesAt(ms, i);
      values := values + [Member(ms[i].key, value)];
    }
  }
}

/**
 History rows as database keys, and the scans over them.

 The database is an ordered map from byte strings; history rows carry all their data in the key,
 so it is modelled by its keys in ascending order. A key is big-endian throughout, which is what
 makes the byte order of keys the order of heights and puts, within one height, every funding row
 before every spending row.
 */
module HistoryKeys {
  import opened Wrappers

  type Txid = seq<Byte>

  datatype Parsed<+T> = Malformed | Parsed(value: T)

  datatype OutPoint = OutPoint(txid: Txid, vout: nat)

  /** What a row says: a transaction funds an output of the script, or spends one. */
  datatype Info =
    | Funding(txid: Txid, vout: nat, value: nat)
    | Spending(txid: Txid, vin: nat, prev: OutPoint, value: nat)
  {
    /** The output a row is about: the one funded, or the one spent. */
    function Out(): OutPoint { if Funding? then OutPoint(txid, vout) else prev }
  }

  datatype Row = Row(height: nat, info: Info)

  datatype Key = Key(code: Byte, hash: seq<Byte>, row: Row)

  const HISTORY: Byte := 72   // 'H'

  // ----- Byte order -----------------------------------------------------------------------------

  /** Lexicographic order; a proper prefix comes first. */
  predicate Less(a: seq<Byte>, b: seq<Byte>) {
    if b == [] then false else if a == [] then true
    else if a[0] != b[0] then a[0] < b[0] else Less(a[1..], b[1..])
  }

  lemma {:induction false} LessSame(p: seq<Byte>, a: seq<Byte>, b: seq<Byte>)
    ensures Less(p + a, p + b) == Less(a, b)
  {
    if p == [] {
      assert p + a == a && p + b == b;
    } else {
      LessSame(p[1..], a, b);
      assert (p + a)[1..] == p[1..] + a && (p + b)[1..] == p[1..] + b;
    }
  }

  lemma {:induction false} LessTransitive(a: seq<Byte>, b: seq<Byte>, c: seq<Byte>)
    requires Less(a, b) && Less(b, c)
    ensures Less(a, c)
  {
    if a != [] && a[0] == b[0] == c[0] { LessTransitive(a[1..], b[1..], c[1..]); }
  }

  /** Exactly one of less, equal, greater. */
  lemma {:induction false} LessTotal(a: seq<Byte>, b: seq<Byte>)
    ensures !(Less(a, b) && Less(b, a))
    ensures Less(a, b) || Less(b, a) <==> a != b
  {
    if a != [] && b != [] {
      LessTotal(a[1..], b[1..]);
      assert a == [a[0]] + a[1..] && b == [b[0]] + b[1..];
    }
  }

  /** The keys with a given prefix are an interval. */
  lemma {:induction false} PrefixInterval(p: seq<Byte>, a: seq<Byte>, k: seq<Byte>, b: seq<Byte>)
    requires p <= a && p <= b && !Less(k, a) && !Less(b, k)
    ensures p <= k
  {
    if p != [] {
      assert k != [] && a[0] == b[0] == p[0];
      PrefixInterval(p[1..], a[1..], k[1..], b[1..]);
      assert k == [k[0]] + k[1..] && p == [p[0]] + p[1..];
    }
  }

  // ----- Big-endian numbers ----------------------------------------------------------------------

  /** `x` fits in `n` bytes. */
  predicate Fits(x: nat, n: nat) {
    if n == 0 then x == 0 else Fits(x / 256, n - 1)
  }

  function BigEndian(x: nat, n: nat): (r: seq<Byte>)
    ensures |r| == n
  {
    if n == 0 then [] else BigEndian(x / 256, n - 1) + [x % 256]
  }

  function Value(b: seq<Byte>): nat {
    if b == [] then 0 else 256 * Value(b[..|b| - 1]) + b[|b| - 1]
  }

  lemma {:induction false} ValueOfBigEndian(x: nat, n: nat)
    requires Fits(x, n)
    ensures Value(BigEndian(x, n)) == x
  {
    if n > 0 {
      ValueOfBigEndian(x / 256, n - 1);
      assert BigEndian(x, n)[..n - 1] == BigEndian(x / 256, n - 1);
    }
  }

  /** Byte order is number order, whatever follows. */
  lemma {:induction false} BigEndianOrder(x: nat, y: nat, n: nat, a: seq<Byte>, b: seq<Byte>)
    requires x < y && Fits(x, n) && Fits(y, n)
    ensures Less(BigEndian(x, n) + a, BigEndian(y, n) + b)
  {
    if n > 0 {
      var p, q := BigEndian(x / 256, n - 1), BigEndian(y / 256, n - 1);
      assert BigEndian(x, n) + a == p + ([x % 256] + a);
      assert BigEndian(y, n) + b == q + ([y % 256] + b);
      if x / 256 < y / 256 {
        BigEndianOrder(x / 256, y / 256, n - 1, [x % 256] + a, [y % 256] + b);
      } else {
        LessSame(p, [x % 256] + a, [y % 256] + b);
      }
    }
  }

  lemma {:induction false} FourBytes(x: nat)
    ensures Fits(x, 4) <==> x < 0x1_0000_0000
  {
    assert Fits(x, 4) == Fits(x / 256, 3) == Fits(x / 256 / 256, 2) == Fits(x / 256 / 256 / 256, 1);
    assert Fits(x / 256 / 256 / 256, 1) == Fits(x / 256 / 256 / 256 / 256, 0);
  }

  // ----- Keys ------------------------------------------------------------------------------------

  predicate SizedInfo(i: Info) {
    && |i.txid| == 32 && Fits(i.value, 8)
    && match i
       case Funding(_, vout, _) => Fits(vout, 4)
       case Spending(_, vin, prev, _) => Fits(vin, 4) && |prev.txid| == 32 && Fits(prev.vout, 4)
  }

  predicate Sized(r: Row) { Fits(r.height, 4) && SizedInfo(r.info) }

  /** The number of the variant, then its fields. */
  function EncodeInfo(i: Info): seq<Byte> {
    match i
    case Funding(txid, vout, value) => BigEndian(0, 4) + (txid + (BigEndian(vout, 4) + BigEndian(value, 8)))
    case Spending(txid, vin, prev, value) =>
      BigEndian(1, 4) + (txid + (BigEndian(vin, 4) + (prev.txid + (BigEndian(prev.vout, 4) + BigEndian(value, 8)))))
  }

  /** What all rows of a script start with. */
  function Filter(code: Byte, hash: seq<Byte>): seq<Byte> { [code] + hash }

  /** Where the rows of a script from a height up start. */
  function PrefixHeight(code: Byte, hash: seq<Byte>, height: nat): seq<Byte> {
    Filter(code, hash) + BigEndian(height, 4)
  }

  function Encode(k: Key): seq<Byte> {
    Filter(k.code, k.hash) + (BigEndian(k.row.height, 4) + EncodeInfo(k.row.info))
  }

  /** Splits off `n` bytes, if there are that many. */
  function Take(b: seq<Byte>, n: nat): Parsed<(seq<Byte>, seq<Byte>)> {
    if n <= |b| then Parsed((b[..n], b[n..])) else Malformed
  }

  lemma {:induction false} TakeFirst(a: seq<Byte>, b: seq<Byte>)
    ensures Take(a + b, |a|) == Parsed((a, b))
  {
    assert (a + b)[..|a|] == a && (a + b)[|a|..] == b;
  }

  function DecodeFunding(b: seq<Byte>): Parsed<Info> {
    var t := Take(b, 32);
    if t.Malformed? then Malformed else
    var v := Take(t.value.1, 4);
    if v.Malformed? then Malformed else
    var x := Take(v.value.1, 8);
    if x.Malformed? then Malformed else Parsed(Funding(t.value.0, Value(v.value.0), Value(x.value.0)))
  }

  function DecodeSpending(b: seq<Byte>): Parsed<Info> {
    var t := Take(b, 32);
    if t.Malformed? then Malformed else
    var v := Take(t.value.1, 4);
    if v.Malformed? then Malformed else
    var p := DecodeFunding(v.value.1);
    if p.Malformed? then Malformed
    else Parsed(Spending(t.value.0, Value(v.value.0), OutPoint(p.value.txid, p.value.vout), p.value.value))
  }

  function DecodeInfo(b: seq<Byte>): (r: Parsed<Info>)
    ensures r.Parsed? && Take(b, 4).Parsed? ==> r.value.Funding? == (Value(Take(b, 4).value.0) == 0)
  {
    var v := Take(b, 4);
    if v.Malformed? then Malformed
    else if Value(v.value.0) == 0 then DecodeFunding(v.value.1)
    else if Value(v.value.0) == 1 then DecodeSpending(v.value.1)
    else Malformed
  }

  /** Reading a key back. Too short a key, or an unknown variant, is an error; trailing bytes are allowed. */
  function Decode(b: seq<Byte>): Parsed<Key> {
    var c := Take(b, 1);
    if c.Malformed? then Malformed else
    var h := Take(c.value.1, 32);
    if h.Malformed? then Malformed else
    var n := Take(h.value.1, 4);
    if n.Malformed? then Malformed else
    var i := DecodeInfo(n.value.1);
    if i.Malformed? then Malformed else Parsed(Key(c.value.0[0], h.value.0, Row(Value(n.value.0), i.value)))
  }

  /** The fields a funding and a spending row share the layout of. */
  lemma {:induction false} OutputRoundTrip(txid: seq<Byte>, vout: nat, value: nat)
    requires |txid| == 32 && Fits(vout, 4) && Fits(value, 8)
    ensures DecodeFunding(txid + (BigEndian(vout, 4) + BigEndian(value, 8))) == Parsed(Funding(txid, vout, value))
  {
    TakeFirst(txid, BigEndian(vout, 4) + BigEndian(value, 8));
    TakeFirst(BigEndian(vout, 4), BigEndian(value, 8));
    TakeFirst(BigEndian(value, 8), []);
    assert BigEndian(value, 8) + [] == BigEndian(value, 8);
    ValueOfBigEndian(vout, 4);
    ValueOfBigEndian(value, 8);
  }

  lemma {:induction false} SpendingRoundTrip(txid: seq<Byte>, vin: nat, prev: OutPoint, value: nat)
    requires |txid| == 32 && Fits(vin, 4) && |prev.txid| == 32 && Fits(prev.vout, 4) && Fits(value, 8)
    ensures var output := prev.txid + (BigEndian(prev.vout, 4) + BigEndian(value, 8));
            DecodeSpending(txid + (BigEndian(vin, 4) + output)) == Parsed(Spending(txid, vin, prev, value))
  {
    var output := prev.txid + (BigEndian(prev.vout, 4) + BigEndian(value, 8));
    TakeFirst(txid, BigEndian(vin, 4) + output);
    TakeFirst(BigEndian(vin, 4), output);
    ValueOfBigEndian(vin, 4);
    OutputRoundTrip(prev.txid, prev.vout, value);
  }

  lemma {:induction false} InfoRoundTrip(i: Info)
    requires SizedInfo(i)
    ensures DecodeInfo(EncodeInfo(i)) == Parsed(i)
  {
    match i
    case Funding(txid, vout, value) =>
      var rest := txid + (BigEndian(vout, 4) + BigEndian(value, 8));
      OutputRoundTrip(txid, vout, value);
      TakeFirst(BigEndian(0, 4), rest);
      ValueOfBigEndian(0, 4);
    case Spending(txid, vin, prev, value) =>
      var rest := txid + (BigEndian(vin, 4) + (prev.txid + (BigEndian(prev.vout, 4) + BigEndian(value, 8))));
      SpendingRoundTrip(txid, vin, prev, value);
      TakeFirst(BigEndian(1, 4), rest);
      ValueOfBigEndian(1, 4);
  }

  /** What is written is read back. */
  lemma {:induction false} KeyRoundTrip(k: Key)
    requires |k.hash| == 32 && Sized(k.row)
    ensures Decode(Encode(k)) == Parsed(k)
  {
    var info := EncodeInfo(k.row.info);
    var height := BigEndian(k.row.height, 4);
    assert Encode(k) == [k.code] + (k.hash + (height + info));
    TakeFirst([k.code], k.hash + (height + info));
    TakeFirst(k.hash, height + info);
    TakeFirst(height, info);
    ValueOfBigEndian(k.row.height, 4);
    InfoRoundTrip(k.row.info);
  }

  /** Scan order: by height, and at one height funding before spending. */
  predicate Before(a: Row, b: Row) {
    a.height < b.height || (a.height == b.height && (a.info.Funding? || b.info.Spending?))
  }

  lemma {:induction false} StrictOrder(code: Byte, hash: seq<Byte>, a: Row, b: Row)
    requires Sized(a) && Sized(b) && !Before(b, a)
    ensures Less(Encode(Key(code, hash, a)), Encode(Key(code, hash, b)))
  {
    var x, y := EncodeInfo(a.info), EncodeInfo(b.info);
    LessSame(Filter(code, hash), BigEndian(a.height, 4) + x, BigEndian(b.height, 4) + y);
    if a.height < b.height {
      BigEndianOrder(a.height, b.height, 4, x, y);
    } else {
      LessSame(BigEndian(a.height, 4), x, y);
      BigEndianOrder(0, 1, 4, x[4..], y[4..]);
      assert x == BigEndian(0, 4) + x[4..] && y == BigEndian(1, 4) + y[4..];
    }
  }

  /** The byte order of a script's keys is scan order. */
  lemma {:induction false} KeyOrder(code: Byte, hash: seq<Byte>, a: Row, b: Row)
    requires Sized(a) && Sized(b) && Less(Encode(Key(code, hash, a)), Encode(Key(code, hash, b)))
    ensures Before(a, b)
  {
    LessTotal(Encode(Key(code, hash, a)), Encode(Key(code, hash, b)));
    if !Before(a, b) { StrictOrder(code, hash, b, a); }
  }

  /** A height prefix separates the rows below it from the rows at and above it. */
  lemma {:induction false} HeightSplit(code: Byte, hash: seq<Byte>, r: Row, height: nat)
    requires Sized(r) && Fits(height, 4)
    ensures Less(Encode(Key(code, hash, r)), PrefixHeight(code, hash, height)) <==> r.height < height
    ensures Less(PrefixHeight(code, hash, height), Encode(Key(code, hash, r))) <==> r.height >= height
  {
    var p, info := BigEndian(height, 4), EncodeInfo(r.info);
    LessTotal(Encode(Key(code, hash, r)), PrefixHeight(code, hash, height));
    LessSame(Filter(code, hash), BigEndian(r.height, 4) + info, p);
    LessSame(Filter(code, hash), p, BigEndian(r.height, 4) + info);
    assert p + [] == p;
    if r.height < height {
      BigEndianOrder(r.height, height, 4, info, []);
    } else if r.height > height {
      BigEndianOrder(height, r.height, 4, [], info);
    } else {
      LessSame(p, [], info);
      assert info != [];
    }
  }

  // ----- Scans --------------------------------------------------------------------------------------

  /** The keys of the database, in the order its iterators visit them. */
  ghost predicate Ascending(keys: seq<seq<Byte>>) {
    forall i, j :: 0 <= i < j < |keys| ==> Less(keys[i], keys[j])
  }

  /** Seeks to the first key not below `startAt` and goes up while the prefix lasts. */
  method IterScanFrom(keys: seq<seq<Byte>>, prefix: seq<Byte>, startAt: seq<Byte>) returns (lo: nat, hi: nat)
    requires Ascending(keys) && prefix <= startAt
    ensures lo <= hi <= |keys|
    ensures forall i :: 0 <= i < |keys| ==> (lo <= i < hi <==> prefix <= keys[i] && !Less(keys[i], startAt))
  {
    lo := 0;
    while lo < |keys| && Less(keys[lo], startAt)
      invariant lo <= |keys| && forall i :: 0 <= i < lo ==> Less(keys[i], startAt)
    {
      lo := lo + 1;
    }
    hi := lo;
    while hi < |keys| && prefix <= keys[hi]
      invariant lo <= hi <= |keys| && forall i :: lo <= i < hi ==> prefix <= keys[i]
    {
      hi := hi + 1;
    }
    forall i | 0 <= i < |keys| ensures lo <= i < hi <==> prefix <= keys[i] && !Less(keys[i], startAt) {
      if i >= lo { Upward(keys, prefix, startAt, lo, hi, i); }
    }
  }

  lemma {:induction false} Upward(keys: seq<seq<Byte>>, prefix: seq<Byte>, startAt: seq<Byte>, lo: nat, hi: nat, i: nat)
    requires Ascending(keys) && prefix <= startAt && lo <= hi <= |keys| && lo <= i < |keys|
    requires !Less(keys[lo], startAt) && (hi < |keys| ==> !(prefix <= keys[hi]))
    ensures !Less(keys[i], startAt)
    ensures i >= hi ==> !(prefix <= keys[i])
  {
    NotLess(keys, startAt, lo, i);
    if hi <= i && prefix <= keys[i] {
      NotLess(keys, startAt, lo, hi);
      LessTotal(keys[hi], keys[i]);
      PrefixInterval(prefix, startAt, keys[hi], keys[i]);
      assert false;
    }
  }

  lemma {:induction false} NotLess(keys: seq<seq<Byte>>, bound: seq<Byte>, lo: nat, i: nat)
    requires Ascending(keys) && lo <= i < |keys| && !Less(keys[lo], bound)
    ensures !Less(keys[i], bound)
  {
    if lo < i && Less(keys[i], bound) { LessTransitive(keys[lo], keys[i], bound); }
  }

  /** Seeks to the last key not above `last` and goes down while the prefix lasts. */
  method IterScanReverse(keys: seq<seq<Byte>>, prefix: seq<Byte>, last: seq<Byte>) returns (lo: nat, hi: nat)
    requires Ascending(keys) && prefix <= last
    ensures lo <= hi <= |keys|
    ensures forall i :: 0 <= i < |keys| ==> (lo <= i < hi <==> prefix <= keys[i] && !Less(last, keys[i]))
  {
    hi := |keys|;
    while hi > 0 && Less(last, keys[hi - 1])
      invariant hi <= |keys| && forall i :: hi <= i < |keys| ==> Less(last, keys[i])
    {
      hi := hi - 1;
    }
    lo := hi;
    while lo > 0 && prefix <= keys[lo - 1]
      invariant lo <= hi && forall i :: lo <= i < hi ==> prefix <= keys[i]
    {
      lo := lo - 1;
    }
    forall i | 0 <= i < |keys| ensures lo <= i < hi <==> prefix <= keys[i] && !Less(last, keys[i]) {
      if i < hi { Downward(keys, prefix, last, lo, hi, i); }
    }
  }

  lemma {:induction false} Downward(keys: seq<seq<Byte>>, prefix: seq<Byte>, last: seq<Byte>, lo: nat, hi: nat, i: nat)
    requires Ascending(keys) && prefix <= last && lo <= hi <= |keys| && i < hi
    requires !Less(last, keys[hi - 1]) && (lo > 0 ==> !(prefix <= keys[lo - 1]))
    ensures !Less(last, keys[i])
    ensures i < lo ==> !(prefix <= keys[i])
  {
    NotAbove(keys, last, i, hi - 1);
    if i < lo && prefix <= keys[i] {
      NotAbove(keys, last, lo - 1, hi - 1);
      LessTotal(keys[i], keys[lo - 1]);
      PrefixInterval(prefix, keys[i], keys[lo - 1], last);
      assert false;
    }
  }

  lemma {:induction false} NotAbove(keys: seq<seq<Byte>>, bound: seq<Byte>, i: nat, hi: nat)
    requires Ascending(keys) && i <= hi < |keys| && !Less(bound, keys[hi])
    ensures !Less(bound, keys[i])
  {
    if i < hi && Less(bound, keys[i]) { LessTransitive(bound, keys[i], keys[hi]); }
  }

  // ----- A script's rows ------------------------------------------------------------------------------

  predicate OfScript(key: seq<Byte>, hash: seq<Byte>) { Filter(HISTORY, hash) <= key }

  /** The database holds exactly `rows` for this script (and anything at all for others). */
  ghost predicate Holds(keys: seq<seq<Byte>>, hash: seq<Byte>, rows: set<Row>) {
    && |hash| == 32 && Ascending(keys) && (forall r :: r in rows ==> Sized(r) && Encode(Key(HISTORY, hash, r)) in keys)
    && (forall i {:trigger OfScript(keys[i], hash)} :: 0 <= i < |keys| && OfScript(keys[i], hash) ==>
          exists r :: r in rows && keys[i] == Encode(Key(HISTORY, hash, r)))
  }

  /** `scan` lists `rows` in scan order, each once. */
  ghost predicate Lists(scan: seq<Row>, rows: set<Row>) {
    && (forall r :: r in scan <==> r in rows)
    && (forall i, j :: 0 <= i < j < |scan| ==> Before(scan[i], scan[j]) && scan[i] != scan[j])
  }

  ghost predicate InKeyOrder(hash: seq<Byte>, scan: seq<Row>) {
    forall i, j :: 0 <= i < j < |scan| ==>
      Less(Encode(Key(HISTORY, hash, scan[i])), Encode(Key(HISTORY, hash, scan[j])))
  }

  /** Key order leaves only one way to list a set of rows. */
  lemma {:induction false} OneOrder(hash: seq<Byte>, a: seq<Row>, b: seq<Row>)
    requires InKeyOrder(hash, a) && InKeyOrder(hash, b) && forall r :: r in a <==> r in b
    ensures a == b
    decreases |a|
  {
    hide Less;
    hide Encode;
    if a == [] {
      SomeOrNone(b);
    } else {
      var m := |a| - 1;
      var n := |b| - 1;
      assert a[m] in b;
      SameLast(hash, a, b);
      NotEarlier(hash, a);
      NotEarlier(hash, b);
      forall r | r in a[..m] ensures r in b[..n] { assert r in a; }
      forall r | r in b[..n] ensures r in a[..m] { assert r in b; }
      OneOrder(hash, a[..m], b[..n]);
      assert a == a[..m] + [a[m]] && b == b[..n] + [b[n]];
    }
  }

  lemma {:induction false} SomeOrNone(s: seq<Row>)
    ensures s == [] || exists r :: r in s
  {
    if s != [] { assert s[0] in s; }
  }

  lemma {:induction false} NotEarlier(hash: seq<Byte>, a: seq<Row>)
    requires InKeyOrder(hash, a) && a != []
    ensures forall r :: r in a <==> r in a[..|a| - 1] || r == a[|a| - 1]
    ensures a[|a| - 1] !in a[..|a| - 1]
  {
    hide Less;
    hide Encode;
    var m := |a| - 1;
    forall i | 0 <= i < m ensures a[i] != a[m] {
      LessTotal(Encode(Key(HISTORY, hash, a[i])), Encode(Key(HISTORY, hash, a[m])));
    }
    assert a == a[..m] + [a[m]];
  }

  lemma {:induction false} SameLast(hash: seq<Byte>, a: seq<Row>, b: seq<Row>)
    requires InKeyOrder(hash, a) && InKeyOrder(hash, b) && (forall r :: r in a <==> r in b) && a != [] && b != []
    ensures a[|a| - 1] == b[|b| - 1]
  {
    hide Less;
    hide Encode;
    var x, y := a[|a| - 1], b[|b| - 1];
    assert x in b && y in a;
    var i :| 0 <= i < |a| && a[i] == y;
    var j :| 0 <= j < |b| && b[j] == x;
    LessTotal(Encode(Key(HISTORY, hash, x)), Encode(Key(HISTORY, hash, y)));
  }

  /** `scan` is what the script's keys from `lo` on decode to. */
  ghost predicate Decoded(keys: seq<seq<Byte>>, hash: seq<Byte>, rows: set<Row>, lo: nat, scan: seq<Row>) {
    && lo + |scan| <= |keys|
    && forall i :: 0 <= i < |scan| ==> scan[i] in rows && Encode(Key(HISTORY, hash, scan[i])) == keys[lo + i]
  }

  lemma {:induction false} DecodeOne(keys: seq<seq<Byte>>, hash: seq<Byte>, rows: set<Row>, i: nat) returns (r: Row)
    requires Holds(keys, hash, rows) && i < |keys| && OfScript(keys[i], hash)
    ensures r in rows && keys[i] == Encode(Key(HISTORY, hash, r)) && Decode(keys[i]) == Parsed(Key(HISTORY, hash, r))
  {
    r :| r in rows && keys[i] == Encode(Key(HISTORY, hash, r));
    KeyRoundTrip(Key(HISTORY, hash, r));
  }

  lemma {:induction false} DecodedPush(keys: seq<seq<Byte>>, hash: seq<Byte>, rows: set<Row>, lo: nat, scan: seq<Row>,
                                       r: Row)
    requires Decoded(keys, hash, rows, lo, scan) && lo + |scan| < |keys|
    requires r in rows && keys[lo + |scan|] == Encode(Key(HISTORY, hash, r))
    ensures Decoded(keys, hash, rows, lo, scan + [r])
  {
    hide Encode;
    var more := scan + [r];
    forall i | 0 <= i < |more| ensures more[i] in rows && Encode(Key(HISTORY, hash, more[i])) == keys[lo + i] {
      assert more[i] == if i < |scan| then scan[i] else r;
    }
  }

  /** `from_row`, on a key of the script. */
  method FromRow(keys: seq<seq<Byte>>, hash: seq<Byte>, ghost rows: set<Row>, i: nat) returns (r: Row)
    requires Holds(keys, hash, rows) && i < |keys| && OfScript(keys[i], hash)
    ensures r in rows && keys[i] == Encode(Key(HISTORY, hash, r))
  {
    ghost var row := DecodeOne(keys, hash, rows, i);
    r := Decode(keys[i]).value.row;
  }

  /** Decoding a run of the script's keys gives its rows, one for one. */
  method DecodeRun(keys: seq<seq<Byte>>, hash: seq<Byte>, ghost rows: set<Row>, lo: nat, hi: nat)
    returns (scan: seq<Row>)
    requires Holds(keys, hash, rows) && lo <= hi <= |keys|
    requires forall i :: lo <= i < hi ==> OfScript(keys[i], hash)
    ensures |scan| == hi - lo && Decoded(keys, hash, rows, lo, scan)
  {
    hide Encode;
    hide Less;
    scan := [];
    for i := lo to hi
      invariant |scan| == i - lo && Decoded(keys, hash, rows, lo, scan)
    {
      var r := FromRow(keys, hash, rows, i);
      DecodedPush(keys, hash, rows, lo, scan, r);
      scan := scan + [r];
    }
  }

  lemma {:induction false} RunLists(keys: seq<seq<Byte>>, hash: seq<Byte>, rows: set<Row>, lo: nat, scan: seq<Row>,
                                    wanted: set<Row>)
    requires Holds(keys, hash, rows) && Decoded(keys, hash, wanted, lo, scan) && wanted <= rows
    requires forall r, i :: r in wanted && 0 <= i < |keys| && keys[i] == Encode(Key(HISTORY, hash, r)) ==>
               lo <= i < lo + |scan|
    ensures Lists(scan, wanted) && InKeyOrder(hash, scan)
  {
    forall i, j | 0 <= i < j < |scan|
      ensures Less(Encode(Key(HISTORY, hash, scan[i])), Encode(Key(HISTORY, hash, scan[j])))
    {
      assert Less(keys[lo + i], keys[lo + j]);
    }
    forall i, j | 0 <= i < j < |scan| ensures Before(scan[i], scan[j]) && scan[i] != scan[j] {
      assert Less(keys[lo + i], keys[lo + j]);
      LessTotal(keys[lo + i], keys[lo + j]);
      KeyOrder(HISTORY, hash, scan[i], scan[j]);
    }
    forall r | r in wanted ensures r in scan {
      var i :| 0 <= i < |keys| && keys[i] == Encode(Key(HISTORY, hash, r));
      SameRow(hash, scan[i - lo], r);
    }
  }

  lemma {:induction false} SameRow(hash: seq<Byte>, a: Row, b: Row)
    requires |hash| == 32 && Sized(a) && Sized(b) && Encode(Key(HISTORY, hash, a)) == Encode(Key(HISTORY, hash, b))
    ensures a == b
  {
    KeyRoundTrip(Key(HISTORY, hash, a));
    KeyRoundTrip(Key(HISTORY, hash, b));
  }

  function RowsFrom(rows: set<Row>, start: nat): set<Row> { set r | r in rows && r.height >= start }

  function RowsBelow(rows: set<Row>, end: nat): set<Row> { set r | r in rows && r.height < end }

  lemma {:induction false} UpwardRows(keys: seq<seq<Byte>>, hash: seq<Byte>, rows: set<Row>, start: nat, lo: nat,
                                      scan: seq<Row>)
    requires Holds(keys, hash, rows) && Fits(start, 4) && Decoded(keys, hash, rows, lo, scan)
    requires forall i :: 0 <= i < |keys| ==>
               (lo <= i < lo + |scan| <==>
                  OfScript(keys[i], hash) && !Less(keys[i], PrefixHeight(HISTORY, hash, start)))
    ensures Lists(scan, RowsFrom(rows, start)) && InKeyOrder(hash, scan)
  {
    forall r | r in rows
      ensures Less(Encode(Key(HISTORY, hash, r)), PrefixHeight(HISTORY, hash, start)) <==> r.height < start
    {
      HeightSplit(HISTORY, hash, r, start);
    }
    RunLists(keys, hash, rows, lo, scan, RowsFrom(rows, start));
  }

  lemma {:induction false} DownwardRows(keys: seq<seq<Byte>>, hash: seq<Byte>, rows: set<Row>, end: nat, lo: nat,
                                        scan: seq<Row>)
    requires Holds(keys, hash, rows) && Fits(end, 4) && Decoded(keys, hash, rows, lo, scan)
    requires forall i :: 0 <= i < |keys| ==>
               (lo <= i < lo + |scan| <==> OfScript(keys[i], hash) && !Less(PrefixHeight(HISTORY, hash, end), keys[i]))
    ensures Lists(scan, RowsBelow(rows, end)) && InKeyOrder(hash, scan)
  {
    forall r | r in rows
      ensures Less(PrefixHeight(HISTORY, hash, end), Encode(Key(HISTORY, hash, r))) <==> r.height >= end
    {
      HeightSplit(HISTORY, hash, r, end);
    }
    RunLists(keys, hash, rows, lo, scan, RowsBelow(rows, end));
  }

  /** `history_iter_scan`: exactly the script's rows from a height up, in scan order. */
  method HistoryIterScan(keys: seq<seq<Byte>>, hash: seq<Byte>, start: nat, ghost rows: set<Row>)
    returns (scan: seq<Row>)
    requires Holds(keys, hash, rows) && start < 0x1_0000_0000
    ensures Lists(scan, RowsFrom(rows, start)) && InKeyOrder(hash, scan)
  {
    FourBytes(start);
    var lo, hi := IterScanFrom(keys, Filter(HISTORY, hash), PrefixHeight(HISTORY, hash, start));
    scan := DecodeRun(keys, hash, rows, lo, hi);
    UpwardRows(keys, hash, rows, start, lo, scan);
  }

  /** The reverse scans list a script's rows below a height, newest first. */
  method HistoryIterScanReverse(keys: seq<seq<Byte>>, hash: seq<Byte>, end: nat, ghost rows: set<Row>)
    returns (scan: seq<Row>)
    requires Holds(keys, hash, rows) && end < 0x1_0000_0000
    ensures Lists(Reversed(scan), RowsBelow(rows, end)) && InKeyOrder(hash, Reversed(scan))
  {
    FourBytes(end);
    var lo, hi := IterScanReverse(keys, Filter(HISTORY, hash), PrefixHeight(HISTORY, hash, end));
    var up := DecodeRun(keys, hash, rows, lo, hi);
    DownwardRows(keys, hash, rows, end, lo, up);
    ReversedTwice(up);
    scan := Reversed(up);
  }

  function Reversed<T>(s: seq<T>): (r: seq<T>)
    ensures |r| == |s| && forall i :: 0 <= i < |s| ==> r[i] == s[|s| - 1 - i]
  {
    if s == [] then [] else Reversed(s[1..]) + [s[0]]
  }

  lemma {:induction false} ReversedTwice<T>(s: seq<T>)
    ensures Reversed(Reversed(s)) == s
  {
    var r := Reversed(s);
    forall i | 0 <= i < |s| ensures Reversed(r)[i] == s[i] {
      assert Reversed(r)[i] == r[|s| - 1 - i];
    }
  }
}

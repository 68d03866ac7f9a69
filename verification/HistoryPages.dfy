/**
 A script's confirmed history, newest first, in pages continued from the last transaction seen.
 */
module HistoryPages {
  import opened HistoryKeys
  import opened Sorting
  import opened Wrappers

  datatype Item = Item(txid: Txid, height: nat)

  function ItemOf(r: Row): Item { Item(r.info.txid, r.height) }

  /** The first `k` rows' transactions, each once, in order of appearance (`unique`). */
  function Distinct(rows: seq<Row>, k: nat): seq<Item>
    requires k <= |rows|
  {
    if k == 0 then [] else
    var d := Distinct(rows, k - 1);
    if ItemOf(rows[k - 1]) in d then d else d + [ItemOf(rows[k - 1])]
  }

  /** One of the first `k` rows is of this transaction at this height. */
  ghost predicate Met(rows: seq<Row>, k: nat, x: Item) {
    exists j :: 0 <= j < k && j < |rows| && ItemOf(rows[j]) == x
  }

  lemma {:induction false} DistinctNext(rows: seq<Row>, k: nat, n: nat)
    requires n == k + 1 <= |rows|
    ensures var d, x := Distinct(rows, k), ItemOf(rows[k]);
            Distinct(rows, n) == if x in d then d else d + [x]
  {
  }

  lemma {:induction false} MetNext(rows: seq<Row>, k: nat, n: nat, x: Item)
    requires n == k + 1 <= |rows|
    ensures Met(rows, n, x) <==> Met(rows, k, x) || x == ItemOf(rows[k])
  {
    if j :| 0 <= j < k && ItemOf(rows[j]) == x { assert j < n; }
  }

  /** The distinct items are those met. */
  lemma {:induction false} DistinctIsMet(rows: seq<Row>, k: nat, x: Item)
    requires k <= |rows|
    ensures x in Distinct(rows, k) <==> Met(rows, k, x)
  {
    if k > 0 {
      DistinctIsMet(rows, k - 1, x);
      MetNext(rows, k - 1, k, x);
      DistinctNext(rows, k - 1, k);
      hide Distinct;
      hide Met;
    }
  }

  lemma {:induction false} DistinctOnce(rows: seq<Row>, k: nat)
    requires k <= |rows|
    ensures NoDuplicates(Distinct(rows, k))
  {
    if k > 0 {
      DistinctOnce(rows, k - 1);
      DistinctNext(rows, k - 1, k);
      hide Distinct;
    }
  }

  /** Items at heights in the header list. */
  function Shown(d: seq<Item>, tip: nat): (r: seq<Item>)
    ensures |r| <= |d| && forall i :: i in r <==> i in d && i.height < tip
  {
    if d == [] then [] else
    var r := Shown(d[..|d| - 1], tip);
    if d[|d| - 1].height < tip then r + [d[|d| - 1]] else r
  }

  /** What follows the cursor; nothing, if it is not there. */
  function After(d: seq<Item>, cursor: Option<Txid>): seq<Item> {
    if cursor.None? then d else if d == [] then []
    else if d[0].txid == cursor.value then d[1..] else After(d[1..], cursor)
  }

  predicate Has(d: seq<Item>, txid: Txid) { exists i :: 0 <= i < |d| && d[i].txid == txid }

  lemma {:induction false} ShownPush(d: seq<Item>, x: Item, tip: nat)
    ensures Shown(d + [x], tip) == Shown(d, tip) + if x.height < tip then [x] else []
  {
    assert (d + [x])[..|d|] == d;
  }

  lemma {:induction false} ShownConcat(a: seq<Item>, b: seq<Item>, tip: nat)
    ensures Shown(a + b, tip) == Shown(a, tip) + Shown(b, tip)
  {
    if b == [] {
      assert a + b == a;
    } else {
      var n := |b| - 1;
      assert (a + b)[..|a + b| - 1] == a + b[..n] && (a + b)[|a + b| - 1] == b[n];
      ShownConcat(a, b[..n], tip);
    }
  }

  lemma {:induction false} ShownAll(d: seq<Item>, tip: nat)
    requires forall i :: 0 <= i < |d| ==> d[i].height < tip
    ensures Shown(d, tip) == d
  {
    if d != [] {
      var n := |d| - 1;
      ShownAll(d[..n], tip);
      assert d == d[..n] + [d[n]];
    }
  }

  lemma {:induction false} AfterPush(d: seq<Item>, x: Item, cursor: Option<Txid>)
    ensures After(d + [x], cursor) == if cursor.None? || Has(d, cursor.value) then After(d, cursor) + [x] else []
    ensures cursor.Some? ==> (Has(d + [x], cursor.value) <==> Has(d, cursor.value) || x.txid == cursor.value)
  {
    if cursor.Some? {
      assert (d + [x])[|d|] == x;
      assert forall i :: 0 <= i < |d| ==> (d + [x])[i] == d[i];
      if d != [] {
        assert (d + [x])[1..] == d[1..] + [x];
        AfterPush(d[1..], x, cursor);
        HasTail(d, cursor.value);
      } else {
        assert (d + [x])[1..] == [];
      }
    }
  }

  lemma {:induction false} HasTail(d: seq<Item>, c: Txid)
    requires d != []
    ensures Has(d, c) <==> d[0].txid == c || Has(d[1..], c)
  {
    if Has(d, c) {
      var i :| 0 <= i < |d| && d[i].txid == c;
      assert i > 0 ==> d[1..][i - 1] == d[i];
    }
    if Has(d[1..], c) {
      var i :| 0 <= i < |d[1..]| && d[1..][i].txid == c;
      assert d[i + 1].txid == c;
    }
  }

  lemma {:induction false} AfterMissing(d: seq<Item>, c: Txid)
    requires !Has(d, c)
    ensures After(d, Some(c)) == []
  {
    if d != [] {
      HasTail(d, c);
      AfterMissing(d[1..], c);
    }
  }

  lemma {:induction false} AfterAt(d: seq<Item>, c: Txid, k: nat)
    requires k < |d| && d[k].txid == c && forall i :: 0 <= i < k ==> d[i].txid != c
    ensures After(d, Some(c)) == d[k + 1..]
  {
    if k > 0 {
      assert d[1..][k - 1] == d[k];
      AfterAt(d[1..], c, k - 1);
      assert d[1..][k..] == d[k + 1..];
    }
  }

  // ----- One page -------------------------------------------------------------------------------------

  /** What a page shows once the first `k` rows are read. */
  function PageOf(rows: seq<Row>, k: nat, cursor: Option<Txid>, tip: nat): seq<Item>
    requires k <= |rows|
  {
    Shown(After(Distinct(rows, k), cursor), tip)
  }

  /** One more row shows at most one more item. */
  lemma {:induction false} PageNext(rows: seq<Row>, k: nat, cursor: Option<Txid>, tip: nat)
    requires k < |rows|
    ensures var d, x := Distinct(rows, k), ItemOf(rows[k]);
            PageOf(rows, k + 1, cursor, tip) == PageOf(rows, k, cursor, tip)
              + if x !in d && (cursor.None? || Has(d, cursor.value)) && x.height < tip then [x] else []
    ensures var d, x := Distinct(rows, k), ItemOf(rows[k]);
            cursor.Some? ==>
              (Has(Distinct(rows, k + 1), cursor.value) <==> Has(d, cursor.value) || x.txid == cursor.value)
  {
    var d, x := Distinct(rows, k), ItemOf(rows[k]);
    DistinctNext(rows, k, k + 1);
    hide Distinct;
    if x !in d {
      AfterPush(d, x, cursor);
      ShownPush(After(d, cursor), x, tip);
      if cursor.Some? && !Has(d, cursor.value) { AfterMissing(d, cursor.value); }
    } else if cursor.Some? && x.txid == cursor.value {
      var i :| 0 <= i < |d| && d[i] == x;
    }
  }

  lemma {:induction false} PageRises(rows: seq<Row>, k: nat, n: nat, cursor: Option<Txid>, tip: nat)
    requires n == k + 1 <= |rows|
    ensures PageOf(rows, k, cursor, tip) <= PageOf(rows, n, cursor, tip)
  {
    PageNext(rows, k, cursor, tip);
  }

  /** Reading on only adds to a page. */
  lemma {:induction false} PageGrows(rows: seq<Row>, k: nat, n: nat, cursor: Option<Txid>, tip: nat)
    requires k <= n <= |rows|
    ensures PageOf(rows, k, cursor, tip) <= PageOf(rows, n, cursor, tip)
  {
    hide *;
    if k < n {
      PageGrows(rows, k, n - 1, cursor, tip);
      PageRises(rows, n - 1, n, cursor, tip);
      Longer(PageOf(rows, k, cursor, tip), PageOf(rows, n - 1, cursor, tip), PageOf(rows, n, cursor, tip));
    }
  }

  lemma {:induction false} Longer(a: seq<Item>, b: seq<Item>, c: seq<Item>)
    requires a <= b <= c
    ensures a <= c
  {
  }

  function Take(s: seq<Item>, n: nat): seq<Item> { if |s| <= n then s else s[..n] }

  datatype Result = Page(items: seq<Item>) | TooBigHistory

  /** Rows newest first, and the cursor's rows all at the height it is sought from. */
  ghost predicate Seekable(rows: seq<Row>, cursor: Option<Txid>, seek: nat) {
    && (forall i, j :: 0 <= i < j < |rows| ==> rows[i].height >= rows[j].height)
    && (cursor.Some? ==> forall j :: 0 <= j < |rows| && rows[j].info.txid == cursor.value ==> rows[j].height == seek)
  }

  /** Once the scan is below the cursor's height without having met it, it will not meet it. */
  lemma {:induction false} Passed(rows: seq<Row>, k: nat, c: Txid, seek: nat)
    requires Seekable(rows, Some(c), seek) && k < |rows| && rows[k].height < seek && !Has(Distinct(rows, k), c)
    ensures !Has(Distinct(rows, |rows|), c)
  {
    hide Distinct;
    var d := Distinct(rows, |rows|);
    forall i | 0 <= i < |d| ensures d[i].txid != c {
      assert d[i] in d;
      DistinctIsMet(rows, |rows|, d[i]);
      var j :| 0 <= j < |rows| && ItemOf(rows[j]) == d[i];
      if j < k {
        assert Met(rows, k, d[i]);
        DistinctIsMet(rows, k, d[i]);
        var p :| 0 <= p < |Distinct(rows, k)| && Distinct(rows, k)[p] == d[i];
      }
    }
  }

  /** The loop's variables once `k` rows are read. */
  ghost predicate Reading(rows: seq<Row>, k: nat, cursor: Option<Txid>, tip: nat, seen: set<Item>, cursorSeen: bool,
                          out: seq<Item>) {
    && k <= |rows| && (forall i :: i in seen <==> i in Distinct(rows, k))
    && cursorSeen == (cursor.None? || Has(Distinct(rows, k), cursor.value))
    && out == PageOf(rows, k, cursor, tip)
  }

  lemma {:induction false} ReadOne(rows: seq<Row>, k: nat, cursor: Option<Txid>, tip: nat, seen: set<Item>,
                                   cursorSeen: bool, out: seq<Item>)
    requires k < |rows|
    ensures var x := ItemOf(rows[k]);
            var shows := x !in seen && cursorSeen && x.height < tip;
            Reading(rows, k, cursor, tip, seen, cursorSeen, out) ==>
              Reading(rows, k + 1, cursor, tip, seen + {x}, cursorSeen || cursor == Some(x.txid),
                      if shows then out + [x] else out)
  {
    hide Distinct;
    hide After;
    hide Shown;
    hide PageOf;
    hide Has;
    PageNext(rows, k, cursor, tip);
    DistinctNext(rows, k, k + 1);
  }

  lemma {:induction false} ReadSeen(rows: seq<Row>, k: nat, cursor: Option<Txid>, tip: nat, seen: set<Item>,
                                    cursorSeen: bool, out: seq<Item>)
    requires k < |rows| && ItemOf(rows[k]) in seen
    ensures Reading(rows, k, cursor, tip, seen, cursorSeen, out) ==>
              cursorSeen == (cursorSeen || cursor == Some(ItemOf(rows[k]).txid))
  {
    var x := ItemOf(rows[k]);
    hide Distinct;
    if Reading(rows, k, cursor, tip, seen, cursorSeen, out) {
      var i :| 0 <= i < |Distinct(rows, k)| && Distinct(rows, k)[i] == x;
    }
  }

  lemma {:induction false} ReadStart(rows: seq<Row>, cursor: Option<Txid>, seek: nat, tip: nat)
    ensures Reading(rows, 0, cursor, tip, {}, cursor.None?, []) && !PassedBy(rows, 0, cursor, seek)
  {
  }

  /** Below the cursor's height without having met it, the page is empty for good. */
  lemma {:induction false} ReadPassed(rows: seq<Row>, k: nat, cursor: Option<Txid>, seek: nat, tip: nat,
                                      seen: set<Item>, out: seq<Item>, scanLimit: nat)
    requires Seekable(rows, cursor, seek) && k < |rows| && k < scanLimit && rows[k].height < seek && cursor.Some?
    requires Reading(rows, k, cursor, tip, seen, false, out)
    ensures out == PageOf(rows, |rows|, cursor, tip) == []
    ensures |rows| > scanLimit ==> PassedBy(rows, scanLimit, cursor, seek)
  {
    Passed(rows, k, cursor.value, seek);
    AfterMissing(Distinct(rows, |rows|), cursor.value);
    AfterMissing(Distinct(rows, k), cursor.value);
    if |rows| > scanLimit { ReallyPassed(rows, k, scanLimit, cursor.value, seek); }
  }

  lemma {:induction false} ReadEnough(rows: seq<Row>, k: nat, cursor: Option<Txid>, tip: nat, seen: set<Item>,
                                      cursorSeen: bool, out: seq<Item>, limit: nat, scanLimit: nat)
    requires k <= |rows| && k <= scanLimit && |out| <= limit && (k == |rows| || |out| == limit)
    requires Reading(rows, k, cursor, tip, seen, cursorSeen, out)
    ensures out == Take(PageOf(rows, |rows|, cursor, tip), limit)
    ensures |rows| > scanLimit ==> |PageOf(rows, scanLimit, cursor, tip)| >= limit
  {
    hide PageOf;
    PageGrows(rows, k, |rows|, cursor, tip);
    if |rows| > scanLimit { PageGrows(rows, k, scanLimit, cursor, tip); }
  }

  /** The first `n` rows go below the cursor's height, and the cursor is not among them: it never comes. */
  ghost predicate PassedBy(rows: seq<Row>, n: nat, cursor: Option<Txid>, seek: nat) {
    && cursor.Some? && n <= |rows| && (exists k :: 0 <= k < n && rows[k].height < seek)
    && forall j :: 0 <= j < n ==> rows[j].info.txid != cursor.value
  }

  lemma {:induction false} NotPassed(rows: seq<Row>, k: nat, cursor: Option<Txid>, seek: nat, tip: nat, seen: set<Item>,
                                     cursorSeen: bool, out: seq<Item>)
    requires Reading(rows, k, cursor, tip, seen, cursorSeen, out) && k < |rows| && !PassedBy(rows, k, cursor, seek)
    requires var x := ItemOf(rows[k]); x in seen || cursorSeen || cursor == Some(x.txid) || x.height >= seek
    ensures !PassedBy(rows, k + 1, cursor, seek)
  {
    hide Distinct;
    hide PageOf;
    var d, x := Distinct(rows, k), ItemOf(rows[k]);
    DistinctIsMet(rows, k, x);
    if cursor.Some? && cursorSeen {
      var i :| 0 <= i < |d| && d[i].txid == cursor.value;
      assert d[i] in d;
      DistinctIsMet(rows, k, d[i]);
    }
  }

  lemma {:induction false} ReallyPassed(rows: seq<Row>, k: nat, n: nat, c: Txid, seek: nat)
    requires Seekable(rows, Some(c), seek) && k < n <= |rows| && rows[k].height < seek && !Has(Distinct(rows, k), c)
    ensures PassedBy(rows, n, Some(c), seek)
  {
    hide Distinct;
    Passed(rows, k, c, seek);
    forall j | 0 <= j < n ensures rows[j].info.txid != c {
      DistinctIsMet(rows, |rows|, ItemOf(rows[j]));
      assert ItemOf(rows[j]) in Distinct(rows, |rows|);
    }
  }

  /** The rows to read exceed the scan limit before the page is full. */
  ghost predicate OverLimit(rows: seq<Row>, cursor: Option<Txid>, seek: nat, tip: nat, limit: nat, scanLimit: nat) {
    |rows| > scanLimit && |PageOf(rows, scanLimit, cursor, tip)| < limit && !PassedBy(rows, scanLimit, cursor, seek)
  }

  /**
   `_history`'s pipeline, row by row. A page is the next items after the cursor, up to the limit; it
   is refused exactly if more rows than the scan limit would have to be read to fill it.
   */
  method Walk(rows: seq<Row>, cursor: Option<Txid>, seek: nat, tip: nat, limit: nat, scanLimit: nat) returns (r: Result)
    requires Seekable(rows, cursor, seek)
    ensures r.Page? ==> r.items == Take(PageOf(rows, |rows|, cursor, tip), limit)
    ensures r.TooBigHistory? <==> OverLimit(rows, cursor, seek, tip, limit, scanLimit)
  {
    hide Distinct;
    hide After;
    hide Shown;
    hide Seekable;
    hide PassedBy;
    var seen: set<Item> := {};
    var cursorSeen := cursor.None?;
    var out: seq<Item> := [];
    var k := 0;
    ReadStart(rows, cursor, seek, tip);
    while k < |rows| && |out| < limit
      invariant 0 <= k <= |rows| && k <= scanLimit && |out| <= limit && (cursor.None? ==> cursorSeen)
      invariant Reading(rows, k, cursor, tip, seen, cursorSeen, out) && !PassedBy(rows, k, cursor, seek)
    {
      if k >= scanLimit { return TooBigHistory; }
      var x := ItemOf(rows[k]);
      ReadOne(rows, k, cursor, tip, seen, cursorSeen, out);
      if x !in seen && !cursorSeen && x.txid != cursor.value && x.height < seek {
        ReadPassed(rows, k, cursor, seek, tip, seen, out, scanLimit);
        return Page(out);
      }
      NotPassed(rows, k, cursor, seek, tip, seen, cursorSeen, out);
      if x !in seen {
        if cursorSeen {
          if x.height < tip { out := out + [x]; }
        } else if x.txid == cursor.value {
          cursorSeen := true;
        }
      } else {
        ReadSeen(rows, k, cursor, tip, seen, cursorSeen, out);
      }
      seen := seen + {x};
      k := k + 1;
    }
    ReadEnough(rows, k, cursor, tip, seen, cursorSeen, out, limit, scanLimit);
    r := Page(out);
  }

  // ----- The whole history ------------------------------------------------------------------------------

  const MAX_HEIGHT := 0xFFFF_FFFF

  /** `rows` newest first, as a reverse scan from below `end` gives them. */
  ghost predicate Scans(script: seq<Byte>, rows: set<Row>, end: nat, down: seq<Row>) {
    Lists(Reversed(down), RowsBelow(rows, end)) && InKeyOrder(script, Reversed(down))
  }

  /** Every row of a listed block is of a transaction confirmed at its height. */
  ghost predicate Confirmed(rows: set<Row>, conf: map<Txid, nat>, tip: nat) {
    forall r :: r in rows && r.height < tip ==> r.info.txid in conf && conf[r.info.txid] == r.height
  }

  /** The full history: every transaction of the script in the list, once, newest first. */
  function Full(down: seq<Row>, tip: nat): seq<Item> { PageOf(down, |down|, None, tip) }

  ghost predicate Falling(d: seq<Item>) {
    forall i, j :: 0 <= i < j < |d| ==> d[i].height >= d[j].height && d[i] != d[j]
  }

  lemma {:induction false} DistinctFalls(rows: seq<Row>, k: nat)
    requires k <= |rows| && forall i, j :: 0 <= i < j < |rows| ==> rows[i].height >= rows[j].height
    ensures Falling(Distinct(rows, k))
  {
    if k > 0 {
      DistinctFalls(rows, k - 1);
      DistinctNext(rows, k - 1, k);
      hide Distinct;
      var d := Distinct(rows, k - 1);
      forall i | 0 <= i < |d| ensures d[i].height >= rows[k - 1].height {
        assert d[i] in d;
        DistinctIsMet(rows, k - 1, d[i]);
        var j :| 0 <= j < k - 1 && ItemOf(rows[j]) == d[i];
      }
    }
  }

  lemma {:induction false} ShownFalls(d: seq<Item>, tip: nat)
    requires Falling(d)
    ensures Falling(Shown(d, tip))
  {
    if d != [] {
      var n := |d| - 1;
      assert Falling(d[..n]);
      ShownFalls(d[..n], tip);
      FallsTo(d[..n], d[n], tip);
      assert d == d[..n] + [d[n]];
      hide *;
      ShownPush(d[..n], d[n], tip);
      FallingPush(Shown(d[..n], tip), d[n]);
    }
  }

  ghost predicate AllAbove(r: seq<Item>, x: Item) {
    forall i :: 0 <= i < |r| ==> r[i].height >= x.height && r[i] != x
  }

  lemma {:induction false} FallsTo(d: seq<Item>, x: Item, tip: nat)
    requires AllAbove(d, x)
    ensures AllAbove(Shown(d, tip), x)
  {
    var r := Shown(d, tip);
    forall i | 0 <= i < |r| ensures r[i].height >= x.height && r[i] != x {
      assert r[i] in r && r[i] in d;
    }
  }

  lemma {:induction false} FallingPush(r: seq<Item>, x: Item)
    ensures Falling(r) ==> Falling(r + [])
    ensures Falling(r) && AllAbove(r, x) ==> Falling(r + [x])
  {
    assert r + [] == r;
  }

  /** The full history lists exactly the script's transactions in the list, each once, newest first. */
  lemma {:induction false} FullIs(script: seq<Byte>, rows: set<Row>, all: seq<Row>, tip: nat)
    requires Scans(script, rows, MAX_HEIGHT, all) && tip < MAX_HEIGHT
    ensures Falling(Full(all, tip))
    ensures forall x :: x in Full(all, tip) <==> exists r :: r in rows && r.height < tip && ItemOf(r) == x
  {
    Newest(script, rows, MAX_HEIGHT, all);
    DistinctFalls(all, |all|);
    ShownFalls(Distinct(all, |all|), tip);
    hide Distinct;
    forall r | r in rows && r.height < tip ensures ItemOf(r) in Full(all, tip) {
      assert r in Reversed(all);
      var i :| 0 <= i < |all| && Reversed(all)[i] == r;
      assert all[|all| - 1 - i] == r;
      assert Met(all, |all|, ItemOf(r));
      DistinctIsMet(all, |all|, ItemOf(r));
    }
    forall x | x in Full(all, tip) ensures exists r :: r in rows && r.height < tip && ItemOf(r) == x {
      DistinctIsMet(all, |all|, x);
      var j :| 0 <= j < |all| && ItemOf(all[j]) == x;
    }
  }

  lemma {:induction false} Newest(script: seq<Byte>, rows: set<Row>, end: nat, down: seq<Row>)
    requires Scans(script, rows, end, down)
    ensures forall i, j :: 0 <= i < j < |down| ==> down[i].height >= down[j].height
    ensures forall i :: 0 <= i < |down| ==> down[i] in rows && down[i].height < end
  {
    var up := Reversed(down);
    forall i | 0 <= i < |down| ensures down[i] in rows && down[i].height < end {
      assert up[|down| - 1 - i] == down[i];
      assert up[|down| - 1 - i] in up;
    }
    forall i, j | 0 <= i < j < |down| ensures down[i].height >= down[j].height {
      assert up[|down| - 1 - i] == down[i] && up[|down| - 1 - j] == down[j];
      assert Before(up[|down| - 1 - j], up[|down| - 1 - i]);
    }
  }

  /** A scan from a lower height is the rest of a scan from a higher one. */
  lemma {:induction false} LowerScan(script: seq<Byte>, rows: set<Row>, high: nat, all: seq<Row>, low: nat,
                                     raw: seq<Row>)
    requires Scans(script, rows, high, all) && Scans(script, rows, low, raw) && low <= high
    ensures |raw| <= |all| && raw == all[|all| - |raw|..]
    ensures forall i :: 0 <= i < |all| - |raw| ==> all[i].height >= low
  {
    hide Less;
    hide Encode;
    var up, part := Reversed(all), Reversed(raw);
    var n := LowerPart(up, RowsBelow(rows, high), low);
    forall r ensures r in up[..n] <==> r in part { SameRows(up, rows, high, n, low, part, r); }
    OneOrder(script, up[..n], part);
    forall i | 0 <= i < n ensures raw[i] == all[|all| - n + i] {
      assert part[n - 1 - i] == raw[i] && up[n - 1 - i] == all[|all| - n + i];
    }
    forall i | 0 <= i < |all| - n ensures all[i].height >= low { assert up[|all| - 1 - i] == all[i]; }
  }

  /** In scan order the rows below a height come first. */
  lemma {:induction false} LowerPart(up: seq<Row>, rows: set<Row>, low: nat) returns (n: nat)
    requires Lists(up, rows)
    ensures n <= |up| && (forall i :: 0 <= i < n ==> up[i].height < low)
    ensures forall i :: n <= i < |up| ==> up[i].height >= low
  {
    n := 0;
    while n < |up| && up[n].height < low
      invariant 0 <= n <= |up| && forall i :: 0 <= i < n ==> up[i].height < low
    {
      n := n + 1;
    }
    forall i | n <= i < |up| ensures up[i].height >= low { assert i > n ==> Before(up[n], up[i]); }
  }

  lemma {:induction false} SameRows(up: seq<Row>, rows: set<Row>, high: nat, n: nat, low: nat, part: seq<Row>, r: Row)
    requires Lists(up, RowsBelow(rows, high)) && Lists(part, RowsBelow(rows, low)) && low <= high && n <= |up|
    requires (forall i :: 0 <= i < n ==> up[i].height < low) && (forall i :: n <= i < |up| ==> up[i].height >= low)
    ensures r in up[..n] <==> r in part
  {
    if r in up[..n] { assert r in up; }
    if r in part {
      assert r in RowsBelow(rows, high);
      var i :| 0 <= i < |up| && up[i] == r;
      assert up[..n][i] == r;
    }
  }

  /** Distinct items of two runs of rows at different heights are those of one, then those of the other. */
  lemma {:induction false} DistinctSplit(rows: seq<Row>, m: nat, k: nat)
    requires m <= k <= |rows| && forall i, j :: 0 <= i < m <= j < |rows| ==> rows[i].height != rows[j].height
    ensures Distinct(rows, k) == Distinct(rows, m) + Distinct(rows[m..], k - m)
    decreases k
  {
    if m < k {
      DistinctSplit(rows, m, k - 1);
      SplitNext(rows, rows[m..], m, k - 1, k);
      hide Distinct;
    } else {
      NothingSplit(rows, m);
      hide Distinct;
    }
  }

  lemma {:induction false} NothingSplit(rows: seq<Row>, m: nat)
    requires m <= |rows|
    ensures Distinct(rows, m) == Distinct(rows, m) + Distinct(rows[m..], 0)
  {
  }

  lemma {:induction false} SplitNext(rows: seq<Row>, part: seq<Row>, m: nat, j: nat, k: nat)
    requires m <= j && k == j + 1 <= |rows| && part == rows[m..]
    requires forall i, j :: 0 <= i < m <= j < |rows| ==> rows[i].height != rows[j].height
    ensures Distinct(rows, j) == Distinct(rows, m) + Distinct(part, j - m) ==>
              Distinct(rows, k) == Distinct(rows, m) + Distinct(part, k - m)
  {
    hide *;
    NotMetBelow(rows, m, j);
    DistinctNext(rows, j, k);
    DistinctNext(part, j - m, k - m);
    PushLast(Distinct(rows, m), Distinct(part, j - m), ItemOf(rows[j]));
  }

  lemma {:induction false} PushLast(a: seq<Item>, b: seq<Item>, x: Item)
    requires x !in a
    ensures (if x in a + b then a + b else a + b + [x]) == a + (if x in b then b else b + [x])
  {
    assert x in a + b <==> x in b;
    assert a + b + [x] == a + (b + [x]);
  }

  lemma {:induction false} NotMetBelow(rows: seq<Row>, m: nat, k: nat)
    requires m <= k < |rows| && forall i, j :: 0 <= i < m <= j < |rows| ==> rows[i].height != rows[j].height
    ensures ItemOf(rows[k]) !in Distinct(rows, m)
  {
    DistinctIsMet(rows, m, ItemOf(rows[k]));
  }

  /** Continuing from a transaction of the history shows what comes after it in the history. */
  lemma {:induction false} ContinuesFrom(script: seq<Byte>, rows: set<Row>, conf: map<Txid, nat>, tip: nat,
                                         all: seq<Row>, raw: seq<Row>, p: nat)
    requires Scans(script, rows, MAX_HEIGHT, all) && Confirmed(rows, conf, tip) && tip < MAX_HEIGHT
    requires p < |Full(all, tip)|
    requires Full(all, tip)[p].txid in conf && conf[Full(all, tip)[p].txid] < tip
    requires Scans(script, rows, conf[Full(all, tip)[p].txid] + 1, raw)
    ensures PageOf(raw, |raw|, Some(Full(all, tip)[p].txid), tip) == Full(all, tip)[p + 1..]
  {
    var c := Full(all, tip)[p].txid;
    var newer := FullSplits(script, rows, conf, tip, all, raw, c);
    hide *;
    RestAfter(newer, Distinct(raw, |raw|), Full(all, tip), tip, p);
    PageIs(raw, Some(c), tip);
  }

  lemma {:induction false} PageIs(raw: seq<Row>, cursor: Option<Txid>, tip: nat)
    ensures PageOf(raw, |raw|, cursor, tip) == Shown(After(Distinct(raw, |raw|), cursor), tip)
  {
  }

  /** The history is what is newer than the cursor's height, then everything from there down. */
  lemma {:induction false} FullSplits(script: seq<Byte>, rows: set<Row>, conf: map<Txid, nat>, tip: nat, all: seq<Row>,
                                      raw: seq<Row>, c: Txid)
    returns (newer: seq<Item>)
    requires Scans(script, rows, MAX_HEIGHT, all) && Confirmed(rows, conf, tip) && tip < MAX_HEIGHT
    requires Known(conf, tip, c)
    requires Scans(script, rows, conf[c] + 1, raw)
    ensures Full(all, tip) == newer + Distinct(raw, |raw|) && OneEach(Distinct(raw, |raw|), tip)
    ensures forall i :: 0 <= i < |newer| ==> newer[i].txid != c
  {
    hide Distinct;
    hide Shown;
    var m := |all| - |raw|;
    LowerScan(script, rows, MAX_HEIGHT, all, conf[c] + 1, raw);
    Newest(script, rows, MAX_HEIGHT, all);
    Newest(script, rows, conf[c] + 1, raw);
    assert all[m..] == raw;
    assert forall i, j :: 0 <= i < m <= j < |all| ==> all[i].height != all[j].height by {
      assert forall j :: m <= j < |all| ==> all[j] == raw[j - m];
    }
    DistinctSplit(all, m, |all|);
    newer := Shown(Distinct(all, m), tip);
    ShownConcat(Distinct(all, m), Distinct(raw, |raw|), tip);
    ItemsConfirmed(raw, rows, conf, tip);
    ShownAll(Distinct(raw, |raw|), tip);
    NewerDiffers(all, m, rows, conf, tip, c);
    PageIs(all, None, tip);
  }

  /** Listed items, no transaction twice. */
  ghost predicate OneEach(d: seq<Item>, tip: nat) {
    && (forall i :: 0 <= i < |d| ==> d[i].height < tip)
    && (forall i, j :: 0 <= i < j < |d| ==> d[i].txid != d[j].txid)
  }

  lemma {:induction false} InEither(newer: seq<Item>, d: seq<Item>, full: seq<Item>, p: nat)
    requires full == newer + d && p < |full|
    ensures p < |newer| ==> full[p] == newer[p]
    ensures p >= |newer| ==> d[p - |newer|] == full[p] && full[p + 1..] == d[p - |newer| + 1..]
  {
  }

  lemma {:induction false} RestAfter(newer: seq<Item>, d: seq<Item>, full: seq<Item>, tip: nat, p: nat)
    requires full == newer + d && OneEach(d, tip) && p < |full|
    requires forall i :: 0 <= i < |newer| ==> newer[i].txid != full[p].txid
    ensures Shown(After(d, Some(full[p].txid)), tip) == full[p + 1..]
  {
    InEither(newer, d, full, p);
    assert p >= |newer|;
    var q := p - |newer|;
    AfterAt(d, full[p].txid, q);
    ShownAll(d[q + 1..], tip);
  }

  lemma {:induction false} ItemsConfirmed(raw: seq<Row>, rows: set<Row>, conf: map<Txid, nat>, tip: nat)
    requires Confirmed(rows, conf, tip) && forall i :: 0 <= i < |raw| ==> raw[i] in rows && raw[i].height < tip
    ensures OneEach(Distinct(raw, |raw|), tip)
  {
    hide Distinct;
    var d := Distinct(raw, |raw|);
    DistinctOnce(raw, |raw|);
    forall i | 0 <= i < |d| ensures d[i].height < tip && d[i].txid in conf && conf[d[i].txid] == d[i].height {
      assert d[i] in d;
      DistinctIsMet(raw, |raw|, d[i]);
      var j :| 0 <= j < |raw| && ItemOf(raw[j]) == d[i];
    }
  }

  /** What is shown above the cursor's height is not the cursor. */
  lemma {:induction false} NewerDiffers(all: seq<Row>, m: nat, rows: set<Row>, conf: map<Txid, nat>, tip: nat, c: Txid)
    requires Confirmed(rows, conf, tip) && m <= |all| && c in conf
    requires (forall i :: 0 <= i < |all| ==> all[i] in rows) && (forall i :: 0 <= i < m ==> all[i].height > conf[c])
    ensures forall i :: 0 <= i < |Shown(Distinct(all, m), tip)| ==> Shown(Distinct(all, m), tip)[i].txid != c
  {
    hide Distinct;
    var s := Shown(Distinct(all, m), tip);
    forall i | 0 <= i < |s| ensures s[i].txid != c {
      assert s[i] in s && s[i] in Distinct(all, m);
      DistinctIsMet(all, m, s[i]);
      var j :| 0 <= j < m && ItemOf(all[j]) == s[i];
      assert all[j] in rows;
    }
  }

  // ----- Pages over the store --------------------------------------------------------------------------------

  /** The store and the header list a call reads. */
  ghost predicate Store(keys: seq<seq<Byte>>, script: seq<Byte>, rows: set<Row>, conf: map<Txid, nat>, tip: nat) {
    Holds(keys, script, rows) && Confirmed(rows, conf, tip) && tip < MAX_HEIGHT
  }

  /** The cursor is a transaction in the list; anything else ends the history at once. */
  predicate Known(conf: map<Txid, nat>, tip: nat, c: Txid) { c in conf && conf[c] < tip }

  /** `_history`: `down` is the scan it makes. */
  method History(keys: seq<seq<Byte>>, script: seq<Byte>, conf: map<Txid, nat>, tip: nat, cursor: Option<Txid>,
                 limit: nat, scanLimit: nat, ghost rows: set<Row>)
    returns (r: Result, down: seq<Row>)
    requires Store(keys, script, rows, conf, tip)
    ensures cursor.Some? && !Known(conf, tip, cursor.value) ==> r == Page([])
    ensures cursor.None? || Known(conf, tip, cursor.value) ==>
              && Scans(script, rows, if cursor.None? then MAX_HEIGHT else conf[cursor.value] + 1, down)
              && (r.Page? ==> r.items == Take(PageOf(down, |down|, cursor, tip), limit))
              && (r.TooBigHistory? <==>
                    OverLimit(down, cursor, if cursor.None? then 0 else conf[cursor.value], tip, limit, scanLimit))
  {
    down := [];
    var seek, end := 0, MAX_HEIGHT;
    if cursor.Some? {
      if !Known(conf, tip, cursor.value) { return Page([]), []; }
      seek, end := conf[cursor.value], conf[cursor.value] + 1;
    }
    var raw := HistoryIterScanReverse(keys, script, end, rows);
    SeekOk(script, rows, conf, tip, end, raw, cursor, seek);
    down := raw;
    r := Walk(raw, cursor, seek, tip, limit, scanLimit);
  }

  lemma {:induction false} SeekOk(script: seq<Byte>, rows: set<Row>, conf: map<Txid, nat>, tip: nat, end: nat,
                                  raw: seq<Row>, cursor: Option<Txid>, seek: nat)
    requires Scans(script, rows, end, raw) && Confirmed(rows, conf, tip)
    requires cursor.Some? ==> Known(conf, tip, cursor.value) && seek == conf[cursor.value] && end == seek + 1
    ensures Seekable(raw, cursor, seek)
  {
    Newest(script, rows, end, raw);
  }

  /**
   Following pages from the start, for any page size of at least one, gives the full history with no
   gap and no repeat, unless a page is refused; and the first short page is the real end.
   */
  method FollowPages(keys: seq<seq<Byte>>, script: seq<Byte>, conf: map<Txid, nat>, tip: nat, limit: nat,
                     scanLimit: nat, ghost rows: set<Row>, ghost all: seq<Row>)
    returns (items: seq<Item>, refused: bool)
    requires Store(keys, script, rows, conf, tip) && limit > 0 && Scans(script, rows, MAX_HEIGHT, all)
    ensures !refused ==> items == Full(all, tip)
    ensures refused ==> |all| > scanLimit
    ensures items <= Full(all, tip)
  {
    hide *;
    ghost var full := Full(all, tip);
    var r;
    var down;
    r, down := FirstPage(keys, script, conf, tip, limit, scanLimit, rows, all);
    items, refused := [], r.TooBigHistory?;
    assert full[0..] == full;
    while !refused && |r.items| == limit
      invariant refused == r.TooBigHistory? && items <= full && (refused ==> |all| > scanLimit)
      invariant !refused ==> r.items == Take(full[|items|..], limit)
      decreases !refused, |full| - |items|
    {
      TakeStep(full, items, r.items, limit);
      items := items + r.items;
      var cursor := items[|items| - 1].txid;
      r, down := NextPage(keys, script, conf, tip, cursor, limit, scanLimit, rows, all, |items| - 1);
      refused := r.TooBigHistory?;
    }
    if !refused {
      TakeStep(full, items, r.items, limit);
      items := items + r.items;
    }
  }

  lemma {:induction false} TakeStep(full: seq<Item>, items: seq<Item>, page: seq<Item>, limit: nat)
    requires items <= full && page == Take(full[|items|..], limit)
    ensures items + page <= full && |page| <= limit && (|page| < limit ==> items + page == full)
  {
  }

  method FirstPage(keys: seq<seq<Byte>>, script: seq<Byte>, conf: map<Txid, nat>, tip: nat, limit: nat, scanLimit: nat,
                   ghost rows: set<Row>, ghost all: seq<Row>)
    returns (r: Result, down: seq<Row>)
    requires Store(keys, script, rows, conf, tip) && Scans(script, rows, MAX_HEIGHT, all)
    ensures r.Page? ==> r.items == Take(Full(all, tip), limit)
    ensures r.TooBigHistory? ==> |all| > scanLimit
  {
    r, down := History(keys, script, conf, tip, None, limit, scanLimit, rows);
    OneOrderDown(script, rows, all, down);
  }

  method NextPage(keys: seq<seq<Byte>>, script: seq<Byte>, conf: map<Txid, nat>, tip: nat, cursor: Txid, limit: nat,
                  scanLimit: nat, ghost rows: set<Row>, ghost all: seq<Row>, ghost p: nat)
    returns (r: Result, down: seq<Row>)
    requires Store(keys, script, rows, conf, tip) && Scans(script, rows, MAX_HEIGHT, all)
    requires p < |Full(all, tip)| && Full(all, tip)[p].txid == cursor
    ensures r.Page? ==> r.items == Take(Full(all, tip)[p + 1..], limit)
    ensures r.TooBigHistory? ==> |all| > scanLimit
  {
    ItemKnown(script, rows, conf, tip, all, p);
    r, down := History(keys, script, conf, tip, Some(cursor), limit, scanLimit, rows);
    LowerScan(script, rows, MAX_HEIGHT, all, conf[cursor] + 1, down);
    ContinuesFrom(script, rows, conf, tip, all, down, p);
  }

  lemma {:induction false} ItemKnown(script: seq<Byte>, rows: set<Row>, conf: map<Txid, nat>, tip: nat, all: seq<Row>,
                                     p: nat)
    requires Scans(script, rows, MAX_HEIGHT, all) && Confirmed(rows, conf, tip) && p < |Full(all, tip)|
    ensures Known(conf, tip, Full(all, tip)[p].txid)
  {
    Newest(script, rows, MAX_HEIGHT, all);
    var x := Full(all, tip)[p];
    assert x in Full(all, tip) && x in Distinct(all, |all|);
    DistinctIsMet(all, |all|, x);
    var j :| 0 <= j < |all| && ItemOf(all[j]) == x;
    assert all[j] in rows;
  }

  /** A scan has no more rows than the script. */
  lemma {:induction false} ScanSize(script: seq<Byte>, rows: set<Row>, end: nat, down: seq<Row>)
    requires Scans(script, rows, end, down)
    ensures |down| <= |rows|
  {
    var up := Reversed(down);
    hide InKeyOrder;
    forall i | 0 <= i < |up| ensures up[i] in rows { assert up[i] in up; }
    DistinctAmong(up, |up|, rows);
  }

  lemma {:induction false} DistinctAmong(up: seq<Row>, n: nat, rows: set<Row>)
    requires n <= |up| && (forall i :: 0 <= i < n ==> up[i] in rows)
    requires forall i, j :: 0 <= i < j < |up| ==> up[i] != up[j]
    ensures n <= |rows|
  {
    if n > 0 { DistinctAmong(up, n - 1, rows - {up[n - 1]}); }
  }

  lemma {:induction false} OneOrderDown(script: seq<Byte>, rows: set<Row>, all: seq<Row>, down: seq<Row>)
    requires Scans(script, rows, MAX_HEIGHT, all) && Scans(script, rows, MAX_HEIGHT, down)
    ensures all == down
  {
    OneOrder(script, Reversed(all), Reversed(down));
    ReversedTwice(all);
    ReversedTwice(down);
  }

  /**
   A cursor that is in the list but not in the script's history gives an empty page, which then
   says nothing about the end of the history.
   */
  lemma {:induction false} ForeignCursor(down: seq<Row>, c: Txid, tip: nat)
    requires forall j :: 0 <= j < |down| ==> down[j].info.txid != c
    ensures PageOf(down, |down|, Some(c), tip) == []
  {
    hide Distinct;
    var d := Distinct(down, |down|);
    forall i | 0 <= i < |d| ensures d[i].txid != c {
      assert d[i] in d;
      DistinctIsMet(down, |down|, d[i]);
      var j :| 0 <= j < |down| && ItemOf(down[j]) == d[i];
    }
    AfterMissing(d, c);
  }
}

/**
 Reading blocks back out of bitcoind's blk*.dat files: undo the xor key, then find every
 `magic, length, body` record, skipping padding and records whose body was never written.
 */
module BlkFiles {
  import opened Wrappers

  /** The network's magic number, as its four bytes in the file. */
  type Magic = m: seq<Byte> | |m| == 4 witness [0, 0, 0, 0]

  datatype Slice = Slice(start: nat, end: nat)

  // ----- Little-endian u32 -----------------------------------------------------------------------

  function U32(b: seq<Byte>, pos: nat): nat
    requires pos + 4 <= |b|
  {
    (b[pos] as int) + 0x100 * (b[pos + 1] as int) + 0x1_0000 * (b[pos + 2] as int) + 0x100_0000 * (b[pos + 3] as int)
  }

  /** The four bytes of `n` as they stand in a file: the lowest first. */
  function SizeBytes(n: nat): (r: seq<Byte>)
    requires n < 0x1_0000_0000
    ensures |r| == 4
  {
    [n % 0x100, n / 0x100 % 0x100, n / 0x1_0000 % 0x100, n / 0x100_0000]
  }

  /** Reading the bytes of a number gives the number. */
  lemma {:induction false} SizeReadsBack(n: nat)
    requires n < 0x1_0000_0000
    ensures U32(SizeBytes(n), 0) == n
  {
    var a := n / 0x100;
    var b := a / 0x100;
    assert b == n / 0x1_0000 && b / 0x100 == n / 0x100_0000;
    assert n == 0x100 * a + n % 0x100 && a == 0x100 * b + a % 0x100 && b == 0x100 * (b / 0x100) + b % 0x100;
  }

  predicate MagicAt(magic: Magic, blob: seq<Byte>, pos: nat) {
    && pos + 4 <= |blob|
    && blob[pos] == magic[0] && blob[pos + 1] == magic[1]
    && blob[pos + 2] == magic[2] && blob[pos + 3] == magic[3]
  }

  // ----- The scan ---------------------------------------------------------------------------------

  /** The block slices found from `pos` on. */
  function Scan(magic: Magic, blob: seq<Byte>, pos: nat): Outcome<seq<Slice>>
    decreases |blob| - pos
  {
    if pos + 4 > |blob| then Ok([])
    else if !MagicAt(magic, blob, pos) then Scan(magic, blob, pos + 1)
    else if pos + 8 > |blob| then Err
    else
      var start := pos + 8;
      var end := start + U32(blob, pos + 4);
      if end > |blob| || start + 4 > |blob| then Ok([])
      else if MagicAt(magic, blob, start) then Scan(magic, blob, start)
      else
        match Scan(magic, blob, end)
        case Ok(rest) => Ok([Slice(start, end)] + rest)
        case Err => Err
  }

  /** The cursor loop. */
  method ParseBlocks(magic: Magic, blob: seq<Byte>) returns (r: Outcome<seq<Slice>>)
    ensures r == Scan(magic, blob, 0)
  {
    var slices: seq<Slice> := [];
    var position := 0;
    assert forall r: seq<Slice> :: slices + r == r;
    while position < |blob|
      invariant 0 <= position
      invariant Scan(magic, blob, 0) == Prepend(slices, Scan(magic, blob, position))
      decreases |blob| - position
    {
      var offset := position;
      if offset + 4 > |blob| { break; }
      if !MagicAt(magic, blob, offset) {
        position := offset + 1;
        continue;
      }
      if offset + 8 > |blob| { return Err; }
      var blockSize := U32(blob, offset + 4);
      var start := offset + 8;
      var end := start + blockSize;
      if end > |blob| { break; }
      if start + 4 > |blob| { break; }
      if MagicAt(magic, blob, start) {
        position := start;
        continue;
      }
      PrependPush(slices, Slice(start, end), Scan(magic, blob, end));
      slices := slices + [Slice(start, end)];
      position := end;
    }
    r := Ok(slices);
    assert slices + [] == slices;
  }

  function Prepend(slices: seq<Slice>, r: Outcome<seq<Slice>>): Outcome<seq<Slice>> {
    match r
    case Ok(rest) => Ok(slices + rest)
    case Err => Err
  }

  lemma {:induction false} PrependPush(slices: seq<Slice>, s: Slice, r: Outcome<seq<Slice>>)
    ensures Prepend(slices + [s], r) == Prepend(slices, Prepend([s], r))
  {
    if r.Ok? { assert slices + [s] + r.value == slices + ([s] + r.value); }
  }

  ghost predicate Placed(magic: Magic, blob: seq<Byte>, s: Slice) {
    && 8 <= s.start <= s.end <= |blob|
    && MagicAt(magic, blob, s.start - 8) && s.end == s.start + U32(blob, s.start - 4)
    && !MagicAt(magic, blob, s.start)
  }

  /** On any file at all: slices are in bounds, in order, disjoint, and each follows its own header. */
  ghost predicate WellPlaced(magic: Magic, blob: seq<Byte>, pos: nat, slices: seq<Slice>) {
    && (forall i :: 0 <= i < |slices| ==> Placed(magic, blob, slices[i]) && pos + 8 <= slices[i].start)
    && (forall i, j :: 0 <= i < j < |slices| ==> slices[i].end + 8 <= slices[j].start)
  }

  lemma {:induction false} PlacedFirst(magic: Magic, blob: seq<Byte>, pos: nat, s: Slice, rest: seq<Slice>)
    requires Placed(magic, blob, s) && s.start == pos + 8 && WellPlaced(magic, blob, s.end, rest)
    ensures WellPlaced(magic, blob, pos, [s] + rest)
  {
  }

  lemma {:induction false} ScanIsWellPlaced(magic: Magic, blob: seq<Byte>, pos: nat)
    ensures var r := Scan(magic, blob, pos); r.Ok? ==> WellPlaced(magic, blob, pos, r.value)
    decreases |blob| - pos
  {
    if pos + 4 > |blob| {
    } else if !MagicAt(magic, blob, pos) {
      ScanIsWellPlaced(magic, blob, pos + 1);
    } else if pos + 8 <= |blob| {
      var start := pos + 8;
      var end := start + U32(blob, pos + 4);
      if end > |blob| || start + 4 > |blob| {
      } else if MagicAt(magic, blob, start) {
        ScanIsWellPlaced(magic, blob, start);
      } else {
        ScanIsWellPlaced(magic, blob, end);
        var rest := Scan(magic, blob, end);
        if rest.Ok? { PlacedFirst(magic, blob, pos, Slice(start, end), rest.value); }
      }
    }
  }

  // ----- Reading back what was written -----------------------------------------------------------

  /**
   A record as bitcoind leaves it: stray bytes, then a header, then the body - or no body at all
   when writing was abandoned after the header.
   */
  datatype Record = Block(gap: seq<Byte>, body: seq<Byte>) | Abandoned(gap: seq<Byte>, size: nat)

  ghost function Written(magic: Magic, r: Record): seq<Byte>
    requires RecordSize(r) < 0x1_0000_0000
  {
    r.gap + (magic + (SizeBytes(RecordSize(r)) + Body(r)))
  }

  function Body(r: Record): seq<Byte> {
    if r.Block? then r.body else []
  }

  function RecordSize(r: Record): nat {
    if r.Block? then |r.body| else r.size
  }

  ghost function File(magic: Magic, records: seq<Record>, padding: seq<Byte>): seq<Byte>
    requires forall i :: 0 <= i < |records| ==> RecordSize(records[i]) < 0x1_0000_0000
  {
    if records == [] then padding else Written(magic, records[0]) + File(magic, records[1..], padding)
  }

  function Bodies(records: seq<Record>): seq<seq<Byte>> {
    if records == [] then []
    else (if records[0].Block? then [records[0].body] else []) + Bodies(records[1..])
  }

  /** The first magic in `gap + magic` is the one at its end. */
  ghost predicate GapOk(magic: Magic, gap: seq<Byte>) {
    forall i :: 0 <= i < |gap| ==> !MagicAt(magic, gap + magic, i)
  }

  /**
   What the scanner needs of a file: gaps and padding hide no magic, and bodies have at least four
   bytes and do not start with the magic. After an abandoned header whose announced size fits in
   the file, either the next record follows at once or fewer than four bytes are left.
   */
  ghost predicate Readable(magic: Magic, records: seq<Record>, padding: seq<Byte>) {
    if records == [] then forall i: nat :: !MagicAt(magic, padding, i)
    else
      var r, rest := records[0], records[1..];
      && RecordSize(r) < 0x1_0000_0000 && GapOk(magic, r.gap)
      && Readable(magic, rest, padding)
      && (forall i :: 0 <= i < |rest| ==> RecordSize(rest[i]) < 0x1_0000_0000)
      && (r.Block? ==> |r.body| >= 4 && !MagicAt(magic, r.body, 0))
      && (r.Abandoned? && r.size <= |File(magic, rest, padding)| ==>
            (rest != [] && rest[0].gap == []) || |File(magic, rest, padding)| < 4)
  }

  /** An abandoned header announces more bytes than the file still has after it. */
  ghost predicate Overruns(magic: Magic, r: Record, rest: seq<Record>, padding: seq<Byte>)
    requires forall i :: 0 <= i < |rest| ==> RecordSize(rest[i]) < 0x1_0000_0000
  {
    r.Abandoned? && r.size > |File(magic, rest, padding)|
  }

  /** No block is written after an abandoned header that announces more than the rest of the file. */
  ghost predicate NoBlockCut(magic: Magic, records: seq<Record>, padding: seq<Byte>)
    requires forall i :: 0 <= i < |records| ==> RecordSize(records[i]) < 0x1_0000_0000
  {
    forall i, j :: 0 <= i < j < |records| && Overruns(magic, records[i], records[i + 1..], padding) ==>
                     !records[j].Block?
  }

  /** The bodies written before the first header that announces more than the rest of the file. */
  ghost function BodiesBeforeCut(magic: Magic, records: seq<Record>, padding: seq<Byte>): seq<seq<Byte>>
    requires forall i :: 0 <= i < |records| ==> RecordSize(records[i]) < 0x1_0000_0000
  {
    if records == [] || Overruns(magic, records[0], records[1..], padding) then []
    else
      (if records[0].Block? then [records[0].body] else []) + BodiesBeforeCut(magic, records[1..], padding)
  }

  function Contents(blob: seq<Byte>, slices: seq<Slice>): seq<seq<Byte>>
    requires forall i :: 0 <= i < |slices| ==> slices[i].start <= slices[i].end <= |blob|
  {
    seq(|slices|, i requires 0 <= i < |slices| => blob[slices[i].start..slices[i].end])
  }

  /** `part` stands in `blob` at `pos`. */
  ghost predicate OccursAt(part: seq<Byte>, blob: seq<Byte>, pos: nat) {
    pos + |part| <= |blob| && forall j {:trigger part[j]} :: 0 <= j < |part| ==> blob[pos + j] == part[j]
  }

  lemma {:induction false} OccursSplit(a: seq<Byte>, b: seq<Byte>, blob: seq<Byte>, pos: nat)
    requires OccursAt(a + b, blob, pos)
    ensures OccursAt(a, blob, pos) && OccursAt(b, blob, pos + |a|)
  {
    forall j | 0 <= j < |a| ensures blob[pos + j] == a[j] { assert (a + b)[j] == a[j]; }
    forall j | 0 <= j < |b| ensures blob[pos + |a| + j] == b[j] { assert (a + b)[|a| + j] == b[j]; }
  }

  lemma {:induction false} MagicShift(magic: Magic, part: seq<Byte>, blob: seq<Byte>, pos: nat, i: nat)
    requires OccursAt(part, blob, pos) && i + 4 <= |part|
    ensures MagicAt(magic, blob, pos + i) == MagicAt(magic, part, i)
    ensures U32(blob, pos + i) == U32(part, i)
  {
    assert blob[pos + i] == part[i] && blob[pos + i + 1] == part[i + 1];
    assert blob[pos + i + 2] == part[i + 2] && blob[pos + i + 3] == part[i + 3];
  }

  lemma {:induction false} SkipGap(magic: Magic, gap: seq<Byte>, blob: seq<Byte>, pos: nat, k: nat)
    requires GapOk(magic, gap) && k <= |gap| && OccursAt(gap + magic, blob, pos)
    ensures Scan(magic, blob, pos + k) == Scan(magic, blob, pos + |gap|)
    decreases |gap| - k
  {
    if k < |gap| {
      MagicShift(magic, gap + magic, blob, pos, k);
      SkipGap(magic, gap, blob, pos, k + 1);
    }
  }

  lemma {:induction false} SkipPadding(magic: Magic, padding: seq<Byte>, blob: seq<Byte>, pos: nat, k: nat)
    requires OccursAt(padding, blob, pos) && pos + |padding| == |blob| && k <= |padding|
    requires forall i: nat :: !MagicAt(magic, padding, i)
    ensures Scan(magic, blob, pos + k) == Ok([])
    decreases |padding| - k
  {
    if k + 4 <= |padding| {
      MagicShift(magic, padding, blob, pos, k);
      SkipPadding(magic, padding, blob, pos, k + 1);
    }
  }

  /** A scan result holds exactly these bodies. */
  ghost predicate ReadsAs(blob: seq<Byte>, r: Outcome<seq<Slice>>, bodies: seq<seq<Byte>>) {
    r.Ok? && (forall i :: 0 <= i < |r.value| ==> r.value[i].start <= r.value[i].end <= |blob|)
    && Contents(blob, r.value) == bodies
  }

  lemma {:induction false} ReadsOneMore(blob: seq<Byte>, s: Slice, r: Outcome<seq<Slice>>, more: seq<seq<Byte>>)
    requires s.start <= s.end <= |blob| && ReadsAs(blob, r, more)
    ensures ReadsAs(blob, Prepend([s], r), [blob[s.start..s.end]] + more)
  {
    assert Contents(blob, [s] + r.value) == [blob[s.start..s.end]] + Contents(blob, r.value);
  }

  /** A record's header after its gap, as the scan meets it. */
  ghost predicate HeaderAt(magic: Magic, blob: seq<Byte>, pos: nat, gap: seq<Byte>, size: nat) {
    && OccursAt(gap + magic, blob, pos) && pos + |gap| + 8 <= |blob|
    && MagicAt(magic, blob, pos + |gap|) && U32(blob, pos + |gap| + 4) == size
  }

  lemma {:induction false} RecordHeader(magic: Magic, r: Record, blob: seq<Byte>, pos: nat)
    requires RecordSize(r) < 0x1_0000_0000 && OccursAt(Written(magic, r), blob, pos)
    ensures HeaderAt(magic, blob, pos, r.gap, RecordSize(r))
    ensures |Written(magic, r)| == |r.gap| + 8 + |Body(r)|
    ensures OccursAt(Body(r), blob, pos + |r.gap| + 8)
  {
    var size := SizeBytes(RecordSize(r));
    SizeReadsBack(RecordSize(r));
    HeaderParts(magic, r.gap, size, Body(r), blob, pos);
  }

  lemma {:induction false} HeaderParts(magic: Magic, gap: seq<Byte>, size: seq<Byte>, body: seq<Byte>, blob: seq<Byte>,
                                       pos: nat)
    requires |size| == 4 && OccursAt(gap + (magic + (size + body)), blob, pos)
    ensures HeaderAt(magic, blob, pos, gap, U32(size, 0)) && OccursAt(body, blob, pos + |gap| + 8)
  {
    OccursSplit(gap, magic + (size + body), blob, pos);
    OccursSplit(magic, size + body, blob, pos + |gap|);
    OccursSplit(size, body, blob, pos + |gap| + 4);
    OccursJoin(gap, magic, blob, pos);
    MagicShift(magic, magic, blob, pos + |gap|, 0);
    MagicShift(magic, size, blob, pos + |gap| + 4, 0);
  }

  lemma {:induction false} OccursJoin(a: seq<Byte>, b: seq<Byte>, blob: seq<Byte>, pos: nat)
    requires OccursAt(a, blob, pos) && OccursAt(b, blob, pos + |a|)
    ensures OccursAt(a + b, blob, pos)
  {
    forall j | 0 <= j < |a + b| ensures blob[pos + j] == (a + b)[j] {
      if j < |a| { assert (a + b)[j] == a[j]; } else { assert (a + b)[j] == b[j - |a|]; }
    }
  }

  lemma {:induction false} BlockCase(magic: Magic, r: Record, blob: seq<Byte>, pos: nat, more: seq<seq<Byte>>)
    requires r.Block? && 4 <= |r.body| < 0x1_0000_0000 && GapOk(magic, r.gap) && !MagicAt(magic, r.body, 0)
    requires OccursAt(Written(magic, r), blob, pos)
    requires ReadsAs(blob, Scan(magic, blob, pos + |Written(magic, r)|), more)
    ensures ReadsAs(blob, Scan(magic, blob, pos), [r.body] + more)
  {
    RecordHeader(magic, r, blob, pos);
    ReadBlock(magic, r.gap, r.body, blob, pos, more);
  }

  lemma {:induction false} ReadBlock(magic: Magic, gap: seq<Byte>, body: seq<Byte>, blob: seq<Byte>, pos: nat,
                                     more: seq<seq<Byte>>)
    requires |body| >= 4 && GapOk(magic, gap) && !MagicAt(magic, body, 0)
    requires HeaderAt(magic, blob, pos, gap, |body|) && OccursAt(body, blob, pos + |gap| + 8)
    requires ReadsAs(blob, Scan(magic, blob, pos + |gap| + 8 + |body|), more)
    ensures ReadsAs(blob, Scan(magic, blob, pos), [body] + more)
  {
    var start := pos + |gap| + 8;
    MagicShift(magic, body, blob, start, 0);
    SkipGap(magic, gap, blob, pos, 0);
    ScanAt(magic, blob, start - 8, |body|);
    assert blob[start..start + |body|] == body;
    ReadsOneMore(blob, Slice(start, start + |body|), Scan(magic, blob, start + |body|), more);
  }

  lemma {:induction false} ScanAt(magic: Magic, blob: seq<Byte>, at: nat, size: nat)
    requires MagicAt(magic, blob, at) && at + 8 + size <= |blob| && size >= 4
    requires U32(blob, at + 4) == size && !MagicAt(magic, blob, at + 8)
    ensures Scan(magic, blob, at) == Prepend([Slice(at + 8, at + 8 + size)], Scan(magic, blob, at + 8 + size))
  {
  }

  lemma {:induction false} AbandonedCase(magic: Magic, r: Record, blob: seq<Byte>, pos: nat)
    requires r.Abandoned? && r.size < 0x1_0000_0000 && GapOk(magic, r.gap)
    requires OccursAt(Written(magic, r), blob, pos)
    requires var next := pos + |Written(magic, r)|; MagicAt(magic, blob, next) && next + r.size <= |blob|
    ensures Scan(magic, blob, pos) == Scan(magic, blob, pos + |Written(magic, r)|)
  {
    RecordHeader(magic, r, blob, pos);
    SkipGap(magic, r.gap, blob, pos, 0);
  }

  /** Scanning a readable file gives the bodies written before the first overrunning header, in order. */
  lemma {:induction false} ScanReadsUpToCut(magic: Magic, records: seq<Record>, padding: seq<Byte>, blob: seq<Byte>,
                                            pos: nat)
    requires Readable(magic, records, padding)
    requires forall i :: 0 <= i < |records| ==> RecordSize(records[i]) < 0x1_0000_0000
    requires OccursAt(File(magic, records, padding), blob, pos)
    requires pos + |File(magic, records, padding)| == |blob|
    ensures ReadsAs(blob, Scan(magic, blob, pos), BodiesBeforeCut(magic, records, padding))
    decreases |records|
  {
    if records == [] {
      SkipPadding(magic, padding, blob, pos, 0);
      assert Contents(blob, []) == [];
    } else {
      var r, rest := records[0], records[1..];
      OccursSplit(Written(magic, r), File(magic, rest, padding), blob, pos);
      ScanReadsUpToCut(magic, rest, padding, blob, pos + |Written(magic, r)|);
      if r.Block? {
        BlockCase(magic, r, blob, pos, BodiesBeforeCut(magic, rest, padding));
      } else {
        AbandonedHeader(magic, r, rest, padding, blob, pos);
      }
    }
  }

  lemma {:induction false} AbandonedHeader(magic: Magic, r: Record, rest: seq<Record>, padding: seq<Byte>,
                                           blob: seq<Byte>, pos: nat)
    requires forall i :: 0 <= i < |rest| ==> RecordSize(rest[i]) < 0x1_0000_0000
    requires r.Abandoned? && r.size < 0x1_0000_0000 && GapOk(magic, r.gap)
    requires r.size <= |File(magic, rest, padding)| ==>
               (rest != [] && rest[0].gap == []) || |File(magic, rest, padding)| < 4
    requires OccursAt(Written(magic, r), blob, pos)
    requires OccursAt(File(magic, rest, padding), blob, pos + |Written(magic, r)|)
    requires pos + |Written(magic, r)| + |File(magic, rest, padding)| == |blob|
    requires ReadsAs(blob, Scan(magic, blob, pos + |Written(magic, r)|), BodiesBeforeCut(magic, rest, padding))
    ensures ReadsAs(blob, Scan(magic, blob, pos), if Overruns(magic, r, rest, padding) then []
                                                else BodiesBeforeCut(magic, rest, padding))
  {
    RecordHeader(magic, r, blob, pos);
    SkipGap(magic, r.gap, blob, pos, 0);
    assert Contents(blob, []) == [];
    if !Overruns(magic, r, rest, padding) && |File(magic, rest, padding)| >= 4 {
      NextStartsWithMagic(magic, rest, padding, blob, pos + |Written(magic, r)|);
      AbandonedCase(magic, r, blob, pos);
    }
  }

  lemma {:induction false} NextStartsWithMagic(magic: Magic, records: seq<Record>, padding: seq<Byte>, blob: seq<Byte>,
                                               pos: nat)
    requires forall i :: 0 <= i < |records| ==> RecordSize(records[i]) < 0x1_0000_0000
    requires records != [] && records[0].gap == [] && OccursAt(File(magic, records, padding), blob, pos)
    ensures MagicAt(magic, blob, pos)
  {
    OccursSplit(Written(magic, records[0]), File(magic, records[1..], padding), blob, pos);
    RecordHeader(magic, records[0], blob, pos);
  }

  lemma {:induction false} CutLosesBlocks(magic: Magic, records: seq<Record>, padding: seq<Byte>)
    requires forall i :: 0 <= i < |records| ==> RecordSize(records[i]) < 0x1_0000_0000
    ensures NoBlockCut(magic, records, padding) ==> BodiesBeforeCut(magic, records, padding) == Bodies(records)
    ensures !NoBlockCut(magic, records, padding) ==> |BodiesBeforeCut(magic, records, padding)| < |Bodies(records)|
  {
    if records != [] {
      var r, rest := records[0], records[1..];
      CutLosesBlocks(magic, rest, padding);
      if Overruns(magic, r, rest, padding) {
        CountBodies(rest);
        assert forall j :: 0 < j < |records| ==> records[j] == rest[j - 1];
        assert NoBlockCut(magic, records, padding) == (forall j :: 0 <= j < |rest| ==> !rest[j].Block?) by {
          if NoBlockCut(magic, records, padding) {
            forall j | 0 <= j < |rest| ensures !rest[j].Block? { assert records[j + 1] == rest[j]; }
          }
          if forall j :: 0 <= j < |rest| ==> !rest[j].Block? {
            forall j | 0 < j < |records| ensures !records[j].Block? { assert records[j] == rest[j - 1]; }
          }
        }
      } else {
        CutInTheRest(magic, records, padding);
      }
    }
  }

  lemma {:induction false} CountBodies(records: seq<Record>)
    ensures |Bodies(records)| > 0 <==> exists j :: 0 <= j < |records| && records[j].Block?
  {
    if records != [] {
      CountBodies(records[1..]);
      assert forall j :: 0 < j < |records| ==> records[j] == records[1..][j - 1];
    }
  }

  lemma {:induction false} CutInTheRest(magic: Magic, records: seq<Record>, padding: seq<Byte>)
    requires forall i :: 0 <= i < |records| ==> RecordSize(records[i]) < 0x1_0000_0000
    requires records != [] && !Overruns(magic, records[0], records[1..], padding)
    ensures NoBlockCut(magic, records, padding) == NoBlockCut(magic, records[1..], padding)
  {
    var rest := records[1..];
    forall i | 0 <= i < |rest| ensures rest[i] == records[i + 1] && rest[i + 1..] == records[i + 1 + 1..] {}
    forall i | 0 < i < |records| ensures records[i] == rest[i - 1] && records[i + 1..] == rest[i - 1 + 1..] {}
  }

  /**
   Main result: scanning a readable file gives exactly the written bodies, in order, if and only if
   no block is written after an abandoned header that announces more than the rest of the file.
   Otherwise the bodies written before that header come back and the blocks after it are lost.
   */
  lemma {:induction false} FileReadsBack(magic: Magic, records: seq<Record>, padding: seq<Byte>)
    requires Readable(magic, records, padding)
    requires forall i :: 0 <= i < |records| ==> RecordSize(records[i]) < 0x1_0000_0000
    ensures var file := File(magic, records, padding);
            && ReadsAs(file, Scan(magic, file, 0), BodiesBeforeCut(magic, records, padding))
            && (ReadsAs(file, Scan(magic, file, 0), Bodies(records)) <==> NoBlockCut(magic, records, padding))
  {
    ScanReadsUpToCut(magic, records, padding, File(magic, records, padding), 0);
    CutLosesBlocks(magic, records, padding);
  }

  /** A file that ends in a magic without all of its size is an error, not an end. */
  lemma {:induction false} SizeMissing(magic: Magic, gap: seq<Byte>, blob: seq<Byte>, pos: nat)
    requires GapOk(magic, gap) && OccursAt(gap + magic, blob, pos) && |blob| < pos + |gap| + 8
    ensures Scan(magic, blob, pos) == Err
  {
    SkipGap(magic, gap, blob, pos, 0);
    MagicShift(magic, gap + magic, blob, pos, |gap|);
    assert MagicAt(magic, gap + magic, |gap|);
  }

  /**
   Where the file is not readable for its abandoned header: the announced size fits, but at least
   four other bytes follow the header. Those bytes are then taken for the body.
   */
  lemma {:induction false} AbandonedReadAsBody(magic: Magic, r: Record, blob: seq<Byte>, pos: nat)
    requires r.Abandoned? && r.size < 0x1_0000_0000 && GapOk(magic, r.gap)
    requires OccursAt(Written(magic, r), blob, pos)
    ensures var next := pos + |Written(magic, r)|;
            next + r.size <= |blob| && next + 4 <= |blob| && !MagicAt(magic, blob, next) ==>
              Scan(magic, blob, pos) == Prepend([Slice(next, next + r.size)], Scan(magic, blob, next + r.size))
  {
    RecordHeader(magic, r, blob, pos);
    SkipGap(magic, r.gap, blob, pos, 0);
  }

  // ----- The xor key --------------------------------------------------------------------------------

  /** Applies the 8-byte key to a whole file in place. Applying it twice changes nothing. */
  method ApplyXorKey(key: seq<bv8>, blob: array<bv8>)
    requires |key| == 8
    modifies blob
    ensures forall i :: 0 <= i < blob.Length ==> blob[i] == old(blob[i]) ^ key[i % 8]
  {
    for i := 0 to blob.Length
      invariant forall j :: 0 <= j < i ==> blob[j] == old(blob[j]) ^ key[j % 8]
      invariant forall j :: i <= j < blob.Length ==> blob[j] == old(blob[j])
    {
      blob[i] := blob[i] ^ key[i % 8];
    }
  }

  method ApplyXorKeyTwice(key: seq<bv8>, blob: array<bv8>)
    requires |key| == 8
    modifies blob
    ensures blob[..] == old(blob[..])
  {
    ApplyXorKey(key, blob);
    ApplyXorKey(key, blob);
  }
}

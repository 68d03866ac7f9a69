/**
 Assembling one reply line under a per-line cap and a budget shared with other connections.

 Text is modelled as characters, one per byte. A JSON value is the sequence of chunks its
 serializer writes, so that an encode can fail part-way; a serializer that fails by itself after
 some chunks is a value with `fails` set. Growing a buffer (`reserve_exact`) is exact.
 */
module Response {
  import opened Wrappers

  const MAX_ARRAY_BATCH := 20
  const BUFFER_FLOOR := 16 * 1024
  const BUDGET_CHUNK := 64 * 1024
  const USIZE_MAX := 0xFFFF_FFFF_FFFF_FFFF

  /** The three error messages, their wording, and its length. */
  datatype Message = PerLineMsg | GlobalMsg | SkippedMsg {
    function Wording(): string {
      match this
      case PerLineMsg => "response line exceeds max_response_bytes"
      case GlobalMsg => "response budget exhausted, retry later"
      case SkippedMsg => "batch response budget exhausted; not executed"
    }

    function Length(): nat {
      match this
      case PerLineMsg => 40
      case GlobalMsg => 38
      case SkippedMsg => 45
    }
  }

  /** BadRequest is 1, DaemonError is 2. */
  datatype Code = BadRequest | DaemonError {
    function Digit(): string { if BadRequest? then "1" else "2" }
  }

  /** Which limit was hit, and how it is reported. */
  datatype Limit = PerLine | Global {
    function Message(): Message { if PerLine? then PerLineMsg else GlobalMsg }
    function Code(): Code { if PerLine? then BadRequest else DaemonError }
  }

  datatype Json = Json(chunks: seq<string>, fails: bool)

  function Text(chunks: seq<string>): string {
    if chunks == [] then "" else chunks[0] + Text(chunks[1..])
  }

  lemma {:induction false} TextConcat(a: seq<string>, b: seq<string>)
    ensures Text(a + b) == Text(a) + Text(b)
  {
    if a == [] {
      assert a + b == b;
    } else {
      assert (a + b)[1..] == a[1..] + b;
      TextConcat(a[1..], b);
    }
  }

  const HEAD := "{\"error\":{\"code\":"
  const MID := ",\"message\":\""
  const ID := "\"},\"id\":"
  const TAIL := ",\"jsonrpc\":\"2.0\"}"

  /** The fixed text of an error envelope, with its one-digit code. */
  const ENVELOPE_LEN := 55

  /** The error envelope for a request with this id. */
  function ErrorReply(message: Message, id: seq<string>, code: Code): Json {
    Json([HEAD, code.Digit(), MID, message.Wording(), ID] + id + [TAIL], false)
  }

  function ErrorText(message: Message, id: seq<string>, code: Code): string {
    Text(ErrorReply(message, id, code).chunks)
  }

  function ErrorLen(message: Message, id: seq<string>): nat {
    ENVELOPE_LEN + message.Length() + |Text(id)|
  }

  lemma {:induction false} ErrorTextLen(message: Message, id: seq<string>, code: Code)
    ensures |ErrorText(message, id, code)| == ErrorLen(message, id)
    ensures !ErrorReply(message, id, code).fails
  {
    hide Text;
    var c, m := code.Digit(), message.Wording();
    TextConcat([HEAD, c, MID, m, ID] + id, [TAIL]);
    TextConcat([HEAD, c, MID, m, ID], id);
    TextConcat([HEAD, c], [MID, m, ID]);
    TextConcat([HEAD], [c]);
    TextConcat([MID], [m, ID]);
    TextConcat([m], [ID]);
    assert [HEAD, c, MID, m, ID] == [HEAD, c] + [MID, m, ID];
    assert [HEAD, c] == [HEAD] + [c] && [MID, m, ID] == [MID] + [m, ID] && [m, ID] == [m] + [ID];
    SingleText(HEAD); SingleText(c); SingleText(MID); SingleText(m); SingleText(ID); SingleText(TAIL);
  }

  lemma {:induction false} SingleText(s: string)
    ensures Text([s]) == s
  {
    assert [s][1..] == [];
  }

  /** A number rounded up to whole budget chunks, or itself when that would not fit a `usize`. */
  function NextChunk(n: nat): (r: nat)
    ensures n <= r < n + BUDGET_CHUNK
    ensures r % BUDGET_CHUNK == 0 || r + BUDGET_CHUNK > USIZE_MAX
  {
    var up := (n + BUDGET_CHUNK - 1) / BUDGET_CHUNK * BUDGET_CHUNK;
    if up > USIZE_MAX then n else up
  }

  function Min(a: nat, b: nat): nat { if a < b then a else b }

  function SaturatingSub(a: nat, b: nat): nat { if a < b then 0 else a - b }

  /** What a reservation takes for `required` bytes when `available` are left: whole chunks if possible. */
  function Grant(required: nat, available: nat): (r: nat)
    requires required <= available
    ensures required <= r <= available
    ensures r == available || r % BUDGET_CHUNK == 0 || r + BUDGET_CHUNK > USIZE_MAX
  {
    Min(NextChunk(required), available)
  }

  /** A line of `n` bytes costs more, above the exempt floor, than is left; nothing does if there is no budget. */
  predicate TooDear(n: nat, left: Option<int>) { left.Some? && SaturatingSub(n, BUFFER_FLOOR) > left.value }

  // ----- The shared budget --------------------------------------------------------------------------

  class ResponseBudget {
    const limit: nat
    var reserved: nat
    ghost var others: nat   // what the other connections hold

    constructor (limit: nat)
      ensures this.limit == limit && reserved == others == 0
    {
      this.limit := limit;
      reserved := 0;
      others := 0;
    }

    /** What the other connections leave; nothing to count if the budget is unlimited. */
    ghost function Left(): Option<int>
      reads this
    {
      if limit == USIZE_MAX then None else Some(limit - others)
    }

    /** Other connections move their share of the counter at will, within the limit. */
    method Others(mine: nat)
      requires mine <= limit
      modifies this
      ensures reserved == others + mine <= limit
    {
      var theirs: nat :| theirs + mine <= limit;
      reserved := theirs + mine;
      others := theirs;
    }
  }

  class ResponseBuffer {
    var bytes: string
    var capacity: nat
    var granted: nat
    const limit: nat
    const budget: ResponseBudget

    predicate Unlimited() { budget.limit == USIZE_MAX }

    /** Every byte of capacity above the exempt floor is charged to the budget. */
    ghost predicate Valid()
      reads this, budget
    {
      && limit <= USIZE_MAX
      && |bytes| <= capacity
      && budget.reserved == budget.others + granted <= budget.limit
      && (!Unlimited() ==> capacity <= granted + BUFFER_FLOOR)
    }

    /** A line of `n` bytes needs nothing more from the budget. */
    predicate Covered(n: nat)
      reads this
    {
      Unlimited() || n <= granted + BUFFER_FLOOR
    }

    /** There is room for `n` more bytes, under the cap and already paid for. */
    predicate HasRoom(n: nat)
      reads this
    {
      |bytes| + n <= limit && Covered(|bytes| + n)
    }

    constructor (spare: nat, budget: ResponseBudget, limit: nat)
      requires spare <= BUFFER_FLOOR && limit <= USIZE_MAX && budget.reserved == budget.others <= budget.limit
      ensures Valid() && bytes == "" && granted == 0 && capacity == spare
      ensures this.limit == limit && this.budget == budget
    {
      bytes, capacity, granted := "", spare, 0;
      this.limit, this.budget := limit, budget;
    }

    /**
     The compare-and-swap loop. However the other connections interfere, what is already granted
     is never refused, a refusal changes nothing, and a success covers the total asked for, in whole
     chunks unless the budget is then used up. It is refused only when the others leave too little.
     */
    method Ensure(total: nat) returns (ok: bool)
      requires Valid()
      modifies this`granted, budget
      ensures Valid()
      ensures Unlimited() || total <= old(granted) ==>
                ok && granted == old(granted) && budget.others == old(budget.others)
      ensures !ok ==> !Unlimited() && total > budget.limit - budget.others
      ensures granted > old(granted) ==>
                || budget.reserved == budget.limit
                || (granted - old(granted)) % BUDGET_CHUNK == 0
                || granted - old(granted) + BUDGET_CHUNK > USIZE_MAX
      ensures ok && !Unlimited() ==> total <= granted
      ensures old(granted) <= granted && (!ok ==> granted == old(granted))
      ensures granted < old(granted) + SaturatingSub(total, old(granted)) + BUDGET_CHUNK
    {
      if budget.limit == USIZE_MAX || total <= granted { return true; }
      var required := total - granted;
      budget.Others(granted);
      var reserved := budget.reserved;
      var lost: nat := *;   // exchanges lost to other connections before this one is through
      while lost > 0
        invariant granted == old(granted) && budget.reserved == budget.others + granted <= budget.limit
        invariant reserved == budget.reserved
        decreases lost
      {
        if required > budget.limit - reserved { return false; }
        budget.Others(granted);
        reserved := budget.reserved;
        lost := lost - 1;
      }
      if required > budget.limit - reserved { return false; }
      var grant := Grant(required, budget.limit - reserved);
      budget.reserved := reserved + grant;
      granted := granted + grant;
      ok := true;
    }

    /** Charges a line of `lineBytes` bytes, the floor being exempt. */
    method Reserve(lineBytes: nat) returns (ok: bool)
      requires Valid()
      modifies this`granted, budget
      ensures Valid()
      ensures old(Covered(lineBytes)) ==> ok && budget.others == old(budget.others)
      ensures ok ==> Covered(lineBytes)
      ensures !ok ==> TooDear(lineBytes, budget.Left())
      ensures old(granted) <= granted && (!ok ==> granted == old(granted))
    {
      ok := Ensure(SaturatingSub(lineBytes, BUFFER_FLOOR));
    }

    /**
     `LimitedWriter::write`: all of the chunk, or nothing and a reason. Room already reserved is
     never refused; the per-line reason is given exactly when the cap is the obstacle.
     */
    method Write(chunk: string, writerLimit: nat, tail: nat) returns (failure: Option<Limit>)
      requires Valid() && writerLimit + tail == limit
      modifies this, budget
      ensures Valid() && old(granted) <= granted
      ensures failure.None? ==> bytes == old(bytes) + chunk
      ensures failure.None? && chunk != "" ==> HasRoom(tail)
      ensures failure.Some? ==> bytes == old(bytes) && !old(HasRoom(|chunk| + tail))
      ensures failure == Some(PerLine) <==> chunk != "" && |old(bytes)| + |chunk| > writerLimit
      ensures failure == Some(Global) ==> TooDear(|old(bytes)| + |chunk| + tail, budget.Left())
      ensures old(Covered(|bytes| + |chunk| + tail)) ==> budget.others == old(budget.others)
    {
      if chunk == "" { return None; }
      var len := |bytes| + |chunk|;
      if len > writerLimit { return Some(PerLine); }
      var ok := Reserve(len + tail);
      if !ok { return Some(Global); }
      if len > capacity {
        capacity := if len <= BUFFER_FLOOR then BUFFER_FLOOR
                    else if budget.limit == USIZE_MAX then NextChunk(len)
                    else granted + BUFFER_FLOOR;
        capacity := Min(capacity, writerLimit);
      }
      bytes := bytes + chunk;
      failure := None;
    }

    /**
     Encodes a value leaving `tail` bytes for what must follow it; on any failure the buffer's
     contents are as before (its capacity may have grown, and stays charged).
     */
    method Encode(value: Json, tail: nat) returns (e: Encoded)
      requires Valid()
      modifies this, budget
      ensures Valid() && old(granted) <= granted
      ensures e.Done? ==> bytes == old(bytes) + Text(value.chunks) && !value.fails
      ensures e.Done? && old(HasRoom(tail)) ==> HasRoom(tail)
      ensures !e.Done? ==> bytes == old(bytes)
      ensures e.Limited? ==> !old(HasRoom(|Text(value.chunks)| + tail))
      ensures e == Limited(PerLine) ==> |old(bytes)| + |Text(value.chunks)| + tail > limit
      ensures e == Limited(Global) ==> TooDear(|old(bytes)| + |Text(value.chunks)| + tail, budget.Left())
      ensures old(Covered(|bytes| + |Text(value.chunks)| + tail)) ==> budget.others == old(budget.others)
      ensures e == Broken ==> value.fails
    {
      if tail > limit { return Limited(PerLine); }
      ghost var start := bytes;
      var startLen := |bytes|;
      var failure := WriteAll(value.chunks, tail);
      if failure.None? && !value.fails { return Done; }
      bytes := bytes[..startLen];
      assert bytes == start;
      e := if failure.Some? then Limited(failure.value) else Broken;
    }

    /** The serializer's writes, one chunk after another, up to the first that is refused. */
    method WriteAll(chunks: seq<string>, tail: nat) returns (failure: Option<Limit>)
      requires Valid() && tail <= limit
      modifies this, budget
      ensures Valid() && old(granted) <= granted && old(bytes) <= bytes
      ensures failure.None? ==> bytes == old(bytes) + Text(chunks)
      ensures failure.None? && old(HasRoom(tail)) ==> HasRoom(tail)
      ensures failure.Some? ==> !old(HasRoom(|Text(chunks)| + tail))
      ensures failure == Some(PerLine) ==> |old(bytes)| + |Text(chunks)| + tail > limit
      ensures failure == Some(Global) ==> TooDear(|old(bytes)| + |Text(chunks)| + tail, budget.Left())
      ensures old(Covered(|bytes| + |Text(chunks)| + tail)) ==> budget.others == old(budget.others)
    {
      var k := 0;
      assert old(bytes) == old(bytes) + Text(chunks[..0]);
      hide Text;
      while k < |chunks|
        invariant 0 <= k <= |chunks| && Valid() && old(granted) <= granted
        invariant bytes == old(bytes) + Text(chunks[..k])
        invariant old(HasRoom(tail)) ==> HasRoom(tail)
        invariant old(Covered(|bytes| + |Text(chunks)| + tail)) ==> budget.others == old(budget.others)
      {
        TextPush(chunks, k);
        TextPrefix(chunks, k + 1);
        failure := Write(chunks[k], limit - tail, tail);
        if failure.Some? { return; }
        k := k + 1;
      }
      assert chunks[..k] == chunks;
      failure := None;
    }

    /** Brackets, commas and newlines: reserved room is never refused. */
    method Framing(mark: string) returns (failure: Option<Limit>)
      requires Valid() && mark != ""
      modifies this, budget
      ensures Valid() && old(granted) <= granted
      ensures failure.None? ==> bytes == old(bytes) + mark && |bytes| <= limit
      ensures failure.Some? ==> bytes == old(bytes) && !old(HasRoom(|mark|))
      ensures failure == Some(Global) ==> TooDear(|old(bytes)| + |mark|, budget.Left())
      ensures old(Covered(|bytes| + |mark|)) ==> budget.others == old(budget.others)
    {
      failure := Write(mark, limit, 0);
    }

    /** `bytes = Vec::new()`. */
    method Discard()
      requires Valid()
      modifies this
      ensures Valid() && bytes == "" && capacity == 0 && granted == old(granted)
    {
      bytes, capacity := "", 0;
    }

    /** The buffer goes back to its connection, kept only up to the floor; then the grant is released. */
    method Recycle() returns (spare: nat)
      requires Valid()
      modifies this, budget
      ensures spare <= BUFFER_FLOOR && granted == 0 && budget.reserved == budget.others <= budget.limit
      ensures budget.others == old(budget.others)
    {
      spare := if capacity > BUFFER_FLOOR then 0 else capacity;
      bytes, capacity := "", 0;
      budget.reserved := budget.reserved - granted;
      granted := 0;
    }
  }

  datatype Encoded = Done | Limited(limit: Limit) | Broken

  lemma {:induction false} TextPush(chunks: seq<string>, k: nat)
    requires k < |chunks|
    ensures Text(chunks[..k + 1]) == Text(chunks[..k]) + chunks[k]
  {
    assert chunks[..k + 1] == chunks[..k] + [chunks[k]];
    TextConcat(chunks[..k], [chunks[k]]);
    SingleText(chunks[k]);
  }

  lemma {:induction false} TextPrefix(chunks: seq<string>, k: nat)
    requires k <= |chunks|
    ensures |Text(chunks[..k])| <= |Text(chunks)|
  {
    assert chunks == chunks[..k] + chunks[k..];
    TextConcat(chunks[..k], chunks[k..]);
  }
}

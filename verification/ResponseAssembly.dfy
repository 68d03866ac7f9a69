/** Replies to single requests and to batches, assembled in one buffer. */
module ResponseAssembly {
  import opened Response
  import opened Wrappers

  /** A request, of which assembly only uses the text of its id ("null" when it has none). */
  datatype Command = Command(id: seq<string>)

  datatype Delivery = Buffered | BudgetErrors(ids: seq<seq<string>>, batch: bool)

  datatype Failure = TooManyElements | CannotFitErrors | Overflow(limit: Limit) | BrokenReply

  datatype Assembly = Assembled(delivery: Delivery) | Refused(failure: Failure)

  // ----- The room a batch needs ----------------------------------------------------------------------

  /** The longest error a command can be answered with. */
  function ErrorSize(c: Command): nat { ErrorLen(SkippedMsg, c.id) }

  /** Error replies for the commands from `i` on. */
  function LaterErrors(commands: seq<Command>, i: nat): nat
    requires i <= |commands|
    decreases |commands| - i
  {
    if i == |commands| then 0 else ErrorSize(commands[i]) + LaterErrors(commands, i + 1)
  }

  lemma {:induction false} LaterStep(commands: seq<Command>, i: nat)
    requires i < |commands|
    ensures LaterErrors(commands, i) == ErrorSize(commands[i]) + LaterErrors(commands, i + 1)
  {
  }

  /** What must follow the reply to command `i`: errors for the later ones, commas, and the closing bracket. */
  function Tail(commands: seq<Command>, i: nat): nat
    requires i < |commands|
  {
    LaterErrors(commands, i + 1) + (|commands| - 1 - i) + 2
  }

  /** The line when every command is answered with an error. */
  function AllErrors(commands: seq<Command>): nat {
    LaterErrors(commands, 0) + |commands| + 2
  }

  // ----- What a finished line says ---------------------------------------------------------------------

  /** One answer: the command's own reply, or an error envelope. */
  datatype Part = Own(text: string) | Error(message: Message, id: seq<string>, code: Code)

  function Render(p: Part): string {
    match p
    case Own(text) => text
    case Error(message, id, code) => ErrorText(message, id, code)
  }

  function Join(parts: seq<Part>): string {
    if parts == [] then "" else if |parts| == 1 then Render(parts[0])
    else Join(parts[..|parts| - 1]) + "," + Render(parts[|parts| - 1])
  }

  lemma {:induction false} JoinPush(parts: seq<Part>, part: Part)
    ensures Join(parts + [part]) == Join(parts) + (if parts == [] then "" else ",") + Render(part)
  {
    assert (parts + [part])[..|parts|] == parts;
  }

  /** The bytes before the reply to command `|parts|`. */
  function Prefix(parts: seq<Part>): string {
    "[" + Join(parts) + (if parts == [] then "" else ",")
  }

  lemma {:induction false} PrefixPush(parts: seq<Part>, part: Part)
    ensures Prefix(parts) + Render(part) == "[" + Join(parts + [part])
  {
    JoinPush(parts, part);
    Regroup("[", Join(parts), if parts == [] then "" else ",", Render(part));
  }

  lemma {:induction false} Regroup(a: string, b: string, c: string, d: string)
    ensures (a + b + c) + d == a + (b + c + d)
  {
  }

  /** Replies `0..n` are the commands' own. */
  ghost predicate OwnReplies(replies: seq<Json>, parts: seq<Part>, n: nat) {
    n <= |parts| <= |replies| && forall i :: 0 <= i < n ==>
      parts[i] == Own(Text(replies[i].chunks)) && !replies[i].fails
  }

  /** From command `k` on the answers are errors: the limit that was hit, then "not executed". */
  ghost predicate ErrorsFrom(commands: seq<Command>, parts: seq<Part>, k: nat, l: Limit) {
    && k < |parts| <= |commands|
    && parts[k] == Error(l.Message(), commands[k].id, l.Code())
    && forall i :: k < i < |parts| ==> parts[i] == Error(SkippedMsg, commands[i].id, l.Code())
  }

  /**
   The answers given so far. Before an overflow every command was run and its own reply taken.
   An overflow ends execution at that command; it happens only if the reply, with the error replies
   that might have to follow, would have exceeded the cap, or have cost more than the other
   connections left of the budget.
   */
  ghost predicate Answered(commands: seq<Command>, replies: seq<Json>, limit: nat, left: Option<int>, parts: seq<Part>,
                           executed: nat, rejected: seq<Limit>) {
    && |parts| <= |commands| == |replies|
    && if rejected == [] then executed == |parts| && OwnReplies(replies, parts, |parts|)
       else
         && |rejected| == 1 && 1 <= executed <= |parts|
         && OwnReplies(replies, parts, executed - 1)
         && ErrorsFrom(commands, parts, executed - 1, rejected[0])
         && var line := |Prefix(parts[..executed - 1])| + |Text(replies[executed - 1].chunks)|
                        + Tail(commands, executed - 1);
            if rejected[0] == PerLine then line > limit else TooDear(line, left)
  }

  // ----- Batches ------------------------------------------------------------------------------------

  /**
   Answers one command of a batch. With room for its error and for what follows, this cannot fail
   for a limit, and leaves the room for what follows.
   */
  method AnswerOne(command: Command, reply: Json, tail: nat, overflow: Option<Limit>, buffer: ResponseBuffer)
    returns (broken: bool, overflow': Option<Limit>, ghost part: Part)
    requires buffer.Valid() && buffer.HasRoom(ErrorSize(command) + tail)
    modifies buffer, buffer.budget
    ensures buffer.Valid()
    ensures broken ==> overflow.None? && reply.fails
    ensures !broken ==> buffer.bytes == old(buffer.bytes) + Render(part) && buffer.HasRoom(tail)
    ensures overflow.Some? ==> overflow' == overflow && part == Error(SkippedMsg, command.id, overflow.value.Code())
    ensures overflow.None? && overflow'.None? && !broken ==> part == Own(Text(reply.chunks)) && !reply.fails
    ensures overflow.None? && overflow'.Some? ==>
              part == Error(overflow'.value.Message(), command.id, overflow'.value.Code())
    ensures overflow.None? && overflow' == Some(PerLine) ==>
              |old(buffer.bytes)| + |Text(reply.chunks)| + tail > buffer.limit
    ensures overflow.None? && overflow' == Some(Global) ==>
              TooDear(|old(buffer.bytes)| + |Text(reply.chunks)| + tail, buffer.budget.Left())
    ensures overflow.Some? ==> buffer.budget.others == old(buffer.budget.others)
  {
    hide Text;
    broken, overflow' := false, overflow;
    var message := SkippedMsg;
    if overflow.None? {
      var encoded := buffer.Encode(reply, tail);
      if encoded == Done { return false, None, Own(Text(reply.chunks)); }
      if encoded == Broken { return true, None, Own(""); }
      overflow' := Some(encoded.limit);
      message := encoded.limit.Message();
    }
    var code := overflow'.value.Code();
    part := Error(message, command.id, code);
    ErrorTextLen(message, command.id, code);
    var encoded := buffer.Encode(ErrorReply(message, command.id, code), tail);
    assert encoded == Done;
  }

  lemma {:induction false} OwnReply(commands: seq<Command>, replies: seq<Json>, limit: nat, left: Option<int>,
                                    parts: seq<Part>, executed: nat, part: Part)
    requires Answered(commands, replies, limit, left, parts, executed, []) && |parts| < |commands|
    requires part == Own(Text(replies[|parts|].chunks)) && !replies[|parts|].fails
    ensures Answered(commands, replies, limit, left, parts + [part], executed + 1, [])
  {
  }

  lemma {:induction false} FirstError(commands: seq<Command>, replies: seq<Json>, limit: nat, left: Option<int>,
                                      parts: seq<Part>, executed: nat, part: Part, l: Limit)
    requires Answered(commands, replies, limit, left, parts, executed, []) && |parts| < |commands|
    requires part == Error(l.Message(), commands[|parts|].id, l.Code())
    requires var line := |Prefix(parts)| + |Text(replies[|parts|].chunks)| + Tail(commands, |parts|);
             if l == PerLine then line > limit else TooDear(line, left)
    ensures Answered(commands, replies, limit, left, parts + [part], executed + 1, [l])
  {
    var more := parts + [part];
    assert more[..|parts|] == parts;
    assert OwnReplies(replies, more, |parts|);
    assert ErrorsFrom(commands, more, |parts|, l);
  }

  lemma {:induction false} LaterError(commands: seq<Command>, replies: seq<Json>, limit: nat, left: Option<int>,
                                      parts: seq<Part>, executed: nat, l: Limit, part: Part)
    requires Answered(commands, replies, limit, left, parts, executed, [l]) && |parts| < |commands|
    requires part == Error(SkippedMsg, commands[|parts|].id, l.Code())
    ensures Answered(commands, replies, limit, left, parts + [part], executed, [l])
  {
    var more := parts + [part];
    assert more[..executed - 1] == parts[..executed - 1];
    assert OwnReplies(replies, more, executed - 1);
    assert ErrorsFrom(commands, more, executed - 1, l);
  }

  /** What the rest of a batch may need after the first `i` answers. */
  function Remaining(commands: seq<Command>, i: nat): nat
    requires i <= |commands|
  {
    LaterErrors(commands, i) + (if i == 0 then SaturatingSub(|commands|, 1) else |commands| - i) + 2
  }

  /** Between two answers: the line so far, and the room still reserved. */
  ghost predicate Open(commands: seq<Command>, buffer: ResponseBuffer, parts: seq<Part>)
    reads buffer, buffer.budget
  {
    && buffer.Valid() && |parts| <= |commands|
    && buffer.bytes == "[" + Join(parts) && buffer.HasRoom(Remaining(commands, |parts|))
  }

  /** How an answer relates to the command and to the overflow before and after it. */
  ghost predicate Answer(command: Command, reply: Json, before: nat, tail: nat, limit: nat, left: Option<int>,
                         overflow: Option<Limit>, overflow': Option<Limit>, part: Part) {
    match (overflow, overflow')
    case (Some(l), _) => overflow' == overflow && part == Error(SkippedMsg, command.id, l.Code())
    case (None, None) => part == Own(Text(reply.chunks)) && !reply.fails
    case (None, Some(l)) =>
      && part == Error(l.Message(), command.id, l.Code())
      && var line := before + |Text(reply.chunks)| + tail;
         if l == PerLine then line > limit else TooDear(line, left)
  }

  /** One round of the batch loop: a comma if needed, then one answer. */
  method BatchRound(commands: seq<Command>, reply: Json, i: nat, later: nat, overflow: Option<Limit>,
                    buffer: ResponseBuffer, ghost parts: seq<Part>)
    returns (broken: bool, overflow': Option<Limit>, ghost part: Part)
    requires i == |parts| < |commands| && Open(commands, buffer, parts) && later == LaterErrors(commands, i + 1)
    modifies buffer, buffer.budget
    ensures buffer.Valid()
    ensures broken ==> overflow.None? && reply.fails
    ensures !broken ==> Open(commands, buffer, parts + [part])
    ensures !broken ==>
              Answer(commands[i], reply, |Prefix(parts)|, Tail(commands, i), buffer.limit, buffer.budget.Left(),
                     overflow, overflow', part)
    ensures overflow.Some? ==> buffer.budget.others == old(buffer.budget.others)
  {
    hide LaterErrors;
    hide Join;
    hide Text;
    Comma(commands, i, buffer, parts);
    var tail := later + (|commands| - 1 - i) + 2;
    broken, overflow', part := AnswerOne(commands[i], reply, tail, overflow, buffer);
    PrefixPush(parts, part);
    RoomLeft(commands, i);
  }

  lemma {:induction false} RoomLeft(commands: seq<Command>, i: nat)
    requires i < |commands|
    ensures Remaining(commands, i + 1) == Tail(commands, i)
  {
  }

  /** The comma before every answer but the first. */
  method Comma(commands: seq<Command>, i: nat, buffer: ResponseBuffer, ghost parts: seq<Part>)
    requires buffer.Valid() && i == |parts| < |commands| && buffer.bytes == "[" + Join(parts)
    requires buffer.HasRoom(Remaining(commands, i))
    modifies buffer, buffer.budget
    ensures buffer.Valid() && buffer.bytes == Prefix(parts)
    ensures buffer.HasRoom(ErrorSize(commands[i]) + Tail(commands, i))
    ensures buffer.budget.others == old(buffer.budget.others)
  {
    if i > 0 {
      var failure := buffer.Framing(",");
      assert failure.None?;
    }
  }

  lemma {:induction false} AnsweredNext(commands: seq<Command>, replies: seq<Json>, limit: nat, left: Option<int>,
                                        parts: seq<Part>, executed: nat, rejected: seq<Limit>, part: Part,
                                        overflow': Option<Limit>)
    requires Answered(commands, replies, limit, left, parts, executed, rejected) && |parts| < |commands|
    requires Answer(commands[|parts|], replies[|parts|], |Prefix(parts)|, Tail(commands, |parts|), limit, left,
                    if rejected == [] then None else Some(rejected[0]), overflow', part)
    ensures Answered(commands, replies, limit, left, parts + [part], if rejected == [] then executed + 1 else executed,
                     if overflow'.Some? then [overflow'.value] else [])
  {
    if rejected != [] {
      assert rejected == [rejected[0]];
      LaterError(commands, replies, limit, left, parts, executed, rejected[0], part);
    } else if overflow'.None? {
      OwnReply(commands, replies, limit, left, parts, executed, part);
    } else {
      FirstError(commands, replies, limit, left, parts, executed, part, overflow'.value);
    }
  }

  /**
   Runs the commands of a batch whose error room is reserved. Only a reply the serializer itself
   cannot write can stop it; otherwise the line is complete, fits the cap, and answers every
   command in order as `Answered` says.
   */
  method AnswerAll(commands: seq<Command>, replies: seq<Json>, buffer: ResponseBuffer)
    returns (broken: bool, executed: nat, rejected: seq<Limit>, ghost parts: seq<Part>)
    requires buffer.Valid() && buffer.bytes == "" && commands != [] && |replies| == |commands|
    requires buffer.HasRoom(AllErrors(commands))
    modifies buffer, buffer.budget
    ensures buffer.Valid() && executed <= |commands|
    ensures broken ==> executed >= 1 && replies[executed - 1].fails
    ensures !broken ==>
              && |parts| == |commands|
              && Answered(commands, replies, buffer.limit, buffer.budget.Left(), parts, executed, rejected)
    ensures !broken ==> buffer.bytes == "[" + Join(parts) + "]\n" && |buffer.bytes| <= buffer.limit
  {
    var failure := buffer.Framing("[");
    assert failure.None? && "" + "[" == "[" + Join([]);
    broken, executed, rejected, parts := RunCommands(commands, replies, buffer);
    if !broken { failure := buffer.Framing("]\n"); }
  }

  method RunCommands(commands: seq<Command>, replies: seq<Json>, buffer: ResponseBuffer)
    returns (broken: bool, executed: nat, rejected: seq<Limit>, ghost parts: seq<Part>)
    requires Open(commands, buffer, []) && |replies| == |commands|
    modifies buffer, buffer.budget
    ensures Midway(commands, replies, buffer, broken, executed, rejected, parts) && (!broken ==> |parts| == |commands|)
  {
    RoundStart(commands, replies, buffer);
    hide *;
    broken, executed, rejected, parts := RunRounds(commands, replies, LaterErrors(commands, 0), buffer);
  }

  method RunRounds(commands: seq<Command>, replies: seq<Json>, allErrors: nat, buffer: ResponseBuffer)
    returns (broken: bool, executed: nat, rejected: seq<Limit>, ghost parts: seq<Part>)
    requires RoundAt(commands, replies, buffer, 0, allErrors, false, 0, [], [])
    modifies buffer, buffer.budget
    ensures Midway(commands, replies, buffer, broken, executed, rejected, parts) && (!broken ==> |parts| == |commands|)
  {
    hide *;
    broken, executed, rejected, parts := false, 0, [], [];
    var later, i := allErrors, 0;
    while i < |commands| && !broken
      invariant i <= |commands| && RoundAt(commands, replies, buffer, i, later, broken, executed, rejected, parts)
    {
      broken, later, executed, rejected, parts :=
        RunOne(commands, replies, i, later, executed, rejected, buffer, parts);
      i := i + 1;
    }
    RoundEnds(commands, replies, buffer, i, later, broken, executed, rejected, parts);
  }

  /** Before command `i`: as many replies, and the errors of the commands from `i` on still to be paid for. */
  ghost predicate RoundAt(commands: seq<Command>, replies: seq<Json>, buffer: ResponseBuffer, i: nat, later: nat,
                          broken: bool, executed: nat, rejected: seq<Limit>, parts: seq<Part>)
    reads buffer, buffer.budget
  {
    && i == |parts| <= |commands| && later == LaterErrors(commands, i)
    && Midway(commands, replies, buffer, broken, executed, rejected, parts)
  }

  lemma {:induction false} RoundStart(commands: seq<Command>, replies: seq<Json>, buffer: ResponseBuffer)
    requires Open(commands, buffer, []) && |replies| == |commands|
    ensures RoundAt(commands, replies, buffer, 0, LaterErrors(commands, 0), false, 0, [], [])
  {
  }

  lemma {:induction false} RoundEnds(commands: seq<Command>, replies: seq<Json>, buffer: ResponseBuffer, i: nat,
                                     later: nat, broken: bool, executed: nat, rejected: seq<Limit>, parts: seq<Part>)
    requires RoundAt(commands, replies, buffer, i, later, broken, executed, rejected, parts)
    ensures Midway(commands, replies, buffer, broken, executed, rejected, parts) && |parts| == i
  {
  }

  /** Between two rounds of a batch. */
  ghost predicate Midway(commands: seq<Command>, replies: seq<Json>, buffer: ResponseBuffer, broken: bool,
                         executed: nat, rejected: seq<Limit>, parts: seq<Part>)
    reads buffer, buffer.budget
  {
    && buffer.Valid() && |replies| == |commands|
    && if broken then 1 <= executed <= |commands| && replies[executed - 1].fails
       else
         && Open(commands, buffer, parts)
         && Answered(commands, replies, buffer.limit, buffer.budget.Left(), parts, executed, rejected)
  }

  method RunOne(commands: seq<Command>, replies: seq<Json>, i: nat, later: nat, executed: nat, rejected: seq<Limit>,
                buffer: ResponseBuffer, ghost parts: seq<Part>)
    returns (broken: bool, later': nat, executed': nat, rejected': seq<Limit>, ghost parts': seq<Part>)
    requires i < |commands| && RoundAt(commands, replies, buffer, i, later, false, executed, rejected, parts)
    modifies buffer, buffer.budget
    ensures RoundAt(commands, replies, buffer, i + 1, later', broken, executed', rejected', parts')
  {
    LaterStep(commands, i);
    hide Midway;
    hide LaterErrors;
    later' := later - ErrorSize(commands[i]);
    broken, executed', rejected', parts' :=
      RunMidway(commands, replies, i, later', executed, rejected, buffer, parts);
  }

  method RunMidway(commands: seq<Command>, replies: seq<Json>, i: nat, later: nat, executed: nat, rejected: seq<Limit>,
                   buffer: ResponseBuffer, ghost parts: seq<Part>)
    returns (broken: bool, executed': nat, rejected': seq<Limit>, ghost parts': seq<Part>)
    requires i == |parts| < |commands| && later == LaterErrors(commands, i + 1)
    requires Midway(commands, replies, buffer, false, executed, rejected, parts)
    modifies buffer, buffer.budget
    ensures |parts'| == i + 1 && Midway(commands, replies, buffer, broken, executed', rejected', parts')
  {
    MidwayIs(commands, replies, buffer, executed, rejected, parts);
    hide *;
    ghost var left := buffer.budget.Left();
    var overflow := if rejected == [] then None else Some(rejected[0]);
    var overflow';
    ghost var part;
    broken, overflow', part := BatchRound(commands, replies[i], i, later, overflow, buffer, parts);
    SameLeft(buffer.budget);
    AnsweredLeft(commands, replies, buffer.limit, left, buffer.budget.Left(), parts, executed, rejected);
    MidwayNext(commands, replies, buffer, broken, executed, rejected, parts, part, overflow');
    executed' := if overflow.None? then executed + 1 else executed;
    rejected' := if overflow'.Some? then [overflow'.value] else [];
    parts' := parts + [part];
  }

  lemma {:induction false} MidwayIs(commands: seq<Command>, replies: seq<Json>, buffer: ResponseBuffer, executed: nat,
                                    rejected: seq<Limit>, parts: seq<Part>)
    requires Midway(commands, replies, buffer, false, executed, rejected, parts)
    ensures Open(commands, buffer, parts) && |replies| == |commands|
    ensures Answered(commands, replies, buffer.limit, buffer.budget.Left(), parts, executed, rejected)
  {
  }

  /** What the budget leaves depends on the other connections alone. */
  twostate lemma SameLeft(budget: ResponseBudget)
    ensures budget.others == old(budget.others) ==> budget.Left() == old(budget.Left())
  {
  }

  lemma {:induction false} MidwayNext(commands: seq<Command>, replies: seq<Json>, buffer: ResponseBuffer, broken: bool,
                                      executed: nat, rejected: seq<Limit>, parts: seq<Part>, part: Part,
                                      overflow': Option<Limit>)
    requires buffer.Valid() && |replies| == |commands| && |parts| < |commands|
    requires Answered(commands, replies, buffer.limit, buffer.budget.Left(), parts, executed, rejected)
    requires var overflow := if rejected == [] then None else Some(rejected[0]);
             && (broken ==> overflow.None? && replies[|parts|].fails)
             && (!broken ==> Open(commands, buffer, parts + [part]))
             && (!broken ==>
                   Answer(commands[|parts|], replies[|parts|], |Prefix(parts)|, Tail(commands, |parts|), buffer.limit,
                          buffer.budget.Left(), overflow, overflow', part))
    ensures Midway(commands, replies, buffer, broken, if rejected == [] then executed + 1 else executed,
                   if overflow'.Some? then [overflow'.value] else [], parts + [part])
  {
    assert rejected == [] ==> executed == |parts|;
    if !broken {
      AnsweredNext(commands, replies, buffer.limit, buffer.budget.Left(), parts, executed, rejected, part, overflow');
    }
    hide Answered;
    hide Answer;
    hide Open;
  }

  /** Before an overflow it does not matter what the budget leaves. */
  lemma {:induction false} AnsweredLeft(commands: seq<Command>, replies: seq<Json>, limit: nat, left: Option<int>,
                                        left': Option<int>, parts: seq<Part>, executed: nat, rejected: seq<Limit>)
    requires Answered(commands, replies, limit, left, parts, executed, rejected)
    requires rejected != [] ==> left == left'
    ensures Answered(commands, replies, limit, left', parts, executed, rejected)
  {
  }

  /** `Vec<Value>` of ids, for the streamed fallback. */
  function Ids(commands: seq<Command>): (r: seq<seq<string>>)
    ensures |r| == |commands| && forall i :: 0 <= i < |r| ==> r[i] == commands[i].id
  {
    seq(|commands|, i requires 0 <= i < |commands| => commands[i].id)
  }

  /** The size of every command's error, summed (`try_reserve_batch_error_responses`). */
  method SumErrors(commands: seq<Command>) returns (total: nat)
    ensures total == LaterErrors(commands, 0)
  {
    total := 0;
    var i := |commands|;
    while i > 0
      invariant 0 <= i <= |commands| && total == LaterErrors(commands, i)
    {
      i := i - 1;
      total := ErrorSize(commands[i]) + total;
    }
  }

  /**
   A batch. Too long a batch, or one whose errors cannot fit the cap, is refused before any command
   runs; so is one whose errors cost more than the other connections leave of the budget, which is
   answered with budget errors for every id.
   Past that point no limit can make it fail, whatever other connections take from the budget.
   */
  method AssembleBatch(commands: seq<Command>, replies: seq<Json>, buffer: ResponseBuffer)
    returns (r: Assembly, executed: nat, rejected: seq<Limit>, ghost parts: seq<Part>)
    requires buffer.Valid() && buffer.bytes == "" && |replies| == |commands|
    modifies buffer, buffer.budget
    ensures buffer.Valid() && executed <= |commands|
    ensures r == Refused(TooManyElements) <==> |commands| > MAX_ARRAY_BATCH
    ensures r == Refused(CannotFitErrors) <==> 0 < |commands| <= MAX_ARRAY_BATCH && AllErrors(commands) > buffer.limit
    ensures r.Refused? && r.failure.Overflow? ==> commands == [] && buffer.limit < 3
    ensures r == Refused(BrokenReply) ==> 0 < executed && replies[executed - 1].fails
    ensures r.Assembled? && r.delivery.BudgetErrors? ==>
              r.delivery == BudgetErrors(Ids(commands), true) && executed == 0 && rejected == [Global]
              && buffer.bytes == ""
    ensures r.Assembled? && r.delivery.BudgetErrors? ==>
              !old(buffer.Covered(AllErrors(commands))) && TooDear(AllErrors(commands), buffer.budget.Left())
    ensures r == Assembled(Buffered) && commands == [] ==> buffer.bytes == "[]\n" && rejected == []
    ensures r == Assembled(Buffered) && commands != [] ==>
              && |parts| == |commands|
              && Answered(commands, replies, buffer.limit, buffer.budget.Left(), parts, executed, rejected)
    ensures r == Assembled(Buffered) && commands != [] ==> buffer.bytes == "[" + Join(parts) + "]\n"
    ensures r == Assembled(Buffered) ==> |buffer.bytes| <= buffer.limit
    ensures r.Refused? && r != Refused(BrokenReply) ==> executed == 0
  {
    executed, rejected, parts := 0, [], [];
    var n := |commands|;
    if n > MAX_ARRAY_BATCH { return Refused(TooManyElements), 0, [], []; }
    if n == 0 {
      var failure := buffer.Framing("[]\n");
      if failure.Some? { return Refused(Overflow(failure.value)), 0, [], []; }
      return Assembled(Buffered), 0, [], [];
    }
    var later := SumErrors(commands);
    var all := later + (n + 2);
    if all > buffer.limit { return Refused(CannotFitErrors), 0, [], []; }
    var reserved := buffer.Reserve(all);
    if !reserved {
      buffer.Discard();
      return Assembled(BudgetErrors(Ids(commands), true)), 0, [Global], [];
    }
    var broken;
    broken, executed, rejected, parts := AnswerAll(commands, replies, buffer);
    r := if broken then Refused(BrokenReply) else Assembled(Buffered);
  }

  // ----- Single requests ---------------------------------------------------------------------------

  /** The answer to a single request: its own reply, or the error of the limit that reply hit. */
  function SinglePart(command: Command, reply: Json, overflow: Option<Limit>): Part {
    if overflow.None? then Own(Text(reply.chunks))
    else Error(overflow.value.Message(), command.id, overflow.value.Code())
  }

  /** The longer of the two errors a single request may be answered with, and the newline. */
  function SingleErrorSize(command: Command): nat { ErrorLen(PerLineMsg, command.id) + 1 }

  /**
   A single request. It is run only once its error reply is paid for; if that error fits the cap,
   no limit can then make it fail.
   */
  method AssembleSingle(command: Command, reply: Json, buffer: ResponseBuffer)
    returns (r: Assembly, executed: bool, rejected: seq<Limit>)
    requires buffer.Valid() && buffer.bytes == ""
    modifies buffer, buffer.budget
    ensures buffer.Valid()
    ensures r.Assembled? && r.delivery.BudgetErrors? ==>
              r.delivery == BudgetErrors([command.id], false) && !executed && rejected == [Global] && buffer.bytes == ""
    ensures r.Assembled? && r.delivery.BudgetErrors? ==>
              SingleErrorSize(command) <= buffer.limit && TooDear(SingleErrorSize(command), buffer.budget.Left())
    ensures r.Refused? && !executed ==>
              || (buffer.limit == 0 && rejected == [])
              || (SingleErrorSize(command) > buffer.limit && rejected == [Global]
                  && TooDear(SingleErrorSize(command), buffer.budget.Left()))
    ensures r == Assembled(Buffered) ==> executed && |rejected| <= 1 && |buffer.bytes| <= buffer.limit
    ensures r == Assembled(Buffered) ==>
              var overflow := if rejected == [] then None else Some(rejected[0]);
              buffer.bytes == Render(SinglePart(command, reply, overflow)) + "\n"
    ensures executed && rejected == [PerLine] ==> |Text(reply.chunks)| + 1 > buffer.limit
    ensures executed && rejected == [Global] ==> TooDear(|Text(reply.chunks)| + 1, buffer.budget.Left())
    ensures r == Refused(BrokenReply) ==> executed && reply.fails
    ensures executed && SingleErrorSize(command) <= buffer.limit ==>
              r == Assembled(Buffered) || r == Refused(BrokenReply)
  {
    executed, rejected := false, [];
    if buffer.limit == 0 { return Refused(Overflow(PerLine)), false, []; }
    var errorSize := SingleErrorSize(command);
    var reserved := buffer.Reserve(errorSize);
    if !reserved {
      if errorSize > buffer.limit { return Refused(Overflow(PerLine)), false, [Global]; }
      buffer.Discard();
      return Assembled(BudgetErrors([command.id], false)), false, [Global];
    }
    executed := true;
    var broken, overflow;
    ghost var part;
    broken, overflow, part := AnswerSingle(command, reply, buffer);
    if broken && overflow.None? { return Refused(BrokenReply), true, []; }
    if broken { return Refused(Overflow(PerLine)), true, [overflow.value]; }
    rejected := if overflow.None? then [] else [overflow.value];
    var failure := buffer.Framing("\n");
    if failure.Some? { return Refused(Overflow(failure.value)), true, rejected; }
    r := Assembled(Buffered);
  }

  /** The reply, or the error of the limit it hit. */
  method AnswerSingle(command: Command, reply: Json, buffer: ResponseBuffer)
    returns (broken: bool, overflow: Option<Limit>, ghost part: Part)
    requires buffer.Valid() && buffer.bytes == "" && buffer.Covered(SingleErrorSize(command))
    modifies buffer, buffer.budget
    ensures buffer.Valid()
    ensures !broken ==> buffer.bytes == Render(part) && part == SinglePart(command, reply, overflow)
    ensures overflow == Some(PerLine) ==> |Text(reply.chunks)| + 1 > buffer.limit
    ensures overflow == Some(Global) ==> TooDear(|Text(reply.chunks)| + 1, buffer.budget.Left())
    ensures !broken && overflow.Some? ==> buffer.Covered(|buffer.bytes| + 1)
    ensures broken && overflow.None? ==> reply.fails
    ensures SingleErrorSize(command) <= buffer.limit ==>
              if broken then overflow.None? else buffer.HasRoom(1)
  {
    hide Text;
    broken, overflow, part := false, None, Own(Text(reply.chunks));
    assert "" + Text(reply.chunks) == Text(reply.chunks);
    var encoded := buffer.Encode(reply, 1);
    if encoded == Broken { return true, None, part; }
    if encoded.Limited? {
      var l := encoded.limit;
      overflow, part := Some(l), Error(l.Message(), command.id, l.Code());
      ErrorTextLen(l.Message(), command.id, l.Code());
      encoded := buffer.Encode(ErrorReply(l.Message(), command.id, l.Code()), 1);
      broken := encoded != Done;
    }
  }

  // ----- Sending -------------------------------------------------------------------------------------

  /** Budget errors are written straight to the stream, one per id, without using the budget. */
  method StreamBudgetErrors(ids: seq<seq<string>>, batch: bool) returns (line: string, ghost parts: seq<Part>)
    requires batch || |ids| == 1
    ensures |parts| == |ids| && forall i :: 0 <= i < |ids| ==> parts[i] == Error(GlobalMsg, ids[i], DaemonError)
    ensures line == (if batch then "[" else "") + Join(parts) + (if batch then "]\n" else "\n")
  {
    var errors;
    errors, parts := JoinErrors(ids);
    line := (if batch then "[" else "") + errors + (if batch then "]\n" else "\n");
  }

  method JoinErrors(ids: seq<seq<string>>) returns (text: string, ghost parts: seq<Part>)
    ensures |parts| == |ids| && forall i :: 0 <= i < |ids| ==> parts[i] == Error(GlobalMsg, ids[i], DaemonError)
    ensures text == Join(parts)
  {
    text, parts := "", [];
    for i := 0 to |ids|
      invariant |parts| == i && text == Join(parts)
      invariant forall j :: 0 <= j < i ==> parts[j] == Error(GlobalMsg, ids[j], DaemonError)
    {
      text, parts := AddError(ids[i], i == 0, text, parts);
    }
  }

  method AddError(id: seq<string>, first: bool, text: string, ghost parts: seq<Part>) returns (text': string,
                  ghost parts': seq<Part>)
    requires text == Join(parts) && first == (parts == [])
    ensures parts' == parts + [Error(GlobalMsg, id, DaemonError)] && text' == Join(parts')
  {
    ghost var part := Error(GlobalMsg, id, DaemonError);
    JoinPush(parts, part);
    text' := text + (if first then "" else ",") + Text(ErrorReply(GlobalMsg, id, DaemonError).chunks);
    parts' := parts + [part];
  }

  class ResponseWriter {
    var spare: nat   // capacity of the buffer kept between replies
    const budget: ResponseBudget
    const limit: nat

    /** Between replies the connection holds none of the budget, and no more memory than the floor. */
    ghost predicate Valid()
      reads this, budget
    {
      spare <= BUFFER_FLOOR && limit <= USIZE_MAX && budget.reserved == budget.others <= budget.limit
    }

    constructor (limit: nat, budget: ResponseBudget)
      requires limit <= USIZE_MAX && budget.reserved == budget.others <= budget.limit
      ensures Valid() && spare == 0 && this.limit == limit && this.budget == budget
    {
      spare := 0;
      this.budget, this.limit := budget, limit;
    }

    /**
     Answers a batch on a connection. Whatever happens, at most the floor of memory is kept and
     the whole grant is given back (`Valid`); a line that goes out is within the cap unless it is
     the streamed budget error.
     */
    method SendBatch(commands: seq<Command>, replies: seq<Json>)
      returns (r: Assembly, line: string, executed: nat, rejected: seq<Limit>, ghost parts: seq<Part>)
      requires Valid() && |replies| == |commands|
      modifies this, budget
      ensures Valid()
      ensures r == Assembled(Buffered) ==> |line| <= limit
      ensures r == Assembled(Buffered) && commands != [] ==>
                line == "[" + Join(parts) + "]\n" && |parts| == |commands|
                && Answered(commands, replies, limit, budget.Left(), parts, executed, rejected)
      ensures r.Assembled? && r.delivery.BudgetErrors? ==> TooDear(AllErrors(commands), budget.Left())
      ensures r.Assembled? && r.delivery.BudgetErrors? ==>
                executed == 0 && line == "[" + Join(parts) + "]\n" && |parts| == |commands|
                && forall i :: 0 <= i < |commands| ==> parts[i] == Error(GlobalMsg, commands[i].id, DaemonError)
      ensures r.Refused? ==> line == ""
      ensures r == Refused(TooManyElements) <==> |commands| > MAX_ARRAY_BATCH
      ensures r == Refused(CannotFitErrors) <==> 0 < |commands| <= MAX_ARRAY_BATCH && AllErrors(commands) > limit
      ensures r.Refused? && r.failure.Overflow? ==> commands == [] && limit < 3
      ensures r == Refused(BrokenReply) ==> 0 < executed <= |commands| && replies[executed - 1].fails
    {
      var buffer := new ResponseBuffer(spare, budget, limit);
      r, executed, rejected, parts := AssembleBatch(commands, replies, buffer);
      line := "";
      if r == Assembled(Buffered) {
        line := buffer.bytes;
      } else if r.Assembled? {
        line, parts := StreamBudgetErrors(r.delivery.ids, r.delivery.batch);
      }
      spare := buffer.Recycle();
    }

    /** Answers a single request: its reply or the error of the limit it hit, or the streamed budget error. */
    method SendSingle(command: Command, reply: Json)
      returns (r: Assembly, line: string, executed: bool, rejected: seq<Limit>)
      requires Valid()
      modifies this, budget
      ensures Valid()
      ensures r == Assembled(Buffered) ==> executed && |rejected| <= 1 && |line| <= limit
      ensures r == Assembled(Buffered) ==>
                line == Render(SinglePart(command, reply, if rejected == [] then None else Some(rejected[0]))) + "\n"
      ensures r.Assembled? && r.delivery.BudgetErrors? ==>
                !executed && line == Render(Error(GlobalMsg, command.id, DaemonError)) + "\n"
                && SingleErrorSize(command) <= limit && TooDear(SingleErrorSize(command), budget.Left())
      ensures executed && rejected == [PerLine] ==> |Text(reply.chunks)| + 1 > limit
      ensures executed && rejected == [Global] ==> TooDear(|Text(reply.chunks)| + 1, budget.Left())
      ensures executed && SingleErrorSize(command) <= limit ==> r == Assembled(Buffered) || r == Refused(BrokenReply)
      ensures r.Refused? && !executed ==>
                limit == 0 || (SingleErrorSize(command) > limit && TooDear(SingleErrorSize(command), budget.Left()))
      ensures r == Refused(BrokenReply) ==> executed && reply.fails
      ensures r.Refused? ==> line == ""
    {
      var buffer := new ResponseBuffer(spare, budget, limit);
      r, executed, rejected := AssembleSingle(command, reply, buffer);
      line := "";
      if r == Assembled(Buffered) {
        line := buffer.bytes;
      } else if r.Assembled? {
        ghost var parts;
        line, parts := StreamBudgetErrors(r.delivery.ids, r.delivery.batch);
        OneError(parts, command);
      }
      spare := buffer.Recycle();
    }

    /** A line that is not JSON is answered with the parse error, if it fits. */
    method SendMalformed() returns (r: Assembly, line: string, rejected: seq<Limit>)
      requires Valid()
      modifies this, budget
      ensures Valid()
      ensures r.Assembled? ==> line == Text(PARSE_ERROR.chunks) + "\n" && |line| <= limit && rejected == []
      ensures r.Refused? ==> line == ""
      ensures |Text(PARSE_ERROR.chunks)| + 1 <= limit && |Text(PARSE_ERROR.chunks)| + 1 <= BUFFER_FLOOR ==> r.Assembled?
      ensures r.Refused? ==>
                |Text(PARSE_ERROR.chunks)| + 1 > limit || TooDear(|Text(PARSE_ERROR.chunks)| + 1, budget.Left())
    {
      var buffer := new ResponseBuffer(spare, budget, limit);
      line, rejected := "", [];
      assert "" + Text(PARSE_ERROR.chunks) == Text(PARSE_ERROR.chunks);
      var encoded := buffer.Encode(PARSE_ERROR, 1);
      r := Refused(BrokenReply);
      if encoded.Limited? {
        rejected := [encoded.limit];
        r := Refused(Overflow(encoded.limit));
      } else if encoded == Done {
        var failure := buffer.Framing("\n");
        r := if failure.Some? then Refused(Overflow(failure.value)) else Assembled(Buffered);
        if failure.None? { line := buffer.bytes; }
      }
      spare := buffer.Recycle();
    }
  }

  lemma {:induction false} OneError(parts: seq<Part>, command: Command)
    requires parts == [Error(GlobalMsg, command.id, DaemonError)]
    ensures Join(parts) == Render(Error(GlobalMsg, command.id, DaemonError))
  {
  }

  /** The reply to a line that does not parse. */
  const PARSE_ERROR :=
    Json(["{\"error\":{\"code\":-32700,\"message\":\"parse error\"},\"id\":null,\"jsonrpc\":\"2.0\"}"], false)
}

/** The `redis_list_poller` input: on every poll tick it pops one message, or
    a pipelined batch of messages, from a Redis list, parses each one and
    emits the parsed records; an empty queue or an error puts it to sleep for
    a while, and a lock flag mirrored from Redis once a second pauses it. */
module RedisListPoller {
  import opened Common

  /** The plugin parameters the core reads. A parameter Ruby holds as `nil`
      is `None`; intervals are whole time units. */
  datatype PollerConfig = PollerConfig(
    host: Option<string>,
    port: Option<int>,
    key: Option<string>,
    command: Option<string>,
    batchSize: int,
    tag: Option<string>,
    pollInterval: int,
    sleepInterval: int,
    retryInterval: int)

  /** The parameters `configure_params` insists on, in the order it checks them. */
  const Required: seq<string> := ["host", "port", "key", "command", "tag"]

  /** `instance_variable_get("@#{name}")` is truthy. */
  predicate IsSet(c: PollerConfig, name: string)
  {
    if name == "host" then c.host.Some?
    else if name == "port" then c.port.Some?
    else if name == "key" then c.key.Some?
    else if name == "command" then c.command.Some?
    else if name == "tag" then c.tag.Some?
    else false
  }

  predicate AllSet(c: PollerConfig)
  {
    c.host.Some? && c.port.Some? && c.key.Some? && c.command.Some? && c.tag.Some?
  }

  /** What a configuration must satisfy for `configure` to succeed. */
  predicate ParamsValid(c: PollerConfig)
  {
    AllSet(c) && c.command.value in {"lpop", "rpop"}
  }

  /** `configure_params`: each missing parameter, in order, then the command. */
  method ConfigureParams(c: PollerConfig) returns (r: Result<(), ConfigError>)
    ensures r.Success? <==> ParamsValid(c)
    ensures r == Failure(MissingKey("host")) <==> c.host.None?
    ensures r == Failure(MissingKey("port")) <==> c.host.Some? && c.port.None?
    ensures r == Failure(MissingKey("key")) <==> c.host.Some? && c.port.Some? && c.key.None?
    ensures r == Failure(MissingKey("command")) <==>
      c.host.Some? && c.port.Some? && c.key.Some? && c.command.None?
    ensures r == Failure(MissingKey("tag")) <==>
      c.host.Some? && c.port.Some? && c.key.Some? && c.command.Some? && c.tag.None?
    ensures r == Failure(BadCommand) <==> AllSet(c) && c.command.value !in {"lpop", "rpop"}
  {
    r := CheckRequired(Required, n => IsSet(c, n));
    assert Required[0] == "host" && Required[1] == "port" && Required[2] == "key";
    assert Required[3] == "command" && Required[4] == "tag";
    if r.Failure? {
      return;
    }
    if c.command.value !in ["lpop", "rpop"] {
      r := Failure(BadCommand);
    }
  }

  /** The parameter defaults: host 127.0.0.1, port 6379, command `lpop`,
      batch size 0, intervals 1, 5 and 5; `key` and `tag` have none. */
  function DefaultConfig(key: Option<string>, tag: Option<string>): PollerConfig
  {
    PollerConfig(Some("127.0.0.1"), Some(6379), key, Some("lpop"), 0, tag, 1, 5, 5)
  }

  /** With the defaults, configuration succeeds exactly when `key` and `tag`
      are given, and the poller then pops one message at a time. */
  lemma DefaultsNeedKeyAndTag(key: Option<string>, tag: Option<string>)
    ensures ParamsValid(DefaultConfig(key, tag)) <==> key.Some? && tag.Some?
    ensures !Batched(DefaultConfig(key, tag)) && CommandCount(DefaultConfig(key, tag)) == 1
  {
  }

  /** `configure_locking`: the storage key under which the lock flag is mirrored. */
  function LockKey(key: string): string
  {
    "fluentd:" + key + ":lock"
  }

  /** Pollers of different queues never share a lock key. */
  lemma LockKeyInjective(a: string, b: string)
    requires LockKey(a) == LockKey(b)
    ensures a == b
  {
    assert a == LockKey(a)[8..|LockKey(a)| - 5];
    assert b == LockKey(b)[8..|LockKey(b)| - 5];
  }

  /** `batched?` */
  predicate Batched(c: PollerConfig)
  {
    c.batchSize > 1
  }

  /** How many pop commands one active tick issues. */
  function CommandCount(c: PollerConfig): nat
  {
    if Batched(c) then c.batchSize else 1
  }

  /** The pop command: `@redis.call(@command, @key)`. */
  function PopCommand(c: PollerConfig): Command
    requires ParamsValid(c)
  {
    Command(c.command.value, c.key.value)
  }

  /** What `poll_messages` sends: one pop, or `batch_size` pops in one pipeline. */
  function PollRequest(c: PollerConfig): Request
    requires ParamsValid(c)
  {
    if Batched(c) then Pipelined(seq(c.batchSize, _ => PopCommand(c))) else Direct(PopCommand(c))
  }

  lemma PollRequestShape(c: PollerConfig)
    requires ParamsValid(c)
    ensures PollRequest(c).Pipelined? <==> c.batchSize > 1
    ensures |Commands(PollRequest(c))| == (if c.batchSize > 1 then c.batchSize else 1)
    ensures forall i :: 0 <= i < |Commands(PollRequest(c))| ==>
      Commands(PollRequest(c))[i] == Command(c.command.value, c.key.value)
  {
  }

  /** The replies to the first `n` commands of a tick, in issue order. */
  function Replies(reply: nat -> Reply, n: nat): seq<Reply>
  {
    seq(n, (k: int) requires 0 <= k => reply(k))
  }

  /** `@tag || @key` */
  function EmitTag(c: PollerConfig): string
    requires c.key.Some?
  {
    if c.tag.Some? then c.tag.value else c.key.value
  }

  /** `configure_params` insists on `tag`, so the fall-back to the key never applies. */
  lemma EmitTagIsTag(c: PollerConfig)
    requires ParamsValid(c)
    ensures EmitTag(c) == c.tag.value
  {
  }

  /** `locked?`: the mirrored lock value is truthy. A Redis value is nil or a
      string, and every Ruby string (even "" or "0") is truthy. */
  predicate Locked(storage: map<string, Option<string>>, lockKey: string)
  {
    lockKey in storage && storage[lockKey].Some?
  }

  /** What `action_locking_monitor` leaves in the storage after `@redis.get`
      answered `r`: the value verbatim, or (if the read raised) the old storage. */
  function StoreLock(storage: map<string, Option<string>>, lockKey: string, r: Reply): map<string, Option<string>>
  {
    if r.Fault? then storage else storage[lockKey := ValueOf(r)]
  }

  lemma LockMirror(storage: map<string, Option<string>>, lockKey: string, r: Reply)
    ensures r.Fault? ==> StoreLock(storage, lockKey, r) == storage
    ensures !r.Fault? ==>
      lockKey in StoreLock(storage, lockKey, r) && StoreLock(storage, lockKey, r)[lockKey] == ValueOf(r)
    ensures !r.Fault? ==> (Locked(StoreLock(storage, lockKey, r), lockKey) <==> r.Bulk?)
    ensures forall k :: k != lockKey ==>
      (k in StoreLock(storage, lockKey, r) <==> k in storage) &&
      (k in storage ==> StoreLock(storage, lockKey, r)[k] == storage[k])
  {
  }

  /** Refreshing the mirror again with an unchanged remote value changes nothing. */
  lemma LockRefreshIdempotent(storage: map<string, Option<string>>, lockKey: string, r: Reply)
    ensures StoreLock(StoreLock(storage, lockKey, r), lockKey, r) == StoreLock(storage, lockKey, r)
  {
  }

  /** What the parser does with one raw message: yields nothing, yields one
      `(time, record)` pair (either part possibly nil), or raises. */
  datatype ParseOutcome = NoPair | Pair(time: Option<int>, record: Option<Record>) | ParseError(reason: string)

  const SleepingText := "redis worker is sleeping"
  const LockedText := "redis queue is locked"
  const EmptyText := "redis queue is empty"
  const ParseFailedText := "failed to parse message: "
  const FetchErrorText := "error fetching record"

  /** How the per-message loop ends: it goes on past the reply (at the end of
      the batch: every reply was handled), it met a nil reply, or an exception
      was raised. */
  datatype Stop = Continue | QueueEmpty | Thrown

  datatype Processed = Processed(events: seq<Event>, warnings: seq<LogEntry>, stop: Stop)

  /** What the block `action_poll` passes to `poll_messages` does with one
      reply, and whether the loop goes on past it. */
  function ReplyEffect(r: Reply, parse: string -> ParseOutcome, tag: string): Processed
  {
    match r
    case Nil => Processed([], [Debug(EmptyText)], QueueEmpty)
    case Fault(_) => Processed([], [], Thrown)
    case Bulk(m) =>
      match parse(m)
      case ParseError(_) => Processed([], [], Thrown)
      case NoPair => Processed([], [], Continue)
      case Pair(time, record) =>
        if time.Some? && record.Some? then Processed([Event(tag, time.value, record.value)], [], Continue)
        else Processed([], [Warn(ParseFailedText + m)], Continue)
  }

  /** `acc` followed by the effect `h` of one more reply. */
  function Extend(acc: Processed, h: Processed): Processed
  {
    Processed(acc.events + h.events, acc.warnings + h.warnings, h.stop)
  }

  /** The block run over the replies `rs`, after the earlier replies of the
      batch have produced `acc`; it stops at the first reply that does not let
      the loop go on. */
  function Resume(rs: seq<Reply>, parse: string -> ParseOutcome, tag: string, acc: Processed): Processed
    decreases |rs|
  {
    if rs == [] then acc
    else
      var next := Extend(acc, ReplyEffect(rs[0], parse, tag));
      if next.stop != Continue then next else Resume(rs[1..], parse, tag, next)
  }

  /** The block run over a whole batch of replies. */
  function ProcessReplies(rs: seq<Reply>, parse: string -> ParseOutcome, tag: string): Processed
  {
    Resume(rs, parse, tag, Processed([], [], Continue))
  }

  /** `action_poll`, from the state before the tick. */
  function PollTick(c: PollerConfig, retryAt: Option<int>, storage: map<string, Option<string>>, lockKey: string,
                    now: int, reply: nat -> Reply, parse: string -> ParseOutcome): Tick
    requires ParamsValid(c)
  {
    if Sleeping(retryAt, now) then Tick(retryAt, [], [], [Trace(SleepingText)])
    else if Locked(storage, lockKey) then Tick(retryAt, [], [], [Trace(LockedText)])
    else
      var p := ProcessReplies(Replies(reply, CommandCount(c)), parse, EmitTag(c));
      match p.stop
      case Continue => Tick(retryAt, [PollRequest(c)], p.events, p.warnings)
      case QueueEmpty => Tick(Some(now + c.sleepInterval), [PollRequest(c)], p.events, p.warnings)
      case Thrown => Tick(Some(now + c.retryInterval), [PollRequest(c)], p.events, p.warnings + [Error(FetchErrorText)])
  }

  // ---------------------------------------------------------------------
  // An independent description of the per-message loop: it runs up to the
  // first reply that stops it, emits every well-parsed message before that
  // point and warns about every badly parsed one.

  /** A reply at which per-message processing stops: an empty queue, or an exception. */
  predicate StopsAt(r: Reply, parse: string -> ParseOutcome)
  {
    r.Nil? || r.Fault? || (r.Bulk? && parse(r.payload).ParseError?)
  }

  /** The position of the first stopping reply, or `|rs|` if there is none. */
  function StopIndex(rs: seq<Reply>, parse: string -> ParseOutcome): (k: nat)
    ensures k <= |rs|
    ensures forall j :: 0 <= j < k ==> !StopsAt(rs[j], parse)
    ensures k < |rs| ==> StopsAt(rs[k], parse)
    decreases |rs|
  {
    if rs == [] || StopsAt(rs[0], parse) then 0 else 1 + StopIndex(rs[1..], parse)
  }

  /** The properties of `StopIndex` determine it. */
  lemma StopIndexUnique(rs: seq<Reply>, parse: string -> ParseOutcome, k: nat)
    requires k <= |rs|
    requires forall j :: 0 <= j < k ==> !StopsAt(rs[j], parse)
    requires k < |rs| ==> StopsAt(rs[k], parse)
    ensures StopIndex(rs, parse) == k
  {
  }

  function EventOf(r: Reply, parse: string -> ParseOutcome, tag: string): seq<Event>
  {
    if r.Bulk? && parse(r.payload).Pair? && parse(r.payload).time.Some? && parse(r.payload).record.Some?
    then [Event(tag, parse(r.payload).time.value, parse(r.payload).record.value)]
    else []
  }

  function WarningOf(r: Reply, parse: string -> ParseOutcome): seq<LogEntry>
  {
    if r.Bulk? && parse(r.payload).Pair? && !(parse(r.payload).time.Some? && parse(r.payload).record.Some?)
    then [Warn(ParseFailedText + r.payload)]
    else []
  }

  /** The events of every well-parsed message in `rs`, in order. */
  function Emitted(rs: seq<Reply>, parse: string -> ParseOutcome, tag: string): seq<Event>
    decreases |rs|
  {
    if rs == [] then [] else EventOf(rs[0], parse, tag) + Emitted(rs[1..], parse, tag)
  }

  /** A warning for every message in `rs` whose parse yields no usable pair, in order. */
  function Warned(rs: seq<Reply>, parse: string -> ParseOutcome): seq<LogEntry>
    decreases |rs|
  {
    if rs == [] then [] else WarningOf(rs[0], parse) + Warned(rs[1..], parse)
  }

  lemma {:induction false} EmittedLength(rs: seq<Reply>, parse: string -> ParseOutcome, tag: string)
    ensures |Emitted(rs, parse, tag)| <= |rs|
    decreases |rs|
  {
    if rs != [] {
      EmittedLength(rs[1..], parse, tag);
    }
  }

  /** Every emitted event carries the tag and the parser's time and record of
      one of the messages. */
  lemma {:induction false} EmittedFromMessages(rs: seq<Reply>, parse: string -> ParseOutcome, tag: string, e: Event)
    requires e in Emitted(rs, parse, tag)
    ensures e.tag == tag
    ensures exists j :: 0 <= j < |rs| && rs[j].Bulk? && parse(rs[j].payload) == Pair(Some(e.time), Some(e.record))
    decreases |rs|
  {
    if e in EventOf(rs[0], parse, tag) {
      assert rs[0].Bulk? && parse(rs[0].payload) == Pair(Some(e.time), Some(e.record));
    } else {
      EmittedFromMessages(rs[1..], parse, tag, e);
      var j :| 0 <= j < |rs[1..]| && rs[1..][j].Bulk? && parse(rs[1..][j].payload) == Pair(Some(e.time), Some(e.record));
      assert rs[j + 1] == rs[1..][j];
    }
  }

  /** The effect of a single reply, told by the independent description. */
  lemma ReplyEffectAgrees(r: Reply, parse: string -> ParseOutcome, tag: string)
    ensures var h := ReplyEffect(r, parse, tag);
      (h.stop == Continue <==> !StopsAt(r, parse)) &&
      (!StopsAt(r, parse) ==> h.events == EventOf(r, parse, tag) && h.warnings == WarningOf(r, parse)) &&
      (r.Nil? ==> h == Processed([], [Debug(EmptyText)], QueueEmpty)) &&
      (StopsAt(r, parse) && !r.Nil? ==> h == Processed([], [], Thrown))
  {
  }

  /** Where a run from any point of the batch ends: at the end of the batch
      if no reply stops it, otherwise as the first stopping reply dictates. */
  lemma {:induction false} ResumeStop(rs: seq<Reply>, parse: string -> ParseOutcome, tag: string, acc: Processed)
    requires acc.stop == Continue
    ensures var k := StopIndex(rs, parse);
      Resume(rs, parse, tag, acc).stop == (if k == |rs| then Continue else if rs[k].Nil? then QueueEmpty else Thrown)
    decreases |rs|
  {
    if rs != [] {
      ReplyEffectAgrees(rs[0], parse, tag);
      if !StopsAt(rs[0], parse) {
        ResumeStop(rs[1..], parse, tag, Extend(acc, ReplyEffect(rs[0], parse, tag)));
      }
    }
  }

  /** Run from any point of the batch, the loop adds exactly the events of the
      well-parsed messages before the first stopping reply. */
  lemma {:induction false} ResumeEvents(rs: seq<Reply>, parse: string -> ParseOutcome, tag: string, acc: Processed)
    requires acc.stop == Continue
    ensures Resume(rs, parse, tag, acc).events == acc.events + Emitted(rs[..StopIndex(rs, parse)], parse, tag)
    decreases |rs|
  {
    if rs != [] {
      ReplyEffectAgrees(rs[0], parse, tag);
      if StopsAt(rs[0], parse) {
        assert rs[..StopIndex(rs, parse)] == [];
      } else {
        var next := Extend(acc, ReplyEffect(rs[0], parse, tag));
        ResumeEvents(rs[1..], parse, tag, next);
        var k' := StopIndex(rs[1..], parse);
        assert rs[..1 + k'][0] == rs[0];
        assert rs[..1 + k'][1..] == rs[1..][..k'];
        assert Emitted(rs[..1 + k'], parse, tag) == EventOf(rs[0], parse, tag) + Emitted(rs[1..][..k'], parse, tag);
      }
    }
  }

  /** Run from any point of the batch, the loop adds a warning for exactly the
      badly parsed messages before the first stopping reply, and a debug line
      if that reply is nil. */
  lemma {:induction false} ResumeWarnings(rs: seq<Reply>, parse: string -> ParseOutcome, tag: string, acc: Processed)
    requires acc.stop == Continue
    ensures var k := StopIndex(rs, parse);
      Resume(rs, parse, tag, acc).warnings ==
        acc.warnings + Warned(rs[..k], parse) + (if k < |rs| && rs[k].Nil? then [Debug(EmptyText)] else [])
    decreases |rs|
  {
    if rs != [] {
      ReplyEffectAgrees(rs[0], parse, tag);
      if StopsAt(rs[0], parse) {
        assert rs[..StopIndex(rs, parse)] == [];
      } else {
        var next := Extend(acc, ReplyEffect(rs[0], parse, tag));
        ResumeWarnings(rs[1..], parse, tag, next);
        var k' := StopIndex(rs[1..], parse);
        assert rs[..1 + k'][0] == rs[0];
        assert rs[..1 + k'][1..] == rs[1..][..k'];
        assert Warned(rs[..1 + k'], parse) == WarningOf(rs[0], parse) + Warned(rs[1..][..k'], parse);
        assert (1 + k' < |rs| && rs[1 + k'].Nil?) == (k' < |rs[1..]| && rs[1..][k'].Nil?);
      }
    }
  }

  /** The loop over a whole batch emits exactly the well-parsed messages
      before the first stopping reply, in order, warns about exactly the
      badly parsed ones, and ends as that reply dictates. */
  lemma ProcessCharacterized(rs: seq<Reply>, parse: string -> ParseOutcome, tag: string)
    ensures var k := StopIndex(rs, parse);
      var p := ProcessReplies(rs, parse, tag);
      p.events == Emitted(rs[..k], parse, tag) &&
      p.warnings == Warned(rs[..k], parse) + (if k < |rs| && rs[k].Nil? then [Debug(EmptyText)] else []) &&
      p.stop == (if k == |rs| then Continue else if rs[k].Nil? then QueueEmpty else Thrown)
  {
    var start := Processed([], [], Continue);
    ResumeStop(rs, parse, tag, start);
    ResumeEvents(rs, parse, tag, start);
    ResumeWarnings(rs, parse, tag, start);
  }

  /** Once a reply stops the loop, whatever follows it is never looked at. */
  lemma {:induction false} LaterRepliesIgnoredFrom(rs: seq<Reply>, more: seq<Reply>, parse: string -> ParseOutcome, tag: string,
                                                   acc: Processed)
    requires StopIndex(rs, parse) < |rs|
    ensures Resume(rs + more, parse, tag, acc) == Resume(rs, parse, tag, acc)
    decreases |rs|
  {
    assert (rs + more)[0] == rs[0];
    ReplyEffectAgrees(rs[0], parse, tag);
    if !StopsAt(rs[0], parse) {
      assert (rs + more)[1..] == rs[1..] + more;
      LaterRepliesIgnoredFrom(rs[1..], more, parse, tag, Extend(acc, ReplyEffect(rs[0], parse, tag)));
    }
  }

  lemma LaterRepliesIgnored(rs: seq<Reply>, more: seq<Reply>, parse: string -> ParseOutcome, tag: string)
    requires StopIndex(rs, parse) < |rs|
    ensures ProcessReplies(rs + more, parse, tag) == ProcessReplies(rs, parse, tag)
  {
    LaterRepliesIgnoredFrom(rs, more, parse, tag, Processed([], [], Continue));
  }

  // ---------------------------------------------------------------------
  // Properties of one poll tick.

  /** While sleeping, the tick sends nothing, emits nothing and keeps the deadline. */
  lemma SleepingTickIsInert(c: PollerConfig, retryAt: Option<int>, storage: map<string, Option<string>>, lockKey: string,
                            now: int, reply: nat -> Reply, parse: string -> ParseOutcome)
    requires ParamsValid(c) && Sleeping(retryAt, now)
    ensures var t := PollTick(c, retryAt, storage, lockKey, now, reply, parse);
      t.requests == [] && t.events == [] && t.retryAt == retryAt && t.logs == [Trace(SleepingText)]
  {
  }

  /** While the mirrored lock is truthy, the tick sends nothing, emits nothing
      and keeps the deadline. */
  lemma LockedTickIsInert(c: PollerConfig, retryAt: Option<int>, storage: map<string, Option<string>>, lockKey: string,
                          now: int, reply: nat -> Reply, parse: string -> ParseOutcome)
    requires ParamsValid(c) && !Sleeping(retryAt, now) && Locked(storage, lockKey)
    ensures var t := PollTick(c, retryAt, storage, lockKey, now, reply, parse);
      t.requests == [] && t.events == [] && t.retryAt == retryAt && t.logs == [Trace(LockedText)]
  {
  }

  /** A tick talks to Redis exactly when it is neither sleeping nor locked,
      and then sends exactly one request. */
  lemma TouchesRedisIff(c: PollerConfig, retryAt: Option<int>, storage: map<string, Option<string>>, lockKey: string,
                        now: int, reply: nat -> Reply, parse: string -> ParseOutcome)
    requires ParamsValid(c)
    ensures var t := PollTick(c, retryAt, storage, lockKey, now, reply, parse);
      (t.requests != [] <==> !Sleeping(retryAt, now) && !Locked(storage, lockKey)) &&
      (t.requests != [] ==> t.requests == [PollRequest(c)])
  {
  }

  /** An active tick: it emits, with the configured tag, the well-parsed
      messages before the first nil or failing reply, in reply order; and the
      new deadline is decided by that reply alone: none, keep the deadline;
      nil, sleep for the sleep interval; an exception, sleep for the retry
      interval. A message that fails to parse only adds a warning. */
  lemma ActiveTick(c: PollerConfig, retryAt: Option<int>, storage: map<string, Option<string>>, lockKey: string,
                   now: int, reply: nat -> Reply, parse: string -> ParseOutcome)
    requires ParamsValid(c) && !Sleeping(retryAt, now) && !Locked(storage, lockKey)
    ensures var rs := Replies(reply, CommandCount(c));
      var k := StopIndex(rs, parse);
      var t := PollTick(c, retryAt, storage, lockKey, now, reply, parse);
      t.requests == [PollRequest(c)] &&
      t.events == Emitted(rs[..k], parse, c.tag.value) &&
      t.retryAt == (if k == |rs| then retryAt
                    else if rs[k].Nil? then Some(now + c.sleepInterval)
                    else Some(now + c.retryInterval)) &&
      t.logs == Warned(rs[..k], parse) +
                (if k == |rs| then [] else if rs[k].Nil? then [Debug(EmptyText)] else [Error(FetchErrorText)])
  {
    ProcessCharacterized(Replies(reply, CommandCount(c)), parse, EmitTag(c));
  }

  /** A tick never emits more events than it issued pop commands. */
  lemma EventsBoundedByCommands(c: PollerConfig, retryAt: Option<int>, storage: map<string, Option<string>>, lockKey: string,
                                now: int, reply: nat -> Reply, parse: string -> ParseOutcome)
    requires ParamsValid(c)
    ensures var t := PollTick(c, retryAt, storage, lockKey, now, reply, parse);
      |t.events| <= |Commands(PollRequest(c))| && |t.events| <= CommandCount(c)
  {
    if !Sleeping(retryAt, now) && !Locked(storage, lockKey) {
      var rs := Replies(reply, CommandCount(c));
      ActiveTick(c, retryAt, storage, lockKey, now, reply, parse);
      EmittedLength(rs[..StopIndex(rs, parse)], parse, c.tag.value);
    }
  }

  /** Every event of a tick carries the configured tag and the time and record
      the parser produced for one of the popped messages. */
  lemma EventsComeFromParser(c: PollerConfig, retryAt: Option<int>, storage: map<string, Option<string>>, lockKey: string,
                             now: int, reply: nat -> Reply, parse: string -> ParseOutcome, e: Event)
    requires ParamsValid(c)
    requires e in PollTick(c, retryAt, storage, lockKey, now, reply, parse).events
    ensures e.tag == c.tag.value
    ensures exists j :: 0 <= j < CommandCount(c) && reply(j).Bulk? && parse(reply(j).payload) == Pair(Some(e.time), Some(e.record))
  {
    var rs := Replies(reply, CommandCount(c));
    var k := StopIndex(rs, parse);
    ActiveTick(c, retryAt, storage, lockKey, now, reply, parse);
    EmittedFromMessages(rs[..k], parse, c.tag.value, e);
    var j :| 0 <= j < |rs[..k]| && rs[..k][j].Bulk? && parse(rs[..k][j].payload) == Pair(Some(e.time), Some(e.record));
    assert rs[..k][j] == reply(j);
  }

  /** Two ticks whose replies agree up to and including the first stopping
      reply are indistinguishable: what Redis answered after a nil reply in a
      batch is dropped unseen. */
  lemma RepliesAfterStopIgnored(c: PollerConfig, retryAt: Option<int>, storage: map<string, Option<string>>, lockKey: string,
                                now: int, reply: nat -> Reply, reply': nat -> Reply, parse: string -> ParseOutcome)
    requires ParamsValid(c)
    requires StopIndex(Replies(reply, CommandCount(c)), parse) < CommandCount(c)
    requires forall j :: 0 <= j <= StopIndex(Replies(reply, CommandCount(c)), parse) ==> reply'(j) == reply(j)
    ensures PollTick(c, retryAt, storage, lockKey, now, reply, parse) == PollTick(c, retryAt, storage, lockKey, now, reply', parse)
  {
    var n := CommandCount(c);
    var rs, rs' := Replies(reply, n), Replies(reply', n);
    assert ProcessReplies(rs, parse, EmitTag(c)) == ProcessReplies(rs', parse, EmitTag(c)) by {
      var k := StopIndex(rs, parse);
      var head := rs[..k + 1];
      assert rs'[..k + 1] == head;
      StopIndexUnique(head, parse, k);
      assert rs == head + rs[k + 1..];
      assert rs' == head + rs'[k + 1..];
      LaterRepliesIgnored(head, rs[k + 1..], parse, EmitTag(c));
      LaterRepliesIgnored(head, rs'[k + 1..], parse, EmitTag(c));
    }
  }

  /** A batch of three pops answered by two well-formed messages and then nil:
      both messages are emitted, in order, and the poller goes to sleep. */
  lemma BatchEndingInEmptyQueue(c: PollerConfig, retryAt: Option<int>, storage: map<string, Option<string>>, lockKey: string,
                                 now: int, reply: nat -> Reply, parse: string -> ParseOutcome, r1: Record, r2: Record)
    requires ParamsValid(c) && c.batchSize == 3
    requires !Sleeping(retryAt, now) && !Locked(storage, lockKey)
    requires reply(0) == Bulk("m1") && reply(1) == Bulk("m2") && reply(2) == Nil
    requires parse("m1") == Pair(Some(10), Some(r1)) && parse("m2") == Pair(Some(11), Some(r2))
    ensures var t := PollTick(c, retryAt, storage, lockKey, now, reply, parse);
      t.requests == [Pipelined([PopCommand(c), PopCommand(c), PopCommand(c)])] &&
      t.events == [Event(c.tag.value, 10, r1), Event(c.tag.value, 11, r2)] &&
      t.retryAt == Some(now + c.sleepInterval) &&
      t.logs == [Debug(EmptyText)]
  {
    var rs := Replies(reply, 3);
    assert rs == [Bulk("m1"), Bulk("m2"), Nil];
    StopIndexUnique(rs, parse, 2);
    assert rs[..2] == [Bulk("m1"), Bulk("m2")];
    assert rs[..2][1..] == [Bulk("m2")];
    assert [Bulk("m2")][1..] == [];
    assert PollRequest(c).commands == [PopCommand(c), PopCommand(c), PopCommand(c)];
    ActiveTick(c, retryAt, storage, lockKey, now, reply, parse);
  }

  // ---------------------------------------------------------------------
  // The plugin object.

  /** A configured `RedisListPollerInput`. Besides its own state (the
      deadline and the local lock storage) it records what its collaborators
      saw: requests sent to Redis, events passed to the router and log lines. */
  class RedisListPollerInput {
    const config: PollerConfig
    const lockKey: string
    var retryAt: Option<int>
    var storage: map<string, Option<string>>
    var issued: seq<Request>
    var emitted: seq<Event>
    var logged: seq<LogEntry>

    ghost predicate Valid()
      reads this
    {
      ParamsValid(config) && lockKey == LockKey(config.key.value)
    }

    /** The state `configure` leaves behind once validation has passed. */
    constructor (c: PollerConfig)
      requires ParamsValid(c)
      ensures Valid() && config == c
      ensures retryAt == None && storage == map[]
      ensures issued == [] && emitted == [] && logged == []
    {
      config := c;
      lockKey := LockKey(c.key.value);
      retryAt := None;
      storage := map[];
      issued, emitted, logged := [], [], [];
    }

    /** `sleep!(delay)` */
    method Sleep(now: int, delay: int)
      modifies this`retryAt
      ensures retryAt == Some(now + delay)
    {
      retryAt := Some(now + delay);
    }

    /** `poll_messages`: sends the pop command(s) and hands back the replies in
        issue order. */
    method PollMessages(reply: nat -> Reply) returns (replies: seq<Reply>)
      requires Valid()
      modifies this`issued
      ensures issued == old(issued) + [PollRequest(config)]
      ensures replies == Replies(reply, CommandCount(config))
    {
      if Batched(config) {
        var commands: seq<Command> := [];
        replies := [];
        var k := 0;
        while k < config.batchSize
          invariant 0 <= k <= config.batchSize
          invariant commands == seq(k, _ => PopCommand(config))
          invariant replies == Replies(reply, k)
        {
          commands := commands + [PopCommand(config)];
          replies := replies + [reply(k)];
          k := k + 1;
        }
        issued := issued + [Pipelined(commands)];
      } else {
        issued := issued + [Direct(PopCommand(config))];
        replies := [reply(0)];
      }
    }

    /** `action_locking_monitor`: mirrors the remote lock value into the local
        storage. A failing read raises out of the action and leaves the
        storage as it was. */
    method ActionLockingMonitor(r: Reply) returns (outcome: Completion)
      requires Valid()
      modifies this`storage, this`issued
      ensures issued == old(issued) + [Direct(Command("get", lockKey))]
      ensures storage == StoreLock(old(storage), lockKey, r)
      ensures outcome == if r.Fault? then Raised(Exception(true, r.reason)) else Returned
    {
      issued := issued + [Direct(Command("get", lockKey))];
      if r.Fault? {
        return Raised(Exception(true, r.reason));
      }
      storage := storage[lockKey := ValueOf(r)];
      return Returned;
    }

    /** The `rescue` clause of `action_poll`. */
    method Rescue(now: int)
      modifies this`retryAt, this`logged
      ensures retryAt == Some(now + config.retryInterval)
      ensures logged == old(logged) + [Error(FetchErrorText)]
    {
      logged := logged + [Error(FetchErrorText)];
      Sleep(now, config.retryInterval);
    }

    /** `action_poll`: one tick of the poller. */
    method ActionPoll(now: int, reply: nat -> Reply, parse: string -> ParseOutcome)
      requires Valid()
      modifies this`retryAt, this`issued, this`emitted, this`logged
      ensures var t := PollTick(config, old(retryAt), storage, lockKey, now, reply, parse);
        retryAt == t.retryAt && issued == old(issued) + t.requests &&
        emitted == old(emitted) + t.events && logged == old(logged) + t.logs
    {
      if Sleeping(retryAt, now) {
        logged := logged + [Trace(SleepingText)];
        return;
      }
      if Locked(storage, lockKey) {
        logged := logged + [Trace(LockedText)];
        return;
      }
      var replies := PollMessages(reply);
      var stop := HandleReplies(now, replies, parse, EmitTag(config));
      if stop == Thrown {
        Rescue(now);
      }
    }

    /** The `poll_messages do |message| ... end` loop: handles the replies in
        order until the batch is used up, a nil reply breaks out of it, or an
        exception leaves it. */
    method HandleReplies(now: int, replies: seq<Reply>, parse: string -> ParseOutcome, tag: string) returns (stop: Stop)
      modifies this`retryAt, this`emitted, this`logged
      ensures var p := ProcessReplies(replies, parse, tag);
        stop == p.stop && emitted == old(emitted) + p.events && logged == old(logged) + p.warnings &&
        retryAt == (if stop == QueueEmpty then Some(now + config.sleepInterval) else old(retryAt))
    {
      ghost var all := ProcessReplies(replies, parse, tag);
      ghost var events: seq<Event> := [];
      ghost var warnings: seq<LogEntry> := [];
      stop := Continue;
      var i := 0;
      while i < |replies|
        invariant 0 <= i <= |replies|
        invariant retryAt == old(retryAt)
        invariant emitted == old(emitted) + events
        invariant logged == old(logged) + warnings
        invariant all == Resume(replies[i..], parse, tag, Processed(events, warnings, Continue))
        invariant stop == Continue
      {
        assert replies[i..][0] == replies[i] && replies[i..][1..] == replies[i + 1..];
        ghost var h := ReplyEffect(replies[i], parse, tag);
        stop := HandleReply(now, replies[i], parse, tag);
        events, warnings := events + h.events, warnings + h.warnings;
        if stop != Continue {
          return;
        }
        i := i + 1;
      }
    }

    /** One run of the block: parses one reply and emits it or warns about it;
        a nil reply puts the poller to sleep. */
    method HandleReply(now: int, r: Reply, parse: string -> ParseOutcome, tag: string) returns (stop: Stop)
      modifies this`retryAt, this`emitted, this`logged
      ensures var h := ReplyEffect(r, parse, tag);
        stop == h.stop && emitted == old(emitted) + h.events && logged == old(logged) + h.warnings &&
        retryAt == (if stop == QueueEmpty then Some(now + config.sleepInterval) else old(retryAt))
    {
      match r {
        case Nil =>
          logged := logged + [Debug(EmptyText)];
          Sleep(now, config.sleepInterval);
          return QueueEmpty;
        case Fault(_) =>
          return Thrown;
        case Bulk(m) =>
          match parse(m) {
            case ParseError(_) =>
              return Thrown;
            case NoPair =>
            case Pair(time, record) =>
              if time.Some? && record.Some? {
                emitted := emitted + [Event(tag, time.value, record.value)];
              } else {
                logged := logged + [Warn(ParseFailedText + m)];
              }
          }
          return Continue;
      }
    }
  }

  /** `configure`: validates the parameters and, if they pass, sets up the
      lock key, an empty local storage and no deadline. */
  method Configure(c: PollerConfig) returns (r: Result<RedisListPollerInput, ConfigError>)
    ensures r.Success? <==> ParamsValid(c)
    ensures r.Failure? && r.error.MissingKey? ==> r.error.name in Required && !IsSet(c, r.error.name)
    ensures r.Success? ==>
      fresh(r.value) && r.value.Valid() && r.value.config == c &&
      r.value.lockKey == LockKey(c.key.value) && r.value.retryAt == None && r.value.storage == map[]
  {
    var checked := ConfigureParams(c);
    if checked.Failure? {
      return Failure(checked.error);
    }
    var plugin := new RedisListPollerInput(c);
    return Success(plugin);
  }
}

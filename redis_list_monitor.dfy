/** The `redis_list_monitor` input: on every tick it asks Redis for the
    length of a list and emits one record describing it; an error puts it to
    sleep for the retry interval. Its timer is a Cool.io watcher that keeps
    a failing callback from breaking the event loop. */
module RedisListMonitor {
  import opened Common

  /** The plugin parameters the monitor reads. A parameter Ruby holds as
      `nil` is `None`; intervals are whole time units. */
  datatype MonitorConfig = MonitorConfig(
    host: Option<string>,
    port: Option<int>,
    key: Option<string>,
    tag: Option<string>,
    pollInterval: int,
    sleepInterval: int,
    retryInterval: int)

  /** The parameters `configure_params` insists on, in the order it checks them. */
  const Required: seq<string> := ["host", "port", "key", "tag"]

  /** `instance_variable_get("@#{name}")` is truthy. */
  predicate IsSet(c: MonitorConfig, name: string)
  {
    if name == "host" then c.host.Some?
    else if name == "port" then c.port.Some?
    else if name == "key" then c.key.Some?
    else if name == "tag" then c.tag.Some?
    else false
  }

  /** What a configuration must satisfy for `configure` to succeed. */
  predicate ParamsValid(c: MonitorConfig)
  {
    c.host.Some? && c.port.Some? && c.key.Some? && c.tag.Some?
  }

  /** `configure_params`: the first missing parameter, in order, is reported. */
  method ConfigureParams(c: MonitorConfig) returns (r: Result<(), ConfigError>)
    ensures r.Success? <==> ParamsValid(c)
    ensures r == Failure(MissingKey("host")) <==> c.host.None?
    ensures r == Failure(MissingKey("port")) <==> c.host.Some? && c.port.None?
    ensures r == Failure(MissingKey("key")) <==> c.host.Some? && c.port.Some? && c.key.None?
    ensures r == Failure(MissingKey("tag")) <==> c.host.Some? && c.port.Some? && c.key.Some? && c.tag.None?
  {
    r := CheckRequired(Required, n => IsSet(c, n));
    assert Required[0] == "host" && Required[1] == "port" && Required[2] == "key" && Required[3] == "tag";
  }

  /** `configure_locking`: the monitor derives a lock key too, but never reads it. */
  function LockKey(key: string): string
  {
    "redis:" + key + ":lock"
  }

  const SleepingText := "redis worker is sleeping"
  const MonitorText := "redis queue monitor"
  const MonitorErrorText := "error monitoring queue"
  const TimerErrorText := "unexpected error"

  /** The reply to `llen`: the length, or an error that raises. */
  datatype LengthReply = Length(size: int) | LengthFault(reason: string)

  /** The record one monitor tick emits. */
  function MonitorRecord(c: MonitorConfig, now: int, size: int): Record
    requires ParamsValid(c)
  {
    map["timestamp" := VInt(now), "message" := VStr(MonitorText), "hostname" := VStr(c.host.value),
        "key" := VStr(c.key.value), "size" := VInt(size)]
  }

  /** The record holds exactly the five documented fields. */
  lemma MonitorRecordFields(c: MonitorConfig, now: int, size: int)
    requires ParamsValid(c)
    ensures var r := MonitorRecord(c, now, size);
      r.Keys == {"timestamp", "message", "hostname", "key", "size"} &&
      r["timestamp"] == VInt(now) && r["message"] == VStr("redis queue monitor") &&
      r["hostname"] == VStr(c.host.value) && r["key"] == VStr(c.key.value) && r["size"] == VInt(size)
  {
  }

  /** `action_poll` of the monitor, from the state before the tick. */
  function MonitorTick(c: MonitorConfig, retryAt: Option<int>, now: int, llen: LengthReply): Tick
    requires ParamsValid(c)
  {
    if Sleeping(retryAt, now) then Tick(retryAt, [], [], [Trace(SleepingText)])
    else
      var request := Direct(Command("llen", c.key.value));
      match llen
      case Length(n) => Tick(retryAt, [request], [Event(c.tag.value, now, MonitorRecord(c, now, n))], [])
      case LengthFault(_) => Tick(Some(now + c.retryInterval), [request], [], [Error(MonitorErrorText)])
  }

  /** While sleeping, the monitor neither asks Redis nor emits, and keeps the deadline. */
  lemma MonitorSleepingIsInert(c: MonitorConfig, retryAt: Option<int>, now: int, llen: LengthReply)
    requires ParamsValid(c) && Sleeping(retryAt, now)
    ensures var t := MonitorTick(c, retryAt, now, llen);
      t.requests == [] && t.events == [] && t.retryAt == retryAt
  {
  }

  /** Otherwise it sends exactly one `llen` on the key; on success it emits
      exactly one record, tagged and timed as the tick, and leaves the deadline
      alone whatever the length, zero included. */
  lemma MonitorActiveTick(c: MonitorConfig, retryAt: Option<int>, now: int, n: int)
    requires ParamsValid(c) && !Sleeping(retryAt, now)
    ensures var t := MonitorTick(c, retryAt, now, Length(n));
      t.requests == [Direct(Command("llen", c.key.value))] &&
      |t.events| == 1 && t.events[0].tag == c.tag.value && t.events[0].time == now &&
      t.events[0].record == MonitorRecord(c, now, n) && t.events[0].record["size"] == VInt(n) &&
      t.retryAt == retryAt && t.logs == []
  {
  }

  /** An error during the tick emits nothing and sleeps for the retry interval. */
  lemma MonitorFaultBacksOff(c: MonitorConfig, retryAt: Option<int>, now: int, reason: string)
    requires ParamsValid(c) && !Sleeping(retryAt, now)
    ensures var t := MonitorTick(c, retryAt, now, LengthFault(reason));
      t.requests == [Direct(Command("llen", c.key.value))] && t.events == [] &&
      t.retryAt == Some(now + c.retryInterval) && t.logs == [Error(MonitorErrorText)]
  {
  }

  /** Only an error moves the monitor's deadline, and only ever to the retry
      interval after now. */
  lemma MonitorDeadlineOnlyOnError(c: MonitorConfig, retryAt: Option<int>, now: int, llen: LengthReply)
    requires ParamsValid(c)
    ensures var t := MonitorTick(c, retryAt, now, llen);
      t.retryAt != retryAt ==> llen.LengthFault? && t.retryAt == Some(now + c.retryInterval)
  {
  }

  /** A configured `RedisListMonitorInput`, with what its collaborators saw:
      requests sent to Redis, events passed to the router and log lines. */
  class RedisListMonitorInput {
    const config: MonitorConfig
    const lockKey: string
    var queueLength: int
    var retryAt: Option<int>
    var issued: seq<Request>
    var emitted: seq<Event>
    var logged: seq<LogEntry>

    ghost predicate Valid()
      reads this
    {
      ParamsValid(config) && lockKey == LockKey(config.key.value)
    }

    /** The state `configure` leaves behind once validation has passed. */
    constructor (c: MonitorConfig)
      requires ParamsValid(c)
      ensures Valid() && config == c
      ensures queueLength == 0 && retryAt == None
      ensures issued == [] && emitted == [] && logged == []
    {
      config := c;
      lockKey := LockKey(c.key.value);
      queueLength := 0;
      retryAt := None;
      issued, emitted, logged := [], [], [];
    }

    /** `sleep!(delay)` */
    method Sleep(now: int, delay: int)
      modifies this`retryAt
      ensures retryAt == Some(now + delay)
    {
      retryAt := Some(now + delay);
    }

    /** `action_poll`: one tick of the monitor. */
    method ActionPoll(now: int, llen: LengthReply)
      requires Valid()
      modifies this`retryAt, this`issued, this`emitted, this`logged
      ensures var t := MonitorTick(config, old(retryAt), now, llen);
        retryAt == t.retryAt && issued == old(issued) + t.requests &&
        emitted == old(emitted) + t.events && logged == old(logged) + t.logs
    {
      if Sleeping(retryAt, now) {
        logged := logged + [Trace(SleepingText)];
        return;
      }
      issued := issued + [Direct(Command("llen", config.key.value))];
      match llen {
        case LengthFault(_) =>
          logged := logged + [Error(MonitorErrorText)];
          Sleep(now, config.retryInterval);
        case Length(listSize) =>
          var event := MonitorRecord(config, now, listSize);
          emitted := emitted + [Event(config.tag.value, now, event)];
      }
    }
  }

  /** `configure`: validates the parameters and, if they pass, starts with no
      deadline and a queue length of zero. */
  method Configure(c: MonitorConfig) returns (r: Result<RedisListMonitorInput, ConfigError>)
    ensures r.Success? <==> ParamsValid(c)
    ensures r.Failure? ==> r.error.MissingKey? && r.error.name in Required && !IsSet(c, r.error.name)
    ensures r.Success? ==>
      fresh(r.value) && r.value.Valid() && r.value.config == c &&
      r.value.retryAt == None && r.value.queueLength == 0
  {
    var checked := ConfigureParams(c);
    if checked.Failure? {
      return Failure(checked.error);
    }
    var plugin := new RedisListMonitorInput(c);
    return Success(plugin);
  }

  /** `TimerWatcher`: a repeating Cool.io timer running one callback. */
  class TimerWatcher {
    const interval: int
    var logged: seq<LogEntry>

    constructor (interval: int)
      ensures this.interval == interval && logged == []
    {
      this.interval := interval;
      logged := [];
    }

    /** `on_timer`: runs the callback (here, how it ended) and rescues a
        StandardError it raised, logging it; nothing else is swallowed. The
        result is what escapes to the event loop. */
    method OnTimer(callback: Completion) returns (escaped: Option<Exception>)
      modifies this`logged
      ensures escaped == if callback.Raised? && !callback.error.standard then Some(callback.error) else None
      ensures logged == old(logged) + if callback.Raised? && callback.error.standard then [Error(TimerErrorText)] else []
    {
      escaped := None;
      if callback.Raised? {
        if callback.error.standard {
          logged := logged + [Error(TimerErrorText)];
        } else {
          escaped := Some(callback.error);
        }
      }
    }
  }
}

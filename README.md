# fluent-plugin-redis_list_poller, modelled in Dafny

Two fluentd input plugins read from a Redis list.

- `redis_list_poller` runs one poll action per tick. It pops one message (`lpop` or `rpop`), or a pipelined batch of `batch_size` messages. It parses each message and passes the records to the router.
  - An empty queue makes it sleep for `sleep_interval`.
  - An error makes it sleep for `retry_interval`.
  - A lock flag, mirrored from Redis once a second into local storage, pauses it.
- `redis_list_monitor` runs one action per tick. It asks Redis for the list length (`llen`) and emits one record describing it. An error makes it sleep for `retry_interval`. Its Cool.io `TimerWatcher` keeps a failing callback from breaking the event loop.

Files:

- `common.dfy` (module `Common`) holds the values both plugins share:
  - requests, replies, events and log lines;
  - the backoff predicate `Sleeping`;
  - `CheckRequired`, the "first missing parameter" validation loop.
- `redis_list_poller.dfy` (module `RedisListPoller`) holds the poller:
  - the specification function `PollTick` for one tick;
  - an independent description of the per-message loop (`StopIndex`, `Emitted`, `Warned`) and the lemmas that connect the two;
  - the class `RedisListPollerInput`, whose methods update the deadline and the lock storage in place and record what Redis, the router and the logger saw.
- `redis_list_monitor.dfy` (module `RedisListMonitor`) holds the monitor:
  - `MonitorTick` and its lemmas;
  - the class `RedisListMonitorInput`;
  - the class `TimerWatcher`.

The model abstracts three collaborators:

- **Redis** is the function `reply: nat -> Reply`, the answer to the k-th command of the tick.
  - `Fault` stands for a reply that raises when it is read, as a `Redis::Future` holding an error does.
  - A fault at position 0 also covers a call that raises outright.
- **The parser** is `parse: string -> ParseOutcome`. The parser yields no pair, or one `(time, record)` pair with either part possibly nil, or it raises.
- **Time** is one clock reading, `now`, per tick.

The imperative methods (`ActionPoll`, `HandleReplies`, `PollMessages`, `ActionLockingMonitor`, the monitor's `ActionPoll`) are proved against the specification functions. The lemmas are stated about those functions.

## Model

| member | source | states |
|---|---|---|
| Common.CheckRequired | lib/fluent/plugin/in_redis_list_poller.rb:54-57 | succeeds iff every listed parameter is set; otherwise reports a parameter that is unset while every earlier one is set |
| Common.BackoffWindow | lib/fluent/plugin/in_redis_list_poller.rb:141-143 | after `sleep!(delay)` at `t`, an instant is suppressed iff it is at most `t + delay`; with no deadline, no instant is |
| RedisListPoller.ConfigureParams | lib/fluent/plugin/in_redis_list_poller.rb:53-62 | succeeds iff host, port, key, command and tag are set and command is `lpop` or `rpop`; each missing key is reported iff it is the first missing one; the command error iff all are set and the command is another |
| RedisListPoller.DefaultsNeedKeyAndTag | lib/fluent/plugin_mixin/redis.rb:8-29 | with the default parameters, configuration succeeds iff `key` and `tag` are given, and the poller pops one message per tick (batch size 0) |
| RedisListPoller.LockKeyInjective | lib/fluent/plugin/in_redis_list_poller.rb:77-80 | the `fluentd:<key>:lock` key determines the queue key |
| RedisListPoller.PollRequestShape | lib/fluent/plugin/in_redis_list_poller.rb:133-135 | the request is pipelined iff `batch_size > 1`; it holds `batch_size` commands when pipelined and otherwise one; every command is the configured pop on the key |
| RedisListPoller.EmitTagIsTag | lib/fluent/plugin/in_redis_list_poller.rb:224 | `@tag \|\| @key` is the tag, because validation insists on a tag |
| RedisListPoller.LockMirror | lib/fluent/plugin/in_redis_list_poller.rb:186-189 | a lock read that raises leaves storage unchanged; otherwise the value is stored verbatim; the store is then locked iff Redis returned a string; other keys are untouched |
| RedisListPoller.LockRefreshIdempotent | lib/fluent/plugin/in_redis_list_poller.rb:186-189 | mirroring an unchanged remote lock value a second time changes nothing |
| RedisListPoller.StopIndex | lib/fluent/plugin/in_redis_list_poller.rb:215-220 | the position of the first nil or raising reply: no reply before it stops the loop, and the reply at it does |
| RedisListPoller.EmittedFromMessages | lib/fluent/plugin/in_redis_list_poller.rb:222-224 | each event of the reference description carries the tag and the time and record the parser gave one of the messages |
| RedisListPoller.ProcessCharacterized | lib/fluent/plugin/in_redis_list_poller.rb:215-229 | the loop emits exactly the well-parsed messages before the first stopping reply, in order; it warns for exactly the badly parsed ones; it ends as that reply dictates |
| RedisListPoller.LaterRepliesIgnored | lib/fluent/plugin/in_redis_list_poller.rb:215-220 | once a reply stops the loop, whatever follows it has no effect |
| RedisListPoller.SleepingTickIsInert | lib/fluent/plugin/in_redis_list_poller.rb:205-208 | while sleeping: no request, no event, the deadline kept, one trace line |
| RedisListPoller.LockedTickIsInert | lib/fluent/plugin/in_redis_list_poller.rb:210-213 | while locked and not sleeping: no request, no event, the deadline kept, one trace line |
| RedisListPoller.TouchesRedisIff | lib/fluent/plugin/in_redis_list_poller.rb:205-215 | a tick sends a request iff it is neither sleeping nor locked, and then sends exactly the one poll request |
| RedisListPoller.ActiveTick | lib/fluent/plugin/in_redis_list_poller.rb:201-234 | an active tick emits, with the tag, the well-parsed messages before the first nil or raising reply. The deadline is kept if there is no such reply, becomes `now + sleep_interval` on nil and `now + retry_interval` on an exception. The logs are the parse warnings then the debug or error line |
| RedisListPoller.EventsBoundedByCommands | lib/fluent/plugin/in_redis_list_poller.rb:165-181 | a tick emits no more events than it issued pop commands |
| RedisListPoller.EventsComeFromParser | lib/fluent/plugin/in_redis_list_poller.rb:222-224 | every event carries the tag and the parser's time and record for one of the replies of the tick |
| RedisListPoller.RepliesAfterStopIgnored | lib/fluent/plugin/in_redis_list_poller.rb:215-220 | two ticks whose replies agree up to the first stopping reply are identical |
| RedisListPoller.BatchEndingInEmptyQueue | lib/fluent/plugin/in_redis_list_poller.rb:165-234 | a batch of three answered by two messages then nil sends one pipeline of three pops, emits both messages in order and sleeps for `sleep_interval` |
| RedisListPoller.RedisListPollerInput.constructor | lib/fluent/plugin/in_redis_list_poller.rb:45-47 | the configured state: lock key `fluentd:<key>:lock`, empty storage, no deadline |
| RedisListPoller.RedisListPollerInput.Sleep | lib/fluent/plugin/in_redis_list_poller.rb:156-158 | the deadline becomes `now + delay` |
| RedisListPoller.RedisListPollerInput.PollMessages | lib/fluent/plugin/in_redis_list_poller.rb:165-181 | appends exactly the poll request and returns the replies to its commands, in issue order |
| RedisListPoller.RedisListPollerInput.ActionLockingMonitor | lib/fluent/plugin/in_redis_list_poller.rb:186-189 | issues `get` on the lock key; the storage becomes the mirrored value; a raising read escapes as a StandardError |
| RedisListPoller.RedisListPollerInput.Rescue | lib/fluent/plugin/in_redis_list_poller.rb:230-233 | logs the error line and sets the deadline to `now + retry_interval` |
| RedisListPoller.RedisListPollerInput.ActionPoll | lib/fluent/plugin/in_redis_list_poller.rb:201-234 | the new deadline, the requests sent, the events emitted and the lines logged are exactly those of `PollTick` |
| RedisListPoller.RedisListPollerInput.HandleReplies | lib/fluent/plugin/in_redis_list_poller.rb:215-229 | the loop's events, warnings and stop are those of `ProcessReplies`; the deadline moves to `now + sleep_interval` iff the loop met a nil reply |
| RedisListPoller.RedisListPollerInput.HandleReply | lib/fluent/plugin/in_redis_list_poller.rb:216-227 | one reply: nil logs, sleeps and breaks; a raising reply or parse stops; a usable pair is emitted; any other pair warns |
| RedisListPoller.Configure | lib/fluent/plugin/in_redis_list_poller.rb:40-48 | yields a fresh, valid plugin with no deadline iff the parameters are valid |
| RedisListMonitor.ConfigureParams | lib/fluent/plugin/in_redis_list_monitor.rb:41-46 | succeeds iff host, port, key and tag are set; each missing key is reported iff it is the first missing one |
| RedisListMonitor.MonitorRecordFields | lib/fluent/plugin/in_redis_list_monitor.rb:139-145 | the record holds exactly timestamp, message, hostname, key and size, with their values |
| RedisListMonitor.MonitorSleepingIsInert | lib/fluent/plugin/in_redis_list_monitor.rb:132-135 | while sleeping: no `llen`, no event, the deadline kept |
| RedisListMonitor.MonitorActiveTick | lib/fluent/plugin/in_redis_list_monitor.rb:137-147 | otherwise exactly one `llen` on the key and one event, tagged and timed `now`, whose record holds the size; the deadline is kept whatever the size, zero included |
| RedisListMonitor.MonitorFaultBacksOff | lib/fluent/plugin/in_redis_list_monitor.rb:148-151 | an error emits nothing, logs the error line and sets the deadline to `now + retry_interval` |
| RedisListMonitor.MonitorDeadlineOnlyOnError | lib/fluent/plugin/in_redis_list_monitor.rb:129-151 | the deadline changes only on an error, and then to `now + retry_interval` |
| RedisListMonitor.RedisListMonitorInput.constructor | lib/fluent/plugin/in_redis_list_monitor.rb:32-35 | after configuration the queue length is 0 and there is no deadline |
| RedisListMonitor.RedisListMonitorInput.Sleep | lib/fluent/plugin/in_redis_list_monitor.rb:118-120 | the deadline becomes `now + delay` |
| RedisListMonitor.RedisListMonitorInput.ActionPoll | lib/fluent/plugin/in_redis_list_monitor.rb:129-152 | the new deadline, requests, events and logs are exactly those of `MonitorTick` |
| RedisListMonitor.Configure | lib/fluent/plugin/in_redis_list_monitor.rb:28-36 | yields a fresh, valid plugin with queue length 0 and no deadline iff host, port, key and tag are set |
| RedisListMonitor.TimerWatcher.OnTimer | lib/fluent/plugin/in_redis_list_monitor.rb:165-170 | a StandardError from the callback is logged and does not escape; any other exception escapes unlogged; a normal return logs nothing |

## Left out

- Connection set-up and teardown (`start_redis`, `shutdown_redis`, `::Redis.new`, `quit`) are left out. They are plumbing over the Redis client library. Only the parameter defaults are used, in `DefaultConfig`.
- Redis semantics, pipelining and `Redis::Future` unwrapping are left out. The client is the `reply` oracle, and a pipeline's replies are read in issue order.
- `poll_messages` yields each reply to a block. The model returns the replies and lets `HandleReplies` run the block over them. The difference is only in who reads them.
- The parser's configuration (`configure_parser`, the `<parse>` section) is left out. The parser is the `parse` oracle.
- Timers, threads and the event loop are left out: `start`, `start_poller`, `start_monitor`, `timer_execute`, the Cool.io loop, `run` and `shutdown`, including its start/stop ordering. They concern scheduling and concurrency. Each tick is one call of an action method.
- Intervals are floats in the source and integers here. `Engine.now` is read once per tick (`now`), although the source reads it again in `sleeping?` and `sleep!`.
- Log message arguments (`:error => e`) and backtraces are left out. Only the level and the text are kept.
- A raising `router.emit` is left out. The router is modelled as always accepting an event.
- The `time || Engine.now` fallback is left out: the branch it sits in already requires `time` to be truthy, so it cannot happen.
- Ruby hash ordering of the monitor record is left out. The record is a map.
- The monitor's lock key (`redis:<key>:lock`) and its `@queue_length` are modelled as state, but the source never reads either after `configure`. They are not used further.
- Ruby truthiness: a parameter counts as set when it is not nil, so an empty string passes validation, because the code tests only for nil. A lock value is truthy whenever Redis returned a string, including `""` and `"0"`.
- `sleeping?` is inclusive (`retry_at >= now`): the deadline instant itself is still asleep.
- RedisListPoller.Configure: a failure is stated only as some unset required key, or the command error. The exact first-missing-key order is stated by `RedisListPoller.ConfigureParams`, which `Configure` calls.

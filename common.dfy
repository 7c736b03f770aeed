/** Values, collaborators and small rules shared by the two Redis list input
    plugins: the poller (which pops and forwards messages) and the monitor
    (which reports the list length). */
module Common {

  datatype Option<+T> = None | Some(value: T)

  datatype Result<+R, +E> = Success(value: R) | Failure(error: E)

  /** A field value of an event record. */
  datatype Value = VInt(i: int) | VStr(s: string)

  type Record = map<string, Value>

  /** One call of the router's `emit(tag, time, record)`. */
  datatype Event = Event(tag: string, time: int, record: Record)

  /** One Redis command: its name (`lpop`, `rpop`, `get`, `llen`) and the key it acts on. */
  datatype Command = Command(name: string, key: string)

  /** What the Redis connection receives: one command on its own, or several
      commands sent together in one pipeline. */
  datatype Request = Direct(command: Command) | Pipelined(commands: seq<Command>)

  function Commands(r: Request): seq<Command>
  {
    match r
    case Direct(c) => [c]
    case Pipelined(cs) => cs
  }

  /** The reply to one Redis command: nil, a bulk string, or an error that
      raises when the reply is read. */
  datatype Reply = Nil | Bulk(payload: string) | Fault(reason: string)

  /** The value a non-error reply stands for on the Ruby side (nil or a string). */
  function ValueOf(r: Reply): Option<string>
    requires !r.Fault?
  {
    if r.Bulk? then Some(r.payload) else None
  }

  /** A line written to the plugin's logger, with its level. */
  datatype LogEntry = Trace(text: string) | Debug(text: string) | Warn(text: string) | Error(text: string)

  /** A Ruby exception; `standard` tells whether it is a StandardError, the
      class a bare `rescue => e` catches. */
  datatype Exception = Exception(standard: bool, message: string)

  /** How a callback ended: it returned, or it raised. */
  datatype Completion = Returned | Raised(error: Exception)

  /** `Fluent::ConfigError`, raised by configuration validation. */
  datatype ConfigError = MissingKey(name: string) | BadCommand
  {
    function Message(): string
    {
      match this
      case MissingKey(n) => "configuration key missing: " + n
      case BadCommand => "command must be either lpop or rpop"
    }
  }

  /** The observable effect of one tick of a poll action: the backoff deadline
      afterwards, and what was sent to Redis, emitted and logged during it. */
  datatype Tick = Tick(retryAt: Option<int>, requests: seq<Request>, events: seq<Event>, logs: seq<LogEntry>)

  /** `sleeping?`: a deadline is set and has not passed; the deadline instant
      itself still counts as sleeping. */
  predicate Sleeping(retryAt: Option<int>, now: int)
  {
    retryAt.Some? && retryAt.value >= now
  }

  /** After `sleep!(delay)` at time `t` the action is suppressed exactly at the
      instants up to and including `t + delay`; without a deadline it never is. */
  lemma BackoffWindow(t: int, delay: int, u: int)
    ensures Sleeping(Some(t + delay), u) <==> u <= t + delay
    ensures !Sleeping(None, u)
  {
  }

  /** The `%w(...).each { next if set; raise ConfigError }` loop: the first
      parameter, in the listed order, that is not set is reported. */
  method CheckRequired(names: seq<string>, isSet: string -> bool) returns (r: Result<(), ConfigError>)
    ensures r.Success? <==> forall i :: 0 <= i < |names| ==> isSet(names[i])
    ensures r.Failure? ==>
      exists i :: 0 <= i < |names| && r.error == MissingKey(names[i]) && !isSet(names[i]) &&
        forall j :: 0 <= j < i ==> isSet(names[j])
  {
    var i := 0;
    while i < |names|
      invariant 0 <= i <= |names|
      invariant forall j :: 0 <= j < i ==> isSet(names[j])
    {
      if !isSet(names[i]) {
        return Failure(MissingKey(names[i]));
      }
      i := i + 1;
    }
    return Success(());
  }
}

/** The Siddhi source `ethereum`: option reading and validation in `init`,
    and the handles that `connect`, `disconnect`, `pause` and `resume` create,
    use and tear down.

    The options arrive as a map from option key to its text. The web3j
    client, the web-socket service and the scheduler are opaque handles; the
    only thing about the network that matters here is whether the socket's
    `connect` succeeds, which is a parameter. A Java exception is a `Fault`
    or an `InitError`. */

module Source {
  import opened Wrappers
  import opened EthereumConstants
  import Decimal
  import Filter
  import Gate
  import Records

  /** What `init` keeps from the options. */
  datatype Config = Config(
    uri: string,
    filterName: string,
    fromBlock: string,
    toBlock: string,
    pollingInterval: int)

  /** Why `init` refuses a configuration.  The filter exception's message
      quotes the rejected name; the polling-interval exception's message names
      only the stream and the app, so the text `BadPollingInterval` carries is
      the model's own. */
  datatype InitError =
    | MissingOption(key: string)
    | BadPollingInterval(text: string)
    | BadFilter(name: string)

  /** `validateAndGetStaticValue(key, default)`: the option's text, or the
      default when the option is absent. */
  function OptionOr(options: map<string, string>, key: string, default: string): (v: string)
    ensures key in options ==> v == options[key]
    ensures key !in options ==> v == default
  {
    if key in options then options[key] else default
  }

  /** `validateFilterOption`: accepts exactly the four filter names. */
  function ValidateFilterOption(name: string): (r: Result<string, InitError>)
    ensures r.Success? <==> name in FilterNames
    ensures r.Success? ==> r.value == name
    ensures r.Failure? ==> r.error == BadFilter(name)
  {
    if name != FILTER_NEW_BLOCK && name != FILTER_NEW_TRANSACTION
       && name != FILTER_PENDING_TRANSACTION && name != FILTER_REPLAY_TRANSACTION
    then Failure(BadFilter(name))
    else Success(name)
  }

  /** `validatePollingInterval`: the option (default "3600") read as a
      decimal long.  Only the format and the long range are checked. */
  function ValidatePollingInterval(options: map<string, string>): (r: Result<int, InitError>)
    ensures var text := OptionOr(options, POLLING_INTERVAL, DEFAULT_POLLING_INTERVAL);
      && (r.Success? <==> Decimal.ParseLong(text).Some?)
      && (r.Success? ==> Decimal.InLongRange(r.value) && Decimal.ParseLong(text) == Some(r.value))
      && (r.Failure? ==> r.error == BadPollingInterval(text))
  {
    var text := OptionOr(options, POLLING_INTERVAL, DEFAULT_POLLING_INTERVAL);
    match Decimal.ParseLong(text)
    case Some(v) => Success(v)
    case None => Failure(BadPollingInterval(text))
  }

  /** A configuration `init` can produce. */
  predicate ValidConfig(c: Config) {
    c.filterName in FilterNames && Decimal.InLongRange(c.pollingInterval)
  }

  /** `init`: reads the options in source order, stopping at the first
      problem: a missing `uri`, a missing `filter`, a polling interval that is
      not a long, a filter name outside the four. */
  function Init(options: map<string, string>): (r: Result<Config, InitError>)
    ensures ETHEREUM_URI !in options ==> r == Failure(MissingOption(ETHEREUM_URI))
    ensures ETHEREUM_URI in options && FILTER !in options ==> r == Failure(MissingOption(FILTER))
    ensures r.Success? <==>
      && ETHEREUM_URI in options && FILTER in options
      && Decimal.ParseLong(OptionOr(options, POLLING_INTERVAL, DEFAULT_POLLING_INTERVAL)).Some?
      && options[FILTER] in FilterNames
    ensures var text := OptionOr(options, POLLING_INTERVAL, DEFAULT_POLLING_INTERVAL);
      ETHEREUM_URI in options && FILTER in options && Decimal.ParseLong(text).None? ==>
        r == Failure(BadPollingInterval(text))
    ensures var text := OptionOr(options, POLLING_INTERVAL, DEFAULT_POLLING_INTERVAL);
      ETHEREUM_URI in options && FILTER in options && Decimal.ParseLong(text).Some?
      && options[FILTER] !in FilterNames ==>
        r == Failure(BadFilter(options[FILTER]))
    ensures r.Success? ==>
      && ValidConfig(r.value)
      && Some(r.value.pollingInterval)
         == Decimal.ParseLong(OptionOr(options, POLLING_INTERVAL, DEFAULT_POLLING_INTERVAL))
      && r.value.uri == options[ETHEREUM_URI]
      && r.value.filterName == options[FILTER]
      && r.value.fromBlock == OptionOr(options, REPLAY_TRANSACTION_FROM_BLOCK, DEFAULT_FROM_BLOCK)
      && r.value.toBlock == OptionOr(options, REPLAY_TRANSACTION_TO_BLOCK, DEFAULT_TO_BLOCK)
  {
    if ETHEREUM_URI !in options then Failure(MissingOption(ETHEREUM_URI))
    else if FILTER !in options then Failure(MissingOption(FILTER))
    else
      var uri := options[ETHEREUM_URI];
      var name := options[FILTER];
      var fromBlock := OptionOr(options, REPLAY_TRANSACTION_FROM_BLOCK, DEFAULT_FROM_BLOCK);
      var toBlock := OptionOr(options, REPLAY_TRANSACTION_TO_BLOCK, DEFAULT_TO_BLOCK);
      var interval :- ValidatePollingInterval(options);
      var _ :- ValidateFilterOption(name);
      Success(Config(uri, name, fromBlock, toBlock, interval))
  }

  /** With only `uri` and a valid `filter` given, the block range defaults to
      earliest..latest and the polling interval to 3600. */
  lemma InitDefaults(uri: string, name: string)
    requires name in FilterNames
    ensures Init(map[ETHEREUM_URI := uri, FILTER := name])
      == Success(Config(uri, name, DEFAULT_FROM_BLOCK, DEFAULT_TO_BLOCK, 3600))
  {
    OptionKeysDistinct();
    Decimal.ParseLongExamples();
  }

  /** A misspelt filter name is refused at `init`, before any feed exists. */
  lemma InitRejectsTypo(uri: string)
    ensures Init(map[ETHEREUM_URI := uri, FILTER := "replyTransaction"])
      == Failure(BadFilter("replyTransaction"))
  {
    OptionKeysDistinct();
    Decimal.ParseLongExamples();
  }

  /** The web3j client: built with the polling interval; `shutdown` stops it. */
  datatype Client = Client(pollingInterval: int, running: bool)

  /** The web-socket service. */
  datatype Socket = Socket(uri: string, open: bool)

  /** The source's fields that outlive a call. */
  datatype Source = Source(
    config: Config,
    filter: Option<Filter.Util>,
    client: Option<Client>,
    socket: Option<Socket>,
    schedulerRunning: bool)

  /** The source right after a successful `init`: no handles yet. */
  function Initial(c: Config): (s: Source)
    ensures s.filter.None? && s.client.None? && s.socket.None? && s.schedulerRunning
  {
    Source(c, None, None, None, true)
  }

  /** A Java exception escaping a call. */
  datatype Fault = ConnectionUnavailable | NullReference

  /** The state after a call and the exception it raised, if any. */
  datatype Outcome = Outcome(state: Source, fault: Option<Fault>)

  /** `connect`.  `reachable` says whether the socket's `connect` succeeds.
      The socket field is cleared in every case; on success a new util
      replaces the filter and subscribes to the configured feed, on failure
      the fault escapes before the filter is touched. */
  function Connect(s: Source, reachable: bool): (r: Outcome)
    ensures r.state.socket.None?
    ensures r.state.config == s.config && r.state.schedulerRunning == s.schedulerRunning
    ensures r.fault.Some? <==> s.socket.None? && !reachable
    ensures r.fault.Some? ==>
      r.fault.value == ConnectionUnavailable
      && r.state.filter == s.filter && r.state.client == s.client
    ensures r.fault.None? ==>
      && r.state.client == Some(Client(s.config.pollingInterval, true))
      && r.state.filter.Some?
      && Gate.Valid(r.state.filter.value.gate) && !r.state.filter.value.gate.paused
    ensures r.fault.None? ==>
      r.state.filter == Some(Filter.CreateFilter(Filter.NewUtil(), s.config.filterName,
                                                 s.config.fromBlock, s.config.toBlock))
    ensures r.fault.None? && s.config.filterName in FilterNames ==>
      r.state.filter.value.subscription == Some(Filter.Subscription(
        Filter.SelectFeed(s.config.filterName, s.config.fromBlock, s.config.toBlock).value, true))
  {
    if s.socket.None? && !reachable then
      Outcome(s.(socket := None), Some(ConnectionUnavailable))
    else
      var client := Client(s.config.pollingInterval, true);
      var util := Filter.CreateFilter(Filter.NewUtil(), s.config.filterName,
                                      s.config.fromBlock, s.config.toBlock);
      Outcome(s.(socket := None, client := Some(client), filter := Some(util)), None)
  }

  /** A successful `connect` of a configuration `init` accepted always leaves
      a live subscription to the feed the filter name selects. */
  lemma ConnectSubscribes(options: map<string, string>, s: Source)
    requires Init(options).Success? && s.config == Init(options).value
    requires Connect(s, true).fault.None?
    ensures var u := Connect(s, true).state.filter.value;
      && Filter.Live(u)
      && Some(u.subscription.value.feed)
         == Filter.SelectFeed(s.config.filterName, s.config.fromBlock, s.config.toBlock)
  {
  }

  /** Something `disconnect` does to the outside world. */
  datatype Action = Unsubscribe | ShutdownClient | CloseSocket | ShutdownScheduler

  /** The position of each action in `disconnect`. */
  function Rank(a: Action): nat {
    match a
    case Unsubscribe => 0
    case ShutdownClient => 1
    case CloseSocket => 2
    case ShutdownScheduler => 3
  }

  /** Actions in strictly increasing rank: in order, none repeated. */
  predicate InOrder(acts: seq<Action>) {
    forall i, j :: 0 <= i < j < |acts| ==> Rank(acts[i]) < Rank(acts[j])
  }

  /** The first step of `disconnect`: `closeSubscription` on the filter,
      when there is one. */
  function CloseFilter(filter: Option<Filter.Util>): (r: (Option<Filter.Util>, seq<Action>))
    ensures r.0.Some? == filter.Some?
    ensures r.0.Some? ==> !Filter.Live(r.0.value)
    ensures r.0.Some? ==> r.0.value == Filter.CloseSubscription(filter.value).0
    ensures r.0.Some? ==> r.0.value.gate == filter.value.gate
    ensures r.1 == [] || r.1 == [Unsubscribe]
    ensures r.1 == [Unsubscribe] <==> filter.Some? && filter.value.subscription.Some?
  {
    match filter
    case None => (None, [])
    case Some(u) =>
      var (v, called) := Filter.CloseSubscription(u);
      (Some(v), if called then [Unsubscribe] else [])
  }

  /** The second step: `shutdown` on the client, when there is one. */
  function StopClient(client: Option<Client>): (r: (Option<Client>, seq<Action>))
    ensures r.0.Some? == client.Some?
    ensures r.0.Some? ==> !r.0.value.running
    ensures r.0 == (if client.Some? then Some(client.value.(running := false)) else None)
    ensures r.1 == (if client.Some? then [ShutdownClient] else [])
  {
    match client
    case None => (None, [])
    case Some(c) => (Some(c.(running := false)), [ShutdownClient])
  }

  /** The third step: `close` on the socket, when there is one. */
  function CloseSocketHandle(socket: Option<Socket>): (r: (Option<Socket>, seq<Action>))
    ensures r.0.Some? == socket.Some?
    ensures r.0.Some? ==> !r.0.value.open
    ensures r.0 == (if socket.Some? then Some(socket.value.(open := false)) else None)
    ensures r.1 == (if socket.Some? then [CloseSocket] else [])
  {
    match socket
    case None => (None, [])
    case Some(k) => (Some(k.(open := false)), [CloseSocket])
  }

  /** The four optional steps, concatenated, come out in rank order. */
  lemma TeardownInOrder(unsubscribe: seq<Action>, shutdown: seq<Action>, close: seq<Action>)
    requires unsubscribe == [] || unsubscribe == [Unsubscribe]
    requires shutdown == [] || shutdown == [ShutdownClient]
    requires close == [] || close == [CloseSocket]
    ensures InOrder(unsubscribe + shutdown + close + [ShutdownScheduler])
  {
  }

  /** `disconnect`: closes the filter's subscription, shuts the client down,
      closes the socket — each only when present — and always shuts the
      scheduler down.  No field is cleared. */
  function Disconnect(s: Source): (r: (Source, seq<Action>))
    ensures InOrder(r.1) && |r.1| > 0 && r.1[|r.1| - 1] == ShutdownScheduler
    ensures Unsubscribe in r.1 <==> s.filter.Some? && s.filter.value.subscription.Some?
    ensures ShutdownClient in r.1 <==> s.client.Some?
    ensures CloseSocket in r.1 <==> s.socket.Some?
    ensures r.0.config == s.config && !r.0.schedulerRunning
    ensures r.0.filter.Some? == s.filter.Some? && r.0.client.Some? == s.client.Some?
    ensures r.0.socket.Some? == s.socket.Some?
    ensures r.0.filter.Some? ==> !Filter.Live(r.0.filter.value)
    ensures r.0.filter == CloseFilter(s.filter).0
    ensures r.0.filter.Some? ==> r.0.filter.value.gate == s.filter.value.gate
    ensures r.0.client.Some? ==> r.0.client.value == s.client.value.(running := false)
    ensures r.0.socket.Some? ==> r.0.socket.value == s.socket.value.(open := false)
  {
    var (filter, unsubscribe) := CloseFilter(s.filter);
    var (client, shutdown) := StopClient(s.client);
    var (socket, close) := CloseSocketHandle(s.socket);
    TeardownInOrder(unsubscribe, shutdown, close);
    (Source(s.config, filter, client, socket, false),
     unsubscribe + shutdown + close + [ShutdownScheduler])
  }

  /** Disconnecting twice is harmless: the second call finds the same handles,
      repeats the same calls and leaves the same state. */
  lemma DisconnectTwice(s: Source)
    ensures Disconnect(Disconnect(s).0).0 == Disconnect(s).0
    ensures Disconnect(Disconnect(s).0).1 == Disconnect(s).1
  {
  }

  /** `disconnect` leaves the filter's gate alone: a paused gate stays paused
      and a later `resume` still releases every record it held. */
  lemma DisconnectKeepsHeld(s: Source)
    requires s.filter.Some?
    ensures Disconnect(s).0.filter.Some?
    ensures Disconnect(s).0.filter.value.gate.paused == s.filter.value.gate.paused
    ensures Resume(Disconnect(s).0).0.fault.None?
    ensures Resume(Disconnect(s).0).1 == Filter.GuardAll(s.filter.value.gate.held)
  {
  }

  /** `pause`: delegates to the filter; before any `connect` there is none
      and the call faults. */
  function Pause(s: Source): (r: Outcome)
    ensures r.fault.Some? <==> s.filter.None?
    ensures r.fault.Some? ==> r.fault.value == NullReference && r.state == s
    ensures r.fault.None? ==>
      r.state == s.(filter := Some(Filter.Pause(s.filter.value)))
      && r.state.filter.value.gate.paused
  {
    match s.filter
    case None => Outcome(s, Some(NullReference))
    case Some(u) => Outcome(s.(filter := Some(Filter.Pause(u))), None)
  }

  /** `resume`: delegates to the filter, whose held callbacks then deliver;
      before any `connect` the call faults. */
  function Resume(s: Source): (r: (Outcome, seq<Filter.Emission>))
    ensures r.0.fault.Some? <==> s.filter.None?
    ensures r.0.fault.Some? ==> r.0.fault.value == NullReference && r.0.state == s && r.1 == []
    ensures r.0.fault.None? ==>
      && r.0.state == s.(filter := Some(Filter.Resume(s.filter.value).0))
      && !r.0.state.filter.value.gate.paused && r.0.state.filter.value.gate.held == []
      && r.1 == Filter.GuardAll(s.filter.value.gate.held)
  {
    match s.filter
    case None => (Outcome(s, Some(NullReference)), [])
    case Some(u) =>
      var (v, out) := Filter.Resume(u);
      (Outcome(s.(filter := Some(v)), None), out)
  }

  /** `currentState`: the source keeps no state to snapshot. */
  function CurrentState(s: Source): (r: Option<map<string, string>>)
    ensures r.None?
  {
    None
  }

  /** `restoreState`: nothing to restore. */
  function RestoreState(s: Source, snapshot: Option<map<string, string>>): (r: Source)
    ensures r == s
  {
    s
  }

  /** One call made on the source, or one record arriving on its filter's
      feed. */
  datatype Command =
    | ConnectCmd(reachable: bool)
    | DisconnectCmd
    | PauseCmd
    | ResumeCmd
    | RecordCmd(record: Records.Record)

  /** The effect of one command; faults leave the state as the call left it. */
  function Step(s: Source, c: Command): (r: (Source, seq<Action>))
  {
    match c
    case ConnectCmd(reachable) => (Connect(s, reachable).state, [])
    case DisconnectCmd => Disconnect(s)
    case PauseCmd => (Pause(s).state, [])
    case ResumeCmd => (Resume(s).0.state, [])
    case RecordCmd(rec) =>
      match s.filter
      case None => (s, [])
      case Some(u) => (s.(filter := Some(Filter.Callback(u, rec).0)), [])
  }

  /** Runs a sequence of commands, collecting every `disconnect` action. */
  function Run(s: Source, cs: seq<Command>): (r: (Source, seq<Action>))
    decreases |cs|
  {
    if cs == [] then (s, [])
    else
      var (s1, a1) := Step(s, cs[0]);
      var (s2, a2) := Run(s1, cs[1..]);
      (s2, a1 + a2)
  }

  /** No command ever stores a socket, so from a state without one the socket
      stays absent and `disconnect` never closes a socket. */
  lemma {:induction false} SocketNeverHeld(s: Source, cs: seq<Command>)
    requires s.socket.None?
    ensures Run(s, cs).0.socket.None?
    ensures CloseSocket !in Run(s, cs).1
    decreases |cs|
  {
    if cs != [] {
      var (s1, a1) := Step(s, cs[0]);
      SocketNeverHeld(s1, cs[1..]);
      assert CloseSocket !in a1;
    }
  }

  /** In particular, starting right after `init`, whatever sequence of calls
      follows, the socket-closing branch of `disconnect` is never taken. */
  lemma CloseSocketUnreachable(c: Config, cs: seq<Command>)
    ensures CloseSocket !in Run(Initial(c), cs).1
  {
    SocketNeverHeld(Initial(c), cs);
  }

  /** Every filter the source holds has a consistent gate: only a paused gate
      holds records back. */
  predicate GatesValid(s: Source) {
    s.filter.Some? ==> Gate.Valid(s.filter.value.gate)
  }

  lemma {:induction false} RunKeepsGatesValid(s: Source, cs: seq<Command>)
    requires GatesValid(s)
    ensures GatesValid(Run(s, cs).0)
    decreases |cs|
  {
    if cs != [] {
      StepKeepsGatesValid(s, cs[0]);
      RunKeepsGatesValid(Step(s, cs[0]).0, cs[1..]);
    }
  }

  lemma StepKeepsGatesValid(s: Source, c: Command)
    requires GatesValid(s)
    ensures GatesValid(Step(s, c).0)
  {
  }
}

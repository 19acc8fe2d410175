/** One filter of the connector: the feed `createFilter` subscribes to, the
    callback that turns every feed item into a record and hands it on, and
    `closeSubscription`.

    A feed is modelled by what it would emit: the node is a finite snapshot of
    new blocks, confirmed transactions, pending transactions and the history a
    replay would walk through. The subscription is an opaque handle with an
    active flag; `onEvent(record, null)` is an `Emission`. */

module Filter {
  import opened Wrappers
  import opened EthereumConstants
  import opened Records
  import Gate

  /** The feed a filter subscribes to; a replay carries its block range. */
  datatype Feed =
    | BlockFeed
    | TransactionFeed
    | PendingFeed
    | ReplayFeed(fromBlock: string, toBlock: string)

  /** The filter name that selects each feed. */
  function FeedName(f: Feed): (name: string)
    ensures name in FilterNames
  {
    match f
    case BlockFeed => FILTER_NEW_BLOCK
    case TransactionFeed => FILTER_NEW_TRANSACTION
    case PendingFeed => FILTER_PENDING_TRANSACTION
    case ReplayFeed(_, _) => FILTER_REPLAY_TRANSACTION
  }

  /** The switch of `createFilter`: one of the four filter names selects its
      feed, and a replay takes the configured block range unchanged; any other
      name selects nothing. */
  function SelectFeed(name: string, fromBlock: string, toBlock: string): (r: Option<Feed>)
    ensures r.Some? <==> name in FilterNames
    ensures r.Some? ==> FeedName(r.value) == name
    ensures r.Some? && r.value.ReplayFeed? ==> r.value == ReplayFeed(fromBlock, toBlock)
  {
    if name == FILTER_NEW_BLOCK then Some(BlockFeed)
    else if name == FILTER_NEW_TRANSACTION then Some(TransactionFeed)
    else if name == FILTER_PENDING_TRANSACTION then Some(PendingFeed)
    else if name == FILTER_REPLAY_TRANSACTION then Some(ReplayFeed(fromBlock, toBlock))
    else None
  }

  /** Every feed is selected by its own name (and, for a replay, its own
      range), so no two feeds share a name. */
  lemma SelectFeedName(f: Feed, fromBlock: string, toBlock: string)
    requires f.ReplayFeed? ==> f == ReplayFeed(fromBlock, toBlock)
    ensures SelectFeed(FeedName(f), fromBlock, toBlock) == Some(f)
  {
    FilterNamesDistinct();
  }

  /** A name that differs from the four filter names only by a typo is not a
      filter name. */
  lemma SelectFeedRejectsTypo()
    ensures SelectFeed("replyTransaction", DEFAULT_FROM_BLOCK, DEFAULT_TO_BLOCK) == None
  {
  }

  /** The keys every record of a feed carries: the block mapper serves the
      block feed, the pending mapper the pending feed, and the transaction
      mapper both the confirmed and the replayed transactions. */
  function KeysOf(f: Feed): set<string> {
    match f
    case BlockFeed => BlockKeys
    case PendingFeed => PendingKeys
    case _ => TransactionKeys
  }

  /** A snapshot of what the node's feeds would emit.  `history` stands for the
      transactions a replay over a block range walks through. */
  datatype Node = Node(
    blocks: seq<Block>,
    transactions: seq<Transaction>,
    pending: seq<Transaction>,
    history: (string, string) -> seq<Transaction>)

  /** How many items a feed emits. */
  function FeedLength(node: Node, f: Feed): nat {
    match f
    case BlockFeed => |node.blocks|
    case TransactionFeed => |node.transactions|
    case PendingFeed => |node.pending|
    case ReplayFeed(from, to) => |node.history(from, to)|
  }

  /** The record built for item `i` of a feed, by the feed's own mapper. */
  function FeedRecord(node: Node, f: Feed, i: nat): (r: Record)
    requires i < FeedLength(node, f)
    ensures r.Keys == KeysOf(f) && |r| > 0
    ensures f.BlockFeed? ==> r == BlockRecord(node.blocks[i])
    ensures f.TransactionFeed? ==> r == TransactionRecord(node.transactions[i])
    ensures f.PendingFeed? ==> r == PendingRecord(node.pending[i])
    ensures f.ReplayFeed? ==> r == TransactionRecord(node.history(f.fromBlock, f.toBlock)[i])
  {
    match f
    case BlockFeed => BlockRecord(node.blocks[i])
    case TransactionFeed => TransactionRecord(node.transactions[i])
    case PendingFeed => PendingRecord(node.pending[i])
    case ReplayFeed(from, to) => TransactionRecord(node.history(from, to)[i])
  }

  /** The records of a whole feed, one per item, in feed order. */
  function FeedRecords(node: Node, f: Feed): (rs: seq<Record>)
    ensures |rs| == FeedLength(node, f)
    ensures forall i :: 0 <= i < |rs| ==> rs[i] == FeedRecord(node, f, i)
    ensures forall i :: 0 <= i < |rs| ==> rs[i].Keys == KeysOf(f) && |rs[i]| > 0
  {
    seq(FeedLength(node, f), i requires 0 <= i < FeedLength(node, f) => FeedRecord(node, f, i))
  }

  /** A call `onEvent(data, transportProperties)` on the source's listener. */
  datatype Emission = OnEvent(data: Record, transportProperties: Option<seq<string>>)

  /** The tail of every callback: `onEvent(record, null)` unless the record
      is empty. */
  function Guard(r: Record): (es: seq<Emission>)
    ensures |es| <= 1
    ensures |es| == 1 <==> |r| > 0
    ensures |r| > 0 ==> es == [OnEvent(r, None)]
  {
    if |r| == 0 then [] else [OnEvent(r, None)]
  }

  /** The calls the guard lets through for a run of released records. */
  function GuardAll(rs: seq<Record>): (es: seq<Emission>)
    ensures |es| <= |rs|
    decreases |rs|
  {
    if rs == [] then [] else Guard(rs[0]) + GuardAll(rs[1..])
  }

  /** When no record is empty the guard suppresses nothing: exactly one
      `onEvent(record, null)` per record, in order. */
  lemma {:induction false} GuardAllNonEmpty(rs: seq<Record>)
    requires forall i :: 0 <= i < |rs| ==> |rs[i]| > 0
    ensures |GuardAll(rs)| == |rs|
    ensures forall i :: 0 <= i < |rs| ==> GuardAll(rs)[i] == OnEvent(rs[i], None)
    decreases |rs|
  {
    if rs != [] {
      GuardAllNonEmpty(rs[1..]);
    }
  }

  /** Guarding two runs is guarding their concatenation. */
  lemma {:induction false} GuardAllAppend(a: seq<Record>, b: seq<Record>)
    ensures GuardAll(a + b) == GuardAll(a) + GuardAll(b)
    decreases |a|
  {
    if a == [] {
      assert a + b == b;
    } else {
      assert (a + b)[1..] == a[1..] + b;
      GuardAllAppend(a[1..], b);
    }
  }

  /** Guarding one more record appends that record's guarded emission. */
  lemma GuardAllSnoc(rs: seq<Record>, r: Record)
    ensures GuardAll(rs + [r]) == GuardAll(rs) + Guard(r)
  {
    GuardAllAppend(rs, [r]);
    assert [r][1..] == [];
  }

  /** The subscription handle: which feed, and whether it is still live. */
  datatype Subscription = Subscription(feed: Feed, active: bool)

  /** One `EthereumUtil`: its subscription (absent until a feed is selected)
      and its pause gate. */
  datatype Util = Util(subscription: Option<Subscription>, gate: Gate.Gate<Record>)

  /** A freshly constructed util: no subscription, open gate. */
  function NewUtil(): (u: Util)
    ensures u.subscription == None
    ensures Gate.Valid(u.gate) && !u.gate.paused
  {
    Util(None, Gate.Fresh())
  }

  /** `createFilter`: subscribes to the selected feed; a name outside the four
      leaves the subscription as it was. */
  function CreateFilter(u: Util, name: string, fromBlock: string, toBlock: string): (r: Util)
    ensures r.gate == u.gate
    ensures name in FilterNames ==>
      r.subscription == Some(Subscription(SelectFeed(name, fromBlock, toBlock).value, true))
    ensures name !in FilterNames ==> r.subscription == u.subscription
  {
    match SelectFeed(name, fromBlock, toBlock)
    case Some(f) => u.(subscription := Some(Subscription(f, true)))
    case None => u
  }

  /** `closeSubscription`: unsubscribes when there is a subscription.  The
      second component tells whether `unsubscribe` was called. */
  function CloseSubscription(u: Util): (r: (Util, bool))
    ensures r.1 <==> u.subscription.Some?
    ensures r.0.gate == u.gate
    ensures u.subscription.None? ==> r.0 == u
    ensures u.subscription.Some? ==>
      r.0.subscription == Some(u.subscription.value.(active := false))
  {
    match u.subscription
    case None => (u, false)
    case Some(s) => (u.(subscription := Some(s.(active := false))), true)
  }

  /** Closing twice leaves the same util as closing once. */
  lemma CloseSubscriptionIdempotent(u: Util)
    ensures CloseSubscription(CloseSubscription(u).0).0 == CloseSubscription(u).0
    ensures CloseSubscription(CloseSubscription(u).0).1 == CloseSubscription(u).1
  {
  }

  /** Whether the util is receiving its feed. */
  predicate Live(u: Util) {
    u.subscription.Some? && u.subscription.value.active
  }

  /** The subscribed callback for one record: `listen`, then the guarded
      `onEvent`.  A util without a live subscription receives nothing. */
  function Callback(u: Util, r: Record): (out: (Util, seq<Emission>))
    ensures out.0.subscription == u.subscription
    ensures !Live(u) ==> out == (u, [])
    ensures Gate.Valid(u.gate) ==> Gate.Valid(out.0.gate)
    ensures Live(u) && Gate.Valid(u.gate) && !u.gate.paused ==> out == (u, Guard(r))
    ensures Live(u) && u.gate.paused ==>
      out.1 == [] && out.0.gate.paused && out.0.gate.held == u.gate.held + [r]
  {
    if !Live(u) then (u, [])
    else
      var (g, released) := Gate.Listen(u.gate, r);
      assert [r][1..] == [] && GuardAll([]) == [];
      assert Guard(r) + [] == Guard(r);
      (u.(gate := g), GuardAll(released))
  }

  /** `pause` on the util. */
  function Pause(u: Util): (r: Util)
    ensures r.subscription == u.subscription
    ensures r.gate.paused && r.gate.held == u.gate.held
  {
    u.(gate := Gate.Pause(u.gate))
  }

  /** `resume` on the util: the held callbacks wake up and finish, each with
      its guarded `onEvent`. */
  function Resume(u: Util): (r: (Util, seq<Emission>))
    ensures r.0.subscription == u.subscription
    ensures !r.0.gate.paused && Gate.Valid(r.0.gate)
    ensures r.1 == GuardAll(u.gate.held)
  {
    var (g, released) := Gate.Resume(u.gate);
    (u.(gate := g), GuardAll(released))
  }

  /** Feeds every item of the subscribed feed through the callback.  With an
      open gate each item yields exactly one `onEvent(record, null)`, in feed
      order; with a paused gate every record is held back, none is lost. */
  method Deliver(u: Util, node: Node) returns (v: Util, out: seq<Emission>)
    requires Gate.Valid(u.gate)
    ensures v.subscription == u.subscription && Gate.Valid(v.gate)
    ensures v.gate.paused == u.gate.paused
    ensures !Live(u) ==> v == u && out == []
    ensures Live(u) && !u.gate.paused ==>
      var rs := FeedRecords(node, u.subscription.value.feed);
      |out| == |rs| && forall i :: 0 <= i < |rs| ==> out[i] == OnEvent(rs[i], None)
    ensures Live(u) && u.gate.paused ==>
      out == [] && v.gate.held == u.gate.held + FeedRecords(node, u.subscription.value.feed)
  {
    v, out := u, [];
    if !Live(u) {
      return;
    }
    var rs := FeedRecords(node, u.subscription.value.feed);
    var i := 0;
    while i < |rs|
      invariant 0 <= i <= |rs|
      invariant v.subscription == u.subscription && Gate.Valid(v.gate)
      invariant v.gate.paused == u.gate.paused
      invariant !u.gate.paused ==> out == GuardAll(rs[..i]) && v == u
      invariant u.gate.paused ==> out == [] && v.gate.held == u.gate.held + rs[..i]
    {
      var (w, emitted) := Callback(v, rs[i]);
      assert rs[..i + 1] == rs[..i] + [rs[i]];
      if !u.gate.paused {
        GuardAllSnoc(rs[..i], rs[i]);
      }
      v, out := w, out + emitted;
      i := i + 1;
    }
    assert rs[..i] == rs;
    if !u.gate.paused {
      GuardAllNonEmpty(rs);
    }
  }

  /** Records held while paused are delivered by the next resume, one
      `onEvent(record, null)` each: pausing delays records but drops none. */
  lemma HeldRecordsReleased(u: Util)
    requires forall i :: 0 <= i < |u.gate.held| ==> |u.gate.held[i]| > 0
    ensures |Resume(u).1| == |u.gate.held|
    ensures forall i :: 0 <= i < |u.gate.held| ==> Resume(u).1[i] == OnEvent(u.gate.held[i], None)
  {
    GuardAllNonEmpty(u.gate.held);
  }
}

/** The shared stream connector: one resumable exchange at the head of the byte stream, a
    lifecycle queue behind it, and three caller policies over a socket that may send and receive
    any part of what it is given (fcitx5-hazkey/src/hazkey_server_connector.cpp). */
module ServerConnectors {
  import opened ImeProtocol
  import opened Results
  import opened StreamFraming
  import opened LifecycleQueues

  datatype Policy = NormalPolicy | BestEffortPolicy | LifecyclePolicy

  datatype Request =
    | ActionRequest(session: string, action: Action)
    | OpenRequest(context: ClientContext, features: uint64)
    | CloseRequest(session: string)
    | OtherRequest(bytes: string)

  const BEST_EFFORT_BUDGET := 250
  const LIFECYCLE_BUDGET := 10
  const LIFECYCLE_TOTAL_BUDGET := 100
  const LIFECYCLE_MAXIMUM_ADVANCES := 16

  /** One request and the part of its response read so far. */
  datatype Exchange = Exchange(
    payload: Request, origin: Request, outbound: seq<byte>, outboundOffset: nat,
    header: seq<byte>, bodyLength: Option<nat>, body: seq<byte>,
    policy: Policy, resumeBudget: nat, createdAt: nat, expiresAt: Option<nat>,
    resumeAttempts: nat, staleRetryCount: nat)

  /** An exchange whose whole response was read. */
  datatype Done = Done(exchange: Exchange, message: seq<byte>, response: Response)

  datatype Progress = Complete | Pending | Lost

  /** What the socket did with a request to send or receive up to `n` bytes. */
  datatype Io = Moved(count: nat) | Interrupted | WouldBlock | Broken

  datatype Ready = IsReady | TimedOut | Unusable

  /** Why a connected socket was dropped. */
  datatype Cause =
    | SocketFailed
    | AnswerTooLong | AnswerUnreadable
    | HeadExpired(now: nat) | AttemptsUsedUp
    | RetryTooLong(stale: Done, number: nat) | DispositionTooLong(disposition: Request)
    | BudgetSpent

  /** A dropped socket, with the exchange that was at its head. */
  datatype Drop = Drop(cause: Cause, head: Option<Exchange>)

  function Failures(drops: seq<Drop>): nat {
    if drops == [] then 0
    else Failures(drops[..|drops| - 1]) + if drops[|drops| - 1].cause.SocketFailed? then 1 else 0
  }

  /** The retry of a lifecycle disposition after a stale answer: the same decision under a fresh
      ID and the revision the server reported. */
  function StaleLifecycleRetry(e: Exchange, r: Response, number: nat): Option<Request> {
    if e.policy != LifecyclePolicy || e.staleRetryCount >= 1 || r.status != StaleRevision
       || !r.payload.ActionResult? || r.payload.inner != StaleRevision || r.payload.snapshot.None?
       || !e.payload.ActionRequest? || !e.payload.action.command.ResolvePendingLearning?
    then None
    else Some(e.payload.(action := e.payload.action.(
      requestID := Generated(LifecyclePrefix, number),
      expectedRevision := r.payload.snapshot.value.revision)))
  }

  /** `b` is the single stale retry of the completed exchange `a`. */
  ghost predicate RetryOf(a: Done, b: Exchange) {
    && a.exchange.staleRetryCount == 0 && a.exchange.policy == LifecyclePolicy
    && b.origin == a.exchange.origin && b.createdAt == a.exchange.createdAt && b.expiresAt == a.exchange.expiresAt
    && exists number :: StaleLifecycleRetry(a.exchange, a.response, number) == Some(b.payload)
  }

  /** A retry keeps the session and the commit bit and changes nothing but ID and revision. */
  lemma {:induction false} RetryKeepsDecision(a: Done, b: Exchange)
    requires RetryOf(a, b)
    ensures a.exchange.payload.ActionRequest? && b.payload.ActionRequest?
    ensures b.payload.session == a.exchange.payload.session
    ensures b.payload.action.command == a.exchange.payload.action.command
    ensures b.payload.action.command.ResolvePendingLearning?
  {
    var number :| StaleLifecycleRetry(a.exchange, a.response, number) == Some(b.payload);
  }

  ghost predicate HeadOk(e: Exchange, message: seq<byte>) {
    && |message| <= MAX_FRAME && e.outbound == Frame(message) && e.outboundOffset <= |e.outbound|
    && |e.header| <= 4 && (e.header != [] ==> e.outboundOffset == |e.outbound|)
    && (e.bodyLength.None? ==> e.body == [])
    && (e.bodyLength.Some? ==>
          && |e.header| == 4 && e.bodyLength.value == Decode(e.header)
          && e.bodyLength.value <= MAXIMUM_RESPONSE_BYTES && |e.body| <= e.bodyLength.value)
    && BudgetOk(e)
  }

  /** Budgets and retries belong to the exchange, whoever advances it. */
  ghost predicate BudgetOk(e: Exchange) {
    && e.staleRetryCount <= 1
    && (e.staleRetryCount == 0 ==> e.payload == e.origin)
    && (e.staleRetryCount == 1 ==> e.policy == LifecyclePolicy)
    && (e.policy == LifecyclePolicy ==>
          e.resumeBudget == LIFECYCLE_BUDGET && e.expiresAt.Some? && e.resumeAttempts <= LIFECYCLE_MAXIMUM_ADVANCES)
  }

  ghost predicate Answered_(e: Exchange) {
    e.outboundOffset == |e.outbound| && e.bodyLength == Some(|e.body|)
  }

  function Messages(done: seq<Done>): (m: seq<seq<byte>>)
    ensures |m| == |done| && forall k :: 0 <= k < |done| ==> m[k] == done[k].message
  {
    seq(|done|, k requires 0 <= k < |done| => done[k].message)
  }

  function Bodies(done: seq<Done>): (m: seq<seq<byte>>)
    ensures |m| == |done| && forall k :: 0 <= k < |done| ==> m[k] == done[k].exchange.body
  {
    seq(|done|, k requires 0 <= k < |done| => done[k].exchange.body)
  }

  ghost function Origins(history: seq<Done>): set<Request> {
    set d | d in history :: d.exchange.origin
  }

  ghost predicate Accounted(
      fates: map<nat, Fate>, accepted: seq<Request>, covered: set<Request>, answered: set<Request>)
  {
    forall t: nat :: t in fates && t < |accepted| ==>
      && (fates[t] == BecameHead ==> accepted[t] in covered)
      && (fates[t] == Answered ==> accepted[t] in answered)
  }

  lemma {:induction false} AccountedMore(
      fates: map<nat, Fate>, accepted: seq<Request>, covered: set<Request>, answered: set<Request>,
      covered': set<Request>, answered': set<Request>)
    requires Accounted(fates, accepted, covered, answered)
    requires covered <= covered' && answered <= answered'
    ensures Accounted(fates, accepted, covered', answered')
  {
  }

  /** The k-th completed exchange: a first frame carries its own payload, a retry directly
      follows the exchange it repeats. */
  ghost predicate LinkOk(history: seq<Done>, e: Exchange, k: nat)
    requires k <= |history|
  {
    && BudgetOk(e)
    && (e.staleRetryCount == 1 ==> k > 0 && RetryOf(history[k - 1], e))
  }

  ghost predicate ChainOk(done: seq<Done>) {
    Frameable(Messages(done)) && Frameable(Bodies(done))
  }

  /** Every exchange ever completed, and the head, is linked: no disposition takes more than two
      frames, and both carry the same budgets and expiry. */
  ghost predicate Linked(history: seq<Done>, head: Option<Exchange>) {
    && (forall k :: 0 <= k < |history| ==> LinkOk(history, history[k].exchange, k))
    && (head.Some? ==> LinkOk(history, head.value, |history|))
  }

  lemma {:induction false} LinkedAppend(history: seq<Done>, head: Exchange, message: seq<byte>, response: Response)
    requires Linked(history, Some(head))
    ensures Linked(history + [Done(head, message, response)], None)
  {
    var h := history + [Done(head, message, response)];
    forall k | 0 <= k < |h| ensures LinkOk(h, h[k].exchange, k) {
      if k < |history| { assert LinkOk(history, history[k].exchange, k); }
    }
  }

  /** An exchange made for a request carries that very request, or is the one stale retry of the
      exchange before it, which did: same session, same decision. */
  lemma {:induction false} OwnFrameOrRetry(history: seq<Done>, head: Option<Exchange>, k: nat)
    requires Linked(history, head) && k < |history|
    ensures var e := history[k].exchange;
      || e.payload == e.origin
      || (k > 0 && history[k - 1].exchange.payload == e.origin && RetryOf(history[k - 1], e)
          && e.payload.ActionRequest? && e.origin.ActionRequest?
          && e.payload.session == e.origin.session
          && e.payload.action.command == e.origin.action.command)
    ensures k + 1 < |history| && history[k].exchange.staleRetryCount == 1 ==>
      history[k + 1].exchange.staleRetryCount == 0
  {
    assert LinkOk(history, history[k].exchange, k);
    if history[k].exchange.staleRetryCount == 1 {
      assert LinkOk(history, history[k - 1].exchange, k - 1);
      RetryKeepsDecision(history[k - 1], history[k].exchange);
    }
    if k + 1 < |history| {
      assert LinkOk(history, history[k + 1].exchange, k + 1);
    }
  }

  /** What was written and read on the current socket, given its completed exchanges and head. */
  ghost predicate Synced(
      connected: bool, head: Option<Exchange>, message: seq<byte>, done: seq<Done>,
      written: seq<byte>, received: seq<byte>)
  {
    && ChainOk(done)
    && (head.Some? ==> connected && HeadOk(head.value, message))
    && (connected ==>
          && written == Stream(Messages(done))
               + (if head.Some? then head.value.outbound[..head.value.outboundOffset] else [])
          && received == Stream(Bodies(done)) + (if head.Some? then head.value.header + head.value.body else []))
  }

  // ------------------------------------------------------------- stream lemmas

  lemma {:induction false} MessagesAppend(done: seq<Done>, d: Done)
    ensures Messages(done + [d]) == Messages(done) + [d.message]
    ensures Bodies(done + [d]) == Bodies(done) + [d.exchange.body]
  {
  }

  lemma {:induction false} StreamAppend(messages: seq<seq<byte>>, m: seq<byte>)
    requires Frameable(messages) && |m| <= MAX_FRAME
    ensures Frameable(messages + [m]) && Stream(messages + [m]) == Stream(messages) + Frame(m)
  {
    assert (messages + [m])[..|messages|] == messages;
  }

  /** A fully answered head becomes the next completed exchange, and the stream stands exactly
      between two frames in both directions. */
  lemma {:induction false} HeadCompletes(head: Exchange, message: seq<byte>, done: seq<Done>, response: Response,
                      written: seq<byte>, received: seq<byte>)
    requires Synced(true, Some(head), message, done, written, received) && Answered_(head)
    ensures Synced(true, None, [], done + [Done(head, message, response)], written, received)
  {
    hide Stream, Decode, BigEndian, RetryOf;
    var d := Done(head, message, response);
    BigEndianDecode(head.header);
    MessagesAppend(done, d);
    StreamAppend(Messages(done), message);
    StreamAppend(Bodies(done), head.body);
    assert head.outbound[..head.outboundOffset] == Frame(message);
    assert head.header + head.body == Frame(head.body);
    assert written == Stream(Messages(done + [d])) + [];
    assert received == Stream(Bodies(done + [d])) + [];
  }

  lemma {:induction false} Reassociate(a: seq<byte>, b: seq<byte>, c: seq<byte>)
    ensures a + b + c == a + (b + c) && c + [] == c
  {
  }

  /** Pairing: against a server that answers request after request with the given responses, the
      k-th completed exchange holds the k-th response. */
  lemma {:induction false} AnswersArePaired(
      head: Option<Exchange>, message: seq<byte>, done: seq<Done>, written: seq<byte>, received: seq<byte>,
      answers: seq<seq<byte>>, rest: seq<byte>, k: nat)
    requires Synced(true, head, message, done, written, received)
    requires Frameable(answers) && received + rest == Stream(answers)
    requires k < |done| && k < |answers|
    ensures done[k].exchange.body == answers[k]
  {
    hide Stream, HeadOk, LinkOk, Frame;
    var partial := if head.Some? then head.value.header + head.value.body else [];
    Reassociate(Stream(Bodies(done)), partial, rest);
    Reassociate(Stream(answers), [], Stream(answers));
    if |done| <= |answers| {
      FramingUnique(Bodies(done), answers, partial + rest, []);
      assert Bodies(done)[k] == answers[..|done|][k];
    } else {
      FramingUnique(answers, Bodies(done), [], partial + rest);
      assert answers[k] == Bodies(done)[..|answers|][k];
    }
  }

  // ------------------------------------------------------- steps of the head

  /** Everything about an exchange except how far it got. */
  ghost predicate SameExchange(a: Exchange, b: Exchange) {
    && a.payload == b.payload && a.origin == b.origin && a.outbound == b.outbound && a.policy == b.policy
    && a.resumeBudget == b.resumeBudget && a.createdAt == b.createdAt && a.expiresAt == b.expiresAt
    && a.resumeAttempts == b.resumeAttempts && a.staleRetryCount == b.staleRetryCount
  }

  lemma {:induction false} HeadBounds(e: Exchange, m: seq<byte>, done: seq<Done>, w: seq<byte>, r: seq<byte>)
    requires Synced(true, Some(e), m, done, w, r)
    ensures e.outboundOffset <= |e.outbound| && |e.header| <= 4 && e.staleRetryCount <= 1
    ensures e.header != [] ==> e.outboundOffset == |e.outbound|
    ensures e.bodyLength.Some? ==>
      |e.header| == 4 && |e.body| <= e.bodyLength.value && e.bodyLength.value == Decode(e.header)
  {
  }

  lemma {:induction false} ProgressKeepsLink(history: seq<Done>, e: Exchange, e': Exchange)
    requires Linked(history, Some(e)) && SameExchange(e, e')
    ensures Linked(history, Some(e'))
  {
  }

  lemma {:induction false} SentKeeps(e: Exchange, m: seq<byte>, done: seq<Done>, w: seq<byte>, r: seq<byte>, n: nat)
    requires Synced(true, Some(e), m, done, w, r) && e.outboundOffset + n <= |e.outbound|
    ensures Synced(true, Some(e.(outboundOffset := e.outboundOffset + n)), m, done,
                   w + e.outbound[e.outboundOffset..e.outboundOffset + n], r)
  {
    hide ChainOk, Stream, Frame;
    assert e.outbound[..e.outboundOffset + n]
        == e.outbound[..e.outboundOffset] + e.outbound[e.outboundOffset..e.outboundOffset + n];
  }

  lemma {:induction false} HeaderKeeps(e: Exchange, m: seq<byte>, done: seq<Done>, w: seq<byte>, r: seq<byte>,
      bytes: seq<byte>)
    requires Synced(true, Some(e), m, done, w, r) && e.outboundOffset == |e.outbound|
    requires e.bodyLength.None? && |e.header| + |bytes| <= 4
    ensures Synced(true, Some(e.(header := e.header + bytes)), m, done, w, r + bytes)
  {
    hide ChainOk, Stream, Frame;
    assert e.header + e.body == e.header && e.header + bytes + e.body == e.header + bytes;
  }

  lemma {:induction false} LengthKeeps(e: Exchange, m: seq<byte>, done: seq<Done>, w: seq<byte>, r: seq<byte>)
    requires Synced(true, Some(e), m, done, w, r)
    requires e.bodyLength.None? && |e.header| == 4 && Decode(e.header) <= MAXIMUM_RESPONSE_BYTES
    ensures Synced(true, Some(e.(bodyLength := Some(Decode(e.header)))), m, done, w, r)
  {
    hide ChainOk, Stream, Frame;
  }

  lemma {:induction false} BodyKeeps(e: Exchange, m: seq<byte>, done: seq<Done>, w: seq<byte>, r: seq<byte>,
      bytes: seq<byte>)
    requires Synced(true, Some(e), m, done, w, r)
    requires e.bodyLength.Some? && |e.body| + |bytes| <= e.bodyLength.value
    ensures Synced(true, Some(e.(body := e.body + bytes)), m, done, w, r + bytes)
  {
    hide ChainOk, Stream, Frame;
    assert e.header + (e.body + bytes) == e.header + e.body + bytes;
  }

  // ------------------------------------------------------------ the connector

  class ServerConnector {
    // The wire encoding of requests and the parser of responses.
    const encode: Request -> seq<byte>
    const parse: seq<byte> -> Option<Response>
    const lifecycleQueue: LifecycleQueue<Request>
    var connected: bool
    var pendingExchange: Option<Exchange>
    var clock: nat
    var nextDeferredRequestID: nat

    // The current socket's bytes and completed exchanges, and all completed exchanges ever.
    ghost var written: seq<byte>
    ghost var received: seq<byte>
    ghost var done: seq<Done>
    ghost var history: seq<Done>
    // The exchanges that died with their socket.
    ghost var lost: set<Request>
    // Every time a connected socket was dropped, and how often the socket itself failed.
    ghost var drops: seq<Drop>
    ghost var faults: nat

    constructor (encode: Request -> seq<byte>, parse: seq<byte> -> Option<Response>)
      ensures Valid() && !connected && history == [] && drops == [] && fresh(lifecycleQueue)
    {
      this.encode, this.parse := encode, parse;
      lifecycleQueue := new LifecycleQueue<Request>();
      connected, pendingExchange, clock, nextDeferredRequestID := false, None, 0, 1;
      written, received, done, history, lost := [], [], [], [], {};
      drops, faults := [], 0;
    }

    ghost function HeadMessage(): seq<byte>
      reads `pendingExchange
    {
      if pendingExchange.Some? then encode(pendingExchange.value.payload) else []
    }

    /** Completed exchanges carry their own encodings. */
    ghost predicate Coded(d: Done) {
      d.message == encode(d.exchange.payload) && parse(d.exchange.body) == Some(d.response)
    }

    ghost predicate StreamOk()
      reads `connected, `pendingExchange, `written, `received, `done, `history
    {
      && Synced(connected, pendingExchange, HeadMessage(), done, written, received)
      && Linked(history, pendingExchange)
      && (forall d :: d in history ==> Coded(d))
      && (forall d :: d in done ==> d in history)
    }

    /** A disposition that became the head of the stream was answered, is still the head, or died
        with its socket; one that was dropped as answered has an answered equal. */
    ghost predicate NothingVanished()
      reads `pendingExchange, `history, `lost, lifecycleQueue
    {
      Accounted(lifecycleQueue.fates, lifecycleQueue.accepted, Covered(), Origins(history))
    }

    /** The dispositions that are answered, at the head, or gone with their socket. */
    ghost function Covered(): set<Request>
      reads `pendingExchange, `history, `lost
    {
      Origins(history) + lost + if pendingExchange.Some? then {pendingExchange.value.origin} else {}
    }

    /** What the exchange at the head must show for the socket to be dropped on this account. */
    ghost predicate Justified(d: Drop) {
      match d.cause
      case SocketFailed => true
      case AnswerTooLong =>
        d.head.Some? && |d.head.value.header| == 4 && Decode(d.head.value.header) > MAXIMUM_RESPONSE_BYTES
      case AnswerUnreadable =>
        d.head.Some? && Answered_(d.head.value) && parse(d.head.value.body) == None
      case HeadExpired(now) =>
        d.head.Some? && d.head.value.expiresAt.Some? && now >= d.head.value.expiresAt.value
      case AttemptsUsedUp =>
        && d.head.Some? && d.head.value.policy == LifecyclePolicy
        && d.head.value.resumeAttempts >= LIFECYCLE_MAXIMUM_ADVANCES
      case RetryTooLong(stale, number) =>
        d.head.None? && (var retry := StaleLifecycleRetry(stale.exchange, stale.response, number);
                         retry.Some? && |encode(retry.value)| > MAX_FRAME)
      case DispositionTooLong(disposition) =>
        d.head.None? && |encode(disposition)| > MAX_FRAME
      case BudgetSpent =>
        d.head.Some? && d.head.value.policy == BestEffortPolicy
    }

    /** This cause to drop the socket exists right now. */
    ghost predicate Caused(cause: Cause)
      reads `pendingExchange, `clock, `history, `drops, `faults
    {
      && Justified(Drop(cause, pendingExchange))
      && (cause.SocketFailed? ==> Failures(drops) < faults)
      && (cause.HeadExpired? ==> cause.now <= clock)
      && (cause.RetryTooLong? ==> cause.stale in history)
    }

    /** Every dropped socket has its cause. */
    ghost predicate DropsOk()
      reads `drops, `faults
    {
      (forall d :: d in drops ==> Justified(d)) && Failures(drops) <= faults
    }

    /** The socket, and what was exchanged over it, is only ever given up for a recorded cause. */
    twostate predicate Explained()
      reads `connected, `done, `drops
    {
      && old(drops) <= drops
      && (|drops| == |old(drops)| && old(connected) ==> connected && old(done) <= done)
    }

    ghost predicate Valid()
      reads `connected, `pendingExchange, `written, `received, `done, `history, `lost, `drops, `faults,
        lifecycleQueue
    {
      StreamOk() && lifecycleQueue.Valid() && NothingVanished() && DropsOk()
    }

    // ------------------------------------------------------------ environment

    /** Reads the clock, which may have advanced by any amount. */
    method Now() returns (now: nat)
      modifies `clock
      ensures now == clock && clock >= old(clock)
    {
      var step: nat :| true;
      clock := clock + step;
      now := clock;
    }

    /** The socket accepts or provides some of `n` bytes, or blocks, or breaks. Only finitely many
        attempts in a row achieve nothing; `patience` is how many are left. */
    method Transfer(n: nat, patience: nat) returns (io: Io)
      requires n > 0
      modifies `faults
      ensures faults == old(faults) + if io.Broken? then 1 else 0
      ensures io.Moved? ==> 1 <= io.count <= n
      ensures io.Interrupted? || io.WouldBlock? ==> patience > 0
    {
      var outcome: nat :| true;
      var count: nat :| true;
      if outcome == 0 && 1 <= count <= n {
        io := Moved(count);
      } else if outcome == 1 && patience > 0 {
        io := Interrupted;
      } else if outcome == 2 && patience > 0 {
        io := WouldBlock;
      } else {
        io := Broken;
        faults := faults + 1;
      }
    }

    method WaitForSocket() returns (ready: Ready)
    {
      ready := *;
    }

    /** Waiting turns a timeout into a resumable pause only when the caller has a deadline. */
    method Wait(deadline: Option<nat>) returns (progress: Progress)
      modifies `faults
      ensures progress == Pending ==> deadline.Some?
      ensures faults == old(faults) + if progress == Lost then 1 else 0
    {
      var ready := WaitForSocket();
      if ready.IsReady? {
        return Complete;
      }
      if ready.TimedOut? && deadline.Some? {
        return Pending;
      }
      faults := faults + 1;
      return Lost;
    }

    method Bytes(n: nat) returns (bytes: seq<byte>)
      ensures |bytes| == n
    {
      bytes := *;
      if |bytes| != n {
        bytes := seq(n, _ => 0);
      }
    }

    // ---------------------------------------------------- advancing the head

    twostate predicate HeadAdvanced()
      reads `pendingExchange
    {
      && old(pendingExchange).Some? && pendingExchange.Some?
      && SameExchange(old(pendingExchange).value, pendingExchange.value)
    }

    /** One attempt at the socket that moved nothing: what the loop does next. */
    method Pause(io: Io, deadline: Option<nat>) returns (progress: Progress)
      requires !io.Moved?
      modifies `faults
      ensures io.Broken? ==> progress == Lost
      ensures faults == old(faults) + if progress == Lost && !io.Broken? then 1 else 0
      ensures progress == Pending ==> deadline.Some?
    {
      if io.Interrupted? {
        return Complete;
      }
      if io.WouldBlock? {
        progress := Wait(deadline);
        return;
      }
      return Lost;
    }

    method SendOutbound(deadline: Option<nat>) returns (progress: Progress)
      requires connected && pendingExchange.Some? && StreamOk()
      modifies `pendingExchange, `written, `clock, `faults
      ensures faults == old(faults) + if progress == Lost then 1 else 0
      ensures StreamOk() && HeadAdvanced()
      ensures progress == Complete ==> pendingExchange.value.outboundOffset == |pendingExchange.value.outbound|
      ensures progress == Pending ==> deadline.Some?
      ensures pendingExchange.value.header == old(pendingExchange).value.header
      ensures pendingExchange.value.bodyLength == old(pendingExchange).value.bodyLength
      ensures pendingExchange.value.body == old(pendingExchange).value.body
    {
      hide ChainOk, Stream, Frame, RetryOf, Synced, Linked;
      HeadBounds(pendingExchange.value, HeadMessage(), done, written, received);
      var patience: nat :| true;
      while pendingExchange.value.outboundOffset < |pendingExchange.value.outbound|
        invariant pendingExchange.Some? && StreamOk() && HeadAdvanced() && faults == old(faults)
        invariant pendingExchange.value.header == old(pendingExchange).value.header
        invariant pendingExchange.value.bodyLength == old(pendingExchange).value.bodyLength
        invariant pendingExchange.value.body == old(pendingExchange).value.body
        invariant pendingExchange.value.outboundOffset <= |pendingExchange.value.outbound|
        decreases |pendingExchange.value.outbound| - pendingExchange.value.outboundOffset, patience
      {
        var now := Now();
        if deadline.Some? && now >= deadline.value {
          return Pending;
        }
        var e := pendingExchange.value;
        var io := Transfer(|e.outbound| - e.outboundOffset, patience);
        if io.Moved? {
          SentKeeps(e, HeadMessage(), done, written, received, io.count);
          written := written + e.outbound[e.outboundOffset..e.outboundOffset + io.count];
          pendingExchange := Some(e.(outboundOffset := e.outboundOffset + io.count));
          ProgressKeepsLink(history, e, pendingExchange.value);
          continue;
        }
        progress := Pause(io, deadline);
        if progress != Complete {
          return;
        }
        patience := patience - 1;
      }
      return Complete;
    }

    method ReadHeader(deadline: Option<nat>) returns (progress: Progress)
      requires connected && pendingExchange.Some? && StreamOk()
      requires pendingExchange.value.outboundOffset == |pendingExchange.value.outbound|
      requires pendingExchange.value.bodyLength.None?
      modifies `pendingExchange, `received, `clock, `faults
      ensures faults == old(faults) + if progress == Lost then 1 else 0
      ensures StreamOk() && HeadAdvanced()
      ensures pendingExchange.value.outboundOffset == |pendingExchange.value.outbound|
      ensures pendingExchange.value.bodyLength.None?
      ensures progress == Complete ==> |pendingExchange.value.header| == 4
      ensures progress == Pending ==> deadline.Some?
    {
      hide ChainOk, Stream, Frame, RetryOf, Synced, Linked;
      HeadBounds(pendingExchange.value, HeadMessage(), done, written, received);
      var patience: nat :| true;
      while |pendingExchange.value.header| < 4
        invariant pendingExchange.Some? && StreamOk() && HeadAdvanced() && faults == old(faults)
        invariant pendingExchange.value.outboundOffset == |pendingExchange.value.outbound|
        invariant pendingExchange.value.bodyLength.None? && |pendingExchange.value.header| <= 4
        decreases 4 - |pendingExchange.value.header|, patience
      {
        var now := Now();
        if deadline.Some? && now >= deadline.value {
          return Pending;
        }
        var e := pendingExchange.value;
        var io := Transfer(4 - |e.header|, patience);
        if io.Moved? {
          var bytes := Bytes(io.count);
          HeaderKeeps(e, HeadMessage(), done, written, received, bytes);
          received := received + bytes;
          pendingExchange := Some(e.(header := e.header + bytes));
          ProgressKeepsLink(history, e, pendingExchange.value);
          continue;
        }
        progress := Pause(io, deadline);
        if progress != Complete {
          return;
        }
        patience := patience - 1;
      }
      return Complete;
    }

    method ReadBody(deadline: Option<nat>) returns (progress: Progress)
      requires connected && pendingExchange.Some? && StreamOk()
      requires pendingExchange.value.outboundOffset == |pendingExchange.value.outbound|
      requires pendingExchange.value.bodyLength.Some?
      modifies `pendingExchange, `received, `clock, `faults
      ensures faults == old(faults) + if progress == Lost then 1 else 0
      ensures StreamOk() && HeadAdvanced()
      ensures progress == Complete ==> Answered_(pendingExchange.value)
      ensures progress == Pending ==> deadline.Some?
    {
      hide ChainOk, Stream, Frame, RetryOf, Synced, Linked;
      HeadBounds(pendingExchange.value, HeadMessage(), done, written, received);
      var patience: nat :| true;
      while |pendingExchange.value.body| < pendingExchange.value.bodyLength.value
        invariant pendingExchange.Some? && StreamOk() && HeadAdvanced() && faults == old(faults)
        invariant pendingExchange.value.outboundOffset == |pendingExchange.value.outbound|
        invariant pendingExchange.value.bodyLength == old(pendingExchange).value.bodyLength
        invariant |pendingExchange.value.body| <= pendingExchange.value.bodyLength.value
        decreases pendingExchange.value.bodyLength.value - |pendingExchange.value.body|, patience
      {
        var now := Now();
        if deadline.Some? && now >= deadline.value {
          return Pending;
        }
        var e := pendingExchange.value;
        var io := Transfer(e.bodyLength.value - |e.body|, patience);
        if io.Moved? {
          var bytes := Bytes(io.count);
          BodyKeeps(e, HeadMessage(), done, written, received, bytes);
          received := received + bytes;
          pendingExchange := Some(e.(body := e.body + bytes));
          ProgressKeepsLink(history, e, pendingExchange.value);
          continue;
        }
        progress := Pause(io, deadline);
        if progress != Complete {
          return;
        }
        patience := patience - 1;
      }
      return Complete;
    }

    /** Resumes the head at its exact offsets: the rest of the frame, then the response header,
        then the body. A pause keeps every offset; only a complete parse completes it. */
    method AdvanceExchange(deadline: Option<nat>)
      returns (progress: Progress, response: Option<Response>, ghost cause: Cause)
      requires connected && pendingExchange.Some? && StreamOk()
      modifies `pendingExchange, `written, `received, `clock, `faults
      ensures StreamOk() && HeadAdvanced()
      ensures progress == Complete ==>
        response.Some? && Answered_(pendingExchange.value) && parse(pendingExchange.value.body) == response
      ensures progress != Complete ==> response.None?
      ensures progress == Pending ==> deadline.Some?
      ensures faults == old(faults) + if progress == Lost && cause.SocketFailed? then 1 else 0
      ensures progress == Lost ==>
        Justified(Drop(cause, pendingExchange)) && !cause.HeadExpired? && !cause.RetryTooLong?
    {
      hide ChainOk, Stream, Frame, RetryOf, Synced, Linked;
      response, cause := None, SocketFailed;
      progress := SendOutbound(deadline);
      if progress != Complete {
        return;
      }
      HeadBounds(pendingExchange.value, HeadMessage(), done, written, received);
      if pendingExchange.value.bodyLength.None? {
        progress := ReadHeader(deadline);
        if progress != Complete {
          return;
        }
        var e := pendingExchange.value;
        var responseLength := Decode(e.header);
        if responseLength > MAXIMUM_RESPONSE_BYTES {
          return Lost, None, AnswerTooLong;
        }
        LengthKeeps(e, HeadMessage(), done, written, received);
        pendingExchange := Some(e.(bodyLength := Some(responseLength)));
        ProgressKeepsLink(history, e, pendingExchange.value);
      }
      progress := ReadBody(deadline);
      if progress != Complete {
        return;
      }
      response := parse(pendingExchange.value.body);
      if response.None? {
        return Lost, None, AnswerUnreadable;
      }
    }

    // ------------------------------------------------------- head and socket

    /** A frame that has not moved yet, with the budgets of its policy. */
    method MakeExchange(payload: Request, origin: Request, policy: Policy) returns (exchange: Option<Exchange>)
      modifies `clock
      ensures exchange.None? <==> |encode(payload)| > MAX_FRAME
      ensures exchange.Some? ==>
        var e := exchange.value;
        && e.payload == payload && e.origin == origin && e.policy == policy
        && e.outbound == Frame(encode(payload)) && e.outboundOffset == 0
        && e.header == [] && e.bodyLength == None && e.body == []
        && e.resumeAttempts == 0 && e.staleRetryCount == 0
        && old(clock) <= e.createdAt <= clock
        && (match policy
            case NormalPolicy => e.resumeBudget == 0 && e.expiresAt.None?
            case BestEffortPolicy =>
              && e.resumeBudget == BEST_EFFORT_BUDGET && e.expiresAt.Some?
              && e.createdAt + BEST_EFFORT_BUDGET <= e.expiresAt.value <= clock + BEST_EFFORT_BUDGET
            case LifecyclePolicy =>
              && e.resumeBudget == LIFECYCLE_BUDGET && e.expiresAt.Some?
              && e.createdAt + LIFECYCLE_TOTAL_BUDGET <= e.expiresAt.value <= clock + LIFECYCLE_TOTAL_BUDGET)
    {
      var message := encode(payload);
      if |message| > MAX_FRAME {
        return None;
      }
      var createdAt := Now();
      var budget, expiresAt: Option<nat> := 0, None;
      if policy == BestEffortPolicy {
        budget := BEST_EFFORT_BUDGET;
        var now := Now();
        expiresAt := Some(now + BEST_EFFORT_BUDGET);
      } else if policy == LifecyclePolicy {
        budget := LIFECYCLE_BUDGET;
        var now := Now();
        expiresAt := Some(now + LIFECYCLE_TOTAL_BUDGET);
      }
      exchange := Some(Exchange(payload, origin, Frame(message), 0, [], None, [],
                                policy, budget, createdAt, expiresAt, 0, 0));
    }

    /** Puts a fresh frame at the head of a stream that stands between two frames. */
    method InstallHead(exchange: Exchange)
      requires connected && pendingExchange.None? && StreamOk()
      requires |encode(exchange.payload)| <= MAX_FRAME && exchange.outbound == Frame(encode(exchange.payload))
      requires exchange.outboundOffset == 0 && exchange.header == [] && exchange.bodyLength == None
      requires exchange.body == []
      requires LinkOk(history, exchange, |history|)
      modifies `pendingExchange
      ensures StreamOk() && pendingExchange == Some(exchange)
    {
      hide ChainOk, Stream, RetryOf;
      pendingExchange := Some(exchange);
      assert exchange.outbound[..0] == [] && exchange.header + exchange.body == [];
    }

    /** Records the completed head; the stream then stands between two frames. */
    method RetireHead(response: Response)
      requires connected && pendingExchange.Some? && StreamOk() && Answered_(pendingExchange.value)
      requires parse(pendingExchange.value.body) == Some(response)
      modifies `pendingExchange, `done, `history
      ensures StreamOk() && pendingExchange == None
      ensures var d := Done(old(pendingExchange).value, encode(old(pendingExchange).value.payload), response);
        history == old(history) + [d] && done == old(done) + [d]
    {
      hide ChainOk, Stream, RetryOf, Synced, Frame;
      var e := pendingExchange.value;
      HeadCompletes(e, HeadMessage(), done, response, written, received);
      LinkedAppend(history, e, HeadMessage(), response);
      ghost var d := Done(e, HeadMessage(), response);
      done := done + [d];
      history := history + [d];
      pendingExchange := None;
    }

    /** The earlier of the caller's deadline, the head's resume budget and the head's expiry. */
    method HeadDeadline(deadline: Option<nat>, e: Exchange) returns (headDeadline: Option<nat>)
      modifies `clock
      ensures deadline.Some? ==> headDeadline.Some? && headDeadline.value <= deadline.value
      ensures e.expiresAt.Some? ==> headDeadline.Some? && headDeadline.value <= e.expiresAt.value
      ensures e.resumeBudget > 0 ==> headDeadline.Some? && headDeadline.value <= clock + e.resumeBudget
      ensures headDeadline != deadline && headDeadline != e.expiresAt ==>
        e.resumeBudget > 0 && headDeadline.Some? && old(clock) + e.resumeBudget <= headDeadline.value
    {
      headDeadline := deadline;
      if e.resumeBudget > 0 {
        var now := Now();
        var resumeDeadline := now + e.resumeBudget;
        if headDeadline.None? || resumeDeadline < headDeadline.value {
          headDeadline := Some(resumeDeadline);
        }
      }
      if e.expiresAt.Some? && (headDeadline.None? || e.expiresAt.value < headDeadline.value) {
        headDeadline := e.expiresAt;
      }
    }

    /** The completed exchanges only grow. */
    twostate predicate HistoryGrows()
      reads `history
    {
      old(history) <= history
    }

    /** Same disposition at the head, possibly as its stale retry. */
    twostate predicate SameOrigin()
      reads `pendingExchange
    {
      old(pendingExchange).Some? && pendingExchange.Some?
      && pendingExchange.value.origin == old(pendingExchange).value.origin
    }

    /** The paused head was served: its attempt was counted, or it was finished, or its socket was dropped. */
    twostate predicate HeadServed()
      reads `pendingExchange, `history, `drops
    {
      old(pendingExchange).Some? ==>
        || |drops| > |old(drops)|
        || Finished(old(pendingExchange).value, |old(history)|)
        || (SameOrigin() && pendingExchange.value.resumeAttempts == old(pendingExchange).value.resumeAttempts + 1)
    }

    /** The next exchange to complete was this head's. */
    ghost predicate Finished(head: Exchange, before: nat)
      reads `history
    {
      |history| > before && history[before].exchange.origin == head.origin
    }

    /** Counts an attempt and advances the head once, within its own budgets. A head whose
        attempts or expiry are used up is lost. */
    method AdvanceOnce(deadline: Option<nat>)
      returns (progress: Progress, response: Option<Response>, ghost cause: Cause)
      requires connected && pendingExchange.Some? && StreamOk()
      modifies `pendingExchange, `written, `received, `clock, `faults
      ensures StreamOk() && SameOrigin()
      ensures pendingExchange.value.staleRetryCount == old(pendingExchange).value.staleRetryCount
      ensures pendingExchange.value.createdAt == old(pendingExchange).value.createdAt
      ensures pendingExchange.value.expiresAt == old(pendingExchange).value.expiresAt
      ensures var e := old(pendingExchange).value;
        if e.policy == LifecyclePolicy && e.resumeAttempts >= LIFECYCLE_MAXIMUM_ADVANCES
        then progress == Lost && written == old(written) && received == old(received)
        else pendingExchange.value.resumeAttempts == e.resumeAttempts + 1
      ensures var expiry := old(pendingExchange).value.expiresAt;
        expiry.Some? && old(clock) >= expiry.value ==>
          progress == Lost && written == old(written) && received == old(received)
      ensures progress == Complete ==>
        response.Some? && Answered_(pendingExchange.value) && parse(pendingExchange.value.body) == response
      ensures progress != Complete ==> response.None?
      ensures faults == old(faults) + if progress == Lost && cause.SocketFailed? then 1 else 0
      ensures progress == Lost ==>
        Justified(Drop(cause, pendingExchange)) && (cause.HeadExpired? ==> cause.now <= clock) && !cause.RetryTooLong?
    {
      hide ChainOk, Stream, Frame, StreamOk;
      var e := pendingExchange.value;
      // A head that exceeds its attempts is dropped with the socket, so its count is not stored.
      if e.policy == LifecyclePolicy && e.resumeAttempts + 1 > LIFECYCLE_MAXIMUM_ADVANCES {
        return Lost, None, AttemptsUsedUp;
      }
      CountAttempt();
      var now := Now();
      if e.expiresAt.Some? && now >= e.expiresAt.value {
        return Lost, None, HeadExpired(now);
      }
      var headDeadline := HeadDeadline(deadline, pendingExchange.value);
      progress, response, cause := AdvanceExchange(headDeadline);
    }

    method CountAttempt()
      requires connected && pendingExchange.Some? && StreamOk()
      requires pendingExchange.value.policy == LifecyclePolicy ==>
        pendingExchange.value.resumeAttempts < LIFECYCLE_MAXIMUM_ADVANCES
      modifies `pendingExchange
      ensures StreamOk()
      ensures var e := old(pendingExchange).value;
        pendingExchange == Some(e.(resumeAttempts := e.resumeAttempts + 1))
    {
      hide ChainOk, Stream, Frame;
      var e := pendingExchange.value;
      pendingExchange := Some(e.(resumeAttempts := e.resumeAttempts + 1));
    }

    /** Replaces a stale lifecycle head by its one retry, under the inherited creation and expiry. */
    method InstallRetry(retry: Request, d: Done) returns (ok: bool)
      requires connected && pendingExchange.None? && StreamOk()
      requires history != [] && d == history[|history| - 1]
      requires nextDeferredRequestID > 0
      requires StaleLifecycleRetry(d.exchange, d.response, nextDeferredRequestID - 1) == Some(retry)
      modifies `pendingExchange, `clock
      ensures StreamOk()
      ensures ok ==>
        && pendingExchange.Some? && pendingExchange.value.origin == d.exchange.origin
        && pendingExchange.value.staleRetryCount == 1 && pendingExchange.value.expiresAt == d.exchange.expiresAt
      ensures !ok ==> pendingExchange.None? && |encode(retry)| > MAX_FRAME
    {
      hide ChainOk, Stream, Frame;
      var made := MakeExchange(retry, d.exchange.origin, LifecyclePolicy);
      if made.None? {
        return false;
      }
      LastIsLinked(history);
      var e := made.value.(createdAt := d.exchange.createdAt, expiresAt := d.exchange.expiresAt,
                           staleRetryCount := d.exchange.staleRetryCount + 1);
      InstallHead(e);
      return true;
    }

    /** Completes the head without losing track of its disposition. */
    method CompleteHead(response: Response)
      requires connected && pendingExchange.Some? && Valid() && Answered_(pendingExchange.value)
      requires parse(pendingExchange.value.body) == Some(response)
      modifies `pendingExchange, `done, `history
      ensures Valid() && pendingExchange == None
      ensures var d := Done(old(pendingExchange).value, encode(old(pendingExchange).value.payload), response);
        history == old(history) + [d] && done == old(done) + [d]
    {
      hide ChainOk, Stream, Frame, RetryOf, Synced, Accounted, Origins, LifecycleQueue.Valid, DropsOk;
      ghost var covered := Covered();
      RetireHead(response);
      LastOriginKnown(old(history), history);
      AccountedMore(lifecycleQueue.fates, lifecycleQueue.accepted, covered, Origins(old(history)), Covered(),
        Origins(history));
    }

    method RetryHead(retry: Request, d: Done) returns (ok: bool)
      requires connected && pendingExchange.None? && Valid()
      requires history != [] && d == history[|history| - 1]
      requires nextDeferredRequestID > 0
      requires StaleLifecycleRetry(d.exchange, d.response, nextDeferredRequestID - 1) == Some(retry)
      modifies `pendingExchange, `clock
      ensures Valid()
      ensures ok ==>
        && pendingExchange.Some? && pendingExchange.value.origin == d.exchange.origin
        && pendingExchange.value.staleRetryCount == 1
      ensures !ok ==> pendingExchange.None? && |encode(retry)| > MAX_FRAME
    {
      hide ChainOk, Stream, Frame, RetryOf, Synced, Accounted, Origins, LifecycleQueue.Valid, DropsOk,
        StaleLifecycleRetry;
      ghost var covered := Covered();
      ok := InstallRetry(retry, d);
      AccountedMore(lifecycleQueue.fates, lifecycleQueue.accepted, covered, Origins(history), Covered(),
        Origins(history));
    }

    lemma {:induction false} StaleCountBound()
      requires connected && pendingExchange.Some? && Valid()
      ensures pendingExchange.value.staleRetryCount <= 1
    {
      HeadBounds(pendingExchange.value, HeadMessage(), done, written, received);
    }

    /** As `AdvanceOnce`, which moves bytes of the head's own frame alone. */
    method AttemptHead(deadline: Option<nat>)
      returns (progress: Progress, response: Option<Response>, ghost cause: Cause)
      requires connected && pendingExchange.Some? && Valid()
      modifies `pendingExchange, `written, `received, `clock, `faults
      ensures Valid() && SameOrigin()
      ensures pendingExchange.value.staleRetryCount == old(pendingExchange).value.staleRetryCount
      ensures progress == Complete ==>
        response.Some? && Answered_(pendingExchange.value) && parse(pendingExchange.value.body) == response
      ensures progress == Pending ==>
        pendingExchange.value.resumeAttempts == old(pendingExchange).value.resumeAttempts + 1
      ensures progress == Lost ==> Caused(cause)
    {
      hide ChainOk, Stream, Frame, RetryOf, Synced, Accounted, Origins, LifecycleQueue.Valid, Justified,
        StreamOk;
      progress, response, cause := AdvanceOnce(deadline);
    }

    /** Advances the head until it pauses, is lost, or is answered for good; a stale lifecycle
        answer is retried once. */
    method AdvancePending(deadline: Option<nat>)
      returns (progress: Progress, response: Option<Response>, ghost cause: Cause)
      requires connected && pendingExchange.Some? && Valid()
      modifies `pendingExchange, `written, `received, `clock, `done, `history, `nextDeferredRequestID, `faults
      ensures Valid() && HistoryGrows() && old(done) <= done
      ensures progress == Lost ==> Caused(cause)
      ensures progress == Complete ==>
        && response.Some? && pendingExchange.None? && |history| > |old(history)|
        && history[|history| - 1].exchange.origin == old(pendingExchange).value.origin
        && history[|history| - 1].response == response.value
      ensures progress == Pending ==> SameOrigin()
      ensures progress == Complete ==> Finished(old(pendingExchange).value, |old(history)|)
      ensures progress == Pending ==>
        || Finished(old(pendingExchange).value, |old(history)|)
        || pendingExchange.value.resumeAttempts == old(pendingExchange).value.resumeAttempts + 1
      ensures progress == Lost ==> pendingExchange.None? || SameOrigin()
    {
      hide ChainOk, Stream, Frame, RetryOf, Synced, Accounted, Origins, LifecycleQueue.Valid, Justified,
        Failures, ServerConnector.Valid, Caused;
      response, cause := None, SocketFailed;
      StaleCountBound();
      while true
        invariant pendingExchange.Some? && Valid() && SameOrigin() && HistoryGrows() && old(done) <= done
        invariant pendingExchange.value.staleRetryCount <= 1
        invariant
          || (pendingExchange == old(pendingExchange) && history == old(history))
          || Finished(old(pendingExchange).value, |old(history)|)
        decreases 1 - pendingExchange.value.staleRetryCount
      {
        progress, response, cause := AttemptHead(deadline);
        if progress != Complete {
          return;
        }
        progress, cause := CloseExchange(response.value);
        if progress == Complete {
          return;
        }
        if progress == Lost {
          return Lost, None, cause;
        }
      }
    }

    /** Records the answered head and, when its answer calls for one, puts its retry in its place. */
    method CloseExchange(response: Response) returns (progress: Progress, ghost cause: Cause)
      requires connected && pendingExchange.Some? && Valid() && Answered_(pendingExchange.value)
      requires parse(pendingExchange.value.body) == Some(response)
      modifies `pendingExchange, `clock, `done, `history, `nextDeferredRequestID
      ensures Valid() && HistoryGrows() && old(done) <= done && |history| == |old(history)| + 1
      ensures Finished(old(pendingExchange).value, |old(history)|) && history[|history| - 1].response == response
      ensures progress == Complete ==> pendingExchange.None?
      ensures progress == Pending ==>
        && SameOrigin() && pendingExchange.value.staleRetryCount == 1
        && old(pendingExchange).value.staleRetryCount == 0
      ensures progress == Lost ==> pendingExchange.None? && Caused(cause)
    {
      hide ChainOk, Stream, Frame, RetryOf, Synced, StaleLifecycleRetry, Accounted, Origins,
        LifecycleQueue.Valid, Justified, Failures, ServerConnector.Valid;
      var d := Done(pendingExchange.value, encode(pendingExchange.value.payload), response);
      CompleteHead(response);
      progress, cause := RetryStale(d);
    }

    /** The one retry of a stale lifecycle answer: installed (`Pending`), not called for (`Complete`), or
        too long to be framed (`Lost`). */
    method RetryStale(d: Done) returns (progress: Progress, ghost cause: Cause)
      requires connected && pendingExchange.None? && Valid() && history != [] && d == history[|history| - 1]
      modifies `pendingExchange, `clock, `nextDeferredRequestID
      ensures Valid()
      ensures progress == Complete ==>
        pendingExchange.None? && forall n :: StaleLifecycleRetry(d.exchange, d.response, n) == None
      ensures progress == Pending ==>
        && pendingExchange.Some? && pendingExchange.value.origin == d.exchange.origin
        && pendingExchange.value.staleRetryCount == 1 && d.exchange.staleRetryCount == 0
      ensures progress == Lost ==> pendingExchange.None? && cause.RetryTooLong? && Caused(cause)
    {
      hide ChainOk, Stream, Frame, RetryOf, Synced, Accounted, Origins, LifecycleQueue.Valid, DropsOk,
        StreamOk;
      cause := SocketFailed;
      var retry := StaleLifecycleRetry(d.exchange, d.response, nextDeferredRequestID);
      if retry.None? {
        return Complete, cause;
      }
      nextDeferredRequestID := nextDeferredRequestID + 1;
      var ok := RetryHead(retry.value, d);
      if ok {
        return Pending, cause;
      }
      return Lost, RetryTooLong(d, nextDeferredRequestID - 1);
    }

    /** Disconnects: the head dies with the socket, and queued dispositions may not cross to a
        new one. */
    method CloseBrokenSocket(ghost cause: Cause)
      requires Valid() && (connected ==> Caused(cause))
      modifies `connected, `pendingExchange, `lost, `drops, lifecycleQueue
      ensures Valid() && !connected && pendingExchange.None? && lifecycleQueue.items == []
      ensures QueueProgress()
      ensures drops == if old(connected) then old(drops) + [Drop(cause, old(pendingExchange))] else old(drops)
    {
      hide ChainOk, Stream, Frame, RetryOf, Accounted, Origins, LifecycleQueue.Valid, DropsOk, StreamOk,
        Covered, Caused, Justified;
      ghost var covered := Covered();
      if connected {
        NoteDrop(cause);
      }
      LoseHead();
      ghost var fates := lifecycleQueue.fates;
      lifecycleQueue.DropDisconnected();
      DroppedAccounted(fates, lifecycleQueue.fates, lifecycleQueue.accepted, covered, Origins(history), Covered());
    }

    /** The head dies with its socket. */
    method LoseHead()
      requires StreamOk()
      modifies `connected, `pendingExchange, `lost
      ensures StreamOk() && !connected && pendingExchange.None? && old(Covered()) <= Covered()
    {
      hide ChainOk, Stream, Frame, RetryOf;
      if pendingExchange.Some? {
        lost := lost + {pendingExchange.value.origin};
      }
      connected := false;
      pendingExchange := None;
    }

    ghost method NoteDrop(cause: Cause)
      requires DropsOk() && Caused(cause)
      modifies `drops
      ensures DropsOk() && drops == old(drops) + [Drop(cause, pendingExchange)]
    {
      hide Justified;
      drops := drops + [Drop(cause, pendingExchange)];
      assert drops[..|drops| - 1] == old(drops);
    }

    /** Connecting starts a new stream, or does not succeed. */
    method ConnectServer()
      requires Valid() && !connected
      modifies `connected, `written, `received, `done
      ensures Valid() && pendingExchange == old(pendingExchange)
    {
      hide RetryOf, LifecycleQueue.Valid, Accounted, Origins, Synced, Stream;
      NoHeadWhileDisconnected(pendingExchange, HeadMessage(), done, written, received);
      NewStreamIsSynced();
      var succeeded: bool := *;
      if succeeded {
        connected := true;
        written, received, done := [], [], [];
      }
    }

    /** What the queue keeps of its past: tickets, reasons and the order of heads. */
    twostate predicate QueueProgress()
      reads lifecycleQueue
    {
      && old(lifecycleQueue.accepted) <= lifecycleQueue.accepted
      && old(lifecycleQueue.heads) <= lifecycleQueue.heads
      && (forall t: nat :: t in old(lifecycleQueue.fates) ==>
            t in lifecycleQueue.fates && lifecycleQueue.fates[t] == old(lifecycleQueue.fates)[t])
    }

    /** Other threads may hand over dispositions at any moment; `arrivals` bounds how many. */
    method OtherThreads(arrivals: nat) returns (left: nat)
      requires Valid()
      modifies lifecycleQueue
      ensures Valid() && QueueProgress() && left <= arrivals
      ensures |lifecycleQueue.items| + left <= |old(lifecycleQueue.items)| + arrivals
      ensures lifecycleQueue.fates == old(lifecycleQueue.fates)
    {
      hide Synced, LifecycleQueue.Valid, Origins;
      var n: nat :| n <= arrivals;
      left := arrivals - n;
      for k := 0 to n
        invariant Valid() && QueueProgress() && lifecycleQueue.fates == old(lifecycleQueue.fates)
        invariant |lifecycleQueue.items| <= |old(lifecycleQueue.items)| + k
      {
        var request: Request := *;
        EnqueueRequest(request);
      }
    }

    /** Takes ownership of a disposition before contending on the stream. */
    method EnqueueRequest(request: Request)
      requires Valid()
      modifies lifecycleQueue
      ensures Valid() && QueueProgress() && lifecycleQueue.fates == old(lifecycleQueue.fates)
      ensures request in lifecycleQueue.items
      ensures |lifecycleQueue.items| <= |old(lifecycleQueue.items)| + 1
      ensures Tracked(request, old(lifecycleQueue.fates))
    {
      hide Synced, Origins, LifecycleQueue.Valid, Accounted;
      ghost var ticket := lifecycleQueue.Enqueue(request);
      EnqueuedAccounted(lifecycleQueue.fates, old(lifecycleQueue.accepted), lifecycleQueue.accepted,
                        Covered(), Origins(history));
    }

    /** The request holds a ticket that had no fate yet in `before`. */
    ghost predicate Tracked(request: Request, before: map<nat, Fate>)
      reads lifecycleQueue
    {
      exists t: nat :: t < |lifecycleQueue.accepted| && lifecycleQueue.accepted[t] == request && t !in before
    }

    /** Advances the head on behalf of a caller. `None`: paused at the head, or disconnected.
        `Some(None)`: an earlier exchange finished. `Some(Some(r))`: the caller's own answer. */
    method FinishHead(message: Request, deadline: Option<nat>) returns (result: Option<Option<Response>>)
      requires Valid() && (pendingExchange.Some? ==> connected)
      modifies `connected, `pendingExchange, `written, `received, `clock, `done, `history, `lost,
        `nextDeferredRequestID, `drops, `faults, lifecycleQueue
      ensures Valid() && HistoryGrows() && QueueProgress() && Explained()
      ensures result.Some? ==>
        pendingExchange.None? && connected == old(connected) && lifecycleQueue.items == old(lifecycleQueue.items)
      ensures result.Some? && result.value.Some? ==> LastAnswers(message, result.value.value, |old(history)|)
      ensures result.None? ==>
        pendingExchange.Some? || (!connected && lifecycleQueue.items == [] && |drops| > |old(drops)|)
      ensures result.Some? && old(pendingExchange).Some? && old(pendingExchange).value.origin == message ==>
        result.value.Some?
      ensures (pendingExchange.Some? ==> connected) && HeadServed()
      ensures result.Some? && old(pendingExchange).Some? ==> Finished(old(pendingExchange).value, |old(history)|)
    {
      hide ChainOk, Stream, Frame, RetryOf, Synced, Accounted, Origins, LifecycleQueue.Valid,
        ServerConnector.Valid, DropsOk, Justified, Caused, StreamOk;
      if pendingExchange.None? {
        return Some(None);
      }
      var origin := pendingExchange.value.origin;
      var progress, response, cause := AdvancePending(deadline);
      if progress == Pending {
        return None;
      }
      if progress == Lost {
        CloseBrokenSocket(cause);
        return None;
      }
      return Some(if origin == message then response else None);
    }

    /** The last completed exchange is a new one, made for this request, and holds this answer. */
    ghost predicate LastAnswers(request: Request, response: Response, before: nat)
      reads `history
    {
      && |history| > before
      && history[|history| - 1].exchange.origin == request
      && history[|history| - 1].response == response
    }

    /** Moves the oldest disposition to the head of the stream. */
    method TakeLifecycleHead() returns (ok: bool)
      requires Valid() && connected && pendingExchange.None? && lifecycleQueue.items != []
      modifies `connected, `pendingExchange, `clock, `lost, `drops, lifecycleQueue
      ensures Valid() && QueueProgress() && Explained()
      ensures ok ==>
        && connected && pendingExchange.Some? && pendingExchange.value.policy == LifecyclePolicy
        && pendingExchange.value.origin == old(lifecycleQueue.items)[0]
        && lifecycleQueue.items == old(lifecycleQueue.items)[1..]
        && |lifecycleQueue.heads| == |old(lifecycleQueue.heads)| + 1
      ensures !ok ==> !connected && pendingExchange.None? && lifecycleQueue.items == [] && |drops| > |old(drops)|
    {
      hide ChainOk, Stream, Frame, RetryOf, Synced, Origins, LifecycleQueue.Valid, DropsOk, Failures,
        Accounted;
      ghost var covered, fates := Covered(), lifecycleQueue.fates;
      var deferred, ticket := lifecycleQueue.TakeHead();
      var made := MakeExchange(deferred, deferred, LifecyclePolicy);
      if made.None? {
        lost := lost + {deferred};
        HeadAccounted(fates, lifecycleQueue.accepted, covered, Origins(history), ticket, Covered());
        assert QueueProgress();
        CloseBrokenSocket(DispositionTooLong(deferred));
        return false;
      }
      NewHeadLinks(history, made.value);
      InstallHead(made.value);
      HeadAccounted(fates, lifecycleQueue.accepted, covered, Origins(history), ticket, Covered());
      return true;
    }

    /** After an answer: hands off what other threads queued meanwhile, as far as it goes. */
    method HandOffNewLifecycleQueue(message: Request, deadline: Option<nat>)
      requires Valid() && pendingExchange.None? && connected
      modifies `connected, `pendingExchange, `written, `received, `clock, `done, `history, `lost,
        `nextDeferredRequestID, `drops, `faults, lifecycleQueue
      ensures Valid() && HistoryGrows() && QueueProgress() && Explained()
      ensures pendingExchange.Some? || lifecycleQueue.items == []
    {
      hide ChainOk, Stream, Frame, RetryOf, Synced, Accounted, Origins, LifecycleQueue.Valid,
        ServerConnector.Valid, DropsOk, Justified, Caused, StreamOk;
      var arrivals: nat :| true;
      while pendingExchange.None?
        invariant Valid() && HistoryGrows() && QueueProgress() && Explained() && connected
        decreases if pendingExchange.None? then |lifecycleQueue.items| + arrivals + 1 else 0
      {
        arrivals := OtherThreads(arrivals);
        if lifecycleQueue.items == [] {
          return;
        }
        var ok := TakeLifecycleHead();
        if !ok {
          return;
        }
        var finished := FinishHead(message, deadline);
        if finished.None? {
          return;
        }
      }
    }

    /** The caller's answer arrived with an equal exchange: drops the queued copy and hands off. */
    method Conclude(message: Request, deadline: Option<nat>)
      requires Valid() && pendingExchange.None? && connected
      requires |history| > 0 && history[|history| - 1].exchange.origin == message
      modifies `connected, `pendingExchange, `written, `received, `clock, `done, `history, `lost,
        `nextDeferredRequestID, `drops, `faults, lifecycleQueue
      ensures Valid() && HistoryGrows() && QueueProgress() && Explained()
      ensures pendingExchange.Some? || lifecycleQueue.items == []
    {
      hide ChainOk, Stream, Frame, RetryOf, Synced, Accounted, LifecycleQueue.Valid, DropsOk, Justified,
        Caused, StreamOk;
      ghost var fates := lifecycleQueue.fates;
      lifecycleQueue.RemoveAnswered(message);
      assert message in Origins(history) by {
        assert history[|history| - 1] in history;
      }
      AnsweredAccounted(fates, lifecycleQueue.fates, lifecycleQueue.accepted, Covered(), Origins(history), message);
      HandOffNewLifecycleQueue(message, deadline);
    }

    /** Some exchange completed during this call was made for this request and holds this answer. */
    ghost predicate Answers(request: Request, response: Response, before: nat)
      reads `history
    {
      exists k :: before <= k < |history| && AnswerAt(history[k], request, response)
    }

    ghost predicate AnswerAt(d: Done, request: Request, response: Response) {
      d.exchange.origin == request && d.response == response
    }

    /** Sends the oldest queued disposition. When it cannot be finished, or was the caller's own request, the
        call is over. */
    method SendOldest(message: Request, deadline: Option<nat>) returns (finished: bool, response: Option<Response>)
      requires Valid() && pendingExchange.None? && connected && lifecycleQueue.items != []
      modifies `connected, `pendingExchange, `written, `received, `clock, `done, `history, `lost,
        `nextDeferredRequestID, `drops, `faults, lifecycleQueue
      ensures Valid() && HistoryGrows() && QueueProgress() && Explained()
      ensures if finished then pendingExchange.Some? || lifecycleQueue.items == []
        else pendingExchange.None? && connected && lifecycleQueue.items == old(lifecycleQueue.items)[1..]
      ensures finished && response.None? ==> pendingExchange.Some? || |drops| > |old(drops)|
      ensures response.Some? ==> finished && Answers(message, response.value, |old(history)|)
    {
      hide ChainOk, Stream, Frame, RetryOf, Synced, Accounted, Origins, LifecycleQueue.Valid,
        ServerConnector.Valid, DropsOk, Justified, Caused, StreamOk;
      var ok := TakeLifecycleHead();
      if !ok {
        return true, None;
      }
      var matched := FinishHead(message, deadline);
      if matched.None? {
        return true, None;
      }
      if matched.value.Some? {
        response := matched.value;
        ghost var k := |history| - 1;
        assert AnswerAt(history[k], message, response.value);
        Conclude(message, deadline);
        assert AnswerAt(history[k], message, response.value);
        return true, response;
      }
      return false, None;
    }

    /** An answer among the exchanges since `later` is one since `before`. */
    lemma {:induction false} AnsweredEarlier(request: Request, response: Option<Response>, before: nat, later: nat)
      requires before <= later && (response.Some? ==> Answers(request, response.value, later))
      ensures response.Some? ==> Answers(request, response.value, before)
    {
    }

    /** Sends every queued disposition ahead of the caller's own request. */
    method DrainLifecycleQueue(message: Request, deadline: Option<nat>)
      returns (finished: bool, response: Option<Response>)
      requires Valid() && pendingExchange.None? && connected
      modifies `connected, `pendingExchange, `written, `received, `clock, `done, `history, `lost,
        `nextDeferredRequestID, `drops, `faults, lifecycleQueue
      ensures Valid() && HistoryGrows() && QueueProgress() && Explained()
      ensures pendingExchange.Some? || lifecycleQueue.items == []
      ensures !finished ==> pendingExchange.None? && connected
      ensures finished && response.None? ==> pendingExchange.Some? || |drops| > |old(drops)|
      ensures response.Some? ==> finished && Answers(message, response.value, |old(history)|)
    {
      hide ChainOk, Stream, Frame, RetryOf, Synced, Accounted, Origins, LifecycleQueue.Valid,
        ServerConnector.Valid, DropsOk, Justified, Caused, StreamOk, Answers;
      var arrivals: nat :| true;
      while true
        invariant Valid() && HistoryGrows() && QueueProgress() && Explained() && connected && pendingExchange.None?
        decreases |lifecycleQueue.items| + arrivals
      {
        arrivals := OtherThreads(arrivals);
        if lifecycleQueue.items == [] {
          return false, None;
        }
        ghost var before := |history|;
        finished, response := SendOldest(message, deadline);
        AnsweredEarlier(message, response, |old(history)|, before);
        if finished {
          return;
        }
      }
    }

    /** One request over the shared stream. A caller receives a response only when an exchange
        for its own request - its frame or that frame's single stale retry - completed during the
        call; a lifecycle request is owned by the connector from the first moment. */
    method Transact(request: Request, tryConnect: bool, policy: Policy) returns (response: Option<Response>)
      requires Valid()
      modifies `connected, `pendingExchange, `written, `received, `clock, `done, `history, `lost,
        `nextDeferredRequestID, `drops, `faults, lifecycleQueue
      ensures Valid() && HistoryGrows() && QueueProgress() && Explained()
      ensures policy == NormalPolicy && |encode(request)| <= MAX_FRAME ==>
        pendingExchange.Some? || lifecycleQueue.items == []
      ensures response.Some? ==> Answers(request, response.value, |old(history)|)
      ensures response.None? && policy == NormalPolicy && |encode(request)| <= MAX_FRAME ==>
        pendingExchange.Some? || |drops| > |old(drops)| || (!old(connected) && !connected)
      ensures policy == LifecyclePolicy && |encode(request)| <= MAX_FRAME ==>
        Tracked(request, old(lifecycleQueue.fates))
      ensures policy == NormalPolicy && |encode(request)| <= MAX_FRAME && old(connected) ==> HeadServed()
      ensures old(connected) ==> HeadServed() || (pendingExchange == old(pendingExchange) && history == old(history))
    {
      hide ChainOk, Stream, Frame, RetryOf, Synced, Accounted, Origins, LifecycleQueue.Valid,
        ServerConnector.Valid, DropsOk, Justified, Caused, StreamOk;
      if |encode(request)| > MAX_FRAME {
        return None;
      }
      var deadline: Option<nat> := None;
      if policy == BestEffortPolicy {
        var now := Now();
        deadline := Some(now + BEST_EFFORT_BUDGET);
      } else if policy == LifecyclePolicy {
        var now := Now();
        deadline := Some(now + LIFECYCLE_BUDGET);
        EnqueueRequest(request);
      }
      // Only a normal caller waits for the stream; the others give up when it is in use.
      var locked: bool := *;
      if policy != NormalPolicy && !locked {
        return None;
      }
      var ready := EnsureSocket(tryConnect, policy);
      if !ready {
        return None;
      }
      response := TransactLocked(request, tryConnect, policy, deadline);
    }

    /** With the stream locked: first the head, then the queue, then the caller's own frame. */
    method TransactLocked(request: Request, tryConnect: bool, policy: Policy, deadline: Option<nat>)
      returns (response: Option<Response>)
      requires Valid() && connected
      modifies `connected, `pendingExchange, `written, `received, `clock, `done, `history, `lost,
        `nextDeferredRequestID, `drops, `faults, lifecycleQueue
      ensures Valid() && HistoryGrows() && QueueProgress() && Explained()
      ensures pendingExchange.Some? || lifecycleQueue.items == []
      ensures response.Some? ==> Answers(request, response.value, |old(history)|)
      ensures response.None? && policy != LifecyclePolicy && |encode(request)| <= MAX_FRAME ==>
        pendingExchange.Some? || |drops| > |old(drops)|
      ensures HeadServed()
    {
      hide ChainOk, Stream, Frame, RetryOf, Synced, Accounted, Origins, LifecycleQueue.Valid,
        ServerConnector.Valid, DropsOk, Justified, Caused, StreamOk, Answers;
      var finished;
      finished, response := ServeHead(request, deadline);
      if finished {
        return;
      }
      ghost var before := |history|;
      finished, response := DrainLifecycleQueue(request, deadline);
      AnsweredEarlier(request, response, |old(history)|, before);
      if finished {
        return;
      }
      if policy == LifecyclePolicy {
        return None;
      }
      before := |history|;
      response := TransactOwnFrame(request, tryConnect, policy, deadline);
      AnsweredEarlier(request, response, |old(history)|, before);
    }

    /** Serves the head a caller finds. When it cannot be finished, or answers that very caller, the call is
        over. */
    method ServeHead(request: Request, deadline: Option<nat>) returns (finished: bool, response: Option<Response>)
      requires Valid() && connected
      modifies `connected, `pendingExchange, `written, `received, `clock, `done, `history, `lost,
        `nextDeferredRequestID, `drops, `faults, lifecycleQueue
      ensures Valid() && HistoryGrows() && QueueProgress() && Explained() && HeadServed()
      ensures !finished ==>
        && pendingExchange.None? && connected
        && (old(pendingExchange).Some? ==> Finished(old(pendingExchange).value, |old(history)|))
      ensures finished ==> pendingExchange.Some? || lifecycleQueue.items == []
      ensures finished && response.None? ==> pendingExchange.Some? || |drops| > |old(drops)|
      ensures response.Some? ==> finished && Answers(request, response.value, |old(history)|)
    {
      hide ChainOk, Stream, Frame, RetryOf, Synced, Accounted, Origins, LifecycleQueue.Valid,
        ServerConnector.Valid, DropsOk, Justified, Caused, StreamOk;
      if pendingExchange.None? {
        return false, None;
      }
      var matched := FinishHead(request, deadline);
      if matched.None? {
        return true, None;
      }
      if matched.value.Some? {
        response := matched.value;
        ghost var k := |history| - 1;
        assert AnswerAt(history[k], request, response.value);
        Conclude(request, deadline);
        assert AnswerAt(history[k], request, response.value);
        return true, response;
      }
      return false, None;
    }

    method TransactOwnFrame(request: Request, tryConnect: bool, policy: Policy, deadline: Option<nat>)
      returns (response: Option<Response>)
      requires Valid() && connected && pendingExchange.None? && policy != LifecyclePolicy
      requires lifecycleQueue.items == []
      modifies `connected, `pendingExchange, `written, `received, `clock, `done, `history, `lost,
        `nextDeferredRequestID, `drops, `faults, lifecycleQueue
      ensures Valid() && HistoryGrows() && QueueProgress() && Explained()
      ensures pendingExchange.Some? || lifecycleQueue.items == []
      ensures response.Some? ==> Answers(request, response.value, |old(history)|)
      ensures response.None? && |encode(request)| <= MAX_FRAME ==> pendingExchange.Some? || |drops| > |old(drops)|
    {
      hide ChainOk, Stream, Frame, RetryOf, Synced, Accounted, Origins, LifecycleQueue.Valid,
        ServerConnector.Valid;
      var made := MakeExchange(request, request, policy);
      if made.None? {
        return None;
      }
      PlaceHead(made.value);
      var result := FinishHead(request, deadline);
      if result.None? {
        LeaveUnanswered(tryConnect, policy);
        return None;
      }
      response := result.value;
      ghost var k := |history| - 1;
      assert response.Some? ==> AnswerAt(history[k], request, response.value);
      HandOffNewLifecycleQueue(request, deadline);
      assert response.Some? ==> AnswerAt(history[k], request, response.value);
    }

    /** A caller's own frame becomes the head. */
    method PlaceHead(exchange: Exchange)
      requires Valid() && connected && pendingExchange.None?
      requires |encode(exchange.payload)| <= MAX_FRAME && exchange.outbound == Frame(encode(exchange.payload))
      requires exchange.outboundOffset == 0 && exchange.header == [] && exchange.bodyLength == None
      requires exchange.body == []
      requires exchange.staleRetryCount == 0 && exchange.payload == exchange.origin && exchange.resumeAttempts == 0
      requires exchange.policy != LifecyclePolicy
      modifies `pendingExchange
      ensures Valid() && pendingExchange == Some(exchange)
    {
      hide ChainOk, Stream, Frame, RetryOf, Synced, Accounted, Origins, LifecycleQueue.Valid, DropsOk;
      ghost var covered := Covered();
      NewHeadLinks(history, exchange);
      InstallHead(exchange);
      AccountedMore(lifecycleQueue.fates, lifecycleQueue.accepted, covered, Origins(history), Covered(),
        Origins(history));
    }

    /** The caller's frame was not answered within its deadline, or the socket was dropped. */
    method LeaveUnanswered(tryConnect: bool, policy: Policy)
      requires Valid() && (pendingExchange.Some? ==> connected) && (pendingExchange.None? ==> !connected)
      requires !connected ==> lifecycleQueue.items == []
      modifies `connected, `pendingExchange, `written, `received, `done, `lost, `drops, lifecycleQueue
      ensures Valid() && QueueProgress() && Explained()
      ensures pendingExchange == old(pendingExchange) || |drops| > |old(drops)|
      ensures pendingExchange.Some? || lifecycleQueue.items == []
    {
      hide StreamOk, NothingVanished, LifecycleQueue.Valid, DropsOk, Failures, Synced, Linked;
      if policy == BestEffortPolicy && pendingExchange.Some? && pendingExchange.value.policy == BestEffortPolicy {
        // The best-effort budget is spent: its unknown answer may not become the next key's wait.
        CloseBrokenSocket(BudgetSpent);
      }
      if !connected && tryConnect && policy == NormalPolicy {
        ConnectServer();
      }
    }

    /** Without a socket nothing queued survives, and only a normal caller may connect. */
    method EnsureSocket(tryConnect: bool, policy: Policy) returns (ready: bool)
      requires Valid()
      modifies `connected, `pendingExchange, `written, `received, `done, `lost, `drops, lifecycleQueue
      ensures Valid() && QueueProgress() && Explained() && (ready <==> connected)
      ensures pendingExchange.Some? ==> connected
      ensures drops == old(drops) && (!ready ==> !old(connected))
      ensures old(connected) ==> pendingExchange == old(pendingExchange)
      ensures !ready ==> lifecycleQueue.items == []
      ensures history == old(history)
    {
      hide ChainOk, Stream, Frame, RetryOf, Accounted, Origins, LifecycleQueue.Valid;
      if !connected {
        CloseBrokenSocket(SocketFailed);
        if !tryConnect || policy != NormalPolicy {
          return false;
        }
        ConnectServer();
        if !connected {
          return false;
        }
      }
      return true;
    }
  }

  lemma {:induction false} DroppedAccounted(fates: map<nat, Fate>, fates': map<nat, Fate>, accepted: seq<Request>,
                         covered: set<Request>, answered: set<Request>, covered': set<Request>)
    requires Accounted(fates, accepted, covered, answered) && covered <= covered'
    requires forall t: nat :: t in fates' && t !in fates ==> fates'[t] == Disconnected
    requires forall t: nat :: t in fates' && t in fates ==> fates'[t] == fates[t]
    ensures Accounted(fates', accepted, covered', answered)
  {
  }

  lemma {:induction false} EnqueuedAccounted(fates: map<nat, Fate>, accepted: seq<Request>, accepted': seq<Request>,
                          covered: set<Request>, answered: set<Request>)
    requires Accounted(fates, accepted, covered, answered) && accepted <= accepted'
    requires forall t :: t in fates ==> t < |accepted|
    ensures Accounted(fates, accepted', covered, answered)
  {
  }

  lemma {:induction false} NewStreamIsSynced()
    ensures Synced(true, None, [], [], [], [])
  {
    assert Stream(Messages([])) == [] && Stream(Bodies([])) == [];
  }

  lemma {:induction false} NoHeadWhileDisconnected(head: Option<Exchange>, m: seq<byte>, done: seq<Done>,
      w: seq<byte>, r: seq<byte>)
    requires Synced(false, head, m, done, w, r)
    ensures head.None?
  {
  }

  lemma {:induction false} HeadAccounted(fates: map<nat, Fate>, accepted: seq<Request>, covered: set<Request>,
      answered: set<Request>, ticket: nat,  covered': set<Request>)
    requires Accounted(fates, accepted, covered, answered) && covered <= covered'
    requires ticket < |accepted| && accepted[ticket] in covered'
    ensures Accounted(fates[ticket := BecameHead], accepted, covered', answered)
  {
  }

  lemma {:induction false} AnsweredAccounted(fates: map<nat, Fate>, fates': map<nat, Fate>, accepted: seq<Request>,
                          covered: set<Request>, answered: set<Request>, r: Request)
    requires Accounted(fates, accepted, covered, answered) && r in answered
    requires forall t: nat :: t in fates' && t !in fates ==>
      fates'[t] == Fate.Answered && t < |accepted| && accepted[t] == r
    requires forall t: nat :: t in fates' && t in fates ==> fates'[t] == fates[t]
    ensures Accounted(fates', accepted, covered, answered)
  {
  }

  lemma {:induction false} NewHeadLinks(done: seq<Done>, e: Exchange)
    requires e.staleRetryCount == 0 && e.payload == e.origin && e.resumeAttempts == 0
    requires e.policy == LifecyclePolicy ==> e.resumeBudget == LIFECYCLE_BUDGET && e.expiresAt.Some?
    ensures LinkOk(done, e, |done|)
  {
  }

  lemma {:induction false} LastOriginKnown(before: seq<Done>, after: seq<Done>)
    requires |after| == |before| + 1 && after[..|before|] == before
    ensures Origins(after) == Origins(before) + {after[|before|].exchange.origin}
  {
    assert after == before + [after[|before|]];
  }

  lemma {:induction false} LastIsLinked(history: seq<Done>)
    requires Linked(history, None) && history != []
    ensures BudgetOk(history[|history| - 1].exchange)
  {
    assert LinkOk(history, history[|history| - 1].exchange, |history| - 1);
  }
}

/** Whole runs of loop() with an application's own calls between them: keep-alive in true time, and what the
    bytes received lead to. */
module KeepAlive {
  import opened Words
  import opened Timer
  import opened W5500
  import opened Packets
  import opened Session
  import opened Sockets
  import opened Inbound
  import opened Client
  import Encoder
  import M = Meaning

  /** One loop() of a connected client that finds its socket up: the clock sample, the time of the latest
      ping (or of the connection) before and after it and that of the latest activity, whether a send could
      go through (no SENDOK outstanding, connection still up afterwards), and what it did. */
  datatype Poll = Poll(now: nat, pingBefore: nat, pingAfter: nat, activity: nat, clear: bool, sent: bool, lost: bool)

  predicate IsPoll(c: Config, p: Poll) {
    && p.pingBefore <= p.now && p.activity <= p.now
    && (p.sent ==> KeepAliveDue(c, p.now, p.pingBefore))
    && (KeepAliveDue(c, p.now, p.pingBefore) && p.clear ==> p.sent)
    && (if p.sent then p.now <= p.pingAfter else p.pingAfter == p.pingBefore)
    && (p.lost <==> KeepAliveLost(c, p.now, p.activity))
  }

  predicate IsRun(c: Config, connectedAt: nat, polls: seq<Poll>) {
    && (forall i | 0 <= i < |polls| :: IsPoll(c, polls[i]) && connectedAt <= polls[i].pingBefore)
    && (polls != [] ==> polls[0].pingBefore == connectedAt)
    && (forall i | 0 <= i < |polls| - 1 :: polls[i + 1].pingBefore == polls[i].pingAfter)
    && (forall i | 0 <= i < |polls| - 1 :: polls[i].now <= polls[i + 1].now)
  }

  /** At most d ms before each sample lies a poll in which a send could go through, or the connection. */
  ghost predicate Spaced(connectedAt: nat, polls: seq<Poll>, d: nat) {
    forall i | 0 <= i < |polls| ::
      polls[i].now <= connectedAt + d || exists j: nat :: ClearAt(polls, j, i) && polls[i].now <= polls[j].now + d
  }

  predicate ClearAt(polls: seq<Poll>, j: nat, i: nat) {
    j < i < |polls| && polls[j].clear
  }

  /** Pings follow one another in time. */
  lemma {:induction false} PingsOnward(c: Config, connectedAt: nat, polls: seq<Poll>, i: nat, j: nat)
    requires IsRun(c, connectedAt, polls) && i < j < |polls|
    ensures polls[i].pingBefore <= polls[i].pingAfter <= polls[j].pingBefore
    decreases j
  {
    assert IsPoll(c, polls[i]) && IsPoll(c, polls[j - 1]);
    assert polls[j - 1 + 1].pingBefore == polls[j - 1].pingAfter;
    if i < j - 1 {
      PingsOnward(c, connectedAt, polls, i, j - 1);
    }
  }

  /** However often the counter wraps: at every sample the latest ping lies at most 75% of the
      keep-alive time plus d in the past, d being the longest time without a chance to send. */
  lemma {:induction false} PingGap(c: Config, connectedAt: nat, polls: seq<Poll>, d: nat, i: nat)
    requires IsRun(c, connectedAt, polls) && Spaced(connectedAt, polls, d) && i < |polls|
    requires c.keepalive * 750 + d < U32_RANGE
    ensures polls[i].now - polls[i].pingBefore <= c.keepalive * 750 + d
    decreases i
  {
    if polls[i].now > connectedAt + d {
      var j: nat :| ClearAt(polls, j, i) && polls[i].now <= polls[j].now + d;
      PingGap(c, connectedAt, polls, d, j);
      PingsOnward(c, connectedAt, polls, j, i);
      assert IsPoll(c, polls[j]);
      ElapsedIsLow(polls[j].now, polls[j].pingBefore);
    }
  }

  /** Section 3.1.2.10: with a chance to send at least every quarter of the keep-alive time, no
      keep-alive interval passes without a control packet. */
  lemma KeepAliveMet(c: Config, connectedAt: nat, polls: seq<Poll>, d: nat, i: nat)
    requires IsRun(c, connectedAt, polls) && Spaced(connectedAt, polls, d) && i < |polls|
    requires d <= c.keepalive * 250
    ensures polls[i].now - polls[i].pingBefore <= c.keepalive * 1000
  {
    PingGap(c, connectedAt, polls, d, i);
  }

  /** Between two successive pings, from the stamp of one to the sample that triggers the next. */
  lemma {:induction false} SuccessivePings(c: Config, connectedAt: nat, polls: seq<Poll>, d: nat, i: nat, j: nat)
    requires IsRun(c, connectedAt, polls) && Spaced(connectedAt, polls, d) && i < j < |polls|
    requires c.keepalive * 750 + d < U32_RANGE
    requires Successive(polls, i, j)
    ensures polls[j].pingBefore == polls[i].pingAfter
    ensures c.keepalive * 750 < polls[j].now - polls[i].pingAfter <= c.keepalive * 750 + d
  {
    PingGap(c, connectedAt, polls, d, j);
    NoPingBetween(c, connectedAt, polls, i, j);
    assert IsPoll(c, polls[j]);
    ElapsedIsLow(polls[j].now, polls[j].pingBefore);
  }

  lemma {:induction false} NoPingBetween(c: Config, connectedAt: nat, polls: seq<Poll>, i: nat, j: nat)
    requires IsRun(c, connectedAt, polls) && i < j < |polls| && forall k | i < k < j :: !polls[k].sent
    ensures polls[j].pingBefore == polls[i].pingAfter
    decreases j
  {
    assert polls[j - 1 + 1].pingBefore == polls[j - 1].pingAfter;
    assert IsPoll(c, polls[j - 1]);
    if i < j - 1 {
      NoPingBetween(c, connectedAt, polls, i, j - 1);
    }
  }

  /** The client gives the broker up only after more than 1.5 times the keep-alive time of true
      inactivity; within one turn of the counter, exactly then. */
  lemma LostMeansIdle(c: Config, now: nat, activityAt: nat)
    requires activityAt <= now
    ensures KeepAliveLost(c, now, activityAt) ==> now - activityAt > c.keepalive * 1500
    ensures now - activityAt < U32_RANGE ==>
              (KeepAliveLost(c, now, activityAt) <==> now - activityAt > c.keepalive * 1500)
  {
    ElapsedIsLow(now, activityAt);
  }

  /** Section 3.1.2.10 lets a keep-alive of 0 turn the mechanism off. This client instead gives up
      at the first sample later than the latest activity: it keeps to the standard only while no
      time passes, as the counter sees it. */
  lemma ZeroKeepAliveLostIff(c: Config, now: nat, activityAt: nat)
    requires c.keepalive == 0 && activityAt <= now
    ensures KeepAliveLost(c, now, activityAt) <==> (now - activityAt) % U32_RANGE != 0
  {
    ElapsedIsLow(now, activityAt);
  }

  // ------------------------------------------------------------------------------- the client's own runs

  function PingCount(es: seq<Event>): nat {
    if es == [] then 0 else PingCount(es[..|es| - 1]) + if es[|es| - 1] == Sent(PingReq) then 1 else 0
  }

  function SentCount(polls: seq<Poll>): nat {
    if polls == [] then 0 else SentCount(polls[..|polls| - 1]) + if polls[|polls| - 1].sent then 1 else 0
  }

  /** What the application and the network may do between two calls of loop(): publish, subscribe, let time
      pass. Nothing is received, no callback made, no ping sent. */
  predicate Between(a: View, b: View) {
    && b.state == a.state && b.config == a.config && b.pingAt == a.pingAt && a.ms <= b.ms
    && b.calls == a.calls && b.history == a.history
    && a.trace <= b.trace && PingCount(b.trace) == PingCount(a.trace)
    && Later(a.sock.chip, b.sock.chip) && Taken(b.sock.chip) == Taken(a.sock.chip)
  }

  function End(a: View, run: seq<Turn>): View {
    if run == [] then a else run[|run| - 1].after
  }

  /** Each turn is a call of loop(), and between the turns nothing else happened. */
  predicate Threaded(a: View, run: seq<Turn>) {
    forall i | 0 <= i < |run| :: LoopMeets(run[i]) && Between(End(a, run[..i]), run[i].before)
  }

  /** A turn that got as far as the keep-alive. */
  function PollOf(t: Turn): Poll {
    Poll(t.now, t.before.pingAt, t.after.pingAt, t.after.activityAt, !Blocked(t.before.sock) && Up(t.after.sock.chip),
         t.after.trace != t.before.trace, t.after.state == ERROR)
  }

  function Polls(run: seq<Turn>): seq<Poll> {
    if run == [] then []
    else Polls(run[..|run| - 1]) + if run[|run| - 1].polled then [PollOf(run[|run| - 1])] else []
  }

  function Receipts(run: seq<Turn>): seq<M.Receipt> {
    if run == [] then []
    else
      var t := run[|run| - 1];
      Receipts(run[..|run| - 1]) + [M.Receipt(t.before.subs, t.received, t.beyond)]
  }

  lemma ThreadedSnoc(a: View, run: seq<Turn>, t: Turn)
    requires Threaded(a, run) && LoopMeets(t) && Between(End(a, run), t.before)
    ensures Threaded(a, run + [t]) && End(a, run + [t]) == t.after
  {
    hide LoopMeets, Between;
    var more := run + [t];
    forall i | 0 <= i < |more|
      ensures LoopMeets(more[i]) && Between(End(a, more[..i]), more[i].before)
    {
      assert more[..i] == run[..i];
      assert i == |run| ==> run[..i] == run;
    }
  }

  lemma ThreadedFront(a: View, run: seq<Turn>)
    requires Threaded(a, run) && run != []
    ensures var front, t := run[..|run| - 1], run[|run| - 1];
            Threaded(a, front) && LoopMeets(t) && Between(End(a, front), t.before)
  {
    hide LoopMeets, Between;
    var front := run[..|run| - 1];
    forall i | 0 <= i < |front|
      ensures LoopMeets(front[i]) && Between(End(a, front[..i]), front[i].before)
    {
      assert front[..i] == run[..i] && front[i] == run[i];
    }
  }

  lemma TurnIsPoll(t: Turn)
    requires LoopMeets(t) && t.polled && t.before.pingAt <= t.before.ms
    ensures IsPoll(t.before.config, PollOf(t)) && t.before.ms <= t.now <= t.after.ms
    ensures t.after.trace == t.before.trace + if PollOf(t).sent then [Sent(PingReq)] else []
  {
    hide KeepAliveDue, KeepAliveLost, TurnReceives, Blocked, Up;
    assert t.before.trace + [] == t.before.trace;
  }

  lemma PingCountSnoc(es: seq<Event>, e: Event)
    ensures PingCount(es + [e]) == PingCount(es) + if e == Sent(PingReq) then 1 else 0
  {
    assert (es + [e])[..|es|] == es;
  }

  /** The turns of a connected client's run are the polls of one run, and its PINGREQs those they sent. */
  lemma {:induction false} PollsAreRun(a: View, run: seq<Turn>)
    requires Threaded(a, run) && a.pingAt <= a.ms
    ensures var polls, b := Polls(run), End(a, run);
            && IsRun(a.config, a.pingAt, polls) && b.config == a.config
            && LatestPing(a.pingAt, polls) == b.pingAt && a.pingAt <= b.pingAt
            && b.pingAt <= b.ms && (polls != [] ==> polls[|polls| - 1].now <= b.ms)
            && a.trace <= b.trace && PingCount(b.trace) == PingCount(a.trace) + SentCount(polls)
  {
    hide LoopMeets, Between, IsRun, PollOf, IsPoll, PingCount, SentCount;
    if run == [] {
      RunStarts(a.config, a.pingAt);
    } else {
      ThreadedFront(a, run);
      var front, t := run[..|run| - 1], run[|run| - 1];
      PollsAreRun(a, front);
      OneTurn(a, End(a, front), Polls(front), t);
    }
  }

  lemma OneTurn(a: View, e: View, polls: seq<Poll>, t: Turn)
    requires LoopMeets(t) && Between(e, t.before)
    requires IsRun(a.config, a.pingAt, polls) && e.config == a.config
    requires LatestPing(a.pingAt, polls) == e.pingAt && a.pingAt <= e.pingAt <= e.ms
    requires polls != [] ==> polls[|polls| - 1].now <= e.ms
    requires a.trace <= e.trace && PingCount(e.trace) == PingCount(a.trace) + SentCount(polls)
    ensures var more, b := polls + (if t.polled then [PollOf(t)] else []), t.after;
            && IsRun(a.config, a.pingAt, more) && b.config == a.config
            && LatestPing(a.pingAt, more) == b.pingAt && a.pingAt <= b.pingAt <= b.ms
            && (more != [] ==> more[|more| - 1].now <= b.ms)
            && a.trace <= b.trace && PingCount(b.trace) == PingCount(a.trace) + SentCount(more)
            && (t.polled && b.state == ERROR ==> GaveUp(a.config, more))
  {
    hide IsRun, IsPoll, KeepAliveDue, KeepAliveLost, TurnReceives, Blocked, Up, PingCount, SentCount, GaveUp;
    if t.polled {
      TurnIsPoll(t);
      PollAdded(a.config, a.pingAt, polls, PollOf(t));
      PingCountSnoc(t.before.trace, Sent(PingReq));
      assert t.before.trace + [] == t.before.trace;
    } else {
      assert polls + [] == polls;
      assert t.after.ms >= t.before.ms by { ClockOnward(t); }
    }
  }

  lemma ClockOnward(t: Turn)
    requires LoopMeets(t)
    ensures t.before.ms <= t.after.ms
  {
  }

  /** What a run received is the next piece of the session; the callbacks made are those of its receives. */
  lemma {:induction false} ReceivedInRun(a: View, run: seq<Turn>)
    requires Threaded(a, run) && 0 <= Taken(a.sock.chip) <= |a.sock.chip.inbound|
    ensures var rs, b := Receipts(run), End(a, run);
            && M.AllProper(rs) && Later(a.sock.chip, b.sock.chip)
            && b.calls == a.calls + M.CallsMade(rs)
            && Taken(b.sock.chip) == Taken(a.sock.chip) + |M.BytesOf(rs)| <= |b.sock.chip.inbound|
            && M.BytesOf(rs) == b.sock.chip.inbound[Taken(a.sock.chip)..Taken(b.sock.chip)]
  {
    hide LoopMeets, Between, Taken, Later, M.CallsMade, M.BytesOf, M.AllProper;
    if run == [] {
      NoReceipts();
      LaterItself(a.sock.chip);
      assert a.calls + [] == a.calls;
    } else {
      ThreadedFront(a, run);
      var front, t := run[..|run| - 1], run[|run| - 1];
      ReceivedInRun(a, front);
      OneReceipt(a, End(a, front), Receipts(front), t);
    }
  }

  lemma NoReceipts()
    ensures M.AllProper([]) && M.CallsMade([]) == [] && M.BytesOf([]) == []
  {
  }

  lemma OneReceipt(a: View, e: View, rs: seq<M.Receipt>, t: Turn)
    requires LoopMeets(t) && Between(e, t.before)
    requires M.AllProper(rs) && Later(a.sock.chip, e.sock.chip) && e.calls == a.calls + M.CallsMade(rs)
    requires 0 <= Taken(a.sock.chip) && Taken(e.sock.chip) == Taken(a.sock.chip) + |M.BytesOf(rs)| <= |e.sock.chip.inbound|
    requires M.BytesOf(rs) == e.sock.chip.inbound[Taken(a.sock.chip)..Taken(e.sock.chip)]
    ensures var more, b := rs + [M.Receipt(t.before.subs, t.received, t.beyond)], t.after;
            && M.AllProper(more) && Later(a.sock.chip, b.sock.chip)
            && b.calls == a.calls + M.CallsMade(more)
            && Taken(b.sock.chip) == Taken(a.sock.chip) + |M.BytesOf(more)| <= |b.sock.chip.inbound|
            && M.BytesOf(more) == b.sock.chip.inbound[Taken(a.sock.chip)..Taken(b.sock.chip)]
  {
    hide PollMeets, PingCount, Later, Taken, Stored, Delivers, CallsOf, M.CallsMade, M.BytesOf;
    var r := M.Receipt(t.before.subs, t.received, t.beyond);
    M.ReceiptsSnoc(rs, r);
    LaterAgain(a.sock.chip, e.sock.chip, t.before.sock.chip);
    LaterAgain(a.sock.chip, t.before.sock.chip, t.after.sock.chip);
    LaterMode(e.sock.chip, t.before.sock.chip);
    LaterMode(t.before.sock.chip, t.after.sock.chip);
  }

  /** Calling loop() up to n times on a connected client, with the application's own calls and the network's
      doings between: the record grows by those turns, in order, with nothing else between them. The turns
      that find the socket up are the polls of one run, the PINGREQs of the session are those they sent, and
      the client gives up only with the socket down or after 1.5 keep-alive times of inactivity. What they
      received is the next piece of the session, and the callbacks made are those of its receives. */
  method Serve(client: MqttClient, n: nat) returns (ghost run: seq<Turn>)
    requires client.Valid() && client.state == CONNECTED
    modifies client, client.sock, client.timer, client.sendBuffer, client.recvBuffer, client.subs
    ensures client.Valid()
    ensures client.turns == old(client.turns) + run && Threaded(old(client.Look()), run)
    ensures client.Look() == End(old(client.Look()), run)
    ensures |run| <= n && (client.state == CONNECTED ==> |run| == n == |Polls(run)|)
    ensures IsRun(old(client.config), old(client.pingAt), Polls(run))
    ensures PingCount(client.trace) == old(PingCount(client.trace)) + SentCount(Polls(run))
    ensures client.state == ERROR && client.sock.chip.status == Established ==> GaveUp(old(client.config), Polls(run))
    ensures client.state == CONNECTED || client.state == ERROR
    ensures M.AllProper(Receipts(run)) && client.calls == old(client.calls) + M.CallsMade(Receipts(run))
    ensures var at, bytes := Taken(old(client.sock.chip)), M.BytesOf(Receipts(run));
            && 0 <= at && at + |bytes| <= |client.sock.chip.inbound| && bytes == client.sock.chip.inbound[at..at + |bytes|]
  {
    hide Stamp, Faithful, Recorded, Consistent, Accepted, CanSpeak, SlotsOk, ConfigOk, IsRun, GaveUp, Threaded,
      LoopMeets, Between,
      Polls, Receipts, PingCount, SentCount, Taken, M.AllProper, M.CallsMade, M.BytesOf, M.Plain, Handled;
    run := [];
    ghost var a := client.Look();
    Bounds(client);
    NoTurns(a);
    var i := 0;
    while i < n && client.state == CONNECTED
      invariant client.Valid() && client.turns == old(client.turns) + run && |run| == i <= n
      invariant Threaded(a, run) && client.Look() == End(a, run)
      invariant client.state == CONNECTED ==> |Polls(run)| == |run|
      invariant client.state == CONNECTED || client.state == ERROR
      invariant client.state == ERROR && client.sock.chip.status == Established ==> GaveUp(a.config, Polls(run))
      decreases n - i
    {
      Interlude(client);
      ghost var t := client.Loop();
      TurnAdded(a, run, t);
      run := run + [t];
      i := i + 1;
    }
    PollsAreRun(a, run);
    ReceivedInRun(a, run);
  }

  lemma Bounds(client: MqttClient)
    requires client.Valid()
    ensures client.pingAt <= client.timer.ms && 0 <= Taken(client.sock.chip) <= |client.sock.chip.inbound|
  {
    client.WindowOfSocket();
  }

  lemma NoTurns(a: View)
    ensures Threaded(a, []) && Polls([]) == []
  {
  }

  lemma TurnAdded(a: View, run: seq<Turn>, t: Turn)
    requires Threaded(a, run) && LoopMeets(t) && Between(End(a, run), t.before) && a.pingAt <= a.ms
    requires End(a, run).state == CONNECTED
    ensures Threaded(a, run + [t]) && End(a, run + [t]) == t.after
    ensures t.after.state == CONNECTED || t.after.state == ERROR
    ensures |Polls(run + [t])| == |Polls(run)| + (if t.polled then 1 else 0) && (t.after.state == CONNECTED ==> t.polled)
    ensures t.after.state == ERROR && t.after.sock.chip.status == Established ==> GaveUp(a.config, Polls(run + [t]))
  {
    hide IsRun, GaveUp, Threaded, TurnReceives, KeepAliveDue, PollOf, PingCount;
    ThreadedSnoc(a, run, t);
    PollsAreRun(a, run);
    assert (run + [t])[..|run|] == run;
    OneTurn(a, End(a, run), Polls(run), t);
  }

  /** What that means for pings: with a chance to send at least every d ms they are spaced as section
      3.1.2.10 asks. */
  method ServeInTime(client: MqttClient, n: nat, ghost d: nat) returns (ghost run: seq<Turn>)
    requires client.Valid() && client.state == CONNECTED
    modifies client, client.sock, client.timer, client.sendBuffer, client.recvBuffer, client.subs
    ensures client.Valid() && client.turns == old(client.turns) + run
    ensures Threaded(old(client.Look()), run) && client.Look() == End(old(client.Look()), run)
    ensures |run| <= n && (client.state == CONNECTED ==> |run| == n == |Polls(run)|)
    ensures client.state == ERROR && client.sock.chip.status == Established ==> GaveUp(old(client.config), Polls(run))
    ensures Spaced(old(client.pingAt), Polls(run), d) && d <= old(client.config).keepalive * 250 ==>
              forall p | p in Polls(run) :: p.now - p.pingBefore <= old(client.config).keepalive * 1000
    ensures Spaced(old(client.pingAt), Polls(run), d) && old(client.config).keepalive * 750 + d < U32_RANGE ==>
              forall i, j | 0 <= i < j < |Polls(run)| && Successive(Polls(run), i, j) ::
                var gap := Polls(run)[j].now - Polls(run)[i].pingAfter;
                old(client.config).keepalive * 750 < gap <= old(client.config).keepalive * 750 + d
  {
    hide IsRun, Spaced, GaveUp, Faithful, Recorded, Consistent, Accepted, Stamp, CanSpeak, SlotsOk, ConfigOk, Threaded, Polls,
      PingCount, SentCount, Taken, M.AllProper, M.CallsMade, M.BytesOf, Receipts;
    ghost var c, connectedAt := client.config, client.pingAt;
    run := Serve(client, n);
    ghost var polls := Polls(run);
    if Spaced(connectedAt, polls, d) {
      if d <= c.keepalive * 250 {
        forall p | p in polls
          ensures p.now - p.pingBefore <= c.keepalive * 1000
        {
          var i :| 0 <= i < |polls| && polls[i] == p;
          KeepAliveMet(c, connectedAt, polls, d, i);
        }
      }
      if c.keepalive * 750 + d < U32_RANGE {
        forall i, j | 0 <= i < j < |polls| && Successive(polls, i, j)
          ensures c.keepalive * 750 < polls[j].now - polls[i].pingAfter <= c.keepalive * 750 + d
        {
          SuccessivePings(c, connectedAt, polls, d, i, j);
        }
      }
    }
  }

  /** What it means for the callbacks: if the stream is received cut between packets and the table of
      subscriptions is the same throughout, the PUBLISH packets of the stream are what is delivered exactly if
      every receive is plain, and then the callbacks are theirs. */
  lemma StreamServed(run: seq<Turn>, subs: seq<Subscription>)
    requires M.AllProper(Receipts(run)) && M.CutBetweenPackets(Receipts(run))
    requires forall r | r in Receipts(run) :: r.subs == subs
    ensures var rs := Receipts(run);
            && (M.Delivered(rs) == M.Meant(M.BytesOf(rs)) <==> M.AllPlain(rs))
            && (M.AllPlain(rs) ==> M.CallsMade(rs) == Handled(subs, M.BytesOf(rs)))
  {
    hide M.Delivered, M.Meant, M.BytesOf, M.AllPlain, M.CallsMade, M.AllProper, CallsOf;
    M.SeriesIff(Receipts(run));
    M.SameTable(subs, Receipts(run));
  }

  /** Poll j sends a ping, and no poll after i and before it does. */
  predicate Successive(polls: seq<Poll>, i: nat, j: nat)
    requires i < j < |polls|
  {
    polls[j].sent && forall k | i < k < j :: !polls[k].sent
  }

  /** Between two calls of loop(): any number of calls of publish and subscribe, and time. */
  method Interlude(client: MqttClient)
    requires client.Valid()
    modifies client, client.sock, client.timer, client.sendBuffer, client.subs
    ensures client.Valid() && client.turns == old(client.turns) && Between(old(client.Look()), client.Look())
  {
    hide Stamp, Faithful, Recorded, Consistent, Accepted, CanSpeak, SlotsOk, ConfigOk, Between;
    ghost var a := client.Look();
    BetweenItself(a);
    var count: nat := *;
    while count > 0
      invariant client.Valid() && client.turns == old(client.turns) && Between(a, client.Look())
    {
      ghost var b := client.Look();
      OneDoing(client);
      BetweenAgain(a, b, client.Look());
      count := count - 1;
    }
  }

  method OneDoing(client: MqttClient)
    requires client.Valid()
    modifies client, client.sock, client.timer, client.sendBuffer, client.subs
    ensures client.Valid() && client.turns == old(client.turns) && Between(old(client.Look()), client.Look())
  {
    hide Stamp, Faithful, Recorded, Consistent, Accepted, CanSpeak, SlotsOk, ConfigOk, Later, Taken, PingCount, Calm,
      W5500.FreeSize,
      Tried, Blocked, Up, Encode;
    var topic: seq<byte>, payload: seq<byte>, callback: Callback, publish: bool := *, *, *, *;
    assert client.trace + [] == client.trace;
    if publish && 0 !in topic && 4 + |topic| + |payload| < 0x1_0000 {
      PingCountSnoc(client.trace, Sent(Packet.Publish(topic, payload)));
      var _ := client.Publish(topic, payload);
    } else if 0 !in topic && 7 + |topic| <= Encoder.SEND_BUFFER_SIZE {
      PingCountSnoc(client.trace, Sent(Packet.Subscribe(client.packetId, topic)));
      var _ := client.Subscribe(topic, callback);
    } else {
      var _ := client.SocketIsConnected();
      client.timer.Interrupts();
    }
  }

  lemma BetweenItself(a: View)
    ensures Between(a, a)
  {
    LaterItself(a.sock.chip);
  }

  lemma BetweenAgain(a: View, b: View, c: View)
    requires Between(a, b) && Between(b, c)
    ensures Between(a, c)
  {
    hide Later, Taken, PingCount;
    LaterAgain(a.sock.chip, b.sock.chip, c.sock.chip);
  }

  function LatestPing(connectedAt: nat, polls: seq<Poll>): nat {
    if polls == [] then connectedAt else polls[|polls| - 1].pingAfter
  }

  /** The last poll found the broker silent for too long. */
  predicate GaveUp(c: Config, polls: seq<Poll>) {
    polls != [] && var p := polls[|polls| - 1]; p.lost && p.now - p.activity > c.keepalive * 1500
  }

  lemma RunStarts(c: Config, connectedAt: nat)
    ensures IsRun(c, connectedAt, []) && SentCount([]) == 0
  {
  }

  lemma PollAdded(c: Config, connectedAt: nat, polls: seq<Poll>, p: Poll)
    requires IsRun(c, connectedAt, polls) && IsPoll(c, p)
    requires p.pingBefore == LatestPing(connectedAt, polls) >= connectedAt
    requires polls != [] ==> polls[|polls| - 1].now <= p.now
    ensures IsRun(c, connectedAt, polls + [p])
    ensures SentCount(polls + [p]) == SentCount(polls) + if p.sent then 1 else 0
    ensures p.lost ==> GaveUp(c, polls + [p])
    ensures LatestPing(connectedAt, polls + [p]) == p.pingAfter >= connectedAt
  {
    hide KeepAliveDue, KeepAliveLost, PingInterval, IsPoll, SentCount;
    SentSnoc(polls, p);
    PollLost(c, p);
  }

  lemma SentSnoc(polls: seq<Poll>, p: Poll)
    ensures SentCount(polls + [p]) == SentCount(polls) + if p.sent then 1 else 0
  {
    assert (polls + [p])[..|polls|] == polls;
  }

  lemma PollLost(c: Config, p: Poll)
    requires IsPoll(c, p)
    ensures p.pingBefore <= p.pingAfter
    ensures p.lost ==> p.now - p.activity > c.keepalive * 1500
  {
    LostMeansIdle(c, p.now, p.activity);
  }
}

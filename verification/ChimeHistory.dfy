/** What the events of a run say about the chimes: exactly when a press is accepted, announced and rung, and
    what the received commands change. */
module ChimeHistory {
  import opened Words
  import opened Timer
  import opened Chimes
  import opened Messages
  import C = Client
  import I = Inbound

  // ---------------------------------------------------------------------- the history of one chime

  /** When process_chime was first called, if it has been. */
  function FirstPoll(r: Run, k: nat): Option<nat>
    requires k <= |r.events|
  {
    if k == 0 then None
    else if FirstPoll(r, k - 1).Some? then FirstPoll(r, k - 1)
    else if r.events[k - 1].Poll? then Some(r.events[k - 1].t)
    else None
  }

  /** Event k polls a chime while the counter shows less than three seconds since the first poll. */
  predicate Early(r: Run, k: nat)
    requires k < |r.events|
  {
    && r.events[k].Poll?
    && match FirstPoll(r, k)
       case None => true
       case Some(t) => Elapsed(Stamp(r.events[k].t), Stamp(t)) < LOCKOUT_MS
  }

  /** Event k polls chime i later than that. */
  predicate Working(r: Run, k: nat, i: Which)
    requires k < |r.events|
  {
    Polls(r, k, i) && !Early(r, k)
  }

  /** The level the button was last found at, before event k; at first that of start-up. */
  function Level(r: Run, k: nat, i: Which): bool
    requires Aligned(r) && k <= |r.events|
  {
    if k == 0 then At(r, 0, i).lastRaw
    else if Polls(r, k - 1, i) then r.events[k - 1].raw
    else Level(r, k - 1, i)
  }

  /** The state the latest change of level led to, before event k; polls in the first three seconds count
      as changes. */
  function Change(r: Run, k: nat, i: Which): (w: nat)
    requires Aligned(r) && k <= |r.events|
    ensures w <= k
  {
    if k == 0 then 0
    else if Polls(r, k - 1, i) && (Early(r, k - 1) || r.events[k - 1].raw != Level(r, k - 1, i)) then k
    else Change(r, k - 1, i)
  }

  /** At poll k the counter shows more than 50 ms since the latest change of level. */
  predicate Settled(r: Run, k: nat, i: Which)
    requires Aligned(r) && k < |r.events|
  {
    Elapsed(Stamp(r.times[k + 1]), Stamp(r.times[Change(r, k + 1, i)])) > DEBOUNCE_MS
  }

  /** The counter at the latest accepted press before event k, 0 if there was none. */
  function LatestPressAt(r: Run, k: nat, i: Which): u32
    requires Aligned(r) && k <= |r.events|
  {
    if k == 0 then 0
    else if Accepts(r, k - 1, i) then Stamp(r.times[k])
    else LatestPressAt(r, k - 1, i)
  }

  /** A press has been accepted that the polls before event k have not seen released since. */
  predicate Held(r: Run, k: nat, i: Which)
    requires Aligned(r) && k <= |r.events|
  {
    if k == 0 then false
    else if Accepts(r, k - 1, i) then true
    else if Polls(r, k - 1, i) && (Early(r, k - 1) || (r.events[k - 1].raw && Settled(r, k - 1, i))) then false
    else Held(r, k - 1, i)
  }

  /** The press that is held has been announced. */
  predicate Announced(r: Run, k: nat, i: Which)
    requires Aligned(r) && k <= |r.events|
  {
    if k == 0 then false
    else if Publishes(r.states[k - 1], r.events[k - 1], i) then true
    else if Accepts(r, k - 1, i) || (Polls(r, k - 1, i) && Early(r, k - 1)) then false
    else Announced(r, k - 1, i)
  }

  /** A RING has been received that no poll has seen yet. */
  predicate RingAsked(r: Run, k: nat, i: Which)
    requires k <= |r.events|
  {
    if k == 0 then false
    else if Polls(r, k - 1, i) then false
    else r.events[k - 1] == Received(i, Ring) || RingAsked(r, k - 1, i)
  }

  /** The latest ON or OFF received, if any, was ON. */
  predicate SwitchedOn(r: Run, k: nat, i: Which)
    requires k <= |r.events|
  {
    if k == 0 then true
    else if r.events[k - 1] == Received(i, On) then true
    else if r.events[k - 1] == Received(i, Off) then false
    else SwitchedOn(r, k - 1, i)
  }

  // -------------------------------------------------------------------------------- one poll

  /** A poll outside the lockout accepts a press. */
  predicate TakesPress(c: Chime, now: u32, raw: bool) {
    && !raw && !c.pressed && Elapsed(now, c.lastEvent) > COOLDOWN_MS
    && raw == c.lastRaw && Elapsed(now, c.lastDebounce) > DEBOUNCE_MS
  }

  lemma DebounceIff(c: Chime, now: u32, raw: bool)
    ensures var d, steady := Debounced(Sampled(c, now, raw), now), raw == c.lastRaw && Elapsed(now, c.lastDebounce) > DEBOUNCE_MS;
            d == c.(lastRaw := raw, lastDebounce := if raw == c.lastRaw then c.lastDebounce else now,
                    pressed := if TakesPress(c, now, raw) then true else if raw && steady then false else c.pressed,
                    lastEvent := if TakesPress(c, now, raw) then now else c.lastEvent,
                    sent := if TakesPress(c, now, raw) then false else c.sent,
                    pending := c.pending || TakesPress(c, now, raw))
  {
    assert Elapsed(now, now) == 0;
    hide Elapsed;
  }

  lemma OutputIff(c: Chime, now: u32)
    ensures var d := Timed(Triggered(c, now), now);
            && d == c.(pending := false, ringing := d.ringing, ringStart := d.ringStart)
            && (!c.ringing ==> (d.ringing <==> c.enabled && c.pending))
  {
    assert Elapsed(now, now) == 0;
    hide Elapsed;
  }

  /** What a poll outside the lockout makes of a chime. */
  lemma PolledIff(c: Chime, now: u32, raw: bool, delivered: bool)
    ensures var d, takes := Polled(c, now, raw, delivered), TakesPress(c, now, raw);
            var steady := raw == c.lastRaw && Elapsed(now, c.lastDebounce) > DEBOUNCE_MS;
            var wants := WantsPublish(BeforePublish(c, now, raw));
            && d.lastRaw == raw && d.lastDebounce == (if raw == c.lastRaw then c.lastDebounce else now)
            && d.pressed == (if takes then true else if raw && steady then false else c.pressed)
            && d.lastEvent == (if takes then now else c.lastEvent)
            && !d.pending && d.enabled == c.enabled
            && (!c.ringing ==> (d.ringing <==> c.enabled && (c.pending || takes)))
            && (wants <==> d.pressed && (takes || !c.sent))
            && d.sent == (if wants && delivered then true else if takes then false else c.sent)
  {
    hide Elapsed, TakesPress, Debounced, Sampled, Triggered, Timed;
    DebounceIff(c, now, raw);
    OutputIff(Debounced(Sampled(c, now, raw), now), now);
  }

  // ------------------------------------------------------------------------- history and state

  lemma {:induction false} LockoutIs(r: Run, k: nat)
    requires IsRun(r) && k <= |r.events|
    ensures match FirstPoll(r, k)
            case None => !r.states[k].started
            case Some(t) => r.states[k].started && r.states[k].loopStart == Stamp(t)
  {
    hide Stamp, Polled, Locked, Driven, Commanded;
    if k > 0 {
      LockoutIs(r, k - 1);
      assert r.states[k - 1 + 1] == Step(r.states[k - 1], r.events[k - 1]);
    }
  }

  /** Polls do nothing exactly in the first three seconds since the first of them, by the counter. */
  lemma LockoutIff(r: Run, k: nat)
    requires IsRun(r) && k < |r.events|
    ensures LockedOut(r, k) <==> Early(r, k)
  {
    LockoutIs(r, k);
    if r.events[k].Poll? {
      assert Elapsed(Stamp(r.events[k].t), Stamp(r.events[k].t)) == 0;
    }
    hide Elapsed, Stamp;
  }

  /** The state of a chime is what its history says. */
  predicate Told(r: Run, k: nat, i: Which)
    requires Aligned(r) && k <= |r.events|
  {
    var c := At(r, k, i);
    && c.lastRaw == Level(r, k, i) && c.lastDebounce == Stamp(r.times[Change(r, k, i)])
    && c.lastEvent == LatestPressAt(r, k, i) && c.pressed == Held(r, k, i)
    && (c.pressed ==> c.sent == Announced(r, k, i))
    && c.pending == RingAsked(r, k, i) && c.enabled == SwitchedOn(r, k, i)
  }

  lemma ToldAtFirst(r: Run, i: Which)
    requires IsRun(r)
    ensures Told(r, 0, i)
  {
    BootStamped(r, i);
  }

  lemma {:induction false} AllTold(r: Run, k: nat, i: Which)
    requires IsRun(r) && k <= |r.events|
    ensures Told(r, k, i)
  {
    hide Told, Proper;
    if k == 0 {
      ToldAtFirst(r, i);
    } else {
      AllTold(r, k - 1, i);
      ToldOn(r, k - 1, i);
    }
  }

  lemma ToldOn(r: Run, k: nat, i: Which)
    requires IsRun(r) && k < |r.events| && Told(r, k, i)
    ensures Told(r, k + 1, i)
  {
    hide Told, IsRun, LockedOut;
    LockoutIff(r, k);
    if !Polls(r, k, i) {
      UnpolledTold(r, k, i);
    } else if Early(r, k) {
      EarlyTold(r, k, i);
    } else {
      WorkingTold(r, k, i);
    }
  }

  lemma UnpolledTold(r: Run, k: nat, i: Which)
    requires IsRun(r) && k < |r.events| && Told(r, k, i) && !Polls(r, k, i)
    ensures Told(r, k + 1, i)
  {
    hide IsRun, Stamp, Early, Publishes, Accepts;
    NothingAccepted(r, k, i);
  }

  lemma NothingAccepted(r: Run, k: nat, i: Which)
    requires IsRun(r) && k < |r.events| && !Polls(r, k, i)
    ensures !Accepts(r, k, i) && !Publishes(r.states[k], r.events[k], i)
    ensures var e, c, d := r.events[k], At(r, k, i), At(r, k + 1, i);
            d == c.(pending := c.pending || e == Received(i, Ring),
                    enabled := if e == Received(i, On) then true else if e == Received(i, Off) then false else c.enabled)
  {
    hide IsRun, Stamp, BeforePublish, InLockout, Step;
    Unpolled(r, k, i);
  }

  /** Without a poll of its own only a command changes a chime. */
  lemma Unpolled(r: Run, k: nat, i: Which)
    requires IsRun(r) && k < |r.events| && !Polls(r, k, i)
    ensures var e := r.events[k];
            At(r, k + 1, i) == if e.Received? && e.i == i then Commanded(At(r, k, i), e.command) else At(r, k, i)
  {
    hide Locked, Polled, InLockout, Stamp, Step, Of, Commanded;
    assert r.states[k + 1] == Step(r.states[k], r.events[k]);
    StepOf(r.states[k], r.events[k], i);
  }

  lemma EarlyTold(r: Run, k: nat, i: Which)
    requires IsRun(r) && k < |r.events| && Told(r, k, i) && Polls(r, k, i) && Early(r, k) && LockedOut(r, k)
    ensures Told(r, k + 1, i)
  {
    hide Proper, LockedOut, Stamp, Early, Step, Publishes;
    OneStep(r, k, i);
  }

  /** At a working poll: the press it may accept, in terms of the history. */
  lemma TakesIff(r: Run, k: nat, i: Which)
    requires Aligned(r) && k < |r.events| && Told(r, k, i) && Working(r, k, i)
    ensures var c, now, raw := At(r, k, i), Stamp(r.times[k + 1]), r.events[k].raw;
            && (Settled(r, k, i) <==> raw == c.lastRaw && Elapsed(now, c.lastDebounce) > DEBOUNCE_MS)
            && (TakesPress(c, now, raw) <==> Takes(r, k, i)) && (Takes(r, k, i) ==> !c.pressed && !raw)
  {
    assert Elapsed(Stamp(r.times[k + 1]), Stamp(r.times[k + 1])) == 0;
    hide Elapsed, Stamp, Early;
  }

  /** The button is found low and settled, no press is held, and the latest one is more than 3000 ms ago. */
  predicate Takes(r: Run, k: nat, i: Which)
    requires Aligned(r) && k < |r.events|
  {
    && Working(r, k, i) && !r.events[k].raw && Settled(r, k, i) && !Held(r, k, i)
    && Elapsed(Stamp(r.times[k + 1]), LatestPressAt(r, k, i)) > COOLDOWN_MS
  }

  lemma WorkingTold(r: Run, k: nat, i: Which)
    requires IsRun(r) && k < |r.events| && Told(r, k, i) && Working(r, k, i) && !LockedOut(r, k)
    ensures Told(r, k + 1, i)
  {
    hide Proper, Polled, BeforePublish, LockedOut, Elapsed, Stamp, TakesPress, Early, WantsPublish, Takes, Settled;
    OneStep(r, k, i);
    TakesIff(r, k, i);
    PolledIff(At(r, k, i), Stamp(r.times[k + 1]), r.events[k].raw, r.events[k].delivered);
  }

  // ------------------------------------------------------------------ presses, rings, announcements

  /** A press is accepted exactly by a poll outside the lockout that finds the button low, its level
      unchanged for more than 50 ms, no press held, and more than 3000 ms since the latest one, all by
      the counter. */
  lemma AcceptsIff(r: Run, k: nat, i: Which)
    requires IsRun(r) && k < |r.events|
    ensures Accepts(r, k, i) <==> Takes(r, k, i)
  {
    hide Proper, Polled, BeforePublish, LockedOut, Elapsed, Stamp, TakesPress, Early, WantsPublish, Settled, Told;
    AllTold(r, k, i);
    LockoutIff(r, k);
    OneStep(r, k, i);
    if Working(r, k, i) {
      TakesIff(r, k, i);
      PolledIff(At(r, k, i), Stamp(r.times[k + 1]), r.events[k].raw, r.events[k].delivered);
    }
    PressedIsHeld(r, k, i);
  }

  lemma PressedIsHeld(r: Run, k: nat, i: Which)
    requires IsRun(r) && k <= |r.events|
    ensures At(r, k, i).pressed == Held(r, k, i) && At(r, k, i).enabled == SwitchedOn(r, k, i)
    ensures At(r, k, i).pending == RingAsked(r, k, i)
  {
    hide IsRun, Stamp;
    AllTold(r, k, i);
  }

  /** A ring starts exactly in a poll outside the lockout of a chime switched on and silent that accepts a
      press or finds a RING received. */
  lemma RingStartsIff(r: Run, k: nat, i: Which)
    requires IsRun(r) && k < |r.events|
    ensures RingStarts(r, k, i) <==>
              && Working(r, k, i) && SwitchedOn(r, k, i) && !At(r, k, i).ringing
              && (Takes(r, k, i) || RingAsked(r, k, i))
  {
    hide Proper, Polled, BeforePublish, LockedOut, Elapsed, Stamp, TakesPress, Early, WantsPublish, Settled, Told;
    AllTold(r, k, i);
    LockoutIff(r, k);
    OneStep(r, k, i);
    PressedIsHeld(r, k, i);
    if Working(r, k, i) {
      TakesIff(r, k, i);
      PolledIff(At(r, k, i), Stamp(r.times[k + 1]), r.events[k].raw, r.events[k].delivered);
    }
  }

  /** A publish is accepted exactly if the network takes it, in a poll outside the lockout after which a press
      is held that has not been announced before. */
  lemma PublishesIff(r: Run, k: nat, i: Which)
    requires IsRun(r) && k < |r.events|
    ensures Publishes(r.states[k], r.events[k], i) <==>
              && Working(r, k, i) && r.events[k].delivered && Held(r, k + 1, i)
              && (Takes(r, k, i) || !Announced(r, k, i))
  {
    hide Proper, Polled, BeforePublish, LockedOut, Elapsed, Stamp, TakesPress, Early, WantsPublish, Settled, Takes,
      Announced, Held;
    AllTold(r, k, i);
    LockoutIff(r, k);
    OneStep(r, k, i);
    PressedIsHeld(r, k + 1, i);
    if Working(r, k, i) {
      TakesIff(r, k, i);
      PolledIff(At(r, k, i), Stamp(r.times[k + 1]), r.events[k].raw, r.events[k].delivered);
    }
  }

  /** From the latest change of level on, every poll reads the same. */
  lemma {:induction false} SinceChange(r: Run, k: nat, i: Which, m: nat)
    requires Aligned(r) && k <= |r.events| && Change(r, k, i) <= m < k && Polls(r, m, i)
    ensures r.events[m].raw == Level(r, k, i) && (m > Change(r, k, i) ==> !Early(r, m))
  {
    hide Early;
    if m < k - 1 {
      SinceChange(r, k - 1, i, m);
    }
  }

  // ------------------------------------------------------------------------------- remote commands

  /** Between events j and k chime i is not sent the opposite of ON or OFF. */
  predicate NotRevoked(r: Run, j: nat, k: nat, i: Which, command: Command)
    requires k <= |r.events|
  {
    forall m | j < m < k :: r.events[m] != Received(i, if command == On then Off else On)
  }

  lemma {:induction false} SwitchLasts(r: Run, j: nat, k: nat, i: Which, command: Command)
    requires j < k <= |r.events| && command != Ring
    requires r.events[j] == Received(i, command) && NotRevoked(r, j, k, i, command)
    ensures SwitchedOn(r, k, i) == (command == On)
  {
    if j < k - 1 {
      SwitchLasts(r, j, k - 1, i, command);
    }
  }

  /** A PUBLISH to the base topic plus "/1" or "/2", heard as events j of a run: if its payload begins with OFF
      that chime is disabled, and starts no ring, until an ON; if it begins with ON it is enabled until an OFF;
      if it begins with RING, the next poll outside the lockout rings it if it is enabled and silent. The other
      chime and the port are as before. */
  lemma MessageObeyed(r: Run, j: nat, k: nat, base: seq<byte>, i: Which, dup: bool, qos: nat, retain: bool, id: u16,
                      payload: seq<byte>, beyond: seq<byte>)
    requires IsRun(r) && j < k <= |r.events| && 0 !in base && qos <= 2 && |beyond| == I.TOPIC_COPY
    requires |I.PublishFrame(dup, qos, retain, SubTopic(base, i), id, payload)| < 0x1_0000
    requires var calls := C.Heard(BothSubscribed(base), I.PublishFrame(dup, qos, retain, SubTopic(base, i), id, payload), beyond);
             Asked(payload).Some? && r.events[j..j + 1] == MessageEvents(calls)
    ensures At(r, j + 1, 1 - i) == At(r, j, 1 - i) && r.states[j + 1].port == r.states[j].port
    ensures Asked(payload) == Some(Off) && NotRevoked(r, j, k, i, Off) ==>
              !At(r, k, i).enabled && (k < |r.events| ==> !RingStarts(r, k, i))
    ensures Asked(payload) == Some(On) && NotRevoked(r, j, k, i, On) ==> At(r, k, i).enabled
    ensures Asked(payload) == Some(Ring) && k < |r.events| && (forall m | j < m < k :: !Polls(r, m, i)) && Working(r, k, i) ==>
              (!At(r, k, i).ringing && At(r, k, i).enabled ==> RingStarts(r, k, i))
  {
    hide I.PublishFrame, C.Heard, BothSubscribed, SubTopic, Asked, MessageEvents, Proper, Early, Step, NotRevoked, Takes,
      SwitchedOn,
      RingAsked;
    MessageMeans(base, i, dup, qos, retain, id, payload, beyond);
    var command := Asked(payload).value;
    assert r.events[j] == r.events[j..j + 1][0] == Received(i, command);
    OthersUntouched(r, j, i);
    PressedIsHeld(r, k, i);
    if k < |r.events| {
      RingStartsIff(r, k, i);
    }
    if command == Ring {
      if forall m | j < m < k :: !Polls(r, m, i) {
        AskedLasts(r, j, k, i);
      }
    } else if NotRevoked(r, j, k, i, command) {
      SwitchLasts(r, j, k, i, command);
    }
  }

  lemma {:induction false} AskedLasts(r: Run, j: nat, k: nat, i: Which)
    requires j < k <= |r.events| && r.events[j] == Received(i, Ring) && forall m | j < m < k :: !Polls(r, m, i)
    ensures RingAsked(r, k, i)
  {
    if j < k - 1 {
      AskedLasts(r, j, k - 1, i);
    }
  }

  lemma OthersUntouched(r: Run, j: nat, i: Which)
    requires IsRun(r) && j < |r.events| && r.events[j].Received? && r.events[j].i == i
    ensures At(r, j + 1, 1 - i) == At(r, j, 1 - i) && r.states[j + 1].port == r.states[j].port
  {
    assert r.states[j + 1] == Step(r.states[j], r.events[j]);
    hide Step;
    StepOf(r.states[j], r.events[j], 1 - i);
    StepPort(r.states[j], r.events[j]);
  }
}

/** The bell's state machine (process_chime and its callers) as a function of clock, button and network. */
module Chimes {
  import opened Words
  import opened Timer

  const LOCKOUT_MS := 3000
  const DEBOUNCE_MS := 50
  const COOLDOWN_MS := 3000
  const RING_MS := 1500

  datatype Chime = Chime(
    enabled: bool,
    pending: bool,       // trigger_pending
    ringing: bool,       // is_ringing
    ringStart: u32,      // ring_start_ms
    pressed: bool,       // button_pressed
    sent: bool,          // mqtt_sent
    lastRaw: bool,       // last_raw_state; the button is active low
    lastDebounce: u32,   // last_debounce_ms
    lastEvent: u32       // last_event_ms
  )

  /** Which of the two chimes. */
  type Which = x: nat | x < 2

  // The chimes share PORTB and the two static variables of process_chime.
  datatype Bell = Bell(chime1: Chime, chime2: Chime, port: bv8, started: bool, loopStart: u32)

  function Of(b: Bell, i: Which): Chime {
    if i == 0 then b.chime1 else b.chime2
  }

  function With(b: Bell, i: Which, c: Chime): Bell {
    if i == 0 then b.(chime1 := c) else b.(chime2 := c)
  }

  function OutPin(i: Which): bv8 {
    if i == 0 then 1 else 2
  }

  datatype Command = On | Off | Ring

  /** A call of process_chime for chime i at true time t, finding the button at level raw; `delivered`
      tells whether a publish attempted now would be accepted. Or a command received by MQTT. */
  datatype Event =
    | Poll(i: Which, t: nat, raw: bool, delivered: bool)
    | Received(i: Which, command: Command)

  // ------------------------------------------------------------------------ process_chime, by stage

  function Locked(c: Chime, now: u32, raw: bool): Chime {
    c.(lastRaw := raw, lastDebounce := now, pressed := false, sent := false, pending := false)
  }

  function Sampled(c: Chime, now: u32, raw: bool): Chime {
    c.(lastDebounce := if raw != c.lastRaw then now else c.lastDebounce, lastRaw := raw)
  }

  predicate Stable(c: Chime, now: u32) {
    Elapsed(now, c.lastDebounce) > DEBOUNCE_MS
  }

  function Debounced(c: Chime, now: u32): Chime {
    if !Stable(c, now) then c
    else if c.lastRaw then c.(pressed := false)
    else if !c.pressed && Elapsed(now, c.lastEvent) > COOLDOWN_MS then
      c.(lastEvent := now, pressed := true, sent := false, pending := true)
    else c
  }

  function Triggered(c: Chime, now: u32): Chime {
    if !c.pending then c
    else if c.enabled && !c.ringing then c.(pending := false, ringing := true, ringStart := now)
    else c.(pending := false)
  }

  function Timed(c: Chime, now: u32): Chime {
    if c.ringing && Elapsed(now, c.ringStart) >= RING_MS then c.(ringing := false) else c
  }

  predicate WantsPublish(c: Chime) {
    c.pressed && !c.sent
  }

  function Notified(c: Chime, delivered: bool): Chime {
    if WantsPublish(c) && delivered then c.(sent := true) else c
  }

  /** process_chime outside the lockout, up to the publish. */
  function BeforePublish(c: Chime, now: u32, raw: bool): Chime {
    Timed(Triggered(Debounced(Sampled(c, now, raw), now), now), now)
  }

  function Polled(c: Chime, now: u32, raw: bool, delivered: bool): Chime {
    Notified(BeforePublish(c, now, raw), delivered)
  }

  function Entered(b: Bell, now: u32): Bell {
    if b.started then b else b.(started := true, loopStart := now)
  }

  predicate InLockout(b: Bell, now: u32) {
    Elapsed(now, Entered(b, now).loopStart) < LOCKOUT_MS
  }

  function Raise(port: bv8, pin: bv8): bv8 {
    port | pin
  }

  function Lower(port: bv8, pin: bv8): bv8 {
    port & !pin
  }

  /** PORTB after the output stage: raised where ringing starts, lowered where it ends. */
  function Driven(port: bv8, pin: bv8, before: Chime, now: u32): bv8 {
    var raised := if before.pending && before.enabled && !before.ringing then Raise(port, pin) else port;
    var c := Triggered(before, now);
    if c.ringing && !Timed(c, now).ringing then Lower(raised, pin) else raised
  }

  function Processed(b: Bell, i: Which, now: u32, raw: bool, delivered: bool): Bell {
    var e, c := Entered(b, now), Of(b, i);
    if InLockout(b, now) then With(e, i, Locked(c, now, raw))
    else
      With(e, i, Polled(c, now, raw, delivered))
      .(port := Driven(b.port, OutPin(i), Debounced(Sampled(c, now, raw), now), now))
  }

  function Commanded(c: Chime, command: Command): Chime {
    match command
    case On => c.(enabled := true)
    case Off => c.(enabled := false)
    case Ring => c.(pending := true)
  }

  function Step(b: Bell, e: Event): Bell {
    match e
    case Poll(i, t, raw, delivered) => Processed(b, i, Stamp(t), raw, delivered)
    case Received(i, command) => With(b, i, Commanded(Of(b, i), command))
  }

  /** The publish this event gets accepted, if any, is one of chime i. */
  predicate Publishes(b: Bell, e: Event, i: Which) {
    && e.Poll? && e.i == i && e.delivered
    && !InLockout(b, Stamp(e.t))
    && WantsPublish(BeforePublish(Of(b, i), Stamp(e.t), e.raw))
  }

  // ---------------------------------------------------------------------- one poll, seen from outside

  predicate Pressing(c: Chime, d: Chime) {
    !c.pressed && d.pressed
  }

  predicate Releasing(c: Chime, d: Chime) {
    c.pressed && !d.pressed
  }

  lemma OutputFacts(c: Chime, now: u32)
    ensures var d := Timed(Triggered(c, now), now);
            && d == c.(pending := false, ringing := d.ringing, ringStart := d.ringStart)
            && (c.ringing ==> d.ringStart == c.ringStart && (d.ringing <==> Elapsed(now, c.ringStart) < RING_MS))
            && (!c.ringing && d.ringing ==> d.ringStart == now && c.enabled && c.pending)
  {
    assert Elapsed(now, now) == 0;
    hide Elapsed;
  }

  lemma DebounceFacts(c: Chime, now: u32)
    ensures var d := Debounced(c, now);
            && d == c.(lastEvent := d.lastEvent, pressed := d.pressed, sent := d.sent, pending := d.pending)
            && (if Pressing(c, d) then
                  && d.lastEvent == now && Elapsed(now, c.lastEvent) > COOLDOWN_MS && !d.sent && d.pending
                  && !c.lastRaw && Stable(c, now)
                else
                  && d.lastEvent == c.lastEvent && d.sent == c.sent && d.pending == c.pending)
            && (Releasing(c, d) ==> c.lastRaw && Stable(c, now))
  {
    hide Elapsed, Stable;
  }

  lemma SampledFacts(c: Chime, now: u32, raw: bool, delivered: bool)
    ensures var d := Polled(c, now, raw, delivered);
            && d.enabled == c.enabled && !d.pending && d.lastRaw == raw
            && d.lastDebounce == (if raw != c.lastRaw then now else c.lastDebounce)
  {
    hide Elapsed, Stable, Debounced, Triggered, Timed;
    DebounceFacts(Sampled(c, now, raw), now);
    OutputFacts(Debounced(Sampled(c, now, raw), now), now);
  }

  lemma RingFacts(c: Chime, now: u32, raw: bool, delivered: bool)
    ensures var d := Polled(c, now, raw, delivered);
            && (c.ringing ==> d.ringStart == c.ringStart && (d.ringing <==> Elapsed(now, c.ringStart) < RING_MS))
            && (!c.ringing && d.ringing ==> d.ringStart == now && c.enabled && (c.pending || Pressing(c, d)))
  {
    hide Elapsed, Stable, Debounced, Triggered, Timed;
    DebounceFacts(Sampled(c, now, raw), now);
    OutputFacts(Debounced(Sampled(c, now, raw), now), now);
  }

  lemma PressFacts(c: Chime, now: u32, raw: bool, delivered: bool)
    ensures var d := Polled(c, now, raw, delivered);
            && (if Pressing(c, d) then d.lastEvent == now && Elapsed(now, c.lastEvent) > COOLDOWN_MS
                else d.lastEvent == c.lastEvent)
            && (Pressing(c, d) ==> !raw && Elapsed(now, d.lastDebounce) > DEBOUNCE_MS)
            && (Releasing(c, d) ==> raw && Elapsed(now, d.lastDebounce) > DEBOUNCE_MS)
  {
    hide Elapsed, Debounced, Triggered, Timed;
    DebounceFacts(Sampled(c, now, raw), now);
    OutputFacts(Debounced(Sampled(c, now, raw), now), now);
  }

  lemma PublishFacts(c: Chime, now: u32, raw: bool, delivered: bool)
    ensures var b := BeforePublish(c, now, raw);
            var d := Polled(c, now, raw, delivered);
            && (WantsPublish(b) ==> WantsPublish(c) || Pressing(c, d))
            && (WantsPublish(d) <==> WantsPublish(b) && !delivered)
  {
    hide Elapsed, Stable, Debounced, Triggered, Timed;
    DebounceFacts(Sampled(c, now, raw), now);
    OutputFacts(Debounced(Sampled(c, now, raw), now), now);
  }

  // --------------------------------------------------------------------------------------- runs

  // init_chime for both chimes at true time t, and the buttons as main() reads them before the loop.
  function Booted(c: Chime, t: nat, raw: bool): Chime {
    c.(lastRaw := raw, lastDebounce := Stamp(t), pressed := false, sent := false, ringing := false, pending := false)
  }

  const POWER_ON := Chime(true, false, false, 0, false, false, true, 0, 0)

  function Boot(t: nat, raw1: bool, raw2: bool, port: bv8): Bell {
    Bell(Booted(POWER_ON, t, raw1), Booted(POWER_ON, t, raw2), port, false, 0)
  }

  /** states[k + 1] is reached from states[k] by events[k]; times[k] is when states[k] was reached. */
  datatype Run = Run(states: seq<Bell>, events: seq<Event>, times: seq<nat>)

  predicate Aligned(r: Run) {
    |r.states| == |r.times| == |r.events| + 1
  }

  ghost predicate Proper(r: Run)
    requires Aligned(r)
  {
    && (exists raw1, raw2, port: bv8 :: port & 3 == 0 && r.states[0] == Boot(r.times[0], raw1, raw2, port))
    && (forall k | 0 <= k < |r.events| :: r.states[k + 1] == Step(r.states[k], r.events[k]))
    && (forall k | 0 <= k < |r.events| :: r.events[k].Poll? ==> r.events[k].t == r.times[k + 1])
    && (forall j, k | 0 <= j <= k < |r.times| :: r.times[j] <= r.times[k])
  }

  ghost predicate IsRun(r: Run) {
    Aligned(r) && Proper(r)
  }

  /** Chime i in state k. */
  function At(r: Run, k: nat, i: Which): Chime
    requires k < |r.states|
  {
    Of(r.states[k], i)
  }

  /** Event k polls chime i. */
  predicate Polls(r: Run, k: nat, i: Which)
    requires k < |r.events|
  {
    r.events[k].Poll? && r.events[k].i == i
  }

  predicate LockedOut(r: Run, k: nat)
    requires k < |r.events| && k < |r.states|
  {
    r.events[k].Poll? && InLockout(r.states[k], Stamp(r.events[k].t))
  }

  lemma Later(r: Run, j: nat, k: nat)
    requires IsRun(r) && j <= k < |r.times|
    ensures r.times[j] <= r.times[k]
  {
  }

  lemma WithOf(b: Bell, i: Which, c: Chime, j: Which)
    ensures Of(With(b, i, c), j) == if i == j then c else Of(b, j)
  {
  }

  lemma StepOf(b: Bell, e: Event, i: Which)
    ensures var c, d := Of(b, i), Of(Step(b, e), i);
            if e.i != i then d == c
            else if e.Received? then d == Commanded(c, e.command)
            else if InLockout(b, Stamp(e.t)) then d == Locked(c, Stamp(e.t), e.raw)
            else d == Polled(c, Stamp(e.t), e.raw, e.delivered)
  {
    hide BeforePublish, Polled, Locked, InLockout, Driven, Stamp, With, Commanded, OutPin;
    var c := Of(b, e.i);
    match e
    case Poll(j, t, raw, delivered) =>
      WithOf(Entered(b, Stamp(t)), j, Locked(c, Stamp(t), raw), i);
      WithOf(Entered(b, Stamp(t)), j, Polled(c, Stamp(t), raw, delivered), i);
    case Received(j, command) =>
      WithOf(b, j, Commanded(c, command), i);
  }

  lemma StepPort(b: Bell, e: Event)
    ensures Step(b, e).port ==
            if e.Received? || InLockout(b, Stamp(e.t)) then b.port
            else Driven(b.port, OutPin(e.i), Debounced(Sampled(Of(b, e.i), Stamp(e.t), e.raw), Stamp(e.t)), Stamp(e.t))
  {
    hide BeforePublish, Polled, Locked, InLockout, Driven, Stamp, Commanded, OutPin, Debounced, Sampled;
  }

  /** What one event can do to chime i. */
  lemma OneStep(r: Run, k: nat, i: Which)
    requires IsRun(r) && k < |r.events|
    ensures !Polls(r, k, i) ==>
              var c, d := At(r, k, i), At(r, k + 1, i);
              d == c.(enabled := d.enabled, pending := d.pending) && (d.pending && !c.pending ==> r.events[k] == Received(i, Ring))
    ensures Polls(r, k, i) && LockedOut(r, k) ==>
              At(r, k + 1, i) == Locked(At(r, k, i), Stamp(r.times[k + 1]), r.events[k].raw)
    ensures Polls(r, k, i) && !LockedOut(r, k) ==>
              At(r, k + 1, i) == Polled(At(r, k, i), Stamp(r.times[k + 1]), r.events[k].raw, r.events[k].delivered)
    ensures Publishes(r.states[k], r.events[k], i) <==>
              && Polls(r, k, i) && !LockedOut(r, k) && r.events[k].delivered
              && WantsPublish(BeforePublish(At(r, k, i), Stamp(r.times[k + 1]), r.events[k].raw))
  {
    hide BeforePublish, Polled, Locked, InLockout, Driven, Stamp, Of, Step;
    assert r.states[k + 1] == Step(r.states[k], r.events[k]);
    StepOf(r.states[k], r.events[k], i);
  }

  lemma BootStamped(r: Run, i: Which)
    requires IsRun(r)
    ensures At(r, 0, i).lastDebounce == Stamp(r.times[0])
    ensures !At(r, 0, i).pressed && !At(r, 0, i).pending && !At(r, 0, i).ringing && !At(r, 0, i).sent
  {
  }

  /** The facts above, for event k of a run. */
  lemma Facts(r: Run, k: nat, i: Which)
    requires IsRun(r) && k < |r.events|
    ensures Polls(r, k, i) && !LockedOut(r, k) ==>
              var c, d, now := At(r, k, i), At(r, k + 1, i), Stamp(r.times[k + 1]);
              var b := BeforePublish(c, now, r.events[k].raw);
              && d.enabled == c.enabled && !d.pending && d.lastRaw == r.events[k].raw
              && d.lastDebounce == (if r.events[k].raw != c.lastRaw then now else c.lastDebounce)
              && (c.ringing ==> d.ringStart == c.ringStart && (d.ringing <==> Elapsed(now, c.ringStart) < RING_MS))
              && (!c.ringing && d.ringing ==> d.ringStart == now && c.enabled && (c.pending || Pressing(c, d)))
              && (if Pressing(c, d) then d.lastEvent == now && Elapsed(now, c.lastEvent) > COOLDOWN_MS
                  else d.lastEvent == c.lastEvent)
              && (Pressing(c, d) ==> !r.events[k].raw && Elapsed(now, d.lastDebounce) > DEBOUNCE_MS)
              && (Releasing(c, d) ==> r.events[k].raw && Elapsed(now, d.lastDebounce) > DEBOUNCE_MS)
              && (WantsPublish(b) ==> WantsPublish(c) || Pressing(c, d))
              && (WantsPublish(d) <==> WantsPublish(b) && !r.events[k].delivered)
  {
    hide Proper, Polled, BeforePublish, InLockout, Elapsed, Stamp, WantsPublish, Pressing, Releasing;
    OneStep(r, k, i);
    if Polls(r, k, i) && !LockedOut(r, k) {
      var c, now, e := At(r, k, i), Stamp(r.times[k + 1]), r.events[k];
      SampledFacts(c, now, e.raw, e.delivered);
      RingFacts(c, now, e.raw, e.delivered);
      PressFacts(c, now, e.raw, e.delivered);
      PublishFacts(c, now, e.raw, e.delivered);
    }
  }

  // ------------------------------------------------------------------------------------ the port

  predicate PinHigh(port: bv8, i: Which) {
    port & (if i == 0 then 1 else 2) != 0
  }

  function OtherPins(port: bv8): bv8 {
    port & 0xFC
  }

  predicate PortShows(b: Bell, port0: bv8) {
    && (PinHigh(b.port, 0) <==> b.chime1.ringing)
    && (PinHigh(b.port, 1) <==> b.chime2.ringing)
    && OtherPins(b.port) == OtherPins(port0)
  }

  /** PORTB0 is high exactly while chime 1 rings, PORTB1 exactly while chime 2 rings; the chime code moves
      no other pin. */
  lemma {:induction false} PortFollowsRinging(r: Run, k: nat)
    requires IsRun(r) && k < |r.states|
    ensures PortShows(r.states[k], r.states[0].port)
  {
    hide PortShows, Step;
    if k > 0 {
      PortFollowsRinging(r, k - 1);
      PortStep(r.states[k - 1], r.events[k - 1], r.states[0].port);
      assert r.states[k - 1 + 1] == Step(r.states[k - 1], r.events[k - 1]);
    } else {
      var raw1, raw2, port: bv8 :| port & 3 == 0 && r.states[0] == Boot(r.times[0], raw1, raw2, port);
      LowPins(r.states[0]);
    }
  }

  lemma LowPins(b: Bell)
    requires b.port & 3 == 0 && !b.chime1.ringing && !b.chime2.ringing
    ensures PortShows(b, b.port)
  {
  }

  lemma PortUpdate(b: Bell, d: Bell, i: Which, port0: bv8)
    requires PortShows(b, port0)
    requires PinHigh(d.port, i) <==> Of(d, i).ringing
    requires PinHigh(d.port, 1 - i) == PinHigh(b.port, 1 - i) && Of(d, 1 - i).ringing == Of(b, 1 - i).ringing
    requires OtherPins(d.port) == OtherPins(b.port)
    ensures PortShows(d, port0)
  {
    hide PinHigh, OtherPins;
  }

  lemma PortStepDriven(b: Bell, e: Event, port0: bv8)
    requires PortShows(b, port0) && e.Poll? && !InLockout(b, Stamp(e.t))
    ensures PortShows(Step(b, e), port0)
  {
    hide Sampled, Debounced, Elapsed, InLockout, Driven, Triggered, Timed, Stamp, Step, BeforePublish, Polled,
      PortShows, PinHigh, OtherPins, OutPin, Of;
    var d, i, now := Step(b, e), e.i, Stamp(e.t);
    var c := Debounced(Sampled(Of(b, i), now, e.raw), now);
    StepOf(b, e, i);
    StepOf(b, e, 1 - i);
    StepPort(b, e);
    PortMeans(b, i, port0);
    DebounceKeepsRinging(Of(b, i), now, e.raw);
    PinDriven(b.port, i, c, now);
    PolledRinging(Of(b, i), now, e.raw, e.delivered);
    PortUpdate(b, d, i, port0);
  }

  lemma PortStep(b: Bell, e: Event, port0: bv8)
    requires PortShows(b, port0)
    ensures PortShows(Step(b, e), port0)
  {
    if e.Poll? && !InLockout(b, Stamp(e.t)) {
      PortStepDriven(b, e, port0);
    } else {
      hide InLockout, Stamp, Step, Polled, OutPin, Of, PortShows;
      StepOf(b, e, 0);
      StepOf(b, e, 1);
      StepPort(b, e);
      QuietPort(b, Step(b, e), port0);
    }
  }

  lemma QuietPort(b: Bell, d: Bell, port0: bv8)
    requires PortShows(b, port0) && d.port == b.port
    requires Of(d, 0).ringing == Of(b, 0).ringing && Of(d, 1).ringing == Of(b, 1).ringing
    ensures PortShows(d, port0)
  {
    hide PinHigh, OtherPins;
  }

  lemma PortMeans(b: Bell, i: Which, port0: bv8)
    requires PortShows(b, port0)
    ensures PinHigh(b.port, i) <==> Of(b, i).ringing
  {
    hide PinHigh, OtherPins;
  }

  lemma PolledRinging(c: Chime, now: u32, raw: bool, delivered: bool)
    ensures Polled(c, now, raw, delivered).ringing ==
            Timed(Triggered(Debounced(Sampled(c, now, raw), now), now), now).ringing
  {
    hide Sampled, Debounced, Elapsed, Triggered, Timed;
  }

  lemma DebounceKeepsRinging(c: Chime, now: u32, raw: bool)
    ensures Debounced(Sampled(c, now, raw), now).ringing == c.ringing
  {
  }

  lemma PinDriven(port: bv8, i: Which, c: Chime, now: u32)
    requires PinHigh(port, i) <==> c.ringing
    ensures var p := Driven(port, OutPin(i), c, now);
            && (PinHigh(p, i) <==> Timed(Triggered(c, now), now).ringing)
            && PinHigh(p, 1 - i) == PinHigh(port, 1 - i)
            && OtherPins(p) == OtherPins(port)
  {
    hide Elapsed, PinHigh, OtherPins, OutPin, Raise, Lower;
    PinSet(port, i);
    PinCleared(port, i);
    PinCleared(Raise(port, OutPin(i)), i);
  }

  lemma PinSet(port: bv8, i: Which)
    ensures var p := Raise(port, OutPin(i));
            PinHigh(p, i) && PinHigh(p, 1 - i) == PinHigh(port, 1 - i) && OtherPins(p) == OtherPins(port)
  {
    Masks(port);
  }

  lemma PinCleared(port: bv8, i: Which)
    ensures var p := Lower(port, OutPin(i));
            !PinHigh(p, i) && PinHigh(p, 1 - i) == PinHigh(port, 1 - i) && OtherPins(p) == OtherPins(port)
  {
    Masks(port);
  }

  lemma Masks(p: bv8)
    ensures (p | 1) & 1 != 0 && (p | 1) & 2 == p & 2 && (p | 1) & 0xFC == p & 0xFC
    ensures (p | 2) & 2 != 0 && (p | 2) & 1 == p & 1 && (p | 2) & 0xFC == p & 0xFC
    ensures p & !1 & 1 == 0 && p & !1 & 2 == p & 2 && p & !1 & 0xFC == p & 0xFC
    ensures p & !2 & 2 == 0 && p & !2 & 1 == p & 1 && p & !2 & 0xFC == p & 0xFC
  {
  }

  // -------------------------------------------------------------------------------------- pulses

  predicate RingStarts(r: Run, k: nat, i: Which)
    requires k < |r.events| && |r.states| == |r.events| + 1
  {
    !At(r, k, i).ringing && At(r, k + 1, i).ringing
  }

  predicate RingEnds(r: Run, k: nat, i: Which)
    requires k < |r.events| && |r.states| == |r.events| + 1
  {
    At(r, k, i).ringing && !At(r, k + 1, i).ringing
  }

  /** Chime i rings in all states from j + 1 to k. */
  predicate RingsThrough(r: Run, j: nat, k: nat, i: Which)
    requires k < |r.states|
  {
    forall m | j < m <= k :: At(r, m, i).ringing
  }

  lemma StartStamped(r: Run, j: nat, i: Which)
    requires IsRun(r) && j < |r.events| && RingStarts(r, j, i)
    ensures Polls(r, j, i) && !LockedOut(r, j)
    ensures At(r, j + 1, i).ringStart == Stamp(r.times[j + 1])
    ensures At(r, j, i).enabled && At(r, j + 1, i).enabled
  {
    hide Proper, Polled, BeforePublish, InLockout, Elapsed, Stamp;
    OneStep(r, j, i);
    Facts(r, j, i);
  }

  lemma {:induction false} StartKept(r: Run, j: nat, k: nat, i: Which)
    requires IsRun(r) && j < |r.events| && j < k < |r.states|
    requires RingStarts(r, j, i) && RingsThrough(r, j, k, i)
    ensures At(r, k, i).ringStart == Stamp(r.times[j + 1])
  {
    hide Proper, Polled, BeforePublish, InLockout, Elapsed, Stamp;
    if k == j + 1 {
      StartStamped(r, j, i);
    } else {
      StartKept(r, j, k - 1, i);
      OneStep(r, k - 1, i);
      Facts(r, k - 1, i);
      assert At(r, k - 1, i).ringing;
    }
  }

  /** A pulse, once begun, lasts at least 1500 ms. */
  lemma PulseLastsLong(r: Run, j: nat, k: nat, i: Which)
    requires IsRun(r) && j < k < |r.events|
    requires RingStarts(r, j, i) && RingsThrough(r, j, k, i) && RingEnds(r, k, i)
    ensures r.times[k + 1] - r.times[j + 1] >= RING_MS
  {
    hide Proper, Polled, BeforePublish, InLockout, Elapsed, Stamp;
    StartKept(r, j, k, i);
    OneStep(r, k, i);
    Facts(r, k, i);
    Later(r, j + 1, k + 1);
    ElapsedIsLow(r.times[k + 1], r.times[j + 1]);
  }

  /** The end of the pulse that began at j, if it has ended by state k. */
  lemma {:induction false} PulseEnd(r: Run, j: nat, k: nat, i: Which) returns (m: nat)
    requires IsRun(r) && j < |r.events| && j < k < |r.states|
    requires RingStarts(r, j, i) && !At(r, k, i).ringing
    ensures j < m < k && RingsThrough(r, j, m, i) && RingEnds(r, m, i)
  {
    hide Proper;
    m := j + 1;
    while At(r, m + 1, i).ringing
      invariant j < m < k && RingsThrough(r, j, m, i)
      decreases k - m
    {
      m := m + 1;
    }
  }

  /** Two ring starts of one chime are at least 1500 ms apart, and a whole pulse lies between. */
  lemma RingStartsApart(r: Run, j: nat, k: nat, i: Which)
    requires IsRun(r) && j < k < |r.events|
    requires RingStarts(r, j, i) && RingStarts(r, k, i)
    ensures r.times[k + 1] - r.times[j + 1] >= RING_MS
  {
    hide Proper, Polled, BeforePublish, InLockout, Elapsed, Stamp;
    var m := PulseEnd(r, j, k, i);
    PulseLastsLong(r, j, m, i);
    Later(r, m + 1, k + 1);
  }

  /** Every poll in (j, k] outside the lockout has one at most `gap` ms before it, back to j. */
  predicate PolledWithin(r: Run, j: nat, k: nat, i: Which, gap: nat)
    requires k < |r.events| && |r.times| == |r.states| == |r.events| + 1
  {
    forall m | j < m <= k && Polls(r, m, i) && !LockedOut(r, m) ::
      exists p :: j <= p < m && Polls(r, p, i) && !LockedOut(r, p) && r.times[m + 1] - r.times[p + 1] <= gap
  }

  lemma EarlierPoll(r: Run, j: nat, k: nat, i: Which, gap: nat) returns (p: nat)
    requires Aligned(r) && j < k < |r.events| && Polls(r, k, i) && !LockedOut(r, k) && PolledWithin(r, j, k, i, gap)
    ensures j <= p < k && Polls(r, p, i) && !LockedOut(r, p) && r.times[k + 1] - r.times[p + 1] <= gap
    ensures PolledWithin(r, j, p, i, gap)
  {
    hide InLockout;
    p :| j <= p < k && Polls(r, p, i) && !LockedOut(r, p) && r.times[k + 1] - r.times[p + 1] <= gap;
  }

  /** Outside the lockout a pulse is over within 1500 ms plus the longest gap between polls. */
  lemma {:induction false} PulseEndsSoon(r: Run, j: nat, k: nat, i: Which, gap: nat)
    requires IsRun(r) && j < k < |r.events| && RING_MS + gap <= U32_RANGE
    requires RingStarts(r, j, i) && RingsThrough(r, j, k, i)
    requires Polls(r, k, i) && !LockedOut(r, k) && PolledWithin(r, j, k, i, gap)
    ensures r.times[k + 1] - r.times[j + 1] < RING_MS + gap
  {
    hide PolledWithin, Proper, Polled, BeforePublish, InLockout, Elapsed, Stamp;
    var p := EarlierPoll(r, j, k, i, gap);
    if j < p {
      PulseEndsSoon(r, j, p, i, gap);
      StartKept(r, j, p, i);
      OneStep(r, p, i);
      Facts(r, p, i);
      assert At(r, p + 1, i).ringing && At(r, p, i).ringing;
      Later(r, j + 1, p + 1);
      ElapsedIsLow(r.times[p + 1], r.times[j + 1]);
    }
  }

  /** ... and it does end at the first such poll that finds 1500 ms gone. */
  lemma PulseEndsAt(r: Run, j: nat, k: nat, i: Which)
    requires IsRun(r) && j < k < |r.events|
    requires RingStarts(r, j, i) && RingsThrough(r, j, k, i)
    requires r.times[k + 1] - r.times[j + 1] < U32_RANGE
    ensures RingEnds(r, k, i) <==>
              Polls(r, k, i) && !LockedOut(r, k) && r.times[k + 1] - r.times[j + 1] >= RING_MS
  {
    hide Proper, Polled, BeforePublish, InLockout, Elapsed, Stamp;
    StartKept(r, j, k, i);
    OneStep(r, k, i);
    Facts(r, k, i);
    assert At(r, k, i).ringing;
    Later(r, j + 1, k + 1);
    ElapsedIsLow(r.times[k + 1], r.times[j + 1]);
  }

  // ------------------------------------------------------------------------------------- presses

  predicate Accepts(r: Run, k: nat, i: Which)
    requires k < |r.events| && |r.states| == |r.events| + 1
  {
    !At(r, k, i).pressed && At(r, k + 1, i).pressed
  }

  predicate Releases(r: Run, k: nat, i: Which)
    requires k < |r.events| && |r.states| == |r.events| + 1
  {
    At(r, k, i).pressed && !At(r, k + 1, i).pressed
  }

  /** The time stamp of the latest accepted press stays until the next one. */
  lemma {:induction false} LatestPress(r: Run, j: nat, k: nat, i: Which) returns (p: nat)
    requires IsRun(r) && j < |r.events| && j < k < |r.states| && Accepts(r, j, i)
    ensures j <= p < k && Accepts(r, p, i) && At(r, k, i).lastEvent == Stamp(r.times[p + 1])
  {
    hide Proper, Polled, BeforePublish, InLockout, Elapsed, Stamp;
    OneStep(r, k - 1, i);
    Facts(r, k - 1, i);
    if k == j + 1 || Accepts(r, k - 1, i) {
      p := k - 1;
    } else {
      p := LatestPress(r, j, k - 1, i);
    }
  }

  /** Two accepted presses of one button are more than 3000 ms apart. */
  lemma PressesApart(r: Run, j: nat, k: nat, i: Which)
    requires IsRun(r) && j < k < |r.events|
    requires Accepts(r, j, i) && Accepts(r, k, i)
    ensures r.times[k + 1] - r.times[j + 1] > COOLDOWN_MS
  {
    hide Proper, Polled, BeforePublish, InLockout, Elapsed, Stamp;
    var p := LatestPress(r, j, k, i);
    OneStep(r, k, i);
    Facts(r, k, i);
    Later(r, j + 1, p + 1);
    Later(r, p + 1, k + 1);
    ElapsedIsLow(r.times[k + 1], r.times[p + 1]);
  }

  /** From state w on to state k the button has read the same, and state w is where the debounce
      clock was last restarted. */
  predicate SteadySince(r: Run, w: nat, k: nat, i: Which)
    requires w <= k < |r.states| == |r.times|
  {
    && At(r, k, i).lastDebounce == Stamp(r.times[w])
    && forall m | w <= m <= k :: At(r, m, i).lastRaw == At(r, k, i).lastRaw
  }

  lemma {:induction false} SteadyWindow(r: Run, k: nat, i: Which) returns (w: nat)
    requires IsRun(r) && k < |r.states|
    ensures w <= k && SteadySince(r, w, k, i)
  {
    hide Proper, Polled, BeforePublish, InLockout, Elapsed, Stamp;
    if k == 0 {
      w := 0;
      BootStamped(r, i);
    } else {
      var v := SteadyWindow(r, k - 1, i);
      OneStep(r, k - 1, i);
      Facts(r, k - 1, i);
      if Polls(r, k - 1, i) && (LockedOut(r, k - 1) || r.events[k - 1].raw != At(r, k - 1, i).lastRaw) {
        w := k;
      } else {
        w := v;
      }
    }
  }

  /** Every poll from state w to state k reads `level`, and so did the one state w comes from. */
  predicate AllRead(r: Run, w: nat, k: nat, i: Which, level: bool)
    requires w <= k < |r.states| == |r.events| + 1
  {
    && At(r, w, i).lastRaw == level
    && (forall m | w <= m < k && Polls(r, m, i) :: r.events[m].raw == level)
  }

  /** A press is accepted only after more than 50 ms of polls that all read low. */
  lemma PressIsDebounced(r: Run, k: nat, i: Which) returns (w: nat)
    requires IsRun(r) && k < |r.events| && Accepts(r, k, i)
    ensures Polls(r, k, i) && !LockedOut(r, k)
    ensures w <= k && r.times[k + 1] - r.times[w] > DEBOUNCE_MS && AllRead(r, w, k + 1, i, false)
  {
    w := StableWindow(r, k, i);
  }

  /** Behind a poll that finds the button stable lie more than 50 ms of equal readings. */
  lemma StableWindow(r: Run, k: nat, i: Which) returns (w: nat)
    requires IsRun(r) && k < |r.events|
    requires Accepts(r, k, i) || (Releases(r, k, i) && !LockedOut(r, k))
    ensures Polls(r, k, i) && !LockedOut(r, k)
    ensures r.events[k].raw == Releases(r, k, i)
    ensures w <= k && r.times[k + 1] - r.times[w] > DEBOUNCE_MS && AllRead(r, w, k + 1, i, r.events[k].raw)
  {
    hide Proper, Polled, BeforePublish, InLockout, Elapsed, Stamp;
    w := SteadyWindow(r, k, i);
    OneStep(r, k, i);
    Facts(r, k, i);
    Later(r, w, k + 1);
    ElapsedIsLow(r.times[k + 1], r.times[k + 1]);
    ElapsedIsLow(r.times[k + 1], r.times[w]);
    forall m | w <= m < k && Polls(r, m, i)
      ensures r.events[m].raw == r.events[k].raw
    {
      OneStep(r, m, i);
      Facts(r, m, i);
      assert At(r, m + 1, i).lastRaw == At(r, k, i).lastRaw;
    }
  }

  /** A press ends in a lockout, or after more than 50 ms of polls that all read high. */
  lemma ReleaseIsDebounced(r: Run, k: nat, i: Which) returns (w: nat)
    requires IsRun(r) && k < |r.events| && Releases(r, k, i)
    ensures Polls(r, k, i)
    ensures LockedOut(r, k) || (w <= k && r.times[k + 1] - r.times[w] > DEBOUNCE_MS && AllRead(r, w, k + 1, i, true))
  {
    hide Proper, Polled, BeforePublish, InLockout, Elapsed, Stamp;
    OneStep(r, k, i);
    w := 0;
    if !LockedOut(r, k) {
      w := StableWindow(r, k, i);
    }
  }

  /** Between two accepted presses the button was released. */
  lemma {:induction false} ReleaseBetween(r: Run, j: nat, k: nat, i: Which) returns (m: nat)
    requires IsRun(r) && j < k < |r.events|
    requires Accepts(r, j, i) && Accepts(r, k, i)
    ensures j < m < k && Releases(r, m, i)
  {
    hide Proper;
    m := j + 1;
    while At(r, m + 1, i).pressed
      invariant j < m < k && At(r, m, i).pressed
      decreases k - m
    {
      m := m + 1;
    }
  }

  /** Outside the lockout, two accepted presses are separated by a release that more than 50 ms of
      polls, all high, stand behind. */
  lemma DebouncedReleaseBetween(r: Run, j: nat, k: nat, i: Which) returns (m: nat, w: nat)
    requires IsRun(r) && j < k < |r.events| && Accepts(r, j, i) && Accepts(r, k, i)
    requires forall n | j < n < k :: !LockedOut(r, n)
    ensures j < m < k && Releases(r, m, i)
    ensures w <= m && r.times[m + 1] - r.times[w] > DEBOUNCE_MS && AllRead(r, w, m + 1, i, true)
  {
    m := ReleaseBetween(r, j, k, i);
    w := ReleaseIsDebounced(r, m, i);
  }

  // ------------------------------------------------------------------------------------ counting

  /** How many of the first n events of the run satisfy a condition. */
  function CountPresses(r: Run, n: nat, i: Which): nat
    requires n <= |r.events| && |r.states| == |r.events| + 1
  {
    if n == 0 then 0 else CountPresses(r, n - 1, i) + if Accepts(r, n - 1, i) then 1 else 0
  }

  function CountStarts(r: Run, n: nat, i: Which): nat
    requires n <= |r.events| && |r.states| == |r.events| + 1
  {
    if n == 0 then 0 else CountStarts(r, n - 1, i) + if RingStarts(r, n - 1, i) then 1 else 0
  }

  function CountCommands(r: Run, n: nat, i: Which): nat
    requires n <= |r.events|
  {
    if n == 0 then 0 else CountCommands(r, n - 1, i) + if r.events[n - 1] == Received(i, Ring) then 1 else 0
  }

  function CountPublishes(r: Run, n: nat, i: Which): nat
    requires n <= |r.events| && |r.states| == |r.events| + 1
  {
    if n == 0 then 0
    else CountPublishes(r, n - 1, i) + if Publishes(r.states[n - 1], r.events[n - 1], i) then 1 else 0
  }

  /** At any moment, successful publishes number at most the accepted presses: one each. */
  lemma {:induction false} PublishesBounded(r: Run, n: nat, i: Which)
    requires IsRun(r) && n <= |r.events|
    ensures CountPublishes(r, n, i) + (if WantsPublish(At(r, n, i)) then 1 else 0) <= CountPresses(r, n, i)
  {
    hide Proper, Polled, BeforePublish, InLockout, Elapsed, Stamp;
    if n > 0 {
      PublishesBounded(r, n - 1, i);
      OneStep(r, n - 1, i);
      Facts(r, n - 1, i);
    } else {
      BootStamped(r, i);
    }
  }

  /** Rings number at most the accepted presses plus the RING commands received. */
  lemma {:induction false} RingsBounded(r: Run, n: nat, i: Which)
    requires IsRun(r) && n <= |r.events|
    ensures CountStarts(r, n, i) + (if At(r, n, i).pending then 1 else 0) <= CountPresses(r, n, i) + CountCommands(r, n, i)
  {
    hide Proper, Polled, BeforePublish, InLockout, Elapsed, Stamp;
    if n > 0 {
      RingsBounded(r, n - 1, i);
      OneStep(r, n - 1, i);
      Facts(r, n - 1, i);
    } else {
      BootStamped(r, i);
    }
  }
}

/** Runs of the bell as they grow, and the PUBLISH packets they account for. */
module BellRuns {
  import opened Words
  import opened Timer
  import opened Chimes
  import S = Session

  function Extended(r: Run, e: Event, t: nat): Run
    requires Aligned(r)
  {
    Run(r.states + [Step(Latest(r), e)], r.events + [e], r.times + [t])
  }

  function Latest(r: Run): Bell
    requires Aligned(r)
  {
    r.states[|r.events|]
  }

  /** The run so far ends in bell b, no later than ms, and every PUBLISH packet on any TCP session is
      one of its accepted publishes. */
  ghost predicate Tracked(r: Run, b: Bell, ms: nat, history: seq<S.Record>, trace: seq<S.Event>) {
    && IsRun(r)
    && Latest(r) == b && r.times[|r.events|] <= ms
    && S.PublishTotal(history, trace) == CountPublishes(r, |r.events|, 0) + CountPublishes(r, |r.events|, 1)
  }

  lemma RunGrows(r: Run, e: Event, t: nat)
    requires IsRun(r) && r.times[|r.events|] <= t && (e.Poll? ==> e.t == t)
    ensures IsRun(Extended(r, e, t))
  {
    hide Step, Boot;
    var d := Extended(r, e, t);
    assert d.states[0] == r.states[0] && d.times[0] == r.times[0];
    forall k | 0 <= k < |d.events|
      ensures d.states[k + 1] == Step(d.states[k], d.events[k])
    {
      if k < |r.events| {
        assert r.states[k + 1] == Step(r.states[k], r.events[k]);
      }
    }
  }

  lemma {:induction false} CountKept(r: Run, d: Run, n: nat, i: Which)
    requires Aligned(r) && Aligned(d) && n <= |r.events|
    requires r.states <= d.states && r.events <= d.events
    ensures CountPublishes(d, n, i) == CountPublishes(r, n, i)
  {
    hide Publishes;
    if n > 0 {
      CountKept(r, d, n - 1, i);
    }
  }

  lemma CountGrows(r: Run, e: Event, t: nat, i: Which)
    requires Aligned(r)
    ensures var d := Extended(r, e, t);
            CountPublishes(d, |d.events|, i)
            == CountPublishes(r, |r.events|, i) + if Publishes(Latest(r), e, i) then 1 else 0
  {
    hide Publishes, Step;
    CountKept(r, Extended(r, e, t), |r.events|, i);
  }

  /** One more event, with the PUBLISH it may have put on the wire. */
  lemma EventTracked(r: Run, b: Bell, e: Event, was: nat, t: nat, ms: nat, history: seq<S.Record>,
                     trace: seq<S.Event>, later: seq<S.Event>)
    requires Tracked(r, b, was, history, trace)
    requires was <= t <= ms && (e.Poll? ==> e.t == t)
    requires S.PublishTotal(history, later) == S.PublishTotal(history, trace) + if Publishes(b, e, e.i) then 1 else 0
    ensures Tracked(Extended(r, e, t), Step(b, e), ms, history, later)
  {
    hide IsRun, Publishes, Step, S.PublishTotal;
    AlignedRun(r);
    RunGrows(r, e, t);
    CountGrows(r, e, t, 0);
    CountGrows(r, e, t, 1);
    OnlyItsOwn(b, e);
  }

  lemma AlignedRun(r: Run)
    requires IsRun(r)
    ensures Aligned(r)
  {
  }

  lemma OnlyItsOwn(b: Bell, e: Event)
    ensures Publishes(b, e, 1 - e.i) == false
  {
  }

  /** Time and silence change nothing. */
  lemma StillTracked(r: Run, b: Bell, was: nat, ms: nat, h: seq<S.Record>, t: seq<S.Event>,
                     h': seq<S.Record>, t': seq<S.Event>)
    requires Tracked(r, b, was, h, t) && was <= ms && S.PublishTotal(h', t') == S.PublishTotal(h, t)
    ensures Tracked(r, b, ms, h', t')
  {
    hide IsRun, S.PublishTotal;
    AlignedRun(r);
  }

  lemma JustBooted(t: nat, raw1: bool, raw2: bool, port: bv8)
    requires port & 3 == 0
    ensures Tracked(Run([Boot(t, raw1, raw2, port)], [], [t]), Boot(t, raw1, raw2, port), t, [], [])
  {
    hide Boot;
    var r := Run([Boot(t, raw1, raw2, port)], [], [t]);
    assert r.states[0] == Boot(r.times[0], raw1, raw2, port);
    assert S.PublishTotal([], []) == 0;
  }

  /** All sessions together carry at most as many PUBLISH packets as the two buttons had accepted presses. */
  lemma PacketsBounded(r: Run, b: Bell, ms: nat, history: seq<S.Record>, trace: seq<S.Event>)
    requires Tracked(r, b, ms, history, trace)
    ensures S.PublishTotal(history, trace) <= CountPresses(r, |r.events|, 0) + CountPresses(r, |r.events|, 1)
  {
    hide IsRun;
    AlignedRun(r);
    PublishesBounded(r, |r.events|, 0);
    PublishesBounded(r, |r.events|, 1);
  }
}

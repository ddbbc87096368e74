/** The calls a run makes while it schedules its two batches: the per-host setup scripts
    (one composite script per host) and then every (host, run script) pair. A session
    that fails to open aborts the run at once: the dispatcher is stopped and the latch
    the run waits on is signalled. */
module Phases {
  import opened Model

  /** An abort: stop the dispatcher, then signal the completion latch as it is set now. */
  function AbortTrace(latch: Option<string>): seq<Effect> {
    [StopDispatcher, Signal(latch)]
  }

  /** One invoke step per setup script, in order. */
  function InvokeEach(scripts: seq<Script>): (r: seq<Cmd>)
    ensures |r| == |scripts|
    ensures forall i :: 0 <= i < |scripts| ==> r[i] == Invoke(scripts[i])
  {
    seq(|scripts|, i requires 0 <= i < |scripts| => Invoke(scripts[i]))
  }

  /** The composite script that runs a host's setup scripts one after the other. */
  function HostSetupScript(h: Host, scripts: seq<Script>): (r: Script)
    ensures r.name == h.hostName + "-setup"
    ensures |r.steps| == |scripts|
    ensures forall i :: 0 <= i < |scripts| ==> r.steps[i] == Invoke(scripts[i])
  {
    Script(h.hostName + "-setup", InvokeEach(scripts))
  }

  /** Building the composite setup script step by step, as the run does. */
  method BuildHostSetup(h: Host, scripts: seq<Script>) returns (s: Script)
    ensures s == HostSetupScript(h, scripts)
  {
    s := Script(h.hostName + "-setup", []);
    var i := 0;
    while i < |scripts|
      invariant 0 <= i <= |scripts|
      invariant s == Script(h.hostName + "-setup", InvokeEach(scripts[..i]))
    {
      s := s.(steps := s.steps + [Invoke(scripts[i])]);
      assert s.steps == InvokeEach(scripts[..i + 1]);
      i := i + 1;
    }
    assert scripts[..i] == scripts;
  }

  /** The AddScript calls of a trace, as (host, script) pairs in call order. */
  function Scheduled(t: seq<Effect>): seq<(Host, Script)> {
    if t == [] then [] else ScheduledBy(t[0]) + Scheduled(t[1..])
  }

  function ScheduledBy(e: Effect): seq<(Host, Script)> {
    if e.AddScript? then [(e.host, e.script)] else []
  }

  lemma {:induction false} ScheduledConcat(a: seq<Effect>, b: seq<Effect>)
    ensures Scheduled(a + b) == Scheduled(a) + Scheduled(b)
  {
    if a == [] {
      assert a + b == b;
    } else {
      assert (a + b)[0] == a[0];
      assert (a + b)[1..] == a[1..] + b;
      ScheduledConcat(a[1..], b);
    }
  }

  lemma ScheduledTwo(a: Effect, b: Effect)
    ensures Scheduled([a, b]) == ScheduledBy(a) + ScheduledBy(b)
  {
    assert [a, b][0] == a && [a, b][1..] == [b];
    assert [b][0] == b && [b][1..] == [];
    assert Scheduled([b]) == ScheduledBy(b) + Scheduled([]);
  }

  lemma ScheduledThree(a: Effect, b: Effect, c: Effect)
    ensures Scheduled([a, b, c]) == ScheduledBy(a) + ScheduledBy(b) + ScheduledBy(c)
  {
    assert [a, b, c][0] == a && [a, b, c][1..] == [b, c];
    ScheduledTwo(b, c);
  }

  /** The last two elements of a concatenation with a long enough tail are the tail's. */
  lemma LastTwo(a: seq<Effect>, b: seq<Effect>)
    requires |b| >= 2
    ensures (a + b)[|a + b| - 2..] == b[|b| - 2..]
  {
  }

  // ---------------------------------------------------------------- setup batch

  /** A host's setup goes through: it has no setup scripts, or its session opens. */
  predicate SetupConnects(h: Host, view: map<Host, seq<Script>>, opens: (Host, Script) -> bool) {
    Lookup(view, h, []) == [] || opens(h, HostSetupScript(h, Lookup(view, h, [])))
  }

  predicate AllSetupsConnect(order: seq<Host>, view: map<Host, seq<Script>>, opens: (Host, Script) -> bool) {
    forall h :: h in order ==> SetupConnects(h, view, opens)
  }

  /** What scheduling one host's setup does: nothing without setup scripts; otherwise a
      session is opened for the composite script, which is scheduled, or the run aborts. */
  function SetupHostStep(h: Host, view: map<Host, seq<Script>>, opens: (Host, Script) -> bool, latch: Option<string>): seq<Effect> {
    var scripts := Lookup(view, h, []);
    if scripts == [] then []
    else
      var s := HostSetupScript(h, scripts);
      if opens(h, s) then [OpenSession(h, s.name), AddScript(h, s)]
      else [OpenSession(h, s.name)] + AbortTrace(latch)
  }

  /** Visiting the hosts in order, stopping after the first abort. */
  function SetupSteps(order: seq<Host>, view: map<Host, seq<Script>>, opens: (Host, Script) -> bool, latch: Option<string>): seq<Effect> {
    if order == [] then
      []
    else
      SetupHostStep(order[0], view, opens, latch)
      + (if SetupConnects(order[0], view, opens) then SetupSteps(order[1..], view, opens, latch) else [])
  }

  /** The whole setup phase: register the setup observer, schedule the hosts, and start
      the dispatcher unless a session failed to open. */
  function SetupTrace(order: seq<Host>, view: map<Host, seq<Script>>, opens: (Host, Script) -> bool, latch: Option<string>): seq<Effect> {
    [AddObserver(SetupObserver)] + SetupSteps(order, view, opens, latch)
      + (if AllSetupsConnect(order, view, opens) then [StartDispatcher] else [])
  }

  lemma {:induction false} SetupStepsSnoc(order: seq<Host>, h: Host, view: map<Host, seq<Script>>, opens: (Host, Script) -> bool, latch: Option<string>)
    requires AllSetupsConnect(order, view, opens)
    ensures SetupSteps(order + [h], view, opens, latch) == SetupSteps(order, view, opens, latch) + SetupHostStep(h, view, opens, latch)
  {
    if order == [] {
      assert SetupSteps([h], view, opens, latch) == SetupHostStep(h, view, opens, latch) + SetupSteps([], view, opens, latch);
    } else {
      assert (order + [h])[0] == order[0];
      assert (order + [h])[1..] == order[1..] + [h];
      SetupStepsSnoc(order[1..], h, view, opens, latch);
    }
  }

  /** The facts about one host's step that the lemmas below rest on. */
  lemma SetupHostStepShape(h: Host, view: map<Host, seq<Script>>, opens: (Host, Script) -> bool, latch: Option<string>)
    ensures StartDispatcher !in SetupHostStep(h, view, opens, latch)
    ensures forall e :: e in SetupHostStep(h, view, opens, latch) && e.Signal? ==> e.latch == latch
    ensures !SetupConnects(h, view, opens) ==> SetupHostStep(h, view, opens, latch)[|SetupHostStep(h, view, opens, latch)| - 2..] == AbortTrace(latch)
    ensures Scheduled(SetupHostStep(h, view, opens, latch)) ==
      if Lookup(view, h, []) != [] && SetupConnects(h, view, opens) then [(h, HostSetupScript(h, Lookup(view, h, [])))] else []
  {
    if Lookup(view, h, []) != [] {
      var s := HostSetupScript(h, Lookup(view, h, []));
      if opens(h, s) {
        ScheduledTwo(OpenSession(h, s.name), AddScript(h, s));
      } else {
        assert SetupHostStep(h, view, opens, latch) == [OpenSession(h, s.name), StopDispatcher, Signal(latch)];
        ScheduledThree(OpenSession(h, s.name), StopDispatcher, Signal(latch));
      }
    }
  }

  /** The setup phase starts the dispatcher exactly when every host's session opens. */
  lemma {:induction false} SetupStartsIffAllConnect(order: seq<Host>, view: map<Host, seq<Script>>, opens: (Host, Script) -> bool, latch: Option<string>)
    ensures StartDispatcher in SetupTrace(order, view, opens, latch) <==> AllSetupsConnect(order, view, opens)
  {
    SetupStepsNoStart(order, view, opens, latch);
  }

  lemma {:induction false} SetupStepsNoStart(order: seq<Host>, view: map<Host, seq<Script>>, opens: (Host, Script) -> bool, latch: Option<string>)
    ensures StartDispatcher !in SetupSteps(order, view, opens, latch)
  {
    if order != [] {
      SetupHostStepShape(order[0], view, opens, latch);
      SetupStepsNoStart(order[1..], view, opens, latch);
    }
  }

  /** A failed session ends the setup phase with an abort, and the abort signals the latch
      that was set when setup began. */
  lemma {:induction false} SetupAbortEndsTrace(order: seq<Host>, view: map<Host, seq<Script>>, opens: (Host, Script) -> bool, latch: Option<string>)
    requires !AllSetupsConnect(order, view, opens)
    ensures var t := SetupTrace(order, view, opens, latch); |t| >= 2 && t[|t| - 2..] == AbortTrace(latch)
    ensures forall e :: e in SetupTrace(order, view, opens, latch) && e.Signal? ==> e.latch == latch
    ensures Signal(latch) in SetupTrace(order, view, opens, latch)
  {
    SetupStepsAbort(order, view, opens, latch);
    SetupStepsSignal(order, view, opens, latch);
    var t := SetupTrace(order, view, opens, latch);
    var b := SetupSteps(order, view, opens, latch);
    assert t == [AddObserver(SetupObserver)] + b;
    assert t[|t| - 2..] == b[|b| - 2..];
    assert t[|t| - 1] == t[|t| - 2..][1];
  }

  lemma {:induction false} SetupStepsSignal(order: seq<Host>, view: map<Host, seq<Script>>, opens: (Host, Script) -> bool, latch: Option<string>)
    ensures forall e :: e in SetupSteps(order, view, opens, latch) && e.Signal? ==> e.latch == latch
  {
    if order != [] {
      SetupHostStepShape(order[0], view, opens, latch);
      SetupStepsSignal(order[1..], view, opens, latch);
    }
  }

  lemma {:induction false} SetupStepsAbort(order: seq<Host>, view: map<Host, seq<Script>>, opens: (Host, Script) -> bool, latch: Option<string>)
    requires !AllSetupsConnect(order, view, opens)
    ensures |SetupSteps(order, view, opens, latch)| >= 2
    ensures SetupSteps(order, view, opens, latch)[|SetupSteps(order, view, opens, latch)| - 2..] == AbortTrace(latch)
  {
    var h := order[0];
    var a := SetupHostStep(h, view, opens, latch);
    if SetupConnects(h, view, opens) {
      var b := SetupSteps(order[1..], view, opens, latch);
      assert |b| >= 2 && b[|b| - 2..] == AbortTrace(latch) by {
        assert !AllSetupsConnect(order[1..], view, opens) by {
          assert order == [h] + order[1..];
        }
        SetupStepsAbort(order[1..], view, opens, latch);
      }
      assert SetupSteps(order, view, opens, latch) == a + b;
      LastTwo(a, b);
    } else {
      SetupStepsAbortAtHead(order, view, opens, latch);
    }
  }

  lemma SetupStepsAbortAtHead(order: seq<Host>, view: map<Host, seq<Script>>, opens: (Host, Script) -> bool, latch: Option<string>)
    requires order != [] && !SetupConnects(order[0], view, opens)
    ensures |SetupSteps(order, view, opens, latch)| >= 2
    ensures SetupSteps(order, view, opens, latch)[|SetupSteps(order, view, opens, latch)| - 2..] == AbortTrace(latch)
  {
    var a := SetupHostStep(order[0], view, opens, latch);
    SetupHostStepShape(order[0], view, opens, latch);
    assert SetupSteps(order, view, opens, latch) == a + [];
  }

  /** The setup phase schedules, in host order, exactly one composite script for every
      visited host that has setup scripts, and nothing for a host without any. */
  lemma {:induction false} SetupSchedule(order: seq<Host>, view: map<Host, seq<Script>>, opens: (Host, Script) -> bool, latch: Option<string>)
    requires AllSetupsConnect(order, view, opens)
    ensures Scheduled(SetupTrace(order, view, opens, latch)) == SetupJobs(order, view)
  {
    var a: seq<Effect> := [AddObserver(SetupObserver)];
    var b := SetupSteps(order, view, opens, latch);
    var c: seq<Effect> := [StartDispatcher];
    assert SetupTrace(order, view, opens, latch) == a + b + c;
    ScheduledConcat(a + b, c);
    ScheduledConcat(a, b);
    SetupStepsSchedule(order, view, opens, latch);
    assert Scheduled(a) == ScheduledBy(a[0]) + Scheduled([]) by {
      assert a[1..] == [];
    }
    assert Scheduled(c) == ScheduledBy(c[0]) + Scheduled([]) by {
      assert c[1..] == [];
    }
  }

  /** The composite setup scripts of the hosts that have setup scripts, in host order. */
  function SetupJobs(order: seq<Host>, view: map<Host, seq<Script>>): seq<(Host, Script)> {
    if order == [] then
      []
    else
      (if Lookup(view, order[0], []) != [] then [(order[0], HostSetupScript(order[0], Lookup(view, order[0], [])))] else [])
      + SetupJobs(order[1..], view)
  }

  lemma {:induction false} SetupStepsSchedule(order: seq<Host>, view: map<Host, seq<Script>>, opens: (Host, Script) -> bool, latch: Option<string>)
    requires AllSetupsConnect(order, view, opens)
    ensures Scheduled(SetupSteps(order, view, opens, latch)) == SetupJobs(order, view)
  {
    if order != [] {
      SetupHostStepShape(order[0], view, opens, latch);
      ScheduledConcat(SetupHostStep(order[0], view, opens, latch), SetupSteps(order[1..], view, opens, latch));
      SetupStepsSchedule(order[1..], view, opens, latch);
    }
  }

  /** A setup job exists for a host exactly when it is visited and has setup scripts, and
      its script invokes those scripts in insertion order. */
  lemma {:induction false} SetupJobsMembers(order: seq<Host>, view: map<Host, seq<Script>>, h: Host, s: Script)
    ensures (h, s) in SetupJobs(order, view) <==>
      h in order && Lookup(view, h, []) != [] && s == HostSetupScript(h, Lookup(view, h, []))
  {
    if order != [] {
      SetupJobsMembers(order[1..], view, h, s);
    }
  }

  // ---------------------------------------------------------------- run batch

  predicate AllRunsConnect(pairs: seq<(Host, Script)>, opens: (Host, Script) -> bool) {
    forall p :: p in pairs ==> opens(p.0, p.1)
  }

  /** What scheduling one (host, run script) pair does: open a session and schedule the
      script, or abort. */
  function QueuePairStep(p: (Host, Script), opens: (Host, Script) -> bool, latch: Option<string>): seq<Effect> {
    if opens(p.0, p.1) then [OpenSession(p.0, p.1.name), AddScript(p.0, p.1)]
    else [OpenSession(p.0, p.1.name)] + AbortTrace(latch)
  }

  function QueueSteps(pairs: seq<(Host, Script)>, opens: (Host, Script) -> bool, latch: Option<string>): seq<Effect> {
    if pairs == [] then
      []
    else
      QueuePairStep(pairs[0], opens, latch)
      + (if opens(pairs[0].0, pairs[0].1) then QueueSteps(pairs[1..], opens, latch) else [])
  }

  /** The whole run phase: schedule the pairs, then register the run observer and start
      the dispatcher, unless a session failed to open. */
  function QueueTrace(pairs: seq<(Host, Script)>, opens: (Host, Script) -> bool, latch: Option<string>): seq<Effect> {
    QueueSteps(pairs, opens, latch)
      + (if AllRunsConnect(pairs, opens) then [AddObserver(RunObserver), StartDispatcher] else [])
  }

  lemma {:induction false} QueueStepsSnoc(pairs: seq<(Host, Script)>, p: (Host, Script), opens: (Host, Script) -> bool, latch: Option<string>)
    requires AllRunsConnect(pairs, opens)
    ensures QueueSteps(pairs + [p], opens, latch) == QueueSteps(pairs, opens, latch) + QueuePairStep(p, opens, latch)
  {
    if pairs == [] {
      assert QueueSteps([p], opens, latch) == QueuePairStep(p, opens, latch) + QueueSteps([], opens, latch);
    } else {
      assert (pairs + [p])[0] == pairs[0];
      assert (pairs + [p])[1..] == pairs[1..] + [p];
      QueueStepsSnoc(pairs[1..], p, opens, latch);
    }
  }

  /** The run scripts are scheduled in visiting order, each pair once; when every session
      opens that is all the pairs, otherwise the ones before the first failure. */
  lemma {:induction false} QueueSchedule(pairs: seq<(Host, Script)>, opens: (Host, Script) -> bool, latch: Option<string>)
    ensures Scheduled(QueueTrace(pairs, opens, latch)) <= pairs
    ensures AllRunsConnect(pairs, opens) ==> Scheduled(QueueTrace(pairs, opens, latch)) == pairs
    ensures AllRunsConnect(pairs, opens) <==> AddObserver(RunObserver) in QueueTrace(pairs, opens, latch)
    ensures AllRunsConnect(pairs, opens) <==> StartDispatcher in QueueTrace(pairs, opens, latch)
  {
    QueueStepsSchedule(pairs, opens, latch);
    QueueStepsShape(pairs, opens, latch);
    var tail: seq<Effect> := if AllRunsConnect(pairs, opens) then [AddObserver(RunObserver), StartDispatcher] else [];
    ScheduledConcat(QueueSteps(pairs, opens, latch), tail);
    assert Scheduled(tail) == [] by {
      if tail != [] {
        ScheduledTwo(AddObserver(RunObserver), StartDispatcher);
      }
    }
  }

  lemma QueuePairStepShape(p: (Host, Script), opens: (Host, Script) -> bool, latch: Option<string>)
    ensures Scheduled(QueuePairStep(p, opens, latch)) == if opens(p.0, p.1) then [p] else []
    ensures AddObserver(RunObserver) !in QueuePairStep(p, opens, latch)
    ensures StartDispatcher !in QueuePairStep(p, opens, latch)
    ensures forall e :: e in QueuePairStep(p, opens, latch) && e.Signal? ==> e.latch == latch
  {
    if opens(p.0, p.1) {
      ScheduledTwo(OpenSession(p.0, p.1.name), AddScript(p.0, p.1));
    } else {
      assert QueuePairStep(p, opens, latch) == [OpenSession(p.0, p.1.name), StopDispatcher, Signal(latch)];
      ScheduledThree(OpenSession(p.0, p.1.name), StopDispatcher, Signal(latch));
    }
  }

  lemma {:induction false} QueueStepsSchedule(pairs: seq<(Host, Script)>, opens: (Host, Script) -> bool, latch: Option<string>)
    ensures Scheduled(QueueSteps(pairs, opens, latch)) <= pairs
    ensures AllRunsConnect(pairs, opens) ==> Scheduled(QueueSteps(pairs, opens, latch)) == pairs
  {
    if pairs != [] {
      var p := pairs[0];
      var a := QueuePairStep(p, opens, latch);
      QueuePairStepShape(p, opens, latch);
      if opens(p.0, p.1) {
        var b := QueueSteps(pairs[1..], opens, latch);
        QueueStepsSchedule(pairs[1..], opens, latch);
        ScheduledConcat(a, b);
        assert QueueSteps(pairs, opens, latch) == a + b;
        assert pairs == [p] + pairs[1..];
        assert AllRunsConnect(pairs, opens) ==> AllRunsConnect(pairs[1..], opens);
      } else {
        assert QueueSteps(pairs, opens, latch) == a + [];
        assert a + [] == a;
      }
    }
  }

  lemma {:induction false} QueueStepsShape(pairs: seq<(Host, Script)>, opens: (Host, Script) -> bool, latch: Option<string>)
    ensures AddObserver(RunObserver) !in QueueSteps(pairs, opens, latch)
    ensures StartDispatcher !in QueueSteps(pairs, opens, latch)
  {
    if pairs != [] {
      QueuePairStepShape(pairs[0], opens, latch);
      QueueStepsShape(pairs[1..], opens, latch);
    }
  }

  /** The run phase signals no latch but the one set when it began. */
  lemma {:induction false} QueueSignalsOnly(pairs: seq<(Host, Script)>, opens: (Host, Script) -> bool, latch: Option<string>)
    ensures forall e :: e in QueueTrace(pairs, opens, latch) && e.Signal? ==> e.latch == latch
  {
    QueueStepsSignal(pairs, opens, latch);
  }

  lemma {:induction false} QueueStepsSignal(pairs: seq<(Host, Script)>, opens: (Host, Script) -> bool, latch: Option<string>)
    ensures forall e :: e in QueueSteps(pairs, opens, latch) && e.Signal? ==> e.latch == latch
  {
    if pairs != [] {
      QueuePairStepShape(pairs[0], opens, latch);
      QueueStepsSignal(pairs[1..], opens, latch);
    }
  }

  /** A failed session ends the run phase with an abort that signals the current latch. */
  lemma {:induction false} QueueAbortEndsTrace(pairs: seq<(Host, Script)>, opens: (Host, Script) -> bool, latch: Option<string>)
    requires !AllRunsConnect(pairs, opens)
    ensures var t := QueueTrace(pairs, opens, latch); |t| >= 2 && t[|t| - 2..] == AbortTrace(latch)
  {
    var p := pairs[0];
    var a := QueuePairStep(p, opens, latch);
    if opens(p.0, p.1) {
      assert !AllRunsConnect(pairs[1..], opens) by {
        var g :| g in pairs && !opens(g.0, g.1);
        assert g != p;
      }
      QueueAbortEndsTrace(pairs[1..], opens, latch);
      var b := QueueSteps(pairs[1..], opens, latch);
      assert QueueTrace(pairs[1..], opens, latch) == b;
      assert (a + b)[|a + b| - 2..] == b[|b| - 2..];
    }
  }
}

/** The phase sequencer of one run: it keeps the hosts, roles and per-host script sets,
    checks the signal graph, schedules the setup batch and then the run batch on the
    dispatcher, waits on a completion latch, and finally fetches the queued downloads.
    Every call on a collaborator is appended to `effects`, in call order. */
module Sequencer {
  import opened Model
  import opened HostScriptSets
  import opened Downloads
  import opened SignalGraph
  import opened Phases

  /** How the signal-graph check ends: passed, failed, or thrown out of because a
      registered host has no script entry to look up. */
  datatype PreRunResult = Passed | Failed | NullScripts

  /** How the first part of a run ends: refused by the check, thrown out of by the check,
      set up (the batches are scheduled and the latch is still to be named), or blocked
      waiting for the named completion latch. */
  datatype RunOutcome = Rejected | Threw | SetUp | Waiting(latch: string)

  /** Where a run stands between its three parts: idle (not set up since the last finish),
      prepared (set up, the latch still to be named), or awaiting the named latch. */
  datatype Phase = Idle | Prepared | Awaiting(latch: string)

  /** The decimal digits of n. */
  function Decimal(n: nat): string
    decreases n
  {
    if n < 10 then ["0123456789"[n]] else Decimal(n / 10) + ["0123456789"[n % 10]]
  }

  /** The completion latch of a run started at clock reading `now`. */
  function LatchName(now: nat): string {
    "run-" + Decimal(now)
  }

  class Run {
    const name: string
    var roles: map<string, Role>
    var hostScripts: map<Host, HostScripts>
    var hosts: set<Host>
    var pendingDownloads: Pending
    var uniqueLatch: Option<string>
    /** The run's own observers currently registered with the dispatcher. */
    var observers: multiset<Observer>
    /** The calls made on the coordinator, the dispatcher, sessions and the downloader. */
    var effects: seq<Effect>
    /** How far the current call of `run()` has got. */
    ghost var phase: Phase

    /** Every host with an entry has script sets of its own, and its setup list is
        duplicate-free. */
    ghost predicate Valid()
      reads this`hostScripts, hostScripts.Values
    {
      forall h :: h in hostScripts ==> hostScripts[h].owner == h && hostScripts[h].Valid()
    }

    /** The setup scripts of host h in insertion order; none when h has no entry. */
    ghost function SetupsOf(h: Host): seq<Script>
      reads this`hostScripts, hostScripts.Values`setup
    {
      if h in hostScripts then hostScripts[h].setup else []
    }

    /** The run scripts of host h; none when h has no entry. */
    ghost function RunsOf(h: Host): set<Script>
      reads this`hostScripts, hostScripts.Values`run
    {
      if h in hostScripts then hostScripts[h].run else {}
    }

    /** The setup scripts of every host with an entry. */
    ghost function Setups(): map<Host, seq<Script>>
      reads this`hostScripts, hostScripts.Values`setup
    {
      map h | h in hostScripts :: hostScripts[h].setup
    }

    /** The run scripts of every host with an entry. */
    ghost function Runs(): map<Host, set<Script>>
      reads this`hostScripts, hostScripts.Values`run
    {
      map h | h in hostScripts :: hostScripts[h].run
    }

    /** The (host, run script) pairs the run will execute. */
    ghost function RunPairs(): set<(Host, Script)>
      reads this`hosts, this`hostScripts, hostScripts.Values`run
    {
      Pairs(hosts, Runs())
    }

    constructor (name: string)
      ensures Valid()
      ensures this.name == name
      ensures roles == map[] && hostScripts == map[] && hosts == {} && pendingDownloads == map[]
      ensures uniqueLatch == None && observers == multiset{} && effects == [] && phase == Idle
    {
      this.name := name;
      roles := map[];
      hostScripts := map[];
      hosts := {};
      pendingDownloads := map[];
      uniqueLatch := None;
      observers := multiset{};
      effects := [];
      phase := Idle;
    }

    // ------------------------------------------------------------ pending downloads

    method EnsurePendingDownload(h: Host) returns (list: seq<PendingDownload>)
      modifies this`pendingDownloads
      ensures pendingDownloads == Ensure(old(pendingDownloads), h)
      ensures list == pendingDownloads[h]
    {
      if h !in pendingDownloads {
        pendingDownloads := pendingDownloads[h := []];
      }
      list := pendingDownloads[h];
    }

    method AddPendingDownload(h: Host, path: string, destination: string)
      modifies this`pendingDownloads
      ensures pendingDownloads == Append(old(pendingDownloads), h, PendingDownload(path, destination))
    {
      var list := EnsurePendingDownload(h);
      pendingDownloads := pendingDownloads[h := list + [PendingDownload(path, destination)]];
    }

    /** Fetches every queued download, host after host in an unspecified order and each
        host's queue in order, then empties the queue; with nothing queued it does nothing. */
    method RunPendingDownloads() returns (ghost order: seq<Host>)
      modifies this`pendingDownloads, this`effects
      ensures pendingDownloads == map[]
      ensures Distinct(order) && forall h :: h in order <==> h in old(pendingDownloads)
      ensures effects == old(effects) + FlushTrace(order, old(pendingDownloads))
    {
      order := [];
      if pendingDownloads != map[] {
        var todo := pendingDownloads.Keys;
        while todo != {}
          invariant todo <= pendingDownloads.Keys
          invariant pendingDownloads == old(pendingDownloads)
          invariant Distinct(order)
          invariant forall h :: h in order <==> h in pendingDownloads && h !in todo
          invariant effects == old(effects) + FlushTrace(order, pendingDownloads)
          decreases todo
        {
          var h :| h in todo;
          IssueDownloads(h, pendingDownloads[h]);
          DistinctSnoc(order, h);
          AppendAssoc(old(effects), FlushTrace(order, pendingDownloads), Issue(h, Lookup(pendingDownloads, h, [])));
          FlushTraceSnoc(order, h, pendingDownloads);
          order := order + [h];
          todo := todo - {h};
        }
        pendingDownloads := map[];
      } else {
        assert FlushTrace(order, old(pendingDownloads)) == [];
      }
    }

    /** Fetches one host's queue, in order. */
    method IssueDownloads(h: Host, list: seq<PendingDownload>)
      modifies this`effects
      ensures effects == old(effects) + Issue(h, list)
    {
      var j := 0;
      while j < |list|
        invariant 0 <= j <= |list|
        invariant effects == old(effects) + Issue(h, list[..j])
      {
        effects := effects + [Download(h, list[j].path, list[j].destination)];
        assert Issue(h, list[..j + 1]) == Issue(h, list[..j]) + [Download(h, list[j].path, list[j].destination)];
        j := j + 1;
      }
      assert list[..j] == list;
    }

    // ------------------------------------------------------------ script sets

    method EnsureHostScripts(h: Host) returns (hs: HostScripts)
      requires Valid()
      modifies this`hostScripts
      ensures Valid()
      ensures hostScripts == old(hostScripts)[h := hs]
      ensures h in old(hostScripts) ==> hs == old(hostScripts)[h]
      ensures h !in old(hostScripts) ==> fresh(hs)
      ensures hs.setup == old(SetupsOf(h)) && hs.run == old(RunsOf(h))
    {
      if h !in hostScripts {
        hs := new HostScripts(h);
        hostScripts := hostScripts[h := hs];
      }
      hs := hostScripts[h];
    }

    method AddRunScript(h: Host, script: Script)
      requires Valid()
      modifies this`hostScripts, hostScripts.Values
      ensures Valid()
      ensures hostScripts.Keys == old(hostScripts.Keys) + {h} && fresh(hostScripts.Values - old(hostScripts.Values))
      ensures RunsOf(h) == old(RunsOf(h)) + {script} && SetupsOf(h) == old(SetupsOf(h))
      ensures forall g :: g != h ==> SetupsOf(g) == old(SetupsOf(g)) && RunsOf(g) == old(RunsOf(g))
    {
      var hs := EnsureHostScripts(h);
      hs.AddRunScript(script);
    }

    /** As written, this takes the script out of the host's SETUP scripts; the run
        scripts are left as they are. */
    method RemoveRunScript(h: Host, script: Script)
      requires Valid()
      modifies this`hostScripts, hostScripts.Values
      ensures Valid()
      ensures hostScripts.Keys == old(hostScripts.Keys) + {h}
      ensures SetupsOf(h) == Without(old(SetupsOf(h)), script) && RunsOf(h) == old(RunsOf(h))
      ensures forall g :: g != h ==> SetupsOf(g) == old(SetupsOf(g)) && RunsOf(g) == old(RunsOf(g))
    {
      var hs := EnsureHostScripts(h);
      hs.RemoveSetupScript(script);
    }

    /** What removing a run script evidently means: the run scripts lose it and the
        setup scripts are left as they are. */
    method RemoveRunScriptIntended(h: Host, script: Script)
      requires Valid()
      modifies this`hostScripts, hostScripts.Values
      ensures Valid()
      ensures hostScripts.Keys == old(hostScripts.Keys) + {h}
      ensures RunsOf(h) == old(RunsOf(h)) - {script} && SetupsOf(h) == old(SetupsOf(h))
      ensures forall g :: g != h ==> SetupsOf(g) == old(SetupsOf(g)) && RunsOf(g) == old(RunsOf(g))
    {
      var hs := EnsureHostScripts(h);
      hs.RemoveRunScript(script);
    }

    method AddSetupScript(h: Host, script: Script)
      requires Valid()
      modifies this`hostScripts, hostScripts.Values
      ensures Valid()
      ensures hostScripts.Keys == old(hostScripts.Keys) + {h}
      ensures SetupsOf(h) == Insert(old(SetupsOf(h)), script) && RunsOf(h) == old(RunsOf(h))
      ensures forall g :: g != h ==> SetupsOf(g) == old(SetupsOf(g)) && RunsOf(g) == old(RunsOf(g))
    {
      var hs := EnsureHostScripts(h);
      hs.AddSetupScript(script);
    }

    method RemoveSetupScript(h: Host, script: Script)
      requires Valid()
      modifies this`hostScripts, hostScripts.Values
      ensures Valid()
      ensures hostScripts.Keys == old(hostScripts.Keys) + {h}
      ensures SetupsOf(h) == Without(old(SetupsOf(h)), script) && RunsOf(h) == old(RunsOf(h))
      ensures forall g :: g != h ==> SetupsOf(g) == old(SetupsOf(g)) && RunsOf(g) == old(RunsOf(g))
    {
      var hs := EnsureHostScripts(h);
      hs.RemoveSetupScript(script);
    }

    /** The run scripts of h, each once; creates the host's entry when it has none. */
    method GetRunScripts(h: Host) returns (r: seq<Script>)
      requires Valid()
      modifies this`hostScripts
      ensures Valid()
      ensures hostScripts.Keys == old(hostScripts.Keys) + {h} && fresh(hostScripts.Values - old(hostScripts.Values))
      ensures forall g :: SetupsOf(g) == old(SetupsOf(g)) && RunsOf(g) == old(RunsOf(g))
      ensures Distinct(r) && forall s :: s in r <==> s in old(RunsOf(h))
    {
      var hs := EnsureHostScripts(h);
      r := hs.RunScripts();
    }

    /** The setup scripts of h in first-insertion order; creates the host's entry when it
        has none. */
    method GetSetupScripts(h: Host) returns (r: seq<Script>)
      requires Valid()
      modifies this`hostScripts
      ensures Valid()
      ensures hostScripts.Keys == old(hostScripts.Keys) + {h}
      ensures forall g :: SetupsOf(g) == old(SetupsOf(g)) && RunsOf(g) == old(RunsOf(g))
      ensures r == old(SetupsOf(h))
    {
      var hs := EnsureHostScripts(h);
      r := hs.SetupScripts();
    }

    // ------------------------------------------------------------ hosts and roles

    method AddHost(h: Host)
      modifies this`hosts
      ensures hosts == old(hosts) + {h}
    {
      hosts := hosts + {h};
    }

    /** As written, the parameter shadows the field: the given list is appended to itself
        and the registered hosts do not change. Returns the list's new contents. */
    method AddAllHosts(list: seq<Host>) returns (grown: seq<Host>)
      ensures grown == list + list
    {
      grown := list + list;
    }

    /** What adding all hosts evidently means: every listed host is registered. */
    method AddAllHostsIntended(list: seq<Host>)
      modifies this`hosts
      ensures hosts == old(hosts) + set h | h in list
    {
      hosts := hosts + set h | h in list;
    }

    /** The registered hosts, each once, in an unspecified order. */
    method AllHosts() returns (r: seq<Host>)
      ensures Distinct(r) && forall h :: h in r <==> h in hosts
    {
      r := Enumerate(hosts);
    }

    method AddRole(role: Role)
      modifies this`roles
      ensures roles == old(roles)[role.name := role]
    {
      roles := roles[role.name := role];
    }

    /** The role called `roleName`, created on first use. */
    method GetRole(roleName: string) returns (role: Role)
      modifies this`roles
      ensures roleName in old(roles) ==> roles == old(roles) && role == old(roles)[roleName]
      ensures roleName !in old(roles) ==> roles == old(roles)[roleName := Role(roleName)] && role == Role(roleName)
    {
      if roleName !in roles {
        roles := roles[roleName := Role(roleName)];
      }
      role := roles[roleName];
    }

    method GetRoleNames() returns (names: seq<string>)
      ensures Distinct(names) && forall n :: n in names <==> n in roles
    {
      names := Enumerate(roles.Keys);
    }

    // ------------------------------------------------------------ phases

    /** Stops the dispatcher and signals the latch as it is set at this moment. */
    method Abort()
      modifies this`effects
      ensures effects == old(effects) + AbortTrace(uniqueLatch)
    {
      effects := effects + [StopDispatcher, Signal(uniqueLatch)];
    }

    /** Releases the completion latch once the run batch is over. */
    method PostRun()
      modifies this`effects
      ensures effects == old(effects) + [Signal(uniqueLatch)]
    {
      effects := effects + [Signal(uniqueLatch)];
    }

    /** The signal-graph check. Initialises the coordinator with the number of emit sites
        of every emitted name over all (host, run script) pairs, whatever the verdict; the
        verdict fails when a summary has warnings or a waited name has no emitter. */
    method PreRun(summarize: Script -> Summary) returns (r: PreRunResult, ghost names: seq<string>)
      requires Valid()
      modifies this`effects
      ensures !(hosts <= hostScripts.Keys) ==> r == NullScripts && effects == old(effects)
      ensures hosts <= hostScripts.Keys ==>
        && r == (if Consistent(old(RunPairs()), summarize) then Passed else Failed)
        && Distinct(names)
        && (forall n :: n in names <==> n in Emitted(old(RunPairs()), summarize))
        && effects == old(effects) + InitEffects(names, Emitted(old(RunPairs()), summarize))
    {
      names := [];
      if !(hosts <= hostScripts.Keys) {
        return NullScripts, names;
      }
      var valid := true;
      var counters: multiset<string> := multiset{};
      var waiters: set<string> := {};
      var signals: set<string> := {};
      ghost var done: set<(Host, Script)> := {};
      ghost var R := Runs();
      ghost var P := Pairs(hosts, R);
      var todo := hosts;
      while todo != {}
        invariant todo <= hosts
        invariant forall p :: p in done <==> p in P && p.0 !in todo
        invariant Gathered(done, summarize, valid, counters, waiters, signals)
        invariant effects == old(effects)
        decreases todo
      {
        var h :| h in todo;
        var scripts := hostScripts[h].RunScripts();
        assert forall s :: s in scripts <==> s in Lookup(R, h, {});
        valid, counters, waiters, signals := ScanHost(h, scripts, summarize, done, valid, counters, waiters, signals);
        done := done + HostPairSet(h, scripts);
        HostPairsMembers(h, scripts);
        forall p ensures p in done <==> p in P && p.0 !in todo - {h} {
          PairsMembers(hosts, R, p);
        }
        todo := todo - {h};
      }
      assert done == P;
      names := InitializeCounts(counters);
      if waiters - signals != {} {
        valid := false;
      } else {
        forall x | x in waiters ensures x in signals {
          assert x !in waiters - signals;
        }
      }
      assert valid == Consistent(P, summarize);
      r := if valid then Passed else Failed;
    }

    /** Initialises the coordinator once per counted name with its count, in an
        unspecified order. */
    method InitializeCounts(counters: multiset<string>) returns (ghost names: seq<string>)
      modifies this`effects
      ensures Distinct(names) && forall n :: n in names <==> n in counters
      ensures effects == old(effects) + InitEffects(names, counters)
    {
      names := [];
      var left := set n | n in counters;
      while left != {}
        invariant left <= set n | n in counters
        invariant Distinct(names)
        invariant forall n :: n in names <==> n in counters && n !in left
        invariant effects == old(effects) + InitEffects(names, counters)
        decreases left
      {
        var n :| n in left;
        effects := effects + [Initialize(n, counters[n])];
        assert InitEffects(names + [n], counters) == InitEffects(names, counters) + [Initialize(n, counters[n])];
        names := names + [n];
        left := left - {n};
      }
    }

    /** Schedules the setup of one host: nothing without setup scripts; otherwise a
        session is opened for the host's composite script, which is then scheduled, or
        the run is aborted. */
    method ScheduleHostSetup(h: Host, scripts: seq<Script>, ghost view: map<Host, seq<Script>>,
                             opens: (Host, Script) -> bool) returns (ok: bool)
      requires scripts == Lookup(view, h, [])
      modifies this`effects
      ensures ok == SetupConnects(h, view, opens)
      ensures effects == old(effects) + SetupHostStep(h, view, opens, uniqueLatch)
    {
      ok := true;
      if scripts != [] {
        var hostSetup := BuildHostSetup(h, scripts);
        effects := effects + [OpenSession(h, hostSetup.name)];
        if !opens(h, hostSetup) {
          Abort();
          ok := false;
          return;
        }
        effects := effects + [AddScript(h, hostSetup)];
      }
    }

    /** Schedules, for every host with setup scripts, one composite script that invokes
        them in order, after opening a session for it; a session that fails to open aborts
        the run and ends the phase before the dispatcher is started. */
    method Setup(opens: (Host, Script) -> bool) returns (ghost order: seq<Host>)
      requires Valid() && hosts <= hostScripts.Keys
      modifies this`effects, this`observers
      ensures Distinct(order) && forall h :: h in order ==> h in hosts
      ensures AllSetupsConnect(order, old(Setups()), opens) ==> forall h :: h in hosts ==> h in order
      ensures effects == old(effects) + SetupTrace(order, old(Setups()), opens, uniqueLatch)
      ensures observers == old(observers) + multiset{SetupObserver}
    {
      ghost var view := Setups();
      observers := observers + multiset{SetupObserver};
      effects := effects + [AddObserver(SetupObserver)];
      ghost var start := effects;
      ghost var steps: seq<Effect> := [];
      order := [];
      var todo := hosts;
      while todo != {}
        invariant todo <= hosts
        invariant Distinct(order)
        invariant forall h :: h in order <==> h in hosts && h !in todo
        invariant AllSetupsConnect(order, view, opens)
        invariant steps == SetupSteps(order, view, opens, uniqueLatch)
        invariant effects == start + steps
        invariant observers == old(observers) + multiset{SetupObserver}
        decreases todo
      {
        var h :| h in todo;
        SetupStepsSnoc(order, h, view, opens, uniqueLatch);
        DistinctSnoc(order, h);
        var scripts := hostScripts[h].SetupScripts();
        var ok := ScheduleHostSetup(h, scripts, view, opens);
        AppendAssoc(start, steps, SetupHostStep(h, view, opens, uniqueLatch));
        steps := steps + SetupHostStep(h, view, opens, uniqueLatch);
        order := order + [h];
        if !ok {
          assert !AllSetupsConnect(order, view, opens);
          AppendAssoc(old(effects), [AddObserver(SetupObserver)], steps);
          assert SetupTrace(order, view, opens, uniqueLatch) == [AddObserver(SetupObserver)] + steps + [];
          return;
        }
        todo := todo - {h};
      }
      effects := effects + [StartDispatcher];
      AppendAssoc(old(effects), [AddObserver(SetupObserver)], steps);
      AppendAssoc(old(effects), [AddObserver(SetupObserver)] + steps, [StartDispatcher]);
    }

    /** Schedules one (host, run script) pair after opening a session for it; when the
        session does not open, the run is aborted instead. The pairs `done` were
        scheduled before it. */
    method SchedulePair(p: (Host, Script), opens: (Host, Script) -> bool,
                        ghost start: seq<Effect>, ghost done: seq<(Host, Script)>) returns (ok: bool)
      requires AllRunsConnect(done, opens)
      requires effects == start + QueueSteps(done, opens, uniqueLatch)
      modifies this`effects
      ensures ok == opens(p.0, p.1) == AllRunsConnect(done + [p], opens)
      ensures effects == start + QueueSteps(done + [p], opens, uniqueLatch)
    {
      QueueStepsSnoc(done, p, opens, uniqueLatch);
      AppendAssoc(start, QueueSteps(done, opens, uniqueLatch), QueuePairStep(p, opens, uniqueLatch));
      effects := effects + [OpenSession(p.0, p.1.name)];
      if !opens(p.0, p.1) {
        Abort();
        assert (done + [p])[|done|] == p;
        return false;
      }
      effects := effects + [AddScript(p.0, p.1)];
      ok := true;
    }

    /** Schedules the run scripts of one host in the given order, after the pairs
        `before` of the hosts visited earlier, stopping at the first session that fails
        to open. */
    method QueueHost(h: Host, scripts: seq<Script>, opens: (Host, Script) -> bool,
                     ghost start: seq<Effect>, ghost before: seq<(Host, Script)>)
      returns (ok: bool, ghost queued: seq<(Host, Script)>)
      requires AllRunsConnect(before, opens)
      requires effects == start + QueueSteps(before, opens, uniqueLatch)
      modifies this`effects
      ensures exists n :: 0 <= n <= |scripts| && queued == HostPairs(h, scripts[..n])
      ensures ok == AllRunsConnect(before + queued, opens)
      ensures ok ==> queued == HostPairs(h, scripts)
      ensures effects == start + QueueSteps(before + queued, opens, uniqueLatch)
    {
      ok := true;
      queued := [];
      assert HostPairs(h, scripts[..0]) == [];
      ghost var done := before;
      var i := 0;
      while i < |scripts|
        invariant 0 <= i <= |scripts|
        invariant queued == HostPairs(h, scripts[..i])
        invariant done == before + queued
        invariant AllRunsConnect(done, opens)
        invariant effects == start + QueueSteps(done, opens, uniqueLatch)
      {
        var p := (h, scripts[i]);
        ok := SchedulePair(p, opens, start, done);
        AppendAssoc(before, queued, [p]);
        HostPairsSnoc(h, scripts, i);
        queued := queued + [p];
        done := done + [p];
        if !ok {
          return;
        }
        i := i + 1;
      }
      assert scripts[..i] == scripts;
    }

    /** One host's turn in the run batch, with `todo` the hosts not yet visited: its run
        scripts are queued after the pairs of the hosts visited before it. */
    method QueueHostTurn(h: Host, scripts: seq<Script>, opens: (Host, Script) -> bool, ghost start: seq<Effect>,
                         ghost pairs: seq<(Host, Script)>, ghost runs: map<Host, set<Script>>, ghost todo: set<Host>)
      returns (ok: bool, ghost pairs': seq<(Host, Script)>)
      requires h in todo && todo <= hosts
      requires Distinct(scripts) && forall s :: s in scripts <==> s in Lookup(runs, h, {})
      requires Distinct(pairs) && forall p :: p in pairs <==> p in Pairs(hosts, runs) && p.0 !in todo
      requires AllRunsConnect(pairs, opens)
      requires effects == start + QueueSteps(pairs, opens, uniqueLatch)
      modifies this`effects
      ensures Distinct(pairs') && forall p :: p in pairs' ==> p in Pairs(hosts, runs)
      ensures ok == AllRunsConnect(pairs', opens)
      ensures ok ==> forall p :: p in pairs' <==> p in Pairs(hosts, runs) && p.0 !in todo - {h}
      ensures effects == start + QueueSteps(pairs', opens, uniqueLatch)
    {
      ghost var queued;
      ok, queued := QueueHost(h, scripts, opens, start, pairs);
      ghost var n :| 0 <= n <= |scripts| && queued == HostPairs(h, scripts[..n]);
      HostPairsMembers(h, scripts[..n]);
      forall p | p in queued ensures p in Pairs(hosts, runs) && p.0 == h {
        assert p.1 in scripts;
        PairsMembers(hosts, runs, p);
      }
      DistinctConcat(pairs, queued);
      pairs' := pairs + queued;
      if ok {
        HostPairsMembers(h, scripts);
        forall p | p in Pairs(hosts, runs) && p.0 == h ensures p in queued {
          PairsMembers(hosts, runs, p);
        }
      }
    }

    /** Schedules every (host, run script) pair after opening a session for it, then
        registers the run observer and starts the dispatcher; a session that fails to
        open aborts the run and ends the phase at once. */
    method QueueRunScripts(opens: (Host, Script) -> bool) returns (ghost pairs: seq<(Host, Script)>)
      requires Valid() && hosts <= hostScripts.Keys
      modifies this`effects, this`observers
      ensures Distinct(pairs) && forall p :: p in pairs ==> p in old(RunPairs())
      ensures AllRunsConnect(pairs, opens) ==> forall p :: p in old(RunPairs()) ==> p in pairs
      ensures effects == old(effects) + QueueTrace(pairs, opens, uniqueLatch)
      ensures observers == if AllRunsConnect(pairs, opens) then old(observers) + multiset{RunObserver} else old(observers)
    {
      ghost var R := Runs();
      ghost var P := Pairs(hosts, R);
      pairs := [];
      var todo := hosts;
      while todo != {}
        invariant todo <= hosts
        invariant Distinct(pairs)
        invariant forall p :: p in pairs <==> p in P && p.0 !in todo
        invariant AllRunsConnect(pairs, opens)
        invariant effects == old(effects) + QueueSteps(pairs, opens, uniqueLatch)
        invariant observers == old(observers)
        decreases todo
      {
        var h :| h in todo;
        var scripts := hostScripts[h].RunScripts();
        assert forall s :: s in scripts <==> s in Lookup(R, h, {});
        var ok;
        ok, pairs := QueueHostTurn(h, scripts, opens, old(effects), pairs, R, todo);
        if !ok {
          return;
        }
        todo := todo - {h};
      }
      observers := observers + multiset{RunObserver};
      effects := effects + [AddObserver(RunObserver), StartDispatcher];
    }

    /** The dispatcher reports that a batch is over to one of the run's observers: the
        setup observer removes itself and queues the run scripts; the run observer removes
        itself and releases the completion latch. */
    method OnStop(o: Observer, opens: (Host, Script) -> bool) returns (ghost pairs: seq<(Host, Script)>)
      requires Valid() && (o == SetupObserver ==> hosts <= hostScripts.Keys)
      requires o in observers
      modifies this`effects, this`observers
      ensures o == SetupObserver ==>
        && Distinct(pairs) && (forall p :: p in pairs ==> p in old(RunPairs()))
        && (AllRunsConnect(pairs, opens) ==> forall p :: p in old(RunPairs()) ==> p in pairs)
        && effects == old(effects) + [RemoveObserver(o)] + QueueTrace(pairs, opens, uniqueLatch)
        && observers == old(observers) - multiset{o} + (if AllRunsConnect(pairs, opens) then multiset{RunObserver} else multiset{})
      ensures o == RunObserver ==>
        && effects == old(effects) + [RemoveObserver(o), Signal(uniqueLatch)]
        && observers == old(observers) - multiset{o}
    {
      ghost var P := RunPairs();
      observers := observers - multiset{o};
      effects := effects + [RemoveObserver(o)];
      if o == SetupObserver {
        assert RunPairs() == P;
        pairs := QueueRunScripts(opens);
      } else {
        pairs := [];
        PostRun();
      }
    }

    /** The first part of a run: the check and, when it passes, the setup phase. The
        dispatcher is started at the end of setup, so its observers may fire before the
        rest of the run, `AwaitLatch`, names the completion latch. */
    method Run(summarize: Script -> Summary, opens: (Host, Script) -> bool)
      returns (outcome: RunOutcome, ghost names: seq<string>, ghost order: seq<Host>)
      requires Valid() && phase == Idle
      modifies this`effects, this`observers, this`phase
      ensures !outcome.Waiting?
      ensures phase == if outcome == SetUp then Prepared else old(phase)
      ensures outcome == Threw <==> !(hosts <= hostScripts.Keys)
      ensures outcome == Threw ==> effects == old(effects)
      ensures outcome == Rejected <==> hosts <= hostScripts.Keys && !Consistent(old(RunPairs()), summarize)
      ensures outcome != Threw ==>
        && Distinct(names)
        && (forall n :: n in names <==> n in Emitted(old(RunPairs()), summarize))
      ensures outcome != SetUp ==> observers == old(observers)
      ensures outcome == Rejected ==> effects == old(effects) + InitEffects(names, Emitted(old(RunPairs()), summarize))
      ensures outcome == SetUp ==>
        && observers == old(observers) + multiset{SetupObserver}
        && Distinct(order) && (forall h :: h in order ==> h in hosts)
        && (AllSetupsConnect(order, old(Setups()), opens) ==> forall h :: h in hosts ==> h in order)
        && effects == old(effects) + InitEffects(names, Emitted(old(RunPairs()), summarize))
             + SetupTrace(order, old(Setups()), opens, uniqueLatch)
    {
      ghost var ready := hosts <= hostScripts.Keys;
      ghost var view := Setups();
      order := [];
      var verdict;
      verdict, names := PreRun(summarize);
      if verdict != Passed {
        return if verdict == Failed then Rejected else Threw, names, order;
      }
      assert ready;
      assert Setups() == view;
      order := SetupThenPrepare(opens);
      outcome := SetUp;
    }

    /** Setup, after which the run goes on to name its latch. */
    method SetupThenPrepare(opens: (Host, Script) -> bool) returns (ghost order: seq<Host>)
      requires Valid() && hosts <= hostScripts.Keys
      modifies this`effects, this`observers, this`phase
      ensures phase == Prepared
      ensures observers == old(observers) + multiset{SetupObserver}
      ensures Distinct(order) && (forall h :: h in order ==> h in hosts)
      ensures AllSetupsConnect(order, old(Setups()), opens) ==> forall h :: h in hosts ==> h in order
      ensures effects == old(effects) + SetupTrace(order, old(Setups()), opens, uniqueLatch)
    {
      order := Setup(opens);
      phase := Prepared;
    }

    /** The second part of a run: the completion latch is named from the clock,
        initialised with count 1 and waited for. Only a run that was set up gets here: a
        refused or throwing check returns from `run()` first. */
    method AwaitLatch(now: nat)
      requires phase == Prepared
      modifies this`effects, this`uniqueLatch, this`phase
      ensures uniqueLatch == Some(LatchName(now)) && phase == Awaiting(LatchName(now))
      ensures effects == old(effects) + [Initialize(LatchName(now), 1), WaitFor(LatchName(now))]
    {
      uniqueLatch := Some(LatchName(now));
      effects := effects + [Initialize(LatchName(now), 1), WaitFor(LatchName(now))];
      phase := Awaiting(LatchName(now));
    }

    /** The first part of a run with the latch named and initialised before setup, so that
        an abort in either batch signals the latch the run then waits on. */
    method RunLatchFirst(now: nat, summarize: Script -> Summary, opens: (Host, Script) -> bool)
      returns (outcome: RunOutcome, ghost names: seq<string>, ghost order: seq<Host>)
      requires Valid() && phase == Idle
      modifies this`effects, this`observers, this`uniqueLatch, this`phase
      ensures outcome != SetUp
      ensures outcome == Threw <==> !(hosts <= hostScripts.Keys)
      ensures outcome == Threw ==> effects == old(effects)
      ensures outcome == Rejected <==> hosts <= hostScripts.Keys && !Consistent(old(RunPairs()), summarize)
      ensures outcome != Threw ==>
        && Distinct(names)
        && (forall n :: n in names <==> n in Emitted(old(RunPairs()), summarize))
      ensures outcome != Waiting(LatchName(now)) ==>
        uniqueLatch == old(uniqueLatch) && observers == old(observers) && phase == old(phase)
      ensures outcome == Rejected ==> effects == old(effects) + InitEffects(names, Emitted(old(RunPairs()), summarize))
      ensures outcome.Waiting? ==>
        && outcome == Waiting(LatchName(now))
        && uniqueLatch == Some(LatchName(now)) && phase == Awaiting(LatchName(now))
        && observers == old(observers) + multiset{SetupObserver}
        && Distinct(order) && (forall h :: h in order ==> h in hosts)
        && (AllSetupsConnect(order, old(Setups()), opens) ==> forall h :: h in hosts ==> h in order)
        && effects == old(effects) + InitEffects(names, Emitted(old(RunPairs()), summarize))
             + [Initialize(LatchName(now), 1)]
             + SetupTrace(order, old(Setups()), opens, uniqueLatch)
             + [WaitFor(LatchName(now))]
    {
      ghost var ready := hosts <= hostScripts.Keys;
      ghost var view := Setups();
      order := [];
      var verdict;
      verdict, names := PreRun(summarize);
      if verdict != Passed {
        return if verdict == Failed then Rejected else Threw, names, order;
      }
      assert ready;
      assert Setups() == view;
      outcome, order := LatchThenSetup(LatchName(now), opens);
    }

    /** Naming and initialising the latch, then setup under that latch, then the wait. */
    method LatchThenSetup(latch: string, opens: (Host, Script) -> bool) returns (outcome: RunOutcome, ghost order: seq<Host>)
      requires Valid() && hosts <= hostScripts.Keys
      modifies this`effects, this`observers, this`uniqueLatch, this`phase
      ensures outcome == Waiting(latch) && uniqueLatch == Some(latch) && phase == Awaiting(latch)
      ensures observers == old(observers) + multiset{SetupObserver}
      ensures Distinct(order) && (forall h :: h in order ==> h in hosts)
      ensures AllSetupsConnect(order, old(Setups()), opens) ==> forall h :: h in hosts ==> h in order
      ensures effects == old(effects) + [Initialize(latch, 1)] + SetupTrace(order, old(Setups()), opens, Some(latch))
        + [WaitFor(latch)]
    {
      ghost var view := Setups();
      uniqueLatch := Some(latch);
      effects := effects + [Initialize(latch, 1)];
      assert Setups() == view;
      order := Setup(opens);
      effects := effects + [WaitFor(latch)];
      phase := Awaiting(latch);
      outcome := Waiting(latch);
    }

    /** The rest of a run, once the latch it waits on has been signalled: fetch every
        queued download. */
    method FinishRun() returns (ghost order: seq<Host>)
      requires phase.Awaiting? && Released(effects, phase.latch)
      modifies this`effects, this`pendingDownloads, this`phase
      ensures phase == Idle && pendingDownloads == map[]
      ensures Distinct(order) && forall h :: h in order <==> h in old(pendingDownloads)
      ensures effects == old(effects) + FlushTrace(order, old(pendingDownloads))
    {
      order := RunPendingDownloads();
      phase := Idle;
    }
  }

  // ------------------------------------------------------------ findings

  /** A latch initialised last and then waited on is not released at the wait: no signal
      has come after its initialisation. */
  lemma InitializedLastNotReleased(t: seq<Effect>, latch: string)
    ensures !Released(t + [Initialize(latch, 1), WaitFor(latch)], latch)
  {
    var u := t + [Initialize(latch, 1), WaitFor(latch)];
    forall i | 0 <= i < |u| && u[i] == Signal(Some(latch))
      ensures exists j :: i < j < |u| && u[j].Initialize? && u[j].name == latch
    {
      assert u[|u| - 2] == Initialize(latch, 1) && u[|u| - 1] == WaitFor(latch);
      assert i < |u| - 2;
    }
  }

  /** As written, a session that fails to open during setup signals the latch as it was
      before the run named its own, and the run signals no other latch up to its wait;
      the latch the run then initialises and waits on has not been signalled since. */
  lemma SetupAbortStrandsLatch(before: seq<Effect>, names: seq<string>, counters: multiset<string>,
                               order: seq<Host>, view: map<Host, seq<Script>>, opens: (Host, Script) -> bool,
                               previous: Option<string>, latch: string)
    requires !AllSetupsConnect(order, view, opens)
    ensures var t := InitEffects(names, counters) + SetupTrace(order, view, opens, previous);
      && Signal(previous) in t
      && (forall e :: e in t && e.Signal? ==> e.latch == previous)
      && !Released(before + t + [Initialize(latch, 1), WaitFor(latch)], latch)
  {
    SetupAbortEndsTrace(order, view, opens, previous);
    var t := InitEffects(names, counters) + SetupTrace(order, view, opens, previous);
    InitializedLastNotReleased(before + t, latch);
  }

  /** As written, the setup batch may end before the run names its latch. A run session
      that then fails to open signals the unnamed latch, signals nothing else and never
      registers the run observer, so no observer is left to signal the latch the run
      initialises and waits on. */
  lemma RunBatchAbortStrandsLatch(before: seq<Effect>, pairs: seq<(Host, Script)>, opens: (Host, Script) -> bool,
                                  previous: Option<string>, latch: string)
    requires !AllRunsConnect(pairs, opens)
    ensures var q := QueueTrace(pairs, opens, previous);
      && Signal(previous) in q
      && (forall e :: e in q && e.Signal? ==> e.latch == previous)
      && AddObserver(RunObserver) !in q
      && !Released(before + [RemoveObserver(SetupObserver)] + q + [Initialize(latch, 1), WaitFor(latch)], latch)
  {
    QueueAbortEndsTrace(pairs, opens, previous);
    QueueSchedule(pairs, opens, previous);
    QueueSignalsOnly(pairs, opens, previous);
    var q := QueueTrace(pairs, opens, previous);
    assert q[|q| - 1] == q[|q| - 2..][1];
    InitializedLastNotReleased(before + [RemoveObserver(SetupObserver)] + q, latch);
  }

  /** As written, the run batch may also run to its end before the run names its latch:
      the run observer removes itself and signals the unnamed latch, and nothing else in
      either batch signals a latch, so the latch the run then initialises and waits on
      has not been signalled. */
  lemma RunBatchEndStrandsLatch(before: seq<Effect>, pairs: seq<(Host, Script)>, opens: (Host, Script) -> bool,
                                previous: Option<string>, latch: string)
    requires AllRunsConnect(pairs, opens)
    ensures var q := [RemoveObserver(SetupObserver)] + QueueTrace(pairs, opens, previous)
                     + [RemoveObserver(RunObserver), Signal(previous)];
      && AddObserver(RunObserver) in q && StartDispatcher in q
      && (forall e :: e in q && e.Signal? ==> e.latch == previous)
      && !Released(before + q + [Initialize(latch, 1), WaitFor(latch)], latch)
  {
    QueueSchedule(pairs, opens, previous);
    QueueSignalsOnly(pairs, opens, previous);
    var q := [RemoveObserver(SetupObserver)] + QueueTrace(pairs, opens, previous)
             + [RemoveObserver(RunObserver), Signal(previous)];
    InitializedLastNotReleased(before + q, latch);
  }

  /** With the latch named and initialised first, an abort during setup signals that
      latch after its initialisation and before the run waits on it. */
  lemma LatchFirstAbortReleases(before: seq<Effect>, names: seq<string>, counters: multiset<string>,
                                order: seq<Host>, view: map<Host, seq<Script>>, opens: (Host, Script) -> bool,
                                latch: string)
    requires !AllSetupsConnect(order, view, opens)
    ensures Released(before + InitEffects(names, counters) + [Initialize(latch, 1)]
      + SetupTrace(order, view, opens, Some(latch)) + [WaitFor(latch)], latch)
  {
    SetupAbortEndsTrace(order, view, opens, Some(latch));
    var a := before + InitEffects(names, counters) + [Initialize(latch, 1)];
    var b := SetupTrace(order, view, opens, Some(latch));
    var u := a + b + [WaitFor(latch)];
    var i := |a + b| - 1;
    assert u[i] == b[|b| - 1] == b[|b| - 2..][1] == Signal(Some(latch));
    assert u[..i][|a| - 1] == Initialize(latch, 1);
  }

  /** Once the latch is named and initialised (by `AwaitLatch` as written, or first in
      `RunLatchFirst`), a run session that fails to open signals that latch after its
      initialisation, so the wait returns and the downloads are fetched. */
  lemma LatchFirstRunAbortReleases(before: seq<Effect>, pairs: seq<(Host, Script)>, opens: (Host, Script) -> bool,
                                   latch: string)
    requires Initialize(latch, 1) in before
    requires !AllRunsConnect(pairs, opens)
    ensures Released(before + [RemoveObserver(SetupObserver)] + QueueTrace(pairs, opens, Some(latch)), latch)
  {
    QueueAbortEndsTrace(pairs, opens, Some(latch));
    var q := QueueTrace(pairs, opens, Some(latch));
    var u := before + [RemoveObserver(SetupObserver)] + q;
    var i := |u| - 1;
    assert u[i] == q[|q| - 1] == q[|q| - 2..][1] == Signal(Some(latch));
    var k :| 0 <= k < |before| && before[k] == Initialize(latch, 1);
    assert u[..i][k] == Initialize(latch, 1);
  }

  /** As written, removing a run script that was just added leaves it among the run
      scripts. */
  method RemoveRunScriptKeepsIt(h: Host, script: Script) returns (before: seq<Script>, after: seq<Script>)
    ensures script in before && script in after
  {
    var run := new Run("remove-run-script");
    run.AddRunScript(h, script);
    before := run.GetRunScripts(h);
    run.RemoveRunScript(h, script);
    after := run.GetRunScripts(h);
  }

  /** Removed as intended, the script is gone from the run scripts. */
  method RemoveRunScriptIntendedDropsIt(h: Host, script: Script) returns (before: seq<Script>, after: seq<Script>)
    ensures script in before && script !in after
  {
    var run := new Run("remove-run-script");
    run.AddRunScript(h, script);
    before := run.GetRunScripts(h);
    run.RemoveRunScriptIntended(h, script);
    after := run.GetRunScripts(h);
  }

  /** As written, adding all hosts to a new run registers none of them. */
  method AddAllHostsRegistersNone(list: seq<Host>) returns (registered: seq<Host>)
    ensures registered == []
  {
    var run := new Run("add-all-hosts");
    var _ := run.AddAllHosts(list);
    registered := run.AllHosts();
    EmptyIffNoMembers(registered);
  }

  /** Added as intended, every listed host is registered, each once. */
  method AddAllHostsIntendedRegistersAll(list: seq<Host>) returns (registered: seq<Host>)
    ensures Distinct(registered) && forall h :: h in registered <==> h in list
  {
    var run := new Run("add-all-hosts");
    run.AddAllHostsIntended(list);
    registered := run.AllHosts();
  }
}

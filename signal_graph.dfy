/** The static check of the signal graph made before a run: every (host, run script) pair
    contributes the names its script emits and waits for; the coordinator is given one
    count per emit site, and the run is refused when a waited name has no emitter or a
    script summary carries warnings. */
module SignalGraph {
  import opened Model

  /** The (host, run script) pairs of the registered hosts; a host without run scripts
      contributes nothing. */
  function Pairs(hosts: set<Host>, runs: map<Host, set<Script>>): set<(Host, Script)> {
    set h, s | h in hosts && h in runs && s in runs[h] :: (h, s)
  }

  lemma PairsMembers(hosts: set<Host>, runs: map<Host, set<Script>>, p: (Host, Script))
    ensures p in Pairs(hosts, runs) <==> p.0 in hosts && p.1 in Lookup(runs, p.0, {})
  {
  }

  /** Every name emitted by some pair, each once. */
  function Emits(P: set<(Host, Script)>, summarize: Script -> Summary): set<string> {
    set p, n | p in P && n in summarize(p.1).signals :: n
  }

  /** Every name waited for by some pair. */
  function Waits(P: set<(Host, Script)>, summarize: Script -> Summary): set<string> {
    set p, n | p in P && n in summarize(p.1).waits :: n
  }

  predicate WarningFree(P: set<(Host, Script)>, summarize: Script -> Summary) {
    forall p :: p in P ==> summarize(p.1).warnings == []
  }

  /** The verdict of the check: no summary has warnings and every waited name is emitted. */
  predicate Consistent(P: set<(Host, Script)>, summarize: Script -> Summary) {
    WarningFree(P, summarize) && Waits(P, summarize) <= Emits(P, summarize)
  }

  /** All emit sites of all pairs, as a multiset of names: the multiplicity of a name is
      the number of times it is emitted, summed over the pairs. */
  ghost function Emitted(P: set<(Host, Script)>, summarize: Script -> Summary): multiset<string>
    decreases |P|
  {
    if P == {} then multiset{}
    else
      var p :| p in P;
      multiset(summarize(p.1).signals) + Emitted(P - {p}, summarize)
  }

  /** Any pair may be taken out first: the total does not depend on the order of the pairs. */
  lemma {:induction false} EmittedRemove(P: set<(Host, Script)>, p: (Host, Script), summarize: Script -> Summary)
    requires p in P
    ensures Emitted(P, summarize) == multiset(summarize(p.1).signals) + Emitted(P - {p}, summarize)
    decreases |P|
  {
    var q :| q in P && Emitted(P, summarize) == multiset(summarize(q.1).signals) + Emitted(P - {q}, summarize);
    if q != p {
      EmittedRemove(P - {q}, p, summarize);
      EmittedRemove(P - {p}, q, summarize);
      assert P - {q} - {p} == P - {p} - {q};
    }
  }

  /** Adding a pair adds its emit sites. */
  lemma EmittedInsert(P: set<(Host, Script)>, p: (Host, Script), summarize: Script -> Summary)
    requires p !in P
    ensures Emitted(P + {p}, summarize) == Emitted(P, summarize) + multiset(summarize(p.1).signals)
  {
    EmittedRemove(P + {p}, p, summarize);
    assert P + {p} - {p} == P;
  }

  /** A name has a positive count exactly when some pair emits it. */
  lemma {:induction false} EmittedMembers(P: set<(Host, Script)>, summarize: Script -> Summary, n: string)
    ensures n in Emitted(P, summarize) <==> n in Emits(P, summarize)
    decreases |P|
  {
    if P != {} {
      var q :| q in P && Emitted(P, summarize) == multiset(summarize(q.1).signals) + Emitted(P - {q}, summarize);
      EmittedMembers(P - {q}, summarize, n);
      if n in summarize(q.1).signals {
        assert n in Emits(P, summarize);
      }
      if n in Emits(P, summarize) {
        var p :| p in P && n in summarize(p.1).signals;
        if p != q {
          assert n in Emits(P - {q}, summarize);
        }
      }
    } else {
      assert Emits(P, summarize) == {};
    }
  }

  /** The check fails exactly when a summary has warnings or some waited name is given a
      coordinator count of zero; names emitted but never waited for play no part. */
  lemma ConsistentIffCounted(P: set<(Host, Script)>, summarize: Script -> Summary)
    ensures Consistent(P, summarize) <==>
      WarningFree(P, summarize) && forall w :: w in Waits(P, summarize) ==> Emitted(P, summarize)[w] > 0
  {
    forall w | w in Waits(P, summarize) {
      EmittedMembers(P, summarize, w);
    }
  }

  lemma EmitsInsert(P: set<(Host, Script)>, p: (Host, Script), summarize: Script -> Summary)
    ensures Emits(P + {p}, summarize) == Emits(P, summarize) + set n | n in summarize(p.1).signals
  {
  }

  lemma WaitsInsert(P: set<(Host, Script)>, p: (Host, Script), summarize: Script -> Summary)
    ensures Waits(P + {p}, summarize) == Waits(P, summarize) + set n | n in summarize(p.1).waits
  {
  }

  /** Counting the emitted names of one summary into a counter, one add per emit site. */
  method Tally(counters: multiset<string>, names: seq<string>) returns (r: multiset<string>)
    ensures forall n :: r[n] == counters[n] + multiset(names)[n]
  {
    r := counters;
    var i := 0;
    while i < |names|
      invariant 0 <= i <= |names|
      invariant r == counters + multiset(names[..i])
    {
      assert names[..i + 1] == names[..i] + [names[i]];
      r := r + multiset{names[i]};
      i := i + 1;
    }
    assert names[..i] == names;
  }

  /** What the check has gathered from the pairs in `done`: whether every summary was free
      of warnings, the emit counts, and the names waited for and emitted. */
  ghost predicate Gathered(done: set<(Host, Script)>, summarize: Script -> Summary, valid: bool,
                           counters: multiset<string>, waiters: set<string>, signals: set<string>) {
    && valid == WarningFree(done, summarize)
    && counters == Emitted(done, summarize)
    && waiters == Waits(done, summarize)
    && signals == Emits(done, summarize)
  }

  /** Folds the summary of one more pair into what the check has gathered. */
  method ScanPair(p: (Host, Script), summarize: Script -> Summary, ghost done: set<(Host, Script)>,
                  valid: bool, counters: multiset<string>, waiters: set<string>, signals: set<string>)
    returns (valid': bool, counters': multiset<string>, waiters': set<string>, signals': set<string>)
    requires p !in done
    requires Gathered(done, summarize, valid, counters, waiters, signals)
    ensures Gathered(done + {p}, summarize, valid', counters', waiters', signals')
  {
    var summary := summarize(p.1);
    valid' := valid && summary.warnings == [];
    counters' := Tally(counters, summary.signals);
    waiters' := waiters + set n | n in summary.waits;
    signals' := signals + set n | n in summary.signals;
    EmittedInsert(done, p, summarize);
    EmitsInsert(done, p, summarize);
    WaitsInsert(done, p, summarize);
  }

  /** The pairs of host h with each of the given scripts, as a set. */
  function HostPairSet(h: Host, scripts: seq<Script>): set<(Host, Script)> {
    set p | p in HostPairs(h, scripts)
  }

  lemma HostPairSetSnoc(h: Host, scripts: seq<Script>, i: nat)
    requires i < |scripts|
    ensures HostPairSet(h, scripts[..i + 1]) == HostPairSet(h, scripts[..i]) + {(h, scripts[i])}
  {
    HostPairsSnoc(h, scripts, i);
  }

  /** Folds the summaries of one host's run scripts into what the check has gathered:
      a summary with warnings fails the check, every emit site is counted, and the
      waited and emitted names are collected. */
  method ScanHost(h: Host, scripts: seq<Script>, summarize: Script -> Summary, ghost done: set<(Host, Script)>,
                  valid: bool, counters: multiset<string>, waiters: set<string>, signals: set<string>)
    returns (valid': bool, counters': multiset<string>, waiters': set<string>, signals': set<string>)
    requires Distinct(scripts)
    requires forall p :: p in done ==> p.0 != h
    requires Gathered(done, summarize, valid, counters, waiters, signals)
    ensures Gathered(done + HostPairSet(h, scripts), summarize, valid', counters', waiters', signals')
  {
    valid', counters', waiters', signals' := valid, counters, waiters, signals;
    ghost var done' := done;
    var i := 0;
    while i < |scripts|
      invariant 0 <= i <= |scripts|
      invariant done' == done + HostPairSet(h, scripts[..i])
      invariant Gathered(done', summarize, valid', counters', waiters', signals')
    {
      var p := (h, scripts[i]);
      assert scripts[i] !in scripts[..i];
      valid', counters', waiters', signals' := ScanPair(p, summarize, done', valid', counters', waiters', signals');
      done' := done' + {p};
      HostPairSetSnoc(h, scripts, i);
      i := i + 1;
    }
    assert scripts[..i] == scripts;
  }

  /** The coordinator initialisations for the counted names, in the given order. */
  function InitEffects(names: seq<string>, counters: multiset<string>): (r: seq<Effect>)
    ensures |r| == |names|
    ensures forall i :: 0 <= i < |names| ==> r[i] == Initialize(names[i], counters[names[i]])
  {
    seq(|names|, i requires 0 <= i < |names| => Initialize(names[i], counters[names[i]]))
  }
}

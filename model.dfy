/** Values shared by the whole model of a run: hosts, scripts, the static summary of a
    script, queued downloads, and the calls a run makes on the collaborators it does not
    own (the coordinator, the dispatcher, remote sessions and the local downloader). */
module Model {

  datatype Option<T> = None | Some(value: T)

  /** A remote machine; two hosts are the same host when host name and user name agree. */
  datatype Host = Host(hostName: string, userName: string)

  /** One step of a script: another script run inline, or any other command. */
  datatype Cmd = Invoke(script: Script) | Command(text: string)

  /** A named, host-independent sequence of steps. */
  datatype Script = Script(name: string, steps: seq<Cmd>)

  /** What a static walk of one script reports: every signal it emits (once per emit
      site), the names it waits for, and the structural warnings found. */
  datatype Summary = Summary(signals: seq<string>, waits: seq<string>, warnings: seq<string>)

  /** A remote file to fetch into a local destination once the run is over. */
  datatype PendingDownload = PendingDownload(path: string, destination: string)

  /** A named group of hosts. */
  datatype Role = Role(name: string)

  /** The two dispatcher observers a run registers: one ends the setup batch, one the run batch. */
  datatype Observer = SetupObserver | RunObserver

  /** One call on a collaborator, as recorded by the run. */
  datatype Effect =
    | Initialize(name: string, count: nat)        // coordinator.initialize
    | Signal(latch: Option<string>)                // coordinator.signal; None is a name never assigned
    | WaitFor(name: string)                        // coordinator.waitFor
    | AddObserver(observer: Observer)              // dispatcher.addObserver
    | RemoveObserver(observer: Observer)           // dispatcher.removeObserver
    | AddScript(host: Host, script: Script)        // dispatcher.addScript
    | StartDispatcher                              // dispatcher.start
    | StopDispatcher                               // dispatcher.stop
    | OpenSession(host: Host, scriptName: string)  // a remote session is opened for a script
    | Download(host: Host, path: string, destination: string)

  /** The entry of k in m, or `absent` when m has none. */
  function Lookup<K, V>(m: map<K, V>, k: K, absent: V): V {
    if k in m then m[k] else absent
  }

  /** A coordinator latch counts from its initialisation: it is released in trace t when it
      was signalled after being initialised with count 1 and has not been initialised
      again since. */
  predicate Released(t: seq<Effect>, latch: string) {
    exists i :: 0 <= i < |t| && t[i] == Signal(Some(latch)) && Initialize(latch, 1) in t[..i]
      && forall j :: i < j < |t| ==> !(t[j].Initialize? && t[j].name == latch)
  }

  /** No element occurs twice. */
  ghost predicate Distinct<T>(xs: seq<T>) {
    forall i, j :: 0 <= i < j < |xs| ==> xs[i] != xs[j]
  }

  lemma DistinctSnoc<T>(xs: seq<T>, x: T)
    requires Distinct(xs) && x !in xs
    ensures Distinct(xs + [x])
  {
  }

  lemma DistinctConcat<T>(a: seq<T>, b: seq<T>)
    requires Distinct(a) && Distinct(b)
    requires forall x :: x in a ==> x !in b
    ensures Distinct(a + b)
  {
    forall i, j | 0 <= i < j < |a + b| ensures (a + b)[i] != (a + b)[j] {
      if j >= |a| && i < |a| {
        assert (a + b)[i] in a && (a + b)[j] in b;
      }
    }
  }

  lemma AppendAssoc<T>(a: seq<T>, b: seq<T>, c: seq<T>)
    ensures a + b + c == a + (b + c)
  {
  }

  lemma EmptyIffNoMembers<T>(xs: seq<T>)
    ensures xs == [] <==> forall x :: x !in xs
  {
    if xs != [] {
      assert xs[0] in xs;
    }
  }

  /** The pairs of host h with each of the given scripts, in order. */
  function HostPairs(h: Host, scripts: seq<Script>): (r: seq<(Host, Script)>)
    ensures |r| == |scripts|
    ensures forall i :: 0 <= i < |scripts| ==> r[i] == (h, scripts[i])
  {
    seq(|scripts|, i requires 0 <= i < |scripts| => (h, scripts[i]))
  }

  lemma HostPairsSnoc(h: Host, scripts: seq<Script>, i: nat)
    requires i < |scripts|
    ensures HostPairs(h, scripts[..i + 1]) == HostPairs(h, scripts[..i]) + [(h, scripts[i])]
  {
  }

  lemma HostPairsMembers(h: Host, scripts: seq<Script>)
    ensures forall p :: p in HostPairs(h, scripts) <==> p.0 == h && p.1 in scripts
    ensures Distinct(scripts) ==> Distinct(HostPairs(h, scripts))
  {
    var r := HostPairs(h, scripts);
    forall p: (Host, Script) | p.0 == h && p.1 in scripts ensures p in r {
      var k :| 0 <= k < |scripts| && scripts[k] == p.1;
      assert r[k] == p;
    }
  }

  /** The elements of a set in an order nobody promises, as a hash set hands them out. */
  method Enumerate<T(==)>(s: set<T>) returns (r: seq<T>)
    ensures Distinct(r)
    ensures forall x :: x in r <==> x in s
  {
    r := [];
    var rest := s;
    while rest != {}
      invariant rest <= s
      invariant Distinct(r)
      invariant forall x :: x in r <==> x in s && x !in rest
      decreases rest
    {
      var x :| x in rest;
      r := r + [x];
      rest := rest - {x};
    }
  }
}

/** The pending-download queue of a run: one list of downloads per host, appended to while
    the run executes and flushed, host after host, once the run is over. */
module Downloads {
  import opened Model

  type Pending = map<Host, seq<PendingDownload>>

  /** Giving h an empty queue when it has none; an existing queue is left as it is. */
  function Ensure(m: Pending, h: Host): (r: Pending)
    ensures r.Keys == m.Keys + {h}
    ensures r[h] == Lookup(m, h, [])
    ensures forall k :: k in m ==> r[k] == m[k]
  {
    if h in m then m else m[h := []]
  }

  /** Queueing one download for h: it goes to the end of h's queue, created on first use. */
  function Append(m: Pending, h: Host, d: PendingDownload): (r: Pending)
    ensures r.Keys == m.Keys + {h}
    ensures r[h] == Lookup(m, h, []) + [d]
    ensures forall k :: k in m && k != h ==> r[k] == m[k]
  {
    var e := Ensure(m, h);
    e[h := e[h] + [d]]
  }

  /** Making sure of an entry twice is the same as doing it once. */
  lemma EnsureIdempotent(m: Pending, h: Host)
    ensures Ensure(Ensure(m, h), h) == Ensure(m, h)
  {
  }

  /** The download calls for one host's queue, in queue order. */
  function Issue(h: Host, ds: seq<PendingDownload>): (r: seq<Effect>)
    ensures |r| == |ds|
    ensures forall i :: 0 <= i < |ds| ==> r[i] == Download(h, ds[i].path, ds[i].destination)
  {
    seq(|ds|, i requires 0 <= i < |ds| => Download(h, ds[i].path, ds[i].destination))
  }

  /** The download calls of a flush that visits the hosts in the given order. */
  function FlushTrace(order: seq<Host>, m: Pending): seq<Effect> {
    if order == [] then [] else Issue(order[0], Lookup(m, order[0], [])) + FlushTrace(order[1..], m)
  }

  lemma {:induction false} FlushTraceSnoc(order: seq<Host>, h: Host, m: Pending)
    ensures FlushTrace(order + [h], m) == FlushTrace(order, m) + Issue(h, Lookup(m, h, []))
  {
    if order == [] {
      assert FlushTrace([h], m) == Issue(h, Lookup(m, h, [])) + FlushTrace([], m);
    } else {
      assert (order + [h])[0] == order[0];
      assert (order + [h])[1..] == order[1..] + [h];
      FlushTraceSnoc(order[1..], h, m);
    }
  }

  /** The downloads a trace fetches for host h, as queue entries, in trace order. */
  function FetchedFor(t: seq<Effect>, h: Host): seq<PendingDownload> {
    if t == [] then [] else FetchedBy(t[0], h) + FetchedFor(t[1..], h)
  }

  /** The download one call fetches for host h, if it is a download for h. */
  function FetchedBy(e: Effect, h: Host): seq<PendingDownload> {
    if e.Download? && e.host == h then [PendingDownload(e.path, e.destination)] else []
  }

  lemma {:induction false} FetchedForConcat(a: seq<Effect>, b: seq<Effect>, h: Host)
    ensures FetchedFor(a + b, h) == FetchedFor(a, h) + FetchedFor(b, h)
  {
    if a == [] {
      assert a + b == b;
    } else {
      assert (a + b)[0] == a[0];
      assert (a + b)[1..] == a[1..] + b;
      FetchedForConcat(a[1..], b, h);
    }
  }

  lemma {:induction false} FetchedForIssue(h: Host, k: Host, ds: seq<PendingDownload>)
    ensures FetchedFor(Issue(k, ds), h) == if k == h then ds else []
  {
    if ds != [] {
      var t := Issue(k, ds);
      assert t[1..] == Issue(k, ds[1..]);
      FetchedForIssue(h, k, ds[1..]);
      assert [ds[0]] + ds[1..] == ds;
    }
  }

  /** A flush fetches, for every host it visits once, exactly that host's queue, one
      download per entry and in queue order; it fetches nothing for a host it skips. */
  lemma {:induction false} FlushFetchesQueueInOrder(order: seq<Host>, m: Pending, h: Host)
    requires Distinct(order)
    ensures FetchedFor(FlushTrace(order, m), h) == if h in order then Lookup(m, h, []) else []
  {
    if order != [] {
      assert Distinct(order[1..]) by {
        forall i, j | 0 <= i < j < |order[1..]| ensures order[1..][i] != order[1..][j] {
          assert order[1..][i] == order[i + 1] && order[1..][j] == order[j + 1];
        }
      }
      FetchedForConcat(Issue(order[0], Lookup(m, order[0], [])), FlushTrace(order[1..], m), h);
      FetchedForIssue(h, order[0], Lookup(m, order[0], []));
      FlushFetchesQueueInOrder(order[1..], m, h);
      assert order[0] !in order[1..];
      assert h in order <==> h == order[0] || h in order[1..];
    }
  }

  /** A flush makes download calls and nothing else; with nothing queued it makes none. */
  lemma {:induction false} FlushOnlyDownloads(order: seq<Host>, m: Pending)
    ensures forall e :: e in FlushTrace(order, m) ==> e.Download?
    ensures m == map[] ==> FlushTrace(order, m) == []
  {
    if order != [] {
      FlushOnlyDownloads(order[1..], m);
    }
  }
}

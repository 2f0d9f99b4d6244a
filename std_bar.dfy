/**
 * The progress tracker `Bar`, seen only as far as the adapter uses it: the
 * `started` flag it reads, the `total` it seeds, and the two operations it
 * calls, `update(n)` and `refresh()`. What those operations render is not
 * modelled; each call is recorded as one event in the tracker's log.
 */
module StdBar {
  import opened Wrappers

  /** One notification received by the tracker. */
  datatype Event = Updated(n: nat) | Refreshed

  datatype Bar = Bar(started: bool, total: nat, log: seq<Event>) {

    /** `Bar::update(n)`: records `n` units of progress. */
    function Update(n: nat): (r: Bar)
      ensures r.started == started && r.total == total
      ensures r.log == log + [Updated(n)]
    {
      this.(log := log + [Updated(n)])
    }

    /** `Bar::refresh()`: redraws without recording progress. */
    function Refresh(): (r: Bar)
      ensures r.started == started && r.total == total
      ensures r.log == log + [Refreshed]
    {
      this.(log := log + [Refreshed])
    }
  }

  /** `Bar::default()`: not started, no total, nothing received. */
  function Default(): (b: Bar)
    ensures !b.started && b.total == 0 && b.log == []
  {
    Bar(false, 0, [])
  }

  /** How many `update` calls a log holds. */
  function Updates(log: seq<Event>): (r: nat)
    ensures r <= |log|
  {
    if log == [] then 0 else (if log[0].Updated? then 1 else 0) + Updates(log[1..])
  }

  /** How many `refresh` calls a log holds. */
  function Refreshes(log: seq<Event>): (r: nat)
    ensures r <= |log|
  {
    if log == [] then 0 else (if log[0].Refreshed? then 1 else 0) + Refreshes(log[1..])
  }

  /** The units of progress a log records: the tracker's count. */
  function Units(log: seq<Event>): (r: nat)
  {
    if log == [] then 0 else (if log[0].Updated? then log[0].n else 0) + Units(log[1..])
  }

  /** The counts of two logs one after the other add up. */
  lemma {:induction false} CountsConcat(a: seq<Event>, b: seq<Event>)
    ensures Updates(a + b) == Updates(a) + Updates(b)
    ensures Refreshes(a + b) == Refreshes(a) + Refreshes(b)
    ensures Units(a + b) == Units(a) + Units(b)
  {
    if a == [] {
      assert a + b == b;
    } else {
      assert (a + b)[0] == a[0];
      assert (a + b)[1..] == a[1..] + b;
      CountsConcat(a[1..], b);
    }
  }

  /** A log of `n` copies of one event counts `n` of that kind and none of the other. */
  lemma {:induction false} CountsRepeat(e: Event, n: nat)
    ensures Updates(Repeat(e, n)) == (if e.Updated? then n else 0)
    ensures Refreshes(Repeat(e, n)) == (if e.Refreshed? then n else 0)
    ensures Units(Repeat(e, n)) == (if e.Updated? then n * e.n else 0)
  {
    if n > 0 {
      assert Repeat(e, n)[1..] == Repeat(e, n - 1);
      CountsRepeat(e, n - 1);
    }
  }
}

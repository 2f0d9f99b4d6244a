/**
 * The progress adapter `BarIterStruct`: it wraps a source iterator together
 * with a tracker `Bar`, forwards every pull to the source unchanged, and
 * after each pull makes one notification to the tracker: `update(1)` if the
 * tracker has started, `refresh()` if it has not.
 */
module IteratorBar {
  import opened Wrappers
  import opened Iter
  import opened StdBar

  /** The notification a pull makes, given the tracker's `started` flag. */
  function Notice(started: bool): (e: Event)
    ensures e.Updated? <==> started
    ensures e.Updated? ==> e.n == 1
  {
    if started then Updated(1) else Refreshed
  }

  /**
   * What the adapter does to its tracker after every pull: exactly one call,
   * an update by one unit when started and a refresh otherwise, never both.
   */
  function Notify(pb: Bar): (r: Bar)
    ensures r.started == pb.started && r.total == pb.total
    ensures r.log == pb.log + [Notice(pb.started)]
  {
    if pb.started then pb.Update(1) else pb.Refresh()
  }

  /**
   * One notification counted: an update of one unit when started, a refresh
   * otherwise, never both and never neither.
   */
  lemma NotifyCounts(pb: Bar)
    ensures Updates(Notify(pb).log) == Updates(pb.log) + (if pb.started then 1 else 0)
    ensures Refreshes(Notify(pb).log) == Refreshes(pb.log) + (if pb.started then 0 else 1)
    ensures Units(Notify(pb).log) == Units(pb.log) + (if pb.started then 1 else 0)
  {
    CountsConcat(pb.log, [Notice(pb.started)]);
  }

  /** The tracker `progress()` builds: the defaults, with `total` taken from the source's size-hint lower bound. */
  function InitialTracker<T>(src: Source<T>): (b: Bar)
    requires src.Valid()
    ensures !b.started && b.log == []
    ensures b.total == |src.Remaining()|
  {
    Default().(total := src.SizeHint().0)
  }

  /**
   * The adapter, driven by the pulls `ends` in order with no outside change to
   * its tracker in between: what it yields, its source and its tracker afterwards.
   */
  function Drive<T>(src: Source<T>, pb: Bar, ends: seq<End>): (r: (seq<Option<T>>, Source<T>, Bar))
    requires src.Valid()
    ensures r.1.Valid()
    decreases |ends|
  {
    if ends == [] then ([], src, pb)
    else
      var first := src.Pull(ends[0]);
      var rest := Drive(first.1, Notify(pb), ends[1..]);
      ([first.0] + rest.0, rest.1, rest.2)
  }

  /**
   * Transparency: the adapter yields exactly what the bare source yields under
   * the same interleaving of front and back pulls, and leaves the source in
   * the same state.
   */
  lemma {:induction false} DriveIsTransparent<T>(src: Source<T>, pb: Bar, ends: seq<End>)
    requires src.Valid()
    ensures Drive(src, pb, ends).0 == Bare(src, ends).0
    ensures Drive(src, pb, ends).1 == Bare(src, ends).1
    decreases |ends|
  {
    if ends != [] {
      var s1 := src.Pull(ends[0]).1;
      DriveUnfold(src, pb, ends);
      DriveIsTransparent(s1, Notify(pb), ends[1..]);
      BareUnfold(src, ends);
    }
  }

  /**
   * One notification per pull, in call order, including pulls that find the
   * source exhausted; the adapter never changes `started` or `total`.
   */
  lemma {:induction false} DriveNotifiesOncePerPull<T>(src: Source<T>, pb: Bar, ends: seq<End>)
    requires src.Valid()
    ensures Drive(src, pb, ends).2.started == pb.started
    ensures Drive(src, pb, ends).2.total == pb.total
    ensures Drive(src, pb, ends).2.log == pb.log + Repeat(Notice(pb.started), |ends|)
    decreases |ends|
  {
    if ends != [] {
      var s1, pb1 := src.Pull(ends[0]).1, Notify(pb);
      DriveUnfold(src, pb, ends);
      DriveNotifiesOncePerPull(s1, pb1, ends[1..]);
      var n := Notice(pb.started);
      assert pb1.log == pb.log + [n];
      assert Repeat(n, |ends|) == [n] + Repeat(n, |ends| - 1);
      assert pb.log + Repeat(n, |ends|) == pb1.log + Repeat(n, |ends| - 1);
    }
  }

  /** A nonempty run of pulls on the adapter is its first pull followed by the rest. */
  lemma DriveUnfold<T>(src: Source<T>, pb: Bar, ends: seq<End>)
    requires src.Valid() && ends != []
    ensures Drive(src, pb, ends).0 == [src.Pull(ends[0]).0] + Drive(src.Pull(ends[0]).1, Notify(pb), ends[1..]).0
    ensures Drive(src, pb, ends).1 == Drive(src.Pull(ends[0]).1, Notify(pb), ends[1..]).1
    ensures Drive(src, pb, ends).2 == Drive(src.Pull(ends[0]).1, Notify(pb), ends[1..]).2
  {
  }

  /**
   * Counting the tracker's calls: while not started every pull is a refresh and
   * the update count stays put; once started every pull adds one update of one
   * unit; either way the calls made equal the pulls made.
   */
  lemma DriveCounts<T>(src: Source<T>, pb: Bar, ends: seq<End>)
    requires src.Valid()
    ensures Updates(Drive(src, pb, ends).2.log) == Updates(pb.log) + (if pb.started then |ends| else 0)
    ensures Refreshes(Drive(src, pb, ends).2.log) == Refreshes(pb.log) + (if pb.started then 0 else |ends|)
    ensures Units(Drive(src, pb, ends).2.log) == Units(pb.log) + (if pb.started then |ends| else 0)
    ensures |Drive(src, pb, ends).2.log| == |pb.log| + |ends|
  {
    DriveNotifiesOncePerPull(src, pb, ends);
    CountsConcat(pb.log, Repeat(Notice(pb.started), |ends|));
    CountsRepeat(Notice(pb.started), |ends|);
  }

  /**
   * Draining the adapter forward, with `k` pulls past the end, yields the
   * source's elements in order, then `k` times `None`, and makes one
   * notification per call: `k` more than there were elements.
   */
  lemma DriveDrainForward<T>(src: Source<T>, pb: Bar, k: nat)
    requires src.Valid()
    ensures Drive(src, pb, Repeat(Front, |src.Remaining()| + k)).0 == Somes(src.Remaining()) + Repeat<Option<T>>(None, k)
    ensures Drive(src, pb, Repeat(Front, |src.Remaining()| + k)).1.Remaining() == []
    ensures |Drive(src, pb, Repeat(Front, |src.Remaining()| + k)).2.log| == |pb.log| + |src.Remaining()| + k
  {
    var ends := Repeat(Front, |src.Remaining()| + k);
    DriveIsTransparent(src, pb, ends);
    BareDrainForward(src, k);
    DriveCounts(src, pb, ends);
  }

  /** Draining the adapter from the back yields the source's elements in reverse order. */
  lemma DriveDrainBackward<T>(src: Source<T>, pb: Bar, k: nat)
    requires src.Valid()
    ensures Drive(src, pb, Repeat(Back, |src.Remaining()| + k)).0 == Somes(Reverse(src.Remaining())) + Repeat<Option<T>>(None, k)
    ensures Drive(src, pb, Repeat(Back, |src.Remaining()| + k)).1.Remaining() == []
    ensures |Drive(src, pb, Repeat(Back, |src.Remaining()| + k)).2.log| == |pb.log| + |src.Remaining()| + k
  {
    var ends := Repeat(Back, |src.Remaining()| + k);
    DriveIsTransparent(src, pb, ends);
    BareDrainBackward(src, k);
    DriveCounts(src, pb, ends);
  }

  /** Pulls on an exhausted adapter yield `None`, leave the source alone, and still notify once each. */
  lemma DriveExhausted<T>(src: Source<T>, pb: Bar, ends: seq<End>)
    requires src.Valid() && src.Remaining() == []
    ensures Drive(src, pb, ends).0 == Repeat<Option<T>>(None, |ends|)
    ensures Drive(src, pb, ends).1 == src
    ensures Drive(src, pb, ends).2.log == pb.log + Repeat(Notice(pb.started), |ends|)
  {
    DriveIsTransparent(src, pb, ends);
    BareExhausted(src, ends);
    DriveNotifiesOncePerPull(src, pb, ends);
  }

  /*
   * Everything above takes `Bar::update` and `Bar::refresh` to leave `started`
   * as it was. The functions and lemmas below leave that open: after each call
   * the tracker's flag is whatever its own rules make it, given as `after`.
   */

  /**
   * The notification after a pull when `Bar` may itself change `started`: the
   * one event is still chosen by the flag before the call; afterwards the flag
   * is `now`, and `total` is kept.
   */
  function NotifyThen(pb: Bar, now: bool): (r: Bar)
    ensures r.started == now && r.total == pb.total
    ensures r.log == pb.log + [Notice(pb.started)]
  {
    Notify(pb).(started := now)
  }

  /**
   * The flag the tracker holds before each call of a run: `first` before the
   * first call, and before every later call the flag the previous call left.
   */
  function FlagsBefore(first: bool, after: seq<bool>): (r: seq<bool>)
    ensures |r| == |after|
    ensures after != [] ==> r[0] == first
    ensures forall k :: 0 < k < |after| ==> r[k] == after[k - 1]
    decreases |after|
  {
    if after == [] then [] else [first] + FlagsBefore(after[0], after[1..])
  }

  /** The notification each flag selects, in order. */
  function Notices(flags: seq<bool>): (r: seq<Event>)
    ensures |r| == |flags|
    ensures forall k :: 0 <= k < |flags| ==> r[k] == Notice(flags[k])
  {
    if flags == [] then [] else [Notice(flags[0])] + Notices(flags[1..])
  }

  /** How many of the flags are set. */
  function Trues(flags: seq<bool>): (r: nat)
    ensures r <= |flags|
  {
    if flags == [] then 0 else (if flags[0] then 1 else 0) + Trues(flags[1..])
  }

  /** The notifications selected by a run of flags: one update of one unit per set flag, one refresh per clear one. */
  lemma {:induction false} NoticesCounts(flags: seq<bool>)
    ensures Updates(Notices(flags)) == Trues(flags)
    ensures Units(Notices(flags)) == Trues(flags)
    ensures Refreshes(Notices(flags)) == |flags| - Trues(flags)
  {
    if flags != [] {
      var n := Notices(flags);
      assert n[1..] == Notices(flags[1..]);
      assert n[0] == Notice(flags[0]);
      NoticesCounts(flags[1..]);
    }
  }

  /**
   * The adapter driven by the pulls `ends`, with the tracker's flag after each
   * call given by `after`: what it yields, its source and its tracker afterwards.
   */
  function DriveOpen<T>(src: Source<T>, pb: Bar, ends: seq<End>, after: seq<bool>): (r: (seq<Option<T>>, Source<T>, Bar))
    requires src.Valid() && |after| == |ends|
    ensures r.1.Valid()
    decreases |ends|
  {
    if ends == [] then ([], src, pb)
    else
      var first := src.Pull(ends[0]);
      var rest := DriveOpen(first.1, NotifyThen(pb, after[0]), ends[1..], after[1..]);
      ([first.0] + rest.0, rest.1, rest.2)
  }

  /** Transparency holds whatever the tracker does with `started`. */
  lemma {:induction false} DriveOpenIsTransparent<T>(src: Source<T>, pb: Bar, ends: seq<End>, after: seq<bool>)
    requires src.Valid() && |after| == |ends|
    ensures DriveOpen(src, pb, ends, after).0 == Bare(src, ends).0
    ensures DriveOpen(src, pb, ends, after).1 == Bare(src, ends).1
    decreases |ends|
  {
    if ends != [] {
      DriveOpenIsTransparent(src.Pull(ends[0]).1, NotifyThen(pb, after[0]), ends[1..], after[1..]);
      BareUnfold(src, ends);
    }
  }

  /**
   * The rule whatever the tracker does with `started`: the k-th pull makes
   * exactly one notification, chosen by the flag just before that pull; the
   * tracker ends with the flag its last call left, and its `total` is kept.
   */
  lemma {:induction false} DriveOpenNotifies<T>(src: Source<T>, pb: Bar, ends: seq<End>, after: seq<bool>)
    requires src.Valid() && |after| == |ends|
    ensures DriveOpen(src, pb, ends, after).2.log == pb.log + Notices(FlagsBefore(pb.started, after))
    ensures DriveOpen(src, pb, ends, after).2.started == if after == [] then pb.started else after[|after| - 1]
    ensures DriveOpen(src, pb, ends, after).2.total == pb.total
    decreases |ends|
  {
    if ends != [] {
      var pb1 := NotifyThen(pb, after[0]);
      DriveOpenUnfold(src, pb, ends, after);
      DriveOpenNotifies(src.Pull(ends[0]).1, pb1, ends[1..], after[1..]);
      NoticesUnfold(pb.started, after);
      LogStep(pb.log, Notice(pb.started), Notices(FlagsBefore(after[0], after[1..])));
      if after[1..] != [] {
        assert after[1..][|after[1..]| - 1] == after[|after| - 1];
      }
    }
  }

  /** A nonempty open run of pulls is its first pull followed by the rest. */
  lemma DriveOpenUnfold<T>(src: Source<T>, pb: Bar, ends: seq<End>, after: seq<bool>)
    requires src.Valid() && |after| == |ends| && ends != []
    ensures DriveOpen(src, pb, ends, after).2 == DriveOpen(src.Pull(ends[0]).1, NotifyThen(pb, after[0]), ends[1..], after[1..]).2
  {
  }

  /** The notices of a nonempty run: the first flag's, then the rest's. */
  lemma NoticesUnfold(first: bool, after: seq<bool>)
    requires after != []
    ensures Notices(FlagsBefore(first, after)) == [Notice(first)] + Notices(FlagsBefore(after[0], after[1..]))
  {
    var flags := FlagsBefore(first, after);
    assert flags[1..] == FlagsBefore(after[0], after[1..]);
    assert flags == [first] + flags[1..];
  }

  /** Appending one event and then more is appending both. */
  lemma LogStep(log: seq<Event>, e: Event, tail: seq<Event>)
    ensures log + ([e] + tail) == (log + [e]) + tail
  {
  }

  /**
   * Counting the tracker's calls whatever it does with `started`: as many
   * calls as pulls; one update of one unit for each pull made while started,
   * one refresh for each pull made while not.
   */
  lemma DriveOpenCounts<T>(src: Source<T>, pb: Bar, ends: seq<End>, after: seq<bool>)
    requires src.Valid() && |after| == |ends|
    ensures |DriveOpen(src, pb, ends, after).2.log| == |pb.log| + |ends|
    ensures Updates(DriveOpen(src, pb, ends, after).2.log) == Updates(pb.log) + Trues(FlagsBefore(pb.started, after))
    ensures Units(DriveOpen(src, pb, ends, after).2.log) == Units(pb.log) + Trues(FlagsBefore(pb.started, after))
    ensures Refreshes(DriveOpen(src, pb, ends, after).2.log) == Refreshes(pb.log) + |ends| - Trues(FlagsBefore(pb.started, after))
  {
    var flags := FlagsBefore(pb.started, after);
    DriveOpenNotifies(src, pb, ends, after);
    CountsConcat(pb.log, Notices(flags));
    NoticesCounts(flags);
  }

  /** A tracker that keeps `started` through every call is the special case `Drive` models. */
  lemma {:induction false} DriveIsDriveOpenKeepingFlag<T>(src: Source<T>, pb: Bar, ends: seq<End>)
    requires src.Valid()
    ensures Drive(src, pb, ends) == DriveOpen(src, pb, ends, Repeat(pb.started, |ends|))
    decreases |ends|
  {
    if ends != [] {
      var after := Repeat(pb.started, |ends|);
      assert after[0] == pb.started && after[1..] == Repeat(pb.started, |ends| - 1);
      assert NotifyThen(pb, after[0]) == Notify(pb);
      DriveUnfold(src, pb, ends);
      DriveIsDriveOpenKeepingFlag(src.Pull(ends[0]).1, Notify(pb), ends[1..]);
    }
  }

  /**
   * A freshly wrapped adapter whose tracker sets `started` during its first
   * call: the first pull refreshes, every later pull updates by one unit.
   */
  lemma DriveStartedByFirstCall<T>(src: Source<T>, ends: seq<End>)
    requires src.Valid() && ends != []
    ensures Refreshes(DriveOpen(src, InitialTracker(src), ends, Repeat(true, |ends|)).2.log) == 1
    ensures Updates(DriveOpen(src, InitialTracker(src), ends, Repeat(true, |ends|)).2.log) == |ends| - 1
    ensures Units(DriveOpen(src, InitialTracker(src), ends, Repeat(true, |ends|)).2.log) == |ends| - 1
  {
    TruesAfterFirst(|ends|);
    DriveOpenCounts(src, InitialTracker(src), ends, Repeat(true, |ends|));
  }

  /** Before `n` calls that each leave the flag set, starting from a clear flag: all set but the first. */
  lemma TruesAfterFirst(n: nat)
    requires n > 0
    ensures Trues(FlagsBefore(false, Repeat(true, n))) == n - 1
  {
    var after := Repeat(true, n);
    assert after[0] && after[1..] == Repeat(true, n - 1);
    var flags := FlagsBefore(false, after);
    assert flags[1..] == FlagsBefore(true, Repeat(true, n - 1));
    KeptFlags(n - 1);
  }

  /** Calls that keep a set flag set: every flag before them is set. */
  lemma {:induction false} KeptFlags(m: nat)
    ensures Trues(FlagsBefore(true, Repeat(true, m))) == m
  {
    if m > 0 {
      var after := Repeat(true, m);
      assert after[0] && after[1..] == Repeat(true, m - 1);
      var flags := FlagsBefore(true, after);
      assert flags[1..] == FlagsBefore(true, Repeat(true, m - 1));
      KeptFlags(m - 1);
    }
  }

  /**
   * `BarIterStruct<T>`: the wrapped iterator `iterable` and the tracker `pb`.
   * The ghost fields record the source as it was wrapped, the pulls made so
   * far and what they returned.
   */
  class BarIterStruct<T> {
    var iterable: Source<T>
    var pb: Bar
    ghost var origin: Source<T>
    ghost var pulls: seq<End>
    ghost var yielded: seq<Option<T>>

    /** The adapter's source is exactly what the bare source would be after the same pulls. */
    ghost predicate Valid()
      reads this
    {
      origin.Valid() && Bare(origin, pulls) == (yielded, iterable)
    }

    /** `BarIter::progress`: wraps `src` with a fresh tracker whose total is the size-hint lower bound. */
    constructor Progress(src: Source<T>)
      requires src.Valid()
      ensures Valid()
      ensures iterable == src && pb == InitialTracker(src)
      ensures origin == src && pulls == [] && yielded == []
    {
      iterable := src;
      pb := InitialTracker(src);
      origin := src;
      pulls := [];
      yielded := [];
    }

    /** `Iterator::next`: the source's `next()`, unchanged, after which the tracker is notified once. */
    method Next() returns (item: Option<T>)
      requires Valid()
      modifies this
      ensures Valid()
      ensures (item, iterable) == old(iterable).Next()
      ensures pb == Notify(old(pb))
      ensures origin == old(origin) && pulls == old(pulls) + [Front] && yielded == old(yielded) + [item]
    {
      var pulled := iterable.Next();
      item, iterable := pulled.0, pulled.1;
      if pb.started {
        pb := pb.Update(1);
      } else {
        pb := pb.Refresh();
      }
      BareSnoc(origin, pulls, Front);
      pulls, yielded := pulls + [Front], yielded + [item];
    }

    /** `DoubleEndedIterator::next_back`: the source's `next_back()`, unchanged, then one notification. */
    method NextBack() returns (item: Option<T>)
      requires Valid()
      modifies this
      ensures Valid()
      ensures (item, iterable) == old(iterable).NextBack()
      ensures pb == Notify(old(pb))
      ensures origin == old(origin) && pulls == old(pulls) + [Back] && yielded == old(yielded) + [item]
    {
      var pulled := iterable.NextBack();
      item, iterable := pulled.0, pulled.1;
      if pb.started {
        pb := pb.Update(1);
      } else {
        pb := pb.Refresh();
      }
      BareSnoc(origin, pulls, Back);
      pulls, yielded := pulls + [Back], yielded + [item];
    }

    /** `ExactSizeIterator::len`: the source's exact remaining length, read without touching anything. */
    function Len(): (n: nat)
      reads this
      requires Valid()
      ensures n == |iterable.Remaining()|
      ensures n == if |pulls| <= |origin.Remaining()| then |origin.Remaining()| - |pulls| else 0
    {
      BareYieldsUntilExhausted(origin, pulls);
      iterable.Len()
    }

    /** `Deref`: shared access to the owned tracker itself. */
    function Deref(): (b: Bar)
      reads this
      ensures b == pb
    {
      pb
    }

    /**
     * `DerefMut`: the caller changes the owned tracker through the adapter,
     * here by handing back its new value; the source and the pull history are
     * not touched.
     */
    method DerefMut(b: Bar)
      requires Valid()
      modifies this`pb
      ensures Valid()
      ensures pb == b
      ensures iterable == old(iterable)
    {
      pb := b;
    }

    /** The one outside change the adapter's behaviour depends on: setting `started` through `DerefMut`. */
    method MarkStarted()
      requires Valid()
      modifies this`pb
      ensures Valid()
      ensures pb == old(pb).(started := true)
      ensures iterable == old(iterable)
    {
      DerefMut(pb.(started := true));
    }
  }

  /**
   * Five elements pulled once before the tracker is started, then five more
   * times after it is marked started: the elements in order and one `None`,
   * one refresh and then one update per pull, including the pull that finds
   * the source exhausted.
   */
  method Scenario<T>(items: seq<T>) returns (outputs: seq<Option<T>>, tracker: Bar)
    requires |items| == 5
    ensures outputs == [Some(items[0]), Some(items[1]), Some(items[2]), Some(items[3]), Some(items[4]), None]
    ensures tracker.log == [Refreshed, Updated(1), Updated(1), Updated(1), Updated(1), Updated(1)]
    ensures tracker.started && tracker.total == 5
  {
    var it := new BarIterStruct.Progress(Source(items, 0, 5));
    var y1 := it.Next();
    it.MarkStarted();
    var y2 := it.Next();
    var y3 := it.Next();
    var y4 := it.Next();
    var y5 := it.Next();
    var y6 := it.Next();
    outputs := [y1, y2, y3, y4, y5, y6];
    tracker := it.Deref();
  }
}

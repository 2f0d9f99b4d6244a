# kdam progress adapter, modelled in Dafny

This project models `BarIterStruct<T>`, the iterator adapter in kdam (`src/iterator_bar.rs`).
`.progress()` wraps a Rust iterator together with a progress bar (`Bar`). The adapter
yields exactly the source's elements. After every pull, from the front (`next`) or from
the back (`next_back`), it notifies the bar exactly once: `update(1)` if the bar's
`started` flag is set, `refresh()` if it is not.

Files and modules:

- `wrappers.dfy`, module `Wrappers`: `Option`, plus the sequence shapes `Repeat`, `Somes`
  and `Reverse` used in the statements.
- `source.dfy`, module `Iter`: the wrapped iterator. A `Source<T>` is a sequence with a
  front and a back cursor. It is finite, double-ended and exact-size. `Bare` runs a sequence
  of front/back pulls on the unwrapped source. The lemmas say what such runs yield.
- `std_bar.dfy`, module `StdBar`: the tracker, reduced to what the adapter touches. That is
  the `started` flag, the `total`, and a log with one `Updated(n)` or `Refreshed` event per
  call received. `Updates`, `Refreshes` and `Units` count the log.
- `iterator_bar.dfy`, module `IteratorBar`: the adapter.
  - `class BarIterStruct` has the fields `iterable` and `pb`. Its methods are `Next` and
    `NextBack`, its functions `Len` and `Deref`, and `DerefMut`/`MarkStarted` stand for
    mutable access to the tracker. The constructor `Progress` is `BarIter::progress`.
  - Ghost fields record the source as it was wrapped and the pulls made so far. `Valid()`
    ties the current source to `Bare` applied to that history.
  - `Drive` is the same behaviour on plain values, over a whole sequence of pulls, for a
    tracker whose `update` and `refresh` keep `started` as it was. The lemmas about it state
    transparency and notification counting.
  - `DriveOpen` leaves open what `Bar` itself does to `started`: the flag each call leaves
    is a parameter. Its lemmas state the rule that holds for any `Bar`. The k-th pull's
    notification is chosen by the flag just before that pull, and there are as many
    notifications as pulls. `Drive` is proved to be its special case.

## Model

| member | source | states |
|---|---|---|
| `Iter.Source.Next` | src/iterator_bar.rs:36 | the source's `next()`: the first remaining element and the rest of the source, or `None` with the source unchanged when nothing is left |
| `Iter.Source.NextBack` | src/iterator_bar.rs:49 | the source's `next_back()`: the last remaining element and the rest of the source, or `None` with the source unchanged when nothing is left |
| `Iter.Source.Len` | src/iterator_bar.rs:28 | the source's `len()` is the number of elements still to be pulled |
| `Iter.Source.SizeHint` | src/iterator_bar.rs:71 | `size_hint()` of this exact-size source: both the lower bound and the upper bound are the remaining length |
| `Iter.Bare` | src/iterator_bar.rs:36-49 | a run of pulls on the unwrapped source gives one result per pull and leaves a valid source over the same items |
| `Iter.BareExhausted` | src/iterator_bar.rs:36 | pulling this (fused) source once it is exhausted, from either end, returns `None` every time and changes nothing |
| `Iter.BareYieldsUntilExhausted` | src/iterator_bar.rs:36-49 | under any mix of front and back pulls, the i-th pull returns an element exactly when i is less than the number of elements that remained; the source shrinks by one per successful pull |
| `Iter.BareSplitsRemaining` | src/iterator_bar.rs:48-58 | under any mix of front and back pulls, what remained equals the front pulls' elements in order, then what is left, then the back pulls' elements reversed: nothing lost, duplicated or reordered |
| `Iter.BareDrainForward` | src/iterator_bar.rs:35-44 | front pulls until k past the end yield every remaining element in order, then k times `None`, and leave the source empty |
| `Iter.BareDrainBackward` | src/iterator_bar.rs:48-58 | back pulls until k past the end yield every remaining element in reverse order, then k times `None`, and leave the source empty |
| `StdBar.Bar.Update` | src/iterator_bar.rs:38 | `update(1)` as the adapter sees it: one `Updated` event appended; `started` and `total` assumed unchanged (`DriveOpen` drops that assumption) |
| `StdBar.Bar.Refresh` | src/iterator_bar.rs:40 | `refresh()` as the adapter sees it: one `Refreshed` event appended; `started` and `total` assumed unchanged (`DriveOpen` drops that assumption) |
| `StdBar.Default` | src/iterator_bar.rs:76 | the default tracker is not started, has total 0 and has received nothing |
| `IteratorBar.Notify` | src/iterator_bar.rs:37-41 | the one notification after a pull: the tracker's log gains exactly one event, an update if `started` and a refresh otherwise; `started` and `total` stay as they were |
| `IteratorBar.NotifyCounts` | src/iterator_bar.rs:51-55 | one notification adds one update of one unit when started and one refresh otherwise, never both and never neither |
| `IteratorBar.InitialTracker` | src/iterator_bar.rs:71-77 | the tracker `progress()` builds is not started, has received nothing, and has `total` equal to the source's size-hint lower bound |
| `IteratorBar.Drive` | src/iterator_bar.rs:35-58 | the adapter over a sequence of pulls: one pull of the source, then one notification, per call; what it means is stated by the lemmas below |
| `IteratorBar.DriveIsTransparent` | src/iterator_bar.rs:35-58 | under any interleaving of front and back pulls, the adapter yields exactly what the bare source yields and leaves the source in the same state |
| `IteratorBar.DriveNotifiesOncePerPull` | src/iterator_bar.rs:37-41 | for a tracker whose calls keep `started`: after n pulls the tracker's log has gained exactly n events, all updates of one unit if started and all refreshes otherwise; `started` and `total` end as they began |
| `IteratorBar.DriveCounts` | src/iterator_bar.rs:51-55 | for a tracker whose calls keep `started`: notifications made equal pulls made; while not started the update count and units are unchanged; once started each pull adds one update and one unit |
| `IteratorBar.DriveDrainForward` | src/iterator_bar.rs:35-44 | draining the adapter forward, with k pulls past the end, yields the source's elements in order and then k times `None`, with one notification per call: k more than there were elements |
| `IteratorBar.DriveDrainBackward` | src/iterator_bar.rs:48-58 | draining the adapter from the back yields the source's elements in reverse order, then k times `None`, with one notification per call |
| `IteratorBar.DriveExhausted` | src/iterator_bar.rs:36-43 | pulls on an adapter whose (fused) source is exhausted return `None`, leave the source alone, and still notify the tracker once each |
| `IteratorBar.Notice` | src/iterator_bar.rs:37-41 | the event a pull makes is an update exactly when `started` is set, and every update is of one unit |
| `IteratorBar.NotifyThen` | src/iterator_bar.rs:51-55 | the notification when `Bar` may change `started` itself: one event, chosen by the flag before the call; afterwards the flag is whatever `Bar` left; `total` kept |
| `IteratorBar.FlagsBefore` | src/iterator_bar.rs:37 | the flag read before each pull of a run: the initial flag before the first, and the flag the previous call left before each later one |
| `IteratorBar.Notices` | src/iterator_bar.rs:37-41 | the k-th event of a run is the notice the k-th flag selects |
| `IteratorBar.NoticesCounts` | src/iterator_bar.rs:37-41 | a run of notices holds one update of one unit per set flag and one refresh per clear flag |
| `IteratorBar.DriveOpen` | src/iterator_bar.rs:35-58 | the adapter over a sequence of pulls when what `Bar` does to `started` is left open (the flag after each call is a parameter); its meaning is stated by the lemmas below |
| `IteratorBar.DriveOpenIsTransparent` | src/iterator_bar.rs:35-58 | whatever `Bar` does to `started`, the adapter yields exactly what the bare source yields under any interleaving and leaves the source in the same state |
| `IteratorBar.DriveOpenNotifies` | src/iterator_bar.rs:37-41 | whatever `Bar` does to `started`: the k-th pull makes exactly one notification, chosen by the flag just before that pull; the tracker ends with the flag its last call left; `total` is kept |
| `IteratorBar.DriveOpenCounts` | src/iterator_bar.rs:51-55 | whatever `Bar` does to `started`: as many calls as pulls; one update of one unit for each pull made while started, one refresh for each pull made while not |
| `IteratorBar.DriveIsDriveOpenKeepingFlag` | src/iterator_bar.rs:35-58 | `Drive` is exactly the open run in which every call leaves `started` as it found it |
| `IteratorBar.DriveStartedByFirstCall` | src/iterator_bar.rs:37-41 | a freshly wrapped adapter whose tracker sets `started` during its first call makes one refresh and then one update of one unit per later pull |
| `IteratorBar.BarIterStruct.Progress` | src/iterator_bar.rs:70-79 | `progress()` keeps the source as it is and pairs it with the initial tracker; no pull and no notification has happened yet |
| `IteratorBar.BarIterStruct.Next` | src/iterator_bar.rs:35-44 | `next` returns exactly the source's `next()` result and leaves the source where it left it; the tracker gets exactly one notification; the pull joins the recorded history |
| `IteratorBar.BarIterStruct.NextBack` | src/iterator_bar.rs:48-58 | `next_back` returns exactly the source's `next_back()` result, with the same single notification |
| `IteratorBar.BarIterStruct.Len` | src/iterator_bar.rs:27-29 | `len` is the source's exact remaining length, which is the wrapped length minus the pulls made (never below 0); it reads and changes nothing |
| `IteratorBar.BarIterStruct.Deref` | src/iterator_bar.rs:15-17 | `deref` gives the owned tracker itself |
| `IteratorBar.BarIterStruct.DerefMut` | src/iterator_bar.rs:21-23 | `deref_mut` lets the caller change the tracker, and only the tracker; the source and the pull history are untouched |
| `IteratorBar.BarIterStruct.MarkStarted` | src/iterator_bar.rs:21-23 | setting `started` through `deref_mut` changes that flag and nothing else |
| `IteratorBar.Scenario` | src/iterator_bar.rs:35-44 | five elements: one pull before the tracker starts refreshes; after an outside `started`, five pulls return the other four elements and `None`, each with one update; the total stays 5 |

## Left out

- The internals of `Bar::update` and `Bar::refresh`: rendering, throttling, terminal output, formatting. `src/std_bar.rs` is not part of this model. Each call is one log event. `StdBar.Bar.Update` and `StdBar.Bar.Refresh` assume that both calls leave `started` and `total` alone. `DriveOpen` and its lemmas do not assume this about `started`: the flag each call leaves is a parameter.
- IteratorBar.DriveNotifiesOncePerPull: it holds only for a tracker whose calls keep `started`. Under that assumption a freshly wrapped adapter never reaches `update(1)` unless outside code sets `started`. `IteratorBar.DriveOpenNotifies` states the rule for any tracker.
- IteratorBar.DriveCounts: the same assumption as above. With it, a fresh adapter drained with no outside help records no unit of progress. `IteratorBar.DriveOpenCounts` counts for any tracker, and `IteratorBar.DriveStartedByFirstCall` covers a tracker that sets `started` on its first call.
- IteratorBar.BarIterStruct.Next and IteratorBar.BarIterStruct.NextBack: the class uses the tracker that keeps `started` (`pb == Notify(old(pb))`). What a real `Bar` does to its own flag inside the call is covered only by the value-level `DriveOpen`.
- The other fields of `Bar` filled in by `..Default::default()`. Only `started`, `total` and the received calls are modelled.
- Real `size_hint` of arbitrary iterators, and infinite or unbounded sources. The source is a finite, exact-size sequence. Its lower bound is its remaining length.
- Non-fused sources. The modelled source keeps returning `None` after its first `None`. Rust's `Iterator` does not promise that, and `BarIterStruct` does not implement `FusedIterator`. So `Iter.BareExhausted`, `IteratorBar.DriveExhausted` and the `k` pulls past the end in the drain lemmas describe this source, not every source the adapter can wrap.
- The `usize` to `u64` cast of the total and the `usize` result of `len`. Both are `nat`.
- The trait bounds that make `next_back` and `len` conditional, and the `Debug` derive. They select capabilities and add no behaviour; this source provides all capabilities.
- Dropping the adapter and finalising its tracker. That follows `Bar`'s own rules, which are not shown.
- Arbitrary mutation through `&mut Bar` is modelled as handing back a whole new tracker value (`DerefMut`). `Drive` and its lemmas cover runs of pulls with no such change between them. `Scenario` pulls through the class with one such change mid-run.

/**
 * `UpdateStatusNotifier`: the watch on the sentinel file's directory and the
 * stream pipeline that turns inotify events into calls of the status consumer
 * (filter by name, map to an optional snapshot, hand each snapshot over in order).
 */
module Notifier {
  import opened Wrappers
  import opened Io
  import opened Paths
  import opened Indications
  import opened Seqs

  /** An inotify event, together with the clock and release readings its snapshot would take. */
  datatype Arrival = Arrival(event: Event, env: Env)

  /** The watch is registered for creations and deletions only. */
  const WatchMask: set<EventFlag> := {InCreate, InDelete}

  /** The error both path checks report. */
  const InvalidSentinelPath: IoError := IoError(NotFound, "Invalid path to reboot sentinel file")

  /** An established watch: the sentinel's file name, the directory watched and the event mask. */
  datatype SentinelWatch = SentinelWatch(sentinel: string, dir: Path, mask: set<EventFlag>)

  /** `add_watch`: watch the parent directory of `path`; `watch` is what inotify answers. */
  function AddWatch(path: Path, watch: Outcome<IoError>): (r: Result<Path, IoError>)
    ensures Parent(path).None? ==> r == Err(InvalidSentinelPath)
    ensures Parent(path).Some? && watch.Fail? ==> r == Err(watch.error)
    ensures r.Ok? <==> Parent(path).Some? && watch.Pass?
    ensures r.Ok? ==> Parent(path) == Some(r.value)
  {
    match Parent(path)
    case None => Err(InvalidSentinelPath)
    case Some(dir) =>
      match watch
      case Fail(e) => Err(e)
      case Pass => Ok(dir)
  }

  /**
   * The set-up half of `new_with_path_and_consumer`: check for a file name, create the
   * inotify instance (`init` is its outcome), then add the watch (`watch` is its outcome).
   */
  function NewWatch(path: Path, init: Outcome<IoError>, watch: Outcome<IoError>): (r: Result<SentinelWatch, IoError>)
    ensures FileName(path).None? ==> r == Err(InvalidSentinelPath)
    ensures FileName(path).Some? && init.Fail? ==> r == Err(init.error)
    ensures FileName(path).Some? && init.Pass? && watch.Fail? ==> r == Err(watch.error)
    ensures r.Ok? <==> FileName(path).Some? && init.Pass? && watch.Pass?
    ensures r.Ok? ==> r.value == SentinelWatch(FileName(path).value, Parent(path).value, WatchMask)
  {
    match FileName(path)
    case None => Err(InvalidSentinelPath)
    case Some(name) =>
      match init
      case Fail(e) => Err(e)
      case Pass =>
        match AddWatch(path, watch)
        case Err(e) => Err(e)
        case Ok(dir) => Ok(SentinelWatch(name, dir, WatchMask))
  }

  /** A path without a parent directory is always rejected as an invalid sentinel path. */
  lemma NoParentIsRejected(path: Path, init: Outcome<IoError>, watch: Outcome<IoError>)
    requires Parent(path).None?
    ensures NewWatch(path, init, watch) == Err(InvalidSentinelPath)
  {
  }

  /** `stream.filter`: the events whose entry name is the sentinel's file name, in order. */
  function FilterByName(sentinel: string, arrivals: seq<Arrival>): (kept: seq<Arrival>)
    ensures |kept| <= |arrivals|
    ensures forall a | a in kept :: a in arrivals && a.event.name == sentinel
    ensures forall i | 0 <= i < |arrivals| && arrivals[i].event.name == sentinel :: arrivals[i] in kept
    ensures (forall i | 0 <= i < |arrivals| :: arrivals[i].event.name == sentinel) ==> kept == arrivals
  {
    if |arrivals| == 0 then []
    else
      (if arrivals[0].event.name == sentinel then [arrivals[0]] else [])
      + FilterByName(sentinel, arrivals[1..])
  }

  /** `stream.map(from_inotify_event)`: one optional snapshot per event. */
  function ToIndications(arrivals: seq<Arrival>): (opts: seq<Option<UpdateStatusIndication>>)
    ensures |opts| == |arrivals|
    ensures forall i | 0 <= i < |arrivals| :: opts[i] == FromInotifyEvent(arrivals[i].event, arrivals[i].env)
  {
    seq(|arrivals|, i requires 0 <= i < |arrivals| => FromInotifyEvent(arrivals[i].event, arrivals[i].env))
  }

  /** `for_each(if let Some(..) = v { consumer.status_changed(..) })`: the consumer calls, in order. */
  function Delivered(opts: seq<Option<UpdateStatusIndication>>): (calls: seq<UpdateStatusIndication>)
    ensures |calls| <= |opts|
    ensures forall c | c in calls :: Some(c) in opts
    ensures forall i | 0 <= i < |opts| && opts[i].Some? :: opts[i].value in calls
    ensures (forall i | 0 <= i < |opts| :: opts[i].Some?) ==> |calls| == |opts|
  {
    if |opts| == 0 then []
    else
      (if opts[0].Some? then [opts[0].value] else []) + Delivered(opts[1..])
  }

  /** The snapshots the consumer receives, in the order it receives them. */
  function Notify(sentinel: string, arrivals: seq<Arrival>): (calls: seq<UpdateStatusIndication>)
    ensures |calls| <= |arrivals|
    ensures forall c | c in calls :: TwoValued(c) && c.progress == 0.0 && c.newSize == 0
  {
    Delivered(ToIndications(FilterByName(sentinel, arrivals)))
  }

  lemma {:induction false} FilterByNameAppend(sentinel: string, a: seq<Arrival>, b: seq<Arrival>)
    ensures FilterByName(sentinel, a + b) == FilterByName(sentinel, a) + FilterByName(sentinel, b)
  {
    if |a| == 0 {
      AppendEmpty(b);
    } else {
      DropHeadOfAppend(a, b);
      FilterByNameAppend(sentinel, a[1..], b);
      var head := if a[0].event.name == sentinel then [a[0]] else [];
      var fa, fb := FilterByName(sentinel, a[1..]), FilterByName(sentinel, b);
      calc {
        FilterByName(sentinel, a + b);
        head + FilterByName(sentinel, (a + b)[1..]);
        head + FilterByName(sentinel, a[1..] + b);
        head + (fa + fb);
        { AppendAssociative(head, fa, fb); }
        head + fa + fb;
        FilterByName(sentinel, a) + fb;
      }
    }
  }

  lemma {:induction false} DeliveredAppend(a: seq<Option<UpdateStatusIndication>>, b: seq<Option<UpdateStatusIndication>>)
    ensures Delivered(a + b) == Delivered(a) + Delivered(b)
  {
    if |a| == 0 {
      AppendEmpty(b);
    } else {
      DropHeadOfAppend(a, b);
      DeliveredAppend(a[1..], b);
      var head := if a[0].Some? then [a[0].value] else [];
      AppendAssociative(head, Delivered(a[1..]), Delivered(b));
    }
  }

  /**
   * The pipeline preserves order: the calls for a stream that arrives in two parts
   * are the calls for the first part followed by the calls for the second.
   */
  lemma NotifyAppend(sentinel: string, a: seq<Arrival>, b: seq<Arrival>)
    ensures Notify(sentinel, a + b) == Notify(sentinel, a) + Notify(sentinel, b)
  {
    var fa, fb := FilterByName(sentinel, a), FilterByName(sentinel, b);
    FilterByNameAppend(sentinel, a, b);
    assert ToIndications(fa + fb) == ToIndications(fa) + ToIndications(fb);
    DeliveredAppend(ToIndications(fa), ToIndications(fb));
  }

  /**
   * What one event contributes: a call with the event's snapshot when the name is the
   * sentinel's and the event is a creation or deletion, and no call otherwise.
   */
  lemma NotifySingle(sentinel: string, x: Arrival)
    ensures x.event.name != sentinel ==> Notify(sentinel, [x]) == []
    ensures x.event.name == sentinel && !IsCreate(x.event) && !IsDelete(x.event) ==> Notify(sentinel, [x]) == []
    ensures x.event.name == sentinel && IsCreate(x.event) ==> Notify(sentinel, [x]) == [FromPath(true, x.env)]
    ensures x.event.name == sentinel && !IsCreate(x.event) && IsDelete(x.event) ==> Notify(sentinel, [x]) == [FromPath(false, x.env)]
  {
    assert [x][1..] == [];
    EventAgreesWithPath(x.event, x.env);
    if x.event.name == sentinel {
      var opts := ToIndications([x]);
      assert opts[1..] == [];
    }
  }

  /** The calls one event adds at the end of a stream. */
  function Contribution(sentinel: string, x: Arrival): seq<UpdateStatusIndication>
  {
    var r := FromInotifyEvent(x.event, x.env);
    if x.event.name == sentinel && r.Some? then [r.value] else []
  }

  lemma NotifySnoc(sentinel: string, xs: seq<Arrival>, x: Arrival)
    ensures Notify(sentinel, xs + [x]) == Notify(sentinel, xs) + Contribution(sentinel, x)
  {
    NotifyAppend(sentinel, xs, [x]);
    NotifySingle(sentinel, x);
    EventAgreesWithPath(x.event, x.env);
  }

  /** An event for any other entry of the directory, wherever it arrives, changes nothing. */
  lemma NotifyIgnoresSiblings(sentinel: string, before: seq<Arrival>, sibling: Arrival, after: seq<Arrival>)
    requires sibling.event.name != sentinel
    ensures Notify(sentinel, before + [sibling] + after) == Notify(sentinel, before + after)
  {
    NotifyAppend(sentinel, before + [sibling], after);
    NotifyAppend(sentinel, before, [sibling]);
    NotifySingle(sentinel, sibling);
    NotifyAppend(sentinel, before, after);
  }

  /** Whether an event reaches the consumer: it names the sentinel and creates or deletes it. */
  predicate Retained(sentinel: string, x: Arrival)
  {
    x.event.name == sentinel && (IsCreate(x.event) || IsDelete(x.event))
  }

  function CountRetained(sentinel: string, arrivals: seq<Arrival>): nat
  {
    if |arrivals| == 0 then 0
    else (if Retained(sentinel, arrivals[0]) then 1 else 0) + CountRetained(sentinel, arrivals[1..])
  }

  /** The consumer is called exactly once per retained event. */
  lemma {:induction false} NotifyCount(sentinel: string, arrivals: seq<Arrival>)
    ensures |Notify(sentinel, arrivals)| == CountRetained(sentinel, arrivals)
  {
    if |arrivals| > 0 {
      assert arrivals == [arrivals[0]] + arrivals[1..];
      NotifyAppend(sentinel, [arrivals[0]], arrivals[1..]);
      NotifySingle(sentinel, arrivals[0]);
      NotifyCount(sentinel, arrivals[1..]);
    }
  }

  /** A stream with no event for the sentinel's name never reaches the consumer. */
  lemma {:induction false} NotifyOnlySentinel(sentinel: string, arrivals: seq<Arrival>)
    requires forall i | 0 <= i < |arrivals| :: arrivals[i].event.name != sentinel
    ensures Notify(sentinel, arrivals) == []
  {
    if |arrivals| > 0 {
      assert arrivals == [arrivals[0]] + arrivals[1..];
      NotifyAppend(sentinel, [arrivals[0]], arrivals[1..]);
      NotifySingle(sentinel, arrivals[0]);
      NotifyOnlySentinel(sentinel, arrivals[1..]);
    }
  }

  /**
   * The watch task: drive the pipeline over the events that arrive and then over the
   * stream's end (`None` when inotify closes it, `Some(e)` when it fails with `e`).
   * The future completes with the stream's error, if any.
   */
  method DriveWatch(w: SentinelWatch, arrivals: seq<Arrival>, end: Option<IoError>)
    returns (calls: seq<UpdateStatusIndication>, result: Outcome<IoError>)
    ensures calls == Notify(w.sentinel, arrivals)
    ensures result.Fail? <==> end.Some?
    ensures end.Some? ==> result.error == end.value
  {
    calls := [];
    var i := 0;
    while i < |arrivals|
      invariant 0 <= i <= |arrivals|
      invariant calls == Notify(w.sentinel, arrivals[..i])
    {
      var x := arrivals[i];
      NotifySnoc(w.sentinel, arrivals[..i], x);
      TakeOneMore(arrivals, i);
      var more: seq<UpdateStatusIndication> := [];
      if x.event.name == w.sentinel {
        var indication := FromInotifyEvent(x.event, x.env);
        if indication.Some? {
          more := [indication.value];
        }
      }
      assert more == Contribution(w.sentinel, x);
      calls := calls + more;
      i := i + 1;
    }
    TakeAll(arrivals);
    result := if end.Some? then Fail(end.value) else Pass;
  }
}

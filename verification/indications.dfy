/**
 * Status snapshots (`UpdateStatusIndication`) and the three ways of building one:
 * from a status, from an inotify event, and from the existence of the sentinel file.
 */
module Indications {
  import opened Wrappers
  import opened Status
  import opened Clock
  import opened Release

  /** What building a snapshot reads from outside: the wall clock and `lsb_release`. */
  datatype Env = Env(now: Timestamp, release: ReleaseQuery)

  const I64Min: int := -0x8000_0000_0000_0000

  /** Rust's `i64`. */
  type Int64 = n: int | I64Min <= n <= I64Max

  /** A snapshot; `progress` stands for the `f64` field, which is only ever zero. */
  datatype UpdateStatusIndication = UpdateStatusIndication(
    lastCheckedTime: Timestamp,
    progress: real,
    currentOperation: UpdateStatus,
    newVersion: string,
    newSize: Int64)

  /** The fields every constructor fills the same way: reserved zeros, the clock reading and the release. */
  predicate BuiltIn(ind: UpdateStatusIndication, env: Env)
  {
    && ind.progress == 0.0
    && ind.newSize == 0
    && ind.lastCheckedTime == env.now
    && ind.newVersion == Version(env.release)
  }

  /** The status of a snapshot the broker produces: the sentinel file is there or it is not. */
  predicate TwoValued(ind: UpdateStatusIndication)
  {
    ind.currentOperation == Idle || ind.currentOperation == UpdatedNeedReboot
  }

  /** `UpdateStatusIndication::new`. */
  function New(op: UpdateStatus, env: Env): (ind: UpdateStatusIndication)
    ensures ind.currentOperation == op
    ensures BuiltIn(ind, env)
  {
    UpdateStatusIndication(env.now, 0.0, op, Version(env.release), 0)
  }

  /** `last_checked_time_millis`: the whole milliseconds elapsed since the epoch when the snapshot was built. */
  function LastCheckedTimeMillis(ind: UpdateStatusIndication): (ms: nat)
    ensures ms <= I64Max
    ensures ms * NanosPerMilli <= TotalNanos(ind.lastCheckedTime) < (ms + 1) * NanosPerMilli
  {
    Millis(ind.lastCheckedTime)
  }

  /** The inotify event flags the broker can see. */
  datatype EventFlag = InCreate | InDelete | InModify | InIsDir | InIgnored | InQueueOverflow

  /** One inotify event on the watched directory: the entry's name and the event mask. */
  datatype Event = Event(name: string, mask: set<EventFlag>)

  predicate IsCreate(e: Event)
  {
    InCreate in e.mask
  }

  predicate IsDelete(e: Event)
  {
    InDelete in e.mask
  }

  /**
   * `from_inotify_event`: a creation means a reboot is needed, a deletion means it
   * no longer is (creation is tested first), and any other event gives no snapshot.
   */
  function FromInotifyEvent(e: Event, env: Env): (r: Option<UpdateStatusIndication>)
    ensures r.Some? <==> IsCreate(e) || IsDelete(e)
    ensures r.Some? ==> BuiltIn(r.value, env) && TwoValued(r.value)
    ensures r.Some? ==> (r.value.currentOperation == UpdatedNeedReboot <==> IsCreate(e))
  {
    if IsCreate(e) then Some(New(UpdatedNeedReboot, env))
    else if IsDelete(e) then Some(New(Idle, env))
    else None
  }

  /** `from_path`, given whether the sentinel file exists at the time of the call. */
  function FromPath(present: bool, env: Env): (ind: UpdateStatusIndication)
    ensures BuiltIn(ind, env) && TwoValued(ind)
    ensures ind.currentOperation == UpdatedNeedReboot <==> present
  {
    New(if present then UpdatedNeedReboot else Idle, env)
  }

  /**
   * The snapshot an event yields is the one a query would return once the event has
   * happened: after a creation the file exists, after a deletion it does not.
   */
  lemma EventAgreesWithPath(e: Event, env: Env)
    ensures IsCreate(e) ==> FromInotifyEvent(e, env) == Some(FromPath(true, env))
    ensures !IsCreate(e) && IsDelete(e) ==> FromInotifyEvent(e, env) == Some(FromPath(false, env))
    ensures !IsCreate(e) && !IsDelete(e) ==> FromInotifyEvent(e, env) == None
  {
  }

  /** When an event carries both flags, the creation wins. */
  lemma CreateTakesPrecedence(name: string, env: Env)
    ensures FromInotifyEvent(Event(name, {InCreate, InDelete}), env).value.currentOperation == UpdatedNeedReboot
  {
  }
}

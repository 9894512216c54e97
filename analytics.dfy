/**
 * The analytics service: an append-only event log, three settings, and the effects that react
 * to them. Signals are plain fields. Each effect is an explicit step: it runs only after one of
 * the signals it read tracked in its previous run has been written, it first runs the cleanup
 * its previous run registered, and it records the signals its new run reads tracked. Timers and
 * the page listener are abstract resources with fresh handles; the console is not modelled, the
 * logging effect returns what it would log instead.
 */
module Analytics {

  datatype Option<T> = None | Some(value: T)

  /** An event of the log; `data` is the caller's opaque payload. */
  datatype Event<D> = Event(kind: string, timestamp: int, data: D)

  /** The service's four signals. */
  datatype SignalId = EventsSignal | LoggingSignal | BatchSizeSignal | IntervalSignal

  /** One signal read made by an effect body; `tracked` is false for a read inside `untracked`. */
  datatype Read = Read(signal: SignalId, tracked: bool)

  /** The dependency set a run records: the signals it read outside `untracked`. */
  function Dependencies(trace: seq<Read>): set<SignalId>
  {
    set i | 0 <= i < |trace| && trace[i].tracked :: trace[i].signal
  }

  function Abs(x: int): nat
  {
    if x < 0 then -x else x
  }

  /** JavaScript's `%` with a non-negative dividend (an array length): NaN (None) for divisor 0,
      otherwise what is left of `a` after taking out as many whole |b| as fit. */
  function JsRemainder(a: nat, b: int): (r: Option<nat>)
    ensures r.None? <==> b == 0
    ensures r.Some? ==> r.value < Abs(b) && a == (a / Abs(b)) * Abs(b) + r.value
  {
    if b == 0 then None else Some(a % Abs(b))
  }

  // ----- resources and effect runs -----

  datatype ResourceKind = IntervalTimer(period: int) | TimeoutTimer(delay: int) | UnloadListener

  /**
   * What one run of an effect body does besides logging: the signal reads it makes, the
   * resources it acquires in order, and, when it registers a cleanup, the positions in
   * `acquired` of the resources that cleanup releases.
   */
  datatype EffectRun = EffectRun(trace: seq<Read>, acquired: seq<ResourceKind>, cleanup: Option<seq<nat>>)

  /** The run's cleanup releases every resource the run acquired, and nothing else. */
  predicate ReleasesAll(run: EffectRun)
  {
    if run.cleanup.None? then run.acquired == []
    else
      && (forall j :: j in run.cleanup.value ==> j < |run.acquired|)
      && (forall i :: 0 <= i < |run.acquired| ==> i in run.cleanup.value)
  }

  /** What the logging effect writes to the console in one run. */
  datatype LoggingOutput<D> = LoggingOutput(logged: Option<Event<D>>, batchReached: bool)

  /** The reads of one run of the logging effect: the log tracked, then the flag and, when it
      gets that far, the batch size, both inside `untracked`. It acquires nothing. */
  function LoggingRun(eventCount: nat, loggingEnabled: bool): (run: EffectRun)
    ensures Dependencies(run.trace) == {EventsSignal}
    ensures ReleasesAll(run) && run.acquired == []
  {
    var trace := [Read(EventsSignal, true), Read(LoggingSignal, false)] +
                 (if loggingEnabled && eventCount > 0 then [Read(BatchSizeSignal, false)] else []);
    assert trace[0] == Read(EventsSignal, true);
    EffectRun(trace, [], None)
  }

  /** The logging effect logs the last event exactly when logging is on and the log is not
      empty, and reports a batch when, besides, the log length is a multiple of the batch size. */
  function LoggingDecision<D>(events: seq<Event<D>>, loggingEnabled: bool, batchSize: int): (out: LoggingOutput<D>)
    ensures out.logged.Some? <==> loggingEnabled && |events| > 0
    ensures out.logged.Some? ==> out.logged.value == events[|events| - 1]
    ensures out.batchReached <==> out.logged.Some? && batchSize != 0 && |events| % Abs(batchSize) == 0
  {
    if loggingEnabled && |events| > 0 then
      LoggingOutput(Some(events[|events| - 1]), JsRemainder(|events|, batchSize) == Some(0))
    else
      LoggingOutput(None, false)
  }

  /** One run of the auto-save effect: both settings are read tracked; when enabled it starts
      one interval timer with period `interval` and registers a cleanup that clears it. */
  function AutoSaveRun(interval: int, enabled: bool): (run: EffectRun)
    ensures Dependencies(run.trace) == {IntervalSignal, LoggingSignal}
    ensures ReleasesAll(run)
    ensures run.cleanup.Some? <==> enabled
    ensures |run.acquired| == (if enabled then 1 else 0)
    ensures forall k :: k in run.acquired ==> k == IntervalTimer(interval)
  {
    var trace := [Read(IntervalSignal, true), Read(LoggingSignal, true)];
    assert trace[0].signal == IntervalSignal && trace[1].signal == LoggingSignal;
    if !enabled then EffectRun(trace, [], None)
    else EffectRun(trace, [IntervalTimer(interval)], Some([0]))
  }

  /** One run of the advanced-monitoring effect: the log read tracked and the interval
      untracked; a timeout, a 5-second interval timer and a page-unload listener are acquired
      and one cleanup releases all three. */
  function MonitoringRun(interval: int): (run: EffectRun)
    ensures Dependencies(run.trace) == {EventsSignal}
    ensures ReleasesAll(run) && run.cleanup.Some?
    ensures multiset(run.acquired) == multiset{TimeoutTimer(interval), IntervalTimer(5000), UnloadListener}
  {
    var trace := [Read(EventsSignal, true), Read(IntervalSignal, false)];
    assert trace[0] == Read(EventsSignal, true);
    var cleanup := [0, 1, 2];
    assert forall i :: 0 <= i < 3 ==> i == cleanup[i];
    EffectRun(trace, [TimeoutTimer(interval), IntervalTimer(5000), UnloadListener], Some(cleanup))
  }

  // ----- the service -----

  datatype Reaction = LoggingEffect | AutoSaveEffect | MonitoringEffect(serial: nat)

  /** An acquired timer or listener: its handle and the effect whose cleanup owns it. */
  datatype Resource = Resource(kind: ResourceKind, handle: nat, owner: Reaction)

  /** The signals each effect body reads outside `untracked`. */
  function DeclaredDeps(r: Reaction): set<SignalId>
  {
    match r
    case LoggingEffect => {EventsSignal}
    case AutoSaveEffect => {IntervalSignal, LoggingSignal}
    case MonitoringEffect(_) => {EventsSignal}
  }

  /** The resources a run acquires, under consecutive handles counted from `first`. */
  function Acquire(kinds: seq<ResourceKind>, first: nat, owner: Reaction): (acquired: set<Resource>)
    ensures forall x :: x in acquired ==> x.owner == owner && first <= x.handle < first + |kinds|
    ensures kinds == [] ==> acquired == {}
  {
    set i | 0 <= i < |kinds| :: Resource(kinds[i], first + i, owner)
  }

  lemma AcquireOne(kind: ResourceKind, first: nat, owner: Reaction)
    ensures Acquire([kind], first, owner) == {Resource(kind, first, owner)}
  {
    assert Resource(kind, first, owner) == Resource([kind][0], first + 0, owner);
  }

  /** What the auto-save effect may acquire in one run, at most one interval timer, is a single timer. */
  lemma AcquireSingleTimer(kinds: seq<ResourceKind>, first: nat, owner: Reaction)
    requires owner == AutoSaveEffect ==> |kinds| <= 1 && forall k :: k in kinds ==> k.IntervalTimer?
    ensures owner == AutoSaveEffect ==> SingleTimer(Acquire(kinds, first, owner))
  {
  }

  /** Each registered cleanup releases live resources of its own effect, and every live resource
      is released by the cleanup its owner registered: nothing leaks. Handles stay below `next`. */
  ghost predicate Owned(cleanups: map<Reaction, set<Resource>>, live: set<Resource>, next: nat)
  {
    && (forall r, x :: r in cleanups && x in cleanups[r] ==> x in live && x.owner == r)
    && (forall x :: x in live ==> x.owner in cleanups && x in cleanups[x.owner] && x.handle < next)
  }

  /** Running the cleanup registered for `r` keeps every remaining resource owned. */
  lemma ReleaseKeepsOwned(cleanups: map<Reaction, set<Resource>>, live: set<Resource>, next: nat, r: Reaction)
    requires Owned(cleanups, live, next) && r in cleanups
    ensures Owned(cleanups[r := {}], live - cleanups[r], next)
  {
    forall x | x in live - cleanups[r]
      ensures x.owner != r
    {
    }
  }

  /** Acquiring resources under fresh handles and registering them as `r`'s cleanup, when `r`
      holds nothing, keeps every resource owned. */
  lemma AcquireKeepsOwned(cleanups: map<Reaction, set<Resource>>, live: set<Resource>, next: nat,
                          r: Reaction, acquired: set<Resource>, next': nat)
    requires Owned(cleanups, live, next) && r in cleanups && cleanups[r] == {} && next <= next'
    requires forall x :: x in acquired ==> x.owner == r && x.handle < next'
    ensures Owned(cleanups[r := acquired], live + acquired, next')
  {
  }

  /** Every effect's recorded dependency set lies within the signals its body reads tracked. */
  ghost predicate WithinDeclared(deps: map<Reaction, set<SignalId>>)
  {
    forall r :: r in deps ==> deps[r] <= DeclaredDeps(r)
  }

  lemma RecordWithinDeclared(deps: map<Reaction, set<SignalId>>, r: Reaction, recorded: set<SignalId>)
    requires WithinDeclared(deps) && recorded <= DeclaredDeps(r)
    ensures WithinDeclared(deps[r := recorded])
  {
  }

  /** The auto-save effect holds at most one resource, an interval timer. */
  ghost predicate SingleTimer(held: set<Resource>)
  {
    && (forall x :: x in held ==> x.kind.IntervalTimer?)
    && (forall x, y :: x in held && y in held ==> x == y)
  }

  /** The resources the cleanup of a run releases when that run acquired from `first` on. */
  function Released(run: EffectRun, first: nat, owner: Reaction): (freed: set<Resource>)
    ensures forall x :: x in freed ==> x.owner == owner && first <= x.handle < first + |run.acquired|
    ensures run.cleanup.None? ==> freed == {}
  {
    match run.cleanup
    case None => {}
    case Some(positions) =>
      set j | j in positions && j < |run.acquired| :: Resource(run.acquired[j], first + j, owner)
  }

  /** A run that releases everything it acquires leaves no resource without a cleanup. */
  lemma ReleasedIsAcquired(run: EffectRun, first: nat, owner: Reaction)
    requires ReleasesAll(run)
    ensures Released(run, first, owner) == Acquire(run.acquired, first, owner)
  {
  }

  /** Acquiring a list of resources acquires its first under the first handle, then the rest. */
  lemma AcquireSplit(kinds: seq<ResourceKind>, first: nat, owner: Reaction)
    requires kinds != []
    ensures Acquire(kinds, first, owner) == {Resource(kinds[0], first, owner)} + Acquire(kinds[1..], first + 1, owner)
  {
  }

  /** Fresh consecutive handles make the acquired resources pairwise distinct. */
  lemma {:induction false} AcquireCount(kinds: seq<ResourceKind>, first: nat, owner: Reaction)
    ensures |Acquire(kinds, first, owner)| == |kinds|
    decreases |kinds|
  {
    if kinds != [] {
      AcquireSplit(kinds, first, owner);
      AcquireCount(kinds[1..], first + 1, owner);
      assert Resource(kinds[0], first, owner) !in Acquire(kinds[1..], first + 1, owner);
    }
  }

  /** A run fits effect `r` when it records no dependency beyond `r`'s and leaks nothing, the
      logging effect acquires nothing, and the auto-save effect at most one interval timer. */
  predicate Fits(r: Reaction, run: EffectRun)
  {
    && Dependencies(run.trace) <= DeclaredDeps(r)
    && ReleasesAll(run)
    && (r == LoggingEffect ==> run.acquired == [])
    && (r == AutoSaveEffect ==> |run.acquired| <= 1 && forall k :: k in run.acquired ==> k.IntervalTimer?)
  }

  /**
   * The bookkeeping the reactive runtime keeps for the service's effects: the signals each
   * effect's last run read tracked, the effects notified since their last run, the resources
   * each effect's registered cleanup will release, the resources currently live, the next
   * fresh handle, and how many monitoring effects exist.
   */
  datatype Scheduler = Scheduler(
    deps: map<Reaction, set<SignalId>>,
    dirty: set<Reaction>,
    cleanups: map<Reaction, set<Resource>>,
    live: set<Resource>,
    nextHandle: nat,
    monitors: nat)
  {
    ghost predicate Valid()
    {
      && LoggingEffect in deps && AutoSaveEffect in deps
      && deps.Keys == cleanups.Keys
      && dirty <= deps.Keys
      && WithinDeclared(deps)
      && (forall r :: r in deps && r.MonitoringEffect? ==> r.serial < monitors)
      && Owned(cleanups, live, nextHandle)
      && cleanups[LoggingEffect] == {}
      && SingleTimer(cleanups[AutoSaveEffect])
    }

    /** The effects whose last run read `s` tracked: those a write of `s` schedules again. */
    function Subscribers(s: SignalId): set<Reaction>
    {
      set r | r in deps && s in deps[r]
    }

    /** A write of `s` schedules exactly the effects that read it tracked; an effect whose body
        reads `s` only inside `untracked` is not scheduled by it. */
    function Notify(s: SignalId): (t: Scheduler)
      requires Valid()
      ensures t.Valid()
      ensures forall r :: r in t.dirty <==> r in dirty || (r in deps && s in deps[r])
      ensures forall r :: r in deps && s !in DeclaredDeps(r) ==> (r in t.dirty <==> r in dirty)
      ensures t.deps == deps && t.cleanups == cleanups && t.live == live
      ensures t.nextHandle == nextHandle && t.monitors == monitors
    {
      this.(dirty := dirty + Subscribers(s))
    }

    /** The effects before their first run: logging and auto-save, both scheduled, holding nothing. */
    static function Initial(): (t: Scheduler)
      ensures t.Valid() && t.live == {}
      ensures t.dirty == {LoggingEffect, AutoSaveEffect}
    {
      Scheduler(map[LoggingEffect := {}, AutoSaveEffect := {}], {LoggingEffect, AutoSaveEffect},
                map[LoggingEffect := {}, AutoSaveEffect := {}], {}, 0, 0)
    }

    /** Runs the cleanup registered by `r`'s previous run: what `r` held is released, nothing else. */
    function Cleanup(r: Reaction): (t: Scheduler)
      requires Valid() && r in deps
      ensures t.Valid()
      ensures r in t.cleanups && t.cleanups[r] == {} && t.live == live - cleanups[r]
      ensures forall x :: x in t.live ==> x.owner != r
    {
      ReleaseKeepsOwned(cleanups, live, nextHandle, r);
      this.(live := live - cleanups[r], cleanups := cleanups[r := {}])
    }

    /** The new run of a scheduled effect `r` whose cleanup has run, its body having made `run`:
        the run's resources are acquired under fresh handles, the cleanup it registers releases
        exactly those, its dependency set is recorded, and `r` is no longer scheduled. */
    function Record(r: Reaction, run: EffectRun): (t: Scheduler)
      requires Valid() && r in dirty && cleanups[r] == {} && Fits(r, run)
      ensures t.Valid()
      ensures r in t.cleanups && t.cleanups[r] == Acquire(run.acquired, nextHandle, r)
      ensures forall x :: x in t.live && x !in live ==> x.owner == r && nextHandle <= x.handle
    {
      var acquired := Acquire(run.acquired, nextHandle, r);
      var next := nextHandle + |run.acquired|;
      AcquireKeepsOwned(cleanups, live, nextHandle, r, acquired, next);
      AcquireSingleTimer(run.acquired, nextHandle, r);
      ReleasedIsAcquired(run, nextHandle, r);
      RecordWithinDeclared(deps, r, Dependencies(run.trace));
      this.(deps := deps[r := Dependencies(run.trace)],
            dirty := dirty - {r},
            cleanups := cleanups[r := Released(run, nextHandle, r)],
            live := live + acquired,
            nextHandle := next)
    }

    /** Cleanup-then-run of a scheduled effect `r` whose body made `run`: the cleanup of the
        previous run completes before the new run acquires anything. */
    function Rerun(r: Reaction, run: EffectRun): (t: Scheduler)
      requires Valid() && r in dirty && Fits(r, run)
      ensures t.Valid()
      ensures t.deps == deps[r := Dependencies(run.trace)] && t.dirty == dirty - {r}
      ensures r in t.cleanups && t.cleanups[r] == Acquire(run.acquired, nextHandle, r)
      ensures t.live == (live - cleanups[r]) + t.cleanups[r]
    {
      Cleanup(r).Record(r, run)
    }

    /** A new monitoring effect, scheduled for its first run and holding nothing. */
    function Create(): (t: Scheduler)
      requires Valid()
      ensures t.Valid()
      ensures MonitoringEffect(monitors) !in deps
      ensures t.deps == deps[MonitoringEffect(monitors) := {}]
      ensures t.cleanups == cleanups[MonitoringEffect(monitors) := {}]
      ensures t.dirty == dirty + {MonitoringEffect(monitors)}
      ensures t.live == live && t.nextHandle == nextHandle && t.monitors == monitors + 1
    {
      var r := MonitoringEffect(monitors);
      this.(deps := deps[r := {}], cleanups := cleanups[r := {}], dirty := dirty + {r}, monitors := monitors + 1)
    }

    /** Destruction runs every registered cleanup and unsubscribes every effect: nothing stays
        live, nothing is scheduled, and no later write schedules anything. */
    function Teardown(): (t: Scheduler)
      requires Valid()
      ensures t.Valid()
      ensures t.live == {} && t.dirty == {}
      ensures forall s :: t.Subscribers(s) == {}
    {
      var released := set r, x | r in cleanups && x in cleanups[r] :: x;
      assert live - released == {} by {
        forall x | x in live
          ensures x in released
        {
          assert x.owner in cleanups && x in cleanups[x.owner];
        }
      }
      this.(live := live - released,
            cleanups := map r | r in cleanups :: {},
            deps := map r | r in deps :: {},
            dirty := {})
    }
  }

  /** `AnalyticsService`: the four signals, and the runtime's bookkeeping of its effects. */
  class AnalyticsService<D> {
    var events: seq<Event<D>>
    var enableLogging: bool
    var batchSize: int
    var autoSaveInterval: int
    var effects: Scheduler

    ghost predicate Valid()
      reads this
    {
      effects.Valid()
    }

    /** The constructor creates the logging and the auto-save effects, each scheduled for its first run. */
    constructor ()
      ensures Valid()
      ensures events == [] && enableLogging && batchSize == 5 && autoSaveInterval == 10000
      ensures effects == Scheduler.Initial()
    {
      events := [];
      enableLogging := true;
      batchSize := 5;
      autoSaveInterval := 10000;
      effects := Scheduler.Initial();
    }

    // ----- signal writes -----

    method TrackEvent(kind: string, data: D, now: int)
      requires Valid()
      modifies this
      ensures Valid()
      ensures events == old(events) + [Event(kind, now, data)]
      ensures enableLogging == old(enableLogging) && batchSize == old(batchSize)
      ensures autoSaveInterval == old(autoSaveInterval)
      ensures effects == old(effects).Notify(EventsSignal)
      ensures AutoSaveEffect in effects.dirty <==> AutoSaveEffect in old(effects.dirty)
    {
      events := events + [Event(kind, now, data)];
      effects := effects.Notify(EventsSignal);
    }

    method ToggleLogging()
      requires Valid()
      modifies this
      ensures Valid()
      ensures enableLogging == !old(enableLogging)
      ensures events == old(events) && batchSize == old(batchSize)
      ensures autoSaveInterval == old(autoSaveInterval)
      ensures effects == old(effects).Notify(LoggingSignal)
      ensures forall r :: r != AutoSaveEffect ==> (r in effects.dirty <==> r in old(effects.dirty))
    {
      enableLogging := !enableLogging;
      effects := effects.Notify(LoggingSignal);
    }

    /** No effect reads the batch size tracked, so setting it never schedules a run. */
    method SetBatchSize(size: int)
      requires Valid()
      modifies this
      ensures Valid()
      ensures batchSize == size
      ensures events == old(events) && enableLogging == old(enableLogging)
      ensures autoSaveInterval == old(autoSaveInterval)
      ensures effects.dirty == old(effects.dirty)
      ensures effects == if size == old(batchSize) then old(effects) else old(effects).Notify(BatchSizeSignal)
    {
      var changed := size != batchSize;
      batchSize := size;
      if changed {
        effects := effects.Notify(BatchSizeSignal);
      }
    }

    /** Writing the value the signal already holds notifies nobody. */
    method SetAutoSaveInterval(ms: int)
      requires Valid()
      modifies this
      ensures Valid()
      ensures autoSaveInterval == ms
      ensures events == old(events) && enableLogging == old(enableLogging)
      ensures batchSize == old(batchSize)
      ensures effects == if ms == old(autoSaveInterval) then old(effects) else old(effects).Notify(IntervalSignal)
      ensures forall r :: r != AutoSaveEffect ==> (r in effects.dirty <==> r in old(effects.dirty))
    {
      var changed := ms != autoSaveInterval;
      autoSaveInterval := ms;
      if changed {
        effects := effects.Notify(IntervalSignal);
      }
    }

    method ClearEvents()
      requires Valid()
      modifies this
      ensures Valid()
      ensures events == []
      ensures enableLogging == old(enableLogging) && batchSize == old(batchSize)
      ensures autoSaveInterval == old(autoSaveInterval)
      ensures effects == old(effects).Notify(EventsSignal)
    {
      events := [];
      effects := effects.Notify(EventsSignal);
    }

    // ----- effect runs -----

    /** One run of the logging effect, if the scheduler has it pending; returns what it logs. */
    method RunLoggingEffect() returns (out: Option<LoggingOutput<D>>)
      requires Valid()
      modifies this
      ensures Valid()
      ensures events == old(events) && enableLogging == old(enableLogging)
      ensures batchSize == old(batchSize) && autoSaveInterval == old(autoSaveInterval)
      ensures LoggingEffect !in old(effects.dirty) ==> out == None && effects == old(effects)
      ensures LoggingEffect in old(effects.dirty) ==>
        && out == Some(LoggingDecision(events, enableLogging, batchSize))
        && effects == old(effects).Rerun(LoggingEffect, LoggingRun(|events|, enableLogging))
    {
      if LoggingEffect !in effects.dirty {
        return None;
      }
      effects := effects.Rerun(LoggingEffect, LoggingRun(|events|, enableLogging));
      out := Some(LoggingDecision(events, enableLogging, batchSize));
    }

    /** One run of the auto-save effect, if the scheduler has it pending. */
    method RunAutoSaveEffect()
      requires Valid()
      modifies this
      ensures Valid()
      ensures events == old(events) && enableLogging == old(enableLogging)
      ensures batchSize == old(batchSize) && autoSaveInterval == old(autoSaveInterval)
      ensures effects == if AutoSaveEffect in old(effects.dirty)
                         then old(effects).Rerun(AutoSaveEffect, AutoSaveRun(autoSaveInterval, enableLogging))
                         else old(effects)
    {
      if AutoSaveEffect in effects.dirty {
        effects := effects.Rerun(AutoSaveEffect, AutoSaveRun(autoSaveInterval, enableLogging));
      }
    }

    /** One run of monitoring effect number `serial`, if the scheduler has it pending. */
    method RunMonitoringEffect(serial: nat)
      requires Valid()
      modifies this
      ensures Valid()
      ensures events == old(events) && enableLogging == old(enableLogging)
      ensures batchSize == old(batchSize) && autoSaveInterval == old(autoSaveInterval)
      ensures effects == if MonitoringEffect(serial) in old(effects.dirty)
                         then old(effects).Rerun(MonitoringEffect(serial), MonitoringRun(autoSaveInterval))
                         else old(effects)
    {
      if MonitoringEffect(serial) in effects.dirty {
        effects := effects.Rerun(MonitoringEffect(serial), MonitoringRun(autoSaveInterval));
      }
    }

    /** `setupAdvancedMonitoring`: creates one more monitoring effect, scheduled for its first run. */
    method SetupAdvancedMonitoring()
      requires Valid()
      modifies this
      ensures Valid()
      ensures events == old(events) && enableLogging == old(enableLogging)
      ensures batchSize == old(batchSize) && autoSaveInterval == old(autoSaveInterval)
      ensures effects == old(effects).Create()
    {
      effects := effects.Create();
    }

    /** Destroying the service tears its effects down. */
    method Destroy()
      requires Valid()
      modifies this
      ensures Valid()
      ensures events == old(events) && enableLogging == old(enableLogging)
      ensures batchSize == old(batchSize) && autoSaveInterval == old(autoSaveInterval)
      ensures effects == old(effects).Teardown()
    {
      effects := effects.Teardown();
    }
  }

  /** A run of the logging effect leaves it depending on the event log alone and holding nothing. */
  lemma LoggingStep(fx: Scheduler, eventCount: nat, loggingEnabled: bool)
    requires fx.Valid() && LoggingEffect in fx.dirty
    ensures var t := fx.Rerun(LoggingEffect, LoggingRun(eventCount, loggingEnabled));
      && t.deps[LoggingEffect] == {EventsSignal}
      && t.live == fx.live
  {
  }

  /** A run of the auto-save effect clears the previous timer, then holds exactly one interval timer
      with the configured period when logging is enabled and nothing otherwise; afterwards it
      depends on the interval and the logging flag. */
  lemma AutoSaveStep(fx: Scheduler, interval: int, enabled: bool)
    requires fx.Valid() && AutoSaveEffect in fx.dirty
    ensures var t := fx.Rerun(AutoSaveEffect, AutoSaveRun(interval, enabled));
      && t.deps[AutoSaveEffect] == {IntervalSignal, LoggingSignal}
      && (forall x :: x in fx.cleanups[AutoSaveEffect] ==> x !in t.live)
      && t.cleanups[AutoSaveEffect] ==
           if enabled then {Resource(IntervalTimer(interval), fx.nextHandle, AutoSaveEffect)} else {}
  {
    if enabled {
      AcquireOne(IntervalTimer(interval), fx.nextHandle, AutoSaveEffect);
    }
  }

  /** A run of a monitoring effect releases the three resources of its previous run, then holds
      three fresh ones, all released by the one cleanup it registers; afterwards it depends on
      the event log alone. */
  lemma MonitoringStep(fx: Scheduler, serial: nat, interval: int)
    requires fx.Valid() && MonitoringEffect(serial) in fx.dirty
    ensures var r := MonitoringEffect(serial);
      var t := fx.Rerun(r, MonitoringRun(interval));
      && t.deps[r] == {EventsSignal}
      && (forall x :: x in fx.cleanups[r] ==> x !in t.live)
      && |t.cleanups[r]| == 3
      && t.cleanups[r] <= t.live
  {
    var run := MonitoringRun(interval);
    AcquireCount(run.acquired, fx.nextHandle, MonitoringEffect(serial));
    assert |run.acquired| == |multiset(run.acquired)| == 3;
  }

  /** Since each run's cleanup precedes the next run, at most one auto-save timer is live. */
  lemma AtMostOneAutoSaveTimer(fx: Scheduler, x: Resource, y: Resource)
    requires fx.Valid()
    requires x in fx.live && x.owner == AutoSaveEffect
    requires y in fx.live && y.owner == AutoSaveEffect
    ensures x == y && x.kind.IntervalTimer?
  {
  }
}

/**
 * The event watcher: for every add or update notification it picks the
 * event's most recent timestamp, drops the event when it is older than the
 * configured maximum age, and otherwise counts it, copies it without its
 * managed fields, enriches its involved object through the metadata
 * provider (unless lookups are switched off) and calls the handler once.
 */
module Watcher {
  import opened Wrappers
  import opened GoTime
  import opened Kube

  /**
   * The event's most recent activity: the series' last observation when
   * there is a series and that time is set, else LastTimestamp when set,
   * else EventTime.  FirstTimestamp plays no part.
   */
  function MostRecentTimestamp(e: Event): (t: Time)
    ensures e.series.Some? && !IsZero(e.series.value.lastObservedTime) ==> t == e.series.value.lastObservedTime
    ensures (e.series.None? || IsZero(e.series.value.lastObservedTime)) && !IsZero(e.lastTimestamp) ==> t == e.lastTimestamp
    ensures (e.series.None? || IsZero(e.series.value.lastObservedTime)) && IsZero(e.lastTimestamp) ==> t == e.eventTime
    ensures IsZero(t) <==> (e.series.None? || IsZero(e.series.value.lastObservedTime)) && IsZero(e.lastTimestamp) && IsZero(e.eventTime)
  {
    if e.series.Some? && !IsZero(e.series.value.lastObservedTime) then e.series.value.lastObservedTime
    else if !IsZero(e.lastTimestamp) then e.lastTimestamp
    else e.eventTime
  }

  /** What the age filter decides: keep the event, or discard it and say whether the discard is counted. */
  datatype Verdict = Keep | Discard(counted: bool)

  /**
   * The age filter: an event is discarded exactly when its age exceeds the
   * maximum, and a discard is counted only when the event's timestamp is
   * after the watcher's start-up time (older ones are the initial backlog).
   */
  function Judge(e: Event, now: Time, maxEventAge: Duration, startUpTime: Time): (v: Verdict)
    ensures v.Discard? <==> Since(now, MostRecentTimestamp(e)) > maxEventAge
    ensures v.Discard? ==> (v.counted <==> After(MostRecentTimestamp(e), startUpTime))
  {
    var timestamp := MostRecentTimestamp(e);
    if Since(now, timestamp) > maxEventAge then Discard(After(timestamp, startUpTime)) else Keep
  }

  /**
   * The EnhancedEvent built for a kept event: a copy of the event with its
   * managed fields cleared, and the involved object's reference together
   * with whatever the lookup resolved.
   */
  function Enhance(e: Event, omitLookup: bool, provider: MetadataProvider): (r: EnhancedEvent)
    ensures r.event == e.(managedFields := [])
    ensures r.involvedObject.reference == e.involvedObject
    ensures omitLookup ==> r.involvedObject == Unresolved(e.involvedObject)
    ensures !omitLookup && provider(e.involvedObject).Failure? ==>
      r.involvedObject.labels == map[] && r.involvedObject.annotations == map[] && r.involvedObject.ownerReferences == []
    ensures !omitLookup && provider(e.involvedObject).Failure? ==>
      (r.involvedObject.deleted <==> provider(e.involvedObject).error == NotFound)
    ensures !omitLookup && provider(e.involvedObject).Success? ==>
      var m := provider(e.involvedObject).value;
      r.involvedObject == EnhancedObjectReference(e.involvedObject, m.labels, m.annotations, m.ownerReferences, m.deleted)
  {
    var copy := e.(managedFields := []);
    if omitLookup then
      EnhancedEvent(copy, Unresolved(e.involvedObject))
    else
      match provider(e.involvedObject)
      case Failure(err) =>
        EnhancedEvent(copy, Unresolved(e.involvedObject).(deleted := err == NotFound))
      case Success(m) =>
        EnhancedEvent(copy, EnhancedObjectReference(e.involvedObject, m.labels, m.annotations, m.ownerReferences, m.deleted))
  }

  /** The watcher's configuration as one value. */
  datatype Settings = Settings(maxEventAge: Duration, omitLookup: bool, startUpTime: Time)

  /**
   * What the watcher has done so far: its two counters, the events handed
   * to the handler, and the references the metadata provider was asked about.
   */
  datatype Tally = Tally(
    processed: nat,
    discarded: nat,
    handled: seq<EnhancedEvent>,
    lookups: seq<ObjectReference>)

  /**
   * One notification, observed at clock reading `now`, with the metadata
   * provider as it answers at that moment (a cache in front of the API, so
   * its answer for the same object may change from one event to the next).
   */
  datatype Observation = Observation(event: Event, now: Time, provider: MetadataProvider)

  /** The effect of processing one event (Go's onEvent). */
  function Step(w: Settings, t: Tally, e: Event, now: Time, provider: MetadataProvider): Tally {
    match Judge(e, now, w.maxEventAge, w.startUpTime)
    case Discard(counted) =>
      t.(discarded := t.discarded + if counted then 1 else 0)
    case Keep =>
      Tally(t.processed + 1,
            t.discarded,
            t.handled + [Enhance(e, w.omitLookup, provider)],
            t.lookups + if w.omitLookup then [] else [e.involvedObject])
  }

  /** The effect of processing a stream of notifications in order. */
  function Run(w: Settings, t: Tally, obs: seq<Observation>): Tally
    decreases |obs|
  {
    if obs == [] then t
    else Run(w, Step(w, t, obs[0].event, obs[0].now, obs[0].provider), obs[1..])
  }

  /** The observations the age filter keeps, in order. */
  function Kept(w: Settings, obs: seq<Observation>): seq<Observation>
    decreases |obs|
  {
    if obs == [] then []
    else (if Judge(obs[0].event, obs[0].now, w.maxEventAge, w.startUpTime).Keep? then [obs[0]] else [])
         + Kept(w, obs[1..])
  }

  /** The number of observations whose discard is counted. */
  function CountedDiscards(w: Settings, obs: seq<Observation>): nat
    decreases |obs|
  {
    if obs == [] then 0
    else (if Judge(obs[0].event, obs[0].now, w.maxEventAge, w.startUpTime) == Discard(true) then 1 else 0)
         + CountedDiscards(w, obs[1..])
  }

  /** The EnhancedEvents built for a sequence of observations. */
  function EnhanceAll(w: Settings, obs: seq<Observation>): (r: seq<EnhancedEvent>)
    ensures |r| == |obs|
    ensures forall i :: 0 <= i < |obs| ==> r[i] == Enhance(obs[i].event, w.omitLookup, obs[i].provider)
  {
    seq(|obs|, i requires 0 <= i < |obs| => Enhance(obs[i].event, w.omitLookup, obs[i].provider))
  }

  /** The involved objects of a sequence of observations. */
  function InvolvedObjects(obs: seq<Observation>): (r: seq<ObjectReference>)
    ensures |r| == |obs|
    ensures forall i :: 0 <= i < |obs| ==> r[i] == obs[i].event.involvedObject
  {
    seq(|obs|, i requires 0 <= i < |obs| => obs[i].event.involvedObject)
  }

  /**
   * One event: a discarded event leaves the processed counter, the handler
   * log and the lookup log alone and bumps the discard counter only when
   * counted; a kept event bumps the processed counter once, reaches the
   * handler once, and leaves the discard counter alone.
   */
  lemma StepEffect(w: Settings, t: Tally, e: Event, now: Time, provider: MetadataProvider)
    ensures var t' := Step(w, t, e, now, provider);
      var v := Judge(e, now, w.maxEventAge, w.startUpTime);
      && (v.Discard? ==> t'.processed == t.processed && t'.handled == t.handled && t'.lookups == t.lookups
                         && t'.discarded == t.discarded + (if v.counted then 1 else 0))
      && (v.Keep? ==> t'.processed == t.processed + 1 && t'.discarded == t.discarded
                      && t'.handled == t.handled + [Enhance(e, w.omitLookup, provider)]
                      && t'.lookups == t.lookups + if w.omitLookup then [] else [e.involvedObject])
  {
  }

  /**
   * Over a whole stream: the processed counter grows by the number of kept
   * events, the discard counter by the number of counted discards, the
   * handler sees exactly the kept events, each enhanced with the provider's
   * answer at its own moment, in order, and the provider is asked once per
   * kept event, never when lookups are omitted.
   */
  lemma RunAccounting(w: Settings, t: Tally, obs: seq<Observation>)
    ensures var t' := Run(w, t, obs);
      var kept := Kept(w, obs);
      && t'.processed == t.processed + |kept|
      && t'.discarded == t.discarded + CountedDiscards(w, obs)
      && t'.handled == t.handled + EnhanceAll(w, kept)
      && t'.lookups == t.lookups + (if w.omitLookup then [] else InvolvedObjects(kept))
  {
    RunCounters(w, t, obs);
    RunLogs(w, t, obs);
  }

  lemma {:induction false} RunCounters(w: Settings, t: Tally, obs: seq<Observation>)
    ensures var t' := Run(w, t, obs);
      && t'.processed == t.processed + |Kept(w, obs)|
      && t'.discarded == t.discarded + CountedDiscards(w, obs)
    decreases |obs|
  {
    if obs != [] {
      var o := obs[0];
      StepEffect(w, t, o.event, o.now, o.provider);
      RunCounters(w, Step(w, t, o.event, o.now, o.provider), obs[1..]);
    }
  }

  lemma RunLogs(w: Settings, t: Tally, obs: seq<Observation>)
    ensures var t' := Run(w, t, obs);
      var kept := Kept(w, obs);
      && t'.handled == t.handled + EnhanceAll(w, kept)
      && t'.lookups == t.lookups + (if w.omitLookup then [] else InvolvedObjects(kept))
  {
    RunHandled(w, t, obs);
    RunLookups(w, t, obs);
  }

  lemma {:induction false} RunHandled(w: Settings, t: Tally, obs: seq<Observation>)
    ensures Run(w, t, obs).handled == t.handled + EnhanceAll(w, Kept(w, obs))
    decreases |obs|
  {
    if obs != [] {
      var o, rest := obs[0], obs[1..];
      var t1 := Step(w, t, o.event, o.now, o.provider);
      var keptRest := Kept(w, rest);
      assert Run(w, t, obs) == Run(w, t1, rest);
      StepEffect(w, t, o.event, o.now, o.provider);
      RunHandled(w, t1, rest);
      if Judge(o.event, o.now, w.maxEventAge, w.startUpTime).Keep? {
        assert Kept(w, obs) == [o] + keptRest;
        EnhanceAllAppend(w, [o], keptRest);
        assert EnhanceAll(w, [o]) == [Enhance(o.event, w.omitLookup, o.provider)];
        assert t1.handled == t.handled + EnhanceAll(w, [o]);
      } else {
        assert Kept(w, obs) == keptRest;
        assert t1.handled == t.handled;
      }
    }
  }

  lemma {:induction false} RunLookups(w: Settings, t: Tally, obs: seq<Observation>)
    ensures Run(w, t, obs).lookups == t.lookups + (if w.omitLookup then [] else InvolvedObjects(Kept(w, obs)))
    decreases |obs|
  {
    if obs != [] {
      var o, rest := obs[0], obs[1..];
      var t1 := Step(w, t, o.event, o.now, o.provider);
      var keptRest := Kept(w, rest);
      assert Run(w, t, obs) == Run(w, t1, rest);
      StepEffect(w, t, o.event, o.now, o.provider);
      RunLookups(w, t1, rest);
      if Judge(o.event, o.now, w.maxEventAge, w.startUpTime).Keep? {
        assert Kept(w, obs) == [o] + keptRest;
        InvolvedObjectsAppend([o], keptRest);
        assert InvolvedObjects([o]) == [o.event.involvedObject];
        if !w.omitLookup {
          assert t1.lookups == t.lookups + InvolvedObjects([o]);
        }
      } else {
        assert Kept(w, obs) == keptRest;
        assert t1.lookups == t.lookups;
      }
    }
  }

  lemma EnhanceAllAppend(w: Settings, a: seq<Observation>, b: seq<Observation>)
    ensures EnhanceAll(w, a + b) == EnhanceAll(w, a) + EnhanceAll(w, b)
  {
    assert forall i :: 0 <= i < |a + b| ==> (a + b)[i] == if i < |a| then a[i] else b[i - |a|];
  }

  lemma InvolvedObjectsAppend(a: seq<Observation>, b: seq<Observation>)
    ensures InvolvedObjects(a + b) == InvolvedObjects(a) + InvolvedObjects(b)
  {
    assert forall i :: 0 <= i < |a + b| ==> (a + b)[i] == if i < |a| then a[i] else b[i - |a|];
  }

  /** Every event contributes to at most one counter, so the counters never outrun the stream. */
  lemma {:induction false} CountersBoundedByStream(w: Settings, t: Tally, obs: seq<Observation>)
    ensures var t' := Run(w, t, obs);
      t'.processed + t'.discarded <= t.processed + t.discarded + |obs|
    decreases |obs|
  {
    if obs != [] {
      CountersBoundedByStream(w, Step(w, t, obs[0].event, obs[0].now, obs[0].provider), obs[1..]);
    }
  }

  /** An age exactly at the maximum is kept: the comparison is strict. */
  lemma AgeAtLimitKept(e: Event, now: Time, maxEventAge: Duration, startUpTime: Time)
    requires Since(now, MostRecentTimestamp(e)) == maxEventAge
    ensures Judge(e, now, maxEventAge, startUpTime) == Keep
  {
  }

  /** Backlog events (timestamp at or before start-up) are never counted as discards. */
  lemma BacklogDiscardsUncounted(e: Event, now: Time, maxEventAge: Duration, startUpTime: Time)
    requires MostRecentTimestamp(e) <= startUpTime
    ensures Judge(e, now, maxEventAge, startUpTime) != Discard(true)
  {
  }

  /**
   * An event with no timestamp at all has the saturated age of a zero time,
   * so once the clock is past year 293 it is dropped, and silently when the
   * start-up time is not before Go's zero instant.
   */
  lemma TimelessEventDropped(e: Event, now: Time, maxEventAge: Duration, startUpTime: Time)
    requires e.series.None? && IsZero(e.lastTimestamp) && IsZero(e.eventTime)
    requires now > MAX_INT64 && maxEventAge < MAX_INT64 && startUpTime >= ZERO_TIME
    ensures Judge(e, now, maxEventAge, startUpTime) == Discard(false)
  {
  }

  /**
   * A maximum age that wrapped to a negative Duration discards every event
   * whose timestamp is not in the future.
   */
  lemma NegativeMaxAgeDiscardsAll(e: Event, now: Time, seconds: int, startUpTime: Time)
    requires MAX_INT64 / SECOND < seconds <= (TWO_TO_64 - 1) / SECOND
    requires MostRecentTimestamp(e) <= now
    ensures Judge(e, now, SecondsToDuration(seconds), startUpTime).Discard?
  {
    HugeMaxAgeWrapsNegative(seconds);
  }

  /** Whether an event is kept does not depend on its FirstTimestamp. */
  lemma FirstTimestampIgnored(e: Event, first: Time, now: Time, maxEventAge: Duration, startUpTime: Time)
    ensures MostRecentTimestamp(e.(firstTimestamp := first)) == MostRecentTimestamp(e)
    ensures Judge(e.(firstTimestamp := first), now, maxEventAge, startUpTime) == Judge(e, now, maxEventAge, startUpTime)
  {
  }

  /** A kept event stays kept under any larger maximum age or any earlier clock reading. */
  lemma KeepMonotonic(e: Event, now: Time, earlier: Time, maxEventAge: Duration, larger: Duration, startUpTime: Time)
    requires Judge(e, now, maxEventAge, startUpTime) == Keep
    requires earlier <= now && maxEventAge <= larger
    ensures Judge(e, earlier, larger, startUpTime) == Keep
  {
    SinceMonotonic(earlier, now, MostRecentTimestamp(e));
  }

  /**
   * kube.EventWatcher.  The metrics counters are fields; the handler calls
   * and the metadata-provider calls are recorded in ghost logs.
   */
  class EventWatcher {
    var eventsProcessed: nat
    var eventsDiscarded: nat
    var watchErrors: nat
    /** The process start-up time (a package-level variable in the source). */
    var startUpTime: Time
    const maxEventAge: Duration
    const omitLookup: bool
    ghost var handled: seq<EnhancedEvent>
    ghost var lookups: seq<ObjectReference>

    function Config(): Settings
      reads this
    {
      Settings(maxEventAge, omitLookup, startUpTime)
    }

    ghost function Counts(): Tally
      reads this
    {
      Tally(eventsProcessed, eventsDiscarded, handled, lookups)
    }

    /** NewEventWatcher, without the informer and clients. */
    constructor (maxEventAgeSeconds: int, omitLookup: bool, startUpTime: Time)
      requires IsInt64(maxEventAgeSeconds)
      ensures maxEventAge == SecondsToDuration(maxEventAgeSeconds)
      ensures this.omitLookup == omitLookup && this.startUpTime == startUpTime
      ensures Counts() == Tally(0, 0, [], []) && watchErrors == 0
    {
      eventsProcessed, eventsDiscarded, watchErrors := 0, 0, 0;
      this.startUpTime := startUpTime;
      maxEventAge := SecondsToDuration(maxEventAgeSeconds);
      this.omitLookup := omitLookup;
      handled, lookups := [], [];
    }

    /** The informer's watch-error handler. */
    method OnWatchError()
      modifies this`watchErrors
      ensures watchErrors == old(watchErrors) + 1
    {
      watchErrors := watchErrors + 1;
    }

    method IsEventDiscarded(event: Event, now: Time) returns (discarded: bool)
      modifies this`eventsDiscarded
      ensures discarded <==> Judge(event, now, maxEventAge, startUpTime).Discard?
      ensures eventsDiscarded == old(eventsDiscarded) + if Judge(event, now, maxEventAge, startUpTime) == Discard(true) then 1 else 0
    {
      var timestamp := MostRecentTimestamp(event);
      var eventAge := Since(now, timestamp);
      if eventAge > maxEventAge {
        if After(timestamp, startUpTime) {
          eventsDiscarded := eventsDiscarded + 1;
        }
        return true;
      }
      return false;
    }

    method OnEvent(event: Event, now: Time, provider: MetadataProvider)
      modifies this`eventsProcessed, this`eventsDiscarded, this`handled, this`lookups
      ensures Counts() == Step(Config(), old(Counts()), event, now, provider)
    {
      var discarded := IsEventDiscarded(event, now);
      if discarded {
        return;
      }
      eventsProcessed := eventsProcessed + 1;
      var ev := EnhancedEvent(event, Unresolved(EMPTY_REFERENCE));
      ev := ev.(event := ev.event.(managedFields := []));
      if omitLookup {
        ev := ev.(involvedObject := ev.involvedObject.(reference := event.involvedObject));
      } else {
        var objectMetadata := provider(event.involvedObject);
        lookups := lookups + [event.involvedObject];
        match objectMetadata
        case Failure(err) =>
          if err == NotFound {
            ev := ev.(involvedObject := ev.involvedObject.(deleted := true));
          }
          ev := ev.(involvedObject := ev.involvedObject.(reference := event.involvedObject));
        case Success(m) =>
          ev := ev.(involvedObject := ev.involvedObject.(labels := m.labels));
          ev := ev.(involvedObject := ev.involvedObject.(annotations := m.annotations));
          ev := ev.(involvedObject := ev.involvedObject.(ownerReferences := m.ownerReferences));
          ev := ev.(involvedObject := ev.involvedObject.(reference := event.involvedObject));
          ev := ev.(involvedObject := ev.involvedObject.(deleted := m.deleted));
      }
      handled := handled + [ev];
    }

    method OnAdd(obj: Event, isInInitialList: bool, now: Time, provider: MetadataProvider)
      modifies this`eventsProcessed, this`eventsDiscarded, this`handled, this`lookups
      ensures Counts() == Step(Config(), old(Counts()), obj, now, provider)
    {
      OnEvent(obj, now, provider);
    }

    /** An update is processed as a fresh observation of the new object. */
    method OnUpdate(oldObj: Event, newObj: Event, now: Time, provider: MetadataProvider)
      modifies this`eventsProcessed, this`eventsDiscarded, this`handled, this`lookups
      ensures Counts() == Step(Config(), old(Counts()), newObj, now, provider)
    {
      OnEvent(newObj, now, provider);
    }

    /** Deletions are ignored. */
    method OnDelete(obj: Event)
      ensures unchanged(this)
    {
    }

    method SetStartUpTime(time: Time)
      modifies this`startUpTime
      ensures startUpTime == time
    {
      startUpTime := time;
    }
  }
}

/**
  The progress-monitor protocol: the events a monitor is notified of, the
  registration list kept by the orchestrator, and the fan-out of each event to
  every registered monitor in registration order.
 */
module Monitors {
  import opened Sources

  /** A registered observer; two monitors are the same when their identities are. */
  datatype Monitor = Monitor(id: nat)

  datatype GenerationType = AutoGenerated | ManuallyGenerated

  datatype Event =
    | GenerationStarted(dataset: TestSource, schemaCount: nat)
    | SourceGenerationStarted(source: Source, kind: GenerationType)
    | SourceGenerationExecuted(source: Source, kind: GenerationType, testCount: nat)
    | GenerationFinished

  predicate NoDuplicates(ms: seq<Monitor>)
  {
    forall i, j :: 0 <= i < j < |ms| ==> ms[i] != ms[j]
  }

  /** Registers a monitor unless it is registered already. */
  function Add(ms: seq<Monitor>, m: Monitor): (r: seq<Monitor>)
    ensures NoDuplicates(ms) ==> NoDuplicates(r)
    ensures forall x :: x in r <==> x in ms || x == m
    ensures |ms| <= |r| && r[..|ms|] == ms
    ensures |r| == if m in ms then |ms| else |ms| + 1
  {
    if m in ms then ms else ms + [m]
  }

  /** The position of the first registration of a monitor. */
  function FirstIndex(ms: seq<Monitor>, m: Monitor): (i: nat)
    requires m in ms
    ensures i < |ms| && ms[i] == m
    ensures forall j :: 0 <= j < i ==> ms[j] != m
  {
    if ms[0] == m then 0 else 1 + FirstIndex(ms[1..], m)
  }

  /** Unregisters a monitor: its first registration is dropped, nothing else moves. */
  function Remove(ms: seq<Monitor>, m: Monitor): (r: seq<Monitor>)
    ensures m !in ms ==> r == ms
    ensures m in ms ==> r == ms[..FirstIndex(ms, m)] + ms[FirstIndex(ms, m) + 1..]
    decreases |ms|
  {
    if |ms| == 0 then []
    else if ms[0] == m then ms[1..]
    else
      var rest := Remove(ms[1..], m);
      assert m in ms ==>
        var i := FirstIndex(ms, m);
        && i == 1 + FirstIndex(ms[1..], m)
        && ms[1..][..i - 1] == ms[1..i]
        && ms[1..][i..] == ms[i + 1..]
        && [ms[0]] + ms[1..i] == ms[..i];
      [ms[0]] + rest
  }

  /** On a list without duplicates, removal drops exactly the given monitor and keeps the list duplicate-free. */
  lemma RemoveKeepsNoDuplicates(ms: seq<Monitor>, m: Monitor)
    ensures NoDuplicates(ms) ==> NoDuplicates(Remove(ms, m))
    ensures NoDuplicates(ms) ==> m !in Remove(ms, m)
    ensures NoDuplicates(ms) ==> forall x :: x in Remove(ms, m) <==> x in ms && x != m
  {
  }

  /** Registering a monitor twice is the same as registering it once. */
  lemma AddIsIdempotent(ms: seq<Monitor>, m: Monitor)
    ensures Add(Add(ms, m), m) == Add(ms, m)
  {
  }

  /** Unregistering a monitor that was just registered restores the list. */
  lemma RemoveUndoesAdd(ms: seq<Monitor>, m: Monitor)
    requires m !in ms
    ensures Remove(Add(ms, m), m) == ms
  {
  }

  /** One notification: an event delivered to one monitor. */
  datatype Notification = Notify(monitor: Monitor, event: Event)

  /** One event delivered to every registered monitor, in registration order. */
  function Broadcast(ms: seq<Monitor>, e: Event): seq<Notification>
  {
    if |ms| == 0 then [] else [Notify(ms[0], e)] + Broadcast(ms[1..], e)
  }

  /** A stream of events, each broadcast to all monitors before the next one. */
  function Deliver(ms: seq<Monitor>, events: seq<Event>): seq<Notification>
  {
    if |events| == 0 then [] else Broadcast(ms, events[0]) + Deliver(ms, events[1..])
  }

  /** The events a given monitor receives, in order. */
  function Received(calls: seq<Notification>, m: Monitor): seq<Event>
  {
    if |calls| == 0 then []
    else (if calls[0].monitor == m then [calls[0].event] else []) + Received(calls[1..], m)
  }

  lemma {:induction false} ReceivedDistributes(a: seq<Notification>, b: seq<Notification>, m: Monitor)
    ensures Received(a + b, m) == Received(a, m) + Received(b, m)
    decreases |a|
  {
    if |a| > 0 {
      assert (a + b)[1..] == a[1..] + b;
      ReceivedDistributes(a[1..], b, m);
    } else {
      assert a + b == b;
    }
  }

  /** A broadcast reaches a monitor once when it is registered once, and not at all otherwise. */
  lemma {:induction false} BroadcastReachesOnce(ms: seq<Monitor>, e: Event, m: Monitor)
    requires NoDuplicates(ms)
    ensures Received(Broadcast(ms, e), m) == if m in ms then [e] else []
    decreases |ms|
  {
    if |ms| > 0 {
      var b := Broadcast(ms, e);
      assert b[1..] == Broadcast(ms[1..], e);
      BroadcastReachesOnce(ms[1..], e, m);
      if ms[0] == m {
        assert m !in ms[1..] by {
          forall j | 0 <= j < |ms[1..]| ensures ms[1..][j] != m {
            assert ms[1..][j] == ms[j + 1];
          }
        }
      }
    }
  }

  /**
    Every monitor registered once receives exactly the event stream, and a
    monitor that is not registered receives nothing.
   */
  lemma {:induction false} EachMonitorReceivesTheStream(ms: seq<Monitor>, events: seq<Event>, m: Monitor)
    requires NoDuplicates(ms)
    ensures Received(Deliver(ms, events), m) == if m in ms then events else []
    decreases |events|
  {
    if |events| > 0 {
      ReceivedDistributes(Broadcast(ms, events[0]), Deliver(ms, events[1..]), m);
      BroadcastReachesOnce(ms, events[0], m);
      EachMonitorReceivesTheStream(ms, events[1..], m);
      if m in ms {
        assert [events[0]] + events[1..] == events;
      }
    }
  }
}

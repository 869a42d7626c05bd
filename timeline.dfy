/**
 * A scripted timeline: events sorted by time fire once each, in order, as
 * a cursor passes them; every firing runs the action's handler (when one
 * is registered) and then announces the event. Handler calls and
 * announcements are recorded in one append-only log.
 */
module Timelines {
  import opened Types

  datatype Action =
    | CameraMoveTo | CameraLookAt | CameraFocusTo
    | CharacterWalkTo | CharacterSpeak
    | SplatsShatter | SplatsExplode
    | AudioPlay

  /** Handler parameters are free-form records. */
  datatype ParamValue = Text(text: string) | Number(number: real) | Numbers(numbers: seq<real>)
  type Params = map<string, ParamValue>

  datatype TimelineEvent = TimelineEvent(time: real, action: Action, target: Option<string>, params: Params)

  /** Handlers are identified by name; calling one is a logged signal. */
  type HandlerId = string

  datatype Signal =
    | Called(handler: HandlerId, params: Params)   // a handler ran with these params
    | Triggered(event: TimelineEvent)              // the "event" notification
    | Completed                                    // the "completed" notification

  ghost predicate SortedByTime(es: seq<TimelineEvent>)
  {
    forall i, j :: 0 <= i < j < |es| ==> es[i].time <= es[j].time
  }

  /** The events of `es` at time `t`, in their order in `es`. */
  function AtTime(es: seq<TimelineEvent>, t: real): seq<TimelineEvent>
  {
    if es == [] then [] else (if es[0].time == t then [es[0]] else []) + AtTime(es[1..], t)
  }

  /** `e` goes before the first event that is not earlier than it. */
  function Insert(e: TimelineEvent, es: seq<TimelineEvent>): (r: seq<TimelineEvent>)
    requires SortedByTime(es)
    ensures SortedByTime(r)
    ensures multiset(r) == multiset(es) + multiset{e}
    ensures |r| == |es| + 1 && (r[0] == e || (es != [] && r[0] == es[0]))
  {
    if es == [] || e.time <= es[0].time then
      [e] + es
    else
      TailSorted(es);
      var rest := Insert(e, es[1..]);
      assert es[0].time <= rest[0].time;
      ConsSorted(es[0], rest);
      ConsMultiset(es, rest, e);
      [es[0]] + rest
  }

  lemma ConsMultiset(es: seq<TimelineEvent>, rest: seq<TimelineEvent>, e: TimelineEvent)
    requires es != [] && multiset(rest) == multiset(es[1..]) + multiset{e}
    ensures multiset([es[0]] + rest) == multiset(es) + multiset{e}
  {
    assert es == [es[0]] + es[1..];
  }

  lemma TailSorted(es: seq<TimelineEvent>)
    requires SortedByTime(es) && es != []
    ensures SortedByTime(es[1..])
  {
  }

  /** An event no later than the head of a sorted script can go in front of it. */
  lemma ConsSorted(x: TimelineEvent, es: seq<TimelineEvent>)
    requires SortedByTime(es) && (es != [] ==> x.time <= es[0].time)
    ensures SortedByTime([x] + es)
  {
  }

  lemma AtTimeCons(e: TimelineEvent, es: seq<TimelineEvent>, t: real)
    ensures AtTime([e] + es, t) == (if e.time == t then [e] else []) + AtTime(es, t)
  {
    assert ([e] + es)[1..] == es;
  }

  /** Inserting `e` puts it ahead of every event at its own time. */
  lemma {:induction false} InsertAtTime(e: TimelineEvent, es: seq<TimelineEvent>, t: real)
    requires SortedByTime(es)
    ensures AtTime(Insert(e, es), t) == (if e.time == t then [e] else []) + AtTime(es, t)
  {
    if es == [] || e.time <= es[0].time {
      AtTimeCons(e, es, t);
    } else {
      TailSorted(es);
      var rest := Insert(e, es[1..]);
      InsertAtTime(e, es[1..], t);
      AtTimeCons(es[0], rest, t);
      assert es == [es[0]] + es[1..];
      AtTimeCons(es[0], es[1..], t);
      var later := AtTime(es[1..], t);
      if e.time == t {
        assert AtTime(rest, t) == [e] + later;
        assert AtTime(Insert(e, es), t) == [e] + later;
        assert AtTime(es, t) == later;
      } else {
        assert AtTime(rest, t) == later;
      }
    }
  }

  /**
   * The constructor's ordering of the script: sorted by time, a permutation
   * of the input, and stable (events at equal times keep their order).
   */
  function SortByTime(es: seq<TimelineEvent>): (r: seq<TimelineEvent>)
    ensures SortedByTime(r)
    ensures multiset(r) == multiset(es)
    ensures forall t {:trigger AtTime(r, t)} :: AtTime(r, t) == AtTime(es, t)
  {
    if es == [] then []
    else
      var rest := SortByTime(es[1..]);
      assert es == [es[0]] + es[1..];
      assert forall t {:trigger AtTime(es, t)} :: AtTime(es, t) == (if es[0].time == t then [es[0]] else []) + AtTime(es[1..], t);
      var r := Insert(es[0], rest);
      assert forall t {:trigger AtTime(r, t)} :: AtTime(r, t) == (if es[0].time == t then [es[0]] else []) + AtTime(rest, t) by {
        forall t ensures AtTime(r, t) == (if es[0].time == t then [es[0]] else []) + AtTime(rest, t) {
          InsertAtTime(es[0], rest, t);
        }
      }
      r
  }

  /** Where a dispatch starting at `c` stops: the first event after `t`, or the end. */
  function NextCursor(es: seq<TimelineEvent>, c: nat, t: real): (r: nat)
    requires c <= |es|
    ensures c <= r <= |es|
    ensures forall k :: c <= k < r ==> es[k].time <= t
    ensures r == |es| || es[r].time > t
    decreases |es| - c
  {
    if c < |es| && es[c].time <= t then NextCursor(es, c + 1, t) else c
  }

  /** On a sorted script the dispatch fires exactly the unfired events due by `t`. */
  lemma NextCursorExact(es: seq<TimelineEvent>, c: nat, t: real)
    requires SortedByTime(es) && c <= |es|
    ensures forall k :: c <= k < |es| ==> (k < NextCursor(es, c, t) <==> es[k].time <= t)
  {
    var r := NextCursor(es, c, t);
    forall k | r <= k < |es|
      ensures es[k].time > t
    {
      assert es[r].time <= es[k].time;
    }
  }

  /** Running an event's handler, if its action has one. */
  function Execution(handlers: map<Action, HandlerId>, e: TimelineEvent): seq<Signal>
  {
    if e.action in handlers then [Called(handlers[e.action], e.params)] else []
  }

  /** The log written by firing `es[lo..hi]`. */
  function Fired(es: seq<TimelineEvent>, handlers: map<Action, HandlerId>, lo: nat, hi: nat): seq<Signal>
    requires lo <= hi <= |es|
    decreases hi
  {
    if lo == hi then []
    else Fired(es, handlers, lo, hi - 1) + Execution(handlers, es[hi - 1]) + [Triggered(es[hi - 1])]
  }

  /** The events announced in a log, in order. */
  function Announced(log: seq<Signal>): seq<TimelineEvent>
  {
    if log == [] then []
    else Announced(log[..|log| - 1]) + (if log[|log| - 1].Triggered? then [log[|log| - 1].event] else [])
  }

  /** The handler calls in a log, in order. */
  function Calls(log: seq<Signal>): seq<Signal>
  {
    if log == [] then []
    else Calls(log[..|log| - 1]) + (if log[|log| - 1].Called? then [log[|log| - 1]] else [])
  }

  lemma {:induction false} AnnouncedAppend(a: seq<Signal>, b: seq<Signal>)
    ensures Announced(a + b) == Announced(a) + Announced(b)
    ensures Calls(a + b) == Calls(a) + Calls(b)
    decreases |b|
  {
    if b == [] {
      assert a + b == a;
    } else {
      assert (a + b)[..|a + b| - 1] == a + b[..|b| - 1];
      AnnouncedAppend(a, b[..|b| - 1]);
    }
  }

  lemma Single(s: Signal)
    ensures Announced([s]) == (if s.Triggered? then [s.event] else [])
    ensures Calls([s]) == (if s.Called? then [s] else [])
  {
    assert [s][..0] == [];
  }

  /** A handler run is a call and announces nothing. */
  lemma ExecutionSignals(handlers: map<Action, HandlerId>, e: TimelineEvent)
    ensures Announced(Execution(handlers, e)) == []
    ensures Calls(Execution(handlers, e)) == Execution(handlers, e)
  {
    if e.action in handlers {
      Single(Called(handlers[e.action], e.params));
    }
  }

  /** The signals written for one fired event. */
  lemma FiredStep(es: seq<TimelineEvent>, handlers: map<Action, HandlerId>, lo: nat, hi: nat)
    requires lo < hi <= |es|
    ensures Announced(Fired(es, handlers, lo, hi)) == Announced(Fired(es, handlers, lo, hi - 1)) + [es[hi - 1]]
    ensures Calls(Fired(es, handlers, lo, hi)) == Calls(Fired(es, handlers, lo, hi - 1)) + Execution(handlers, es[hi - 1])
  {
    var e := es[hi - 1];
    var head := Fired(es, handlers, lo, hi - 1);
    var tail := Execution(handlers, e) + [Triggered(e)];
    assert Fired(es, handlers, lo, hi) == head + tail;
    AnnouncedAppend(head, tail);
    AnnouncedAppend(Execution(handlers, e), [Triggered(e)]);
    Single(Triggered(e));
    ExecutionSignals(handlers, e);
  }

  /**
   * Firing `es[lo..hi]` announces exactly those events, once each and in
   * order, whether or not their actions have handlers.
   */
  lemma {:induction false} FiredAnnouncesEach(es: seq<TimelineEvent>, handlers: map<Action, HandlerId>, lo: nat, hi: nat)
    requires lo <= hi <= |es|
    ensures Announced(Fired(es, handlers, lo, hi)) == es[lo..hi]
    decreases hi - lo
  {
    if lo < hi {
      FiredAnnouncesEach(es, handlers, lo, hi - 1);
      FiredStep(es, handlers, lo, hi);
      SliceExtends(es, lo, hi);
    }
  }

  lemma AppendRegroup<T>(a: seq<T>, b: seq<T>, c: seq<T>, d: seq<T>)
    ensures a + b + c + d == a + (b + c + d)
  {
  }

  lemma SliceExtends<T>(s: seq<T>, lo: nat, hi: nat)
    requires lo < hi <= |s|
    ensures s[lo..hi] == s[lo..hi - 1] + [s[hi - 1]]
  {
  }

  /** Handler calls made by firing `es[lo..hi]`: one per event whose action has a handler. */
  function HandlerCalls(es: seq<TimelineEvent>, handlers: map<Action, HandlerId>, lo: nat, hi: nat): seq<Signal>
    requires lo <= hi <= |es|
    decreases hi
  {
    if lo == hi then [] else HandlerCalls(es, handlers, lo, hi - 1) + Execution(handlers, es[hi - 1])
  }

  lemma {:induction false} FiredCalls(es: seq<TimelineEvent>, handlers: map<Action, HandlerId>, lo: nat, hi: nat)
    requires lo <= hi <= |es|
    ensures Calls(Fired(es, handlers, lo, hi)) == HandlerCalls(es, handlers, lo, hi)
    decreases hi - lo
  {
    if lo < hi {
      FiredCalls(es, handlers, lo, hi - 1);
      FiredStep(es, handlers, lo, hi);
    }
  }

  class Timeline {
    const duration: real
    const events: seq<TimelineEvent>
    var handlers: map<Action, HandlerId>
    var clockStart: real
    var cursor: nat
    var playing: bool
    var currentTime: real
    var log: seq<Signal>

    ghost predicate Valid()
      reads this
    {
      SortedByTime(events) && cursor <= |events|
    }

    constructor (duration: real, events: seq<TimelineEvent>, handlers: map<Action, HandlerId>)
      ensures Valid()
      ensures this.duration == duration && this.events == SortByTime(events) && this.handlers == handlers
      ensures clockStart == 0.0 && cursor == 0 && !playing && currentTime == 0.0 && log == []
    {
      this.duration := duration;
      this.events := SortByTime(events);
      this.handlers := handlers;
      clockStart := 0.0;
      cursor := 0;
      playing := false;
      currentTime := 0.0;
      log := [];
    }

    /** `now` is the wall clock in seconds. */
    method Start(startAt: real, now: real)
      requires Valid()
      modifies this
      ensures Valid()
      ensures playing && cursor == 0 && clockStart == now - startAt && currentTime == startAt
      ensures handlers == old(handlers) && log == old(log)
    {
      playing := true;
      cursor := 0;
      clockStart := now - startAt;
      currentTime := startAt;
    }

    method Stop()
      requires Valid()
      modifies this`playing
      ensures Valid() && !playing
    {
      playing := false;
    }

    method Reset()
      requires Valid()
      modifies this`cursor, this`currentTime
      ensures Valid() && cursor == 0 && currentTime == 0.0
    {
      cursor := 0;
      currentTime := 0.0;
    }

    /** Handlers given here replace same-named ones; the rest are kept. */
    method UpdateHandlers(updates: map<Action, HandlerId>)
      modifies this`handlers
      ensures handlers.Keys == old(handlers).Keys + updates.Keys
      ensures forall a :: a in updates ==> handlers[a] == updates[a]
      ensures forall a :: a in old(handlers) && a !in updates ==> handlers[a] == old(handlers)[a]
    {
      handlers := handlers + updates;
    }

    method Tick(now: real)
      requires Valid()
      modifies this
      ensures Valid()
      ensures handlers == old(handlers) && clockStart == old(clockStart)
      ensures !old(playing) ==>
                cursor == old(cursor) && currentTime == old(currentTime) && log == old(log) && !playing
      ensures old(playing) ==>
                && currentTime == now - clockStart
                && cursor == NextCursor(events, old(cursor), currentTime)
                && playing == (currentTime < duration)
                && log == old(log) + Fired(events, handlers, old(cursor), cursor)
                          + (if currentTime >= duration then [Completed] else [])
    {
      if !playing {
        return;
      }
      currentTime := now - clockStart;
      DispatchEvents();
      if currentTime >= duration {
        Stop();
        log := log + [Completed];
      }
    }

    /** Jump to `time` and fire what is due, whether or not the timeline plays. */
    method AdvanceTo(time: real)
      requires Valid()
      modifies this`currentTime, this`cursor, this`log
      ensures Valid()
      ensures currentTime == time
      ensures cursor == NextCursor(events, old(cursor), time)
      ensures log == old(log) + Fired(events, handlers, old(cursor), cursor)
    {
      currentTime := time;
      DispatchEvents();
    }

    method GetTime() returns (t: real)
      ensures t == currentTime
    {
      t := currentTime;
    }

    method DispatchEvents()
      requires Valid()
      modifies this`cursor, this`log
      ensures Valid()
      ensures old(cursor) <= cursor
      ensures cursor == NextCursor(events, old(cursor), currentTime)
      ensures log == old(log) + Fired(events, handlers, old(cursor), cursor)
    {
      while cursor < |events| && events[cursor].time <= currentTime
        invariant old(cursor) <= cursor <= |events|
        invariant NextCursor(events, cursor, currentTime) == NextCursor(events, old(cursor), currentTime)
        invariant log == old(log) + Fired(events, handlers, old(cursor), cursor)
        decreases |events| - cursor
      {
        var event := events[cursor];
        ghost var fired := Fired(events, handlers, old(cursor), cursor);
        Execute(event);
        log := log + [Triggered(event)];
        AppendRegroup(old(log), fired, Execution(handlers, event), [Triggered(event)]);
        cursor := cursor + 1;
      }
    }

    method Execute(event: TimelineEvent)
      modifies this`log
      ensures log == old(log) + Execution(handlers, event)
    {
      if event.action in handlers {
        log := log + [Called(handlers[event.action], event.params)];
      }
    }
  }

  /** A two-event script already in time order is kept as it is. */
  lemma TwoEventScript(first: TimelineEvent, second: TimelineEvent)
    requires first.time < second.time
    ensures SortByTime([first, second]) == [first, second]
  {
    assert [first, second][1..] == [second];
    assert SortByTime([second]) == [second] by { assert [second][1..] == []; }
    assert Insert(second, []) == [second];
  }

  /** Events at 1 s and 2 s are both due at 2.1 s. */
  lemma TwoEventsDue(es: seq<TimelineEvent>, t: real)
    requires |es| == 2 && es[0].time <= es[1].time <= t
    ensures NextCursor(es, 0, t) == 2
  {
    assert NextCursor(es, 2, t) == 2;
    assert NextCursor(es, 1, t) == 2;
  }

  /** Two events whose actions share handler `h` call it twice, in order. */
  lemma TwoCalls(es: seq<TimelineEvent>, handlers: map<Action, HandlerId>, h: HandlerId)
    requires |es| == 2
    requires es[0].action in handlers && handlers[es[0].action] == h
    requires es[1].action in handlers && handlers[es[1].action] == h
    ensures HandlerCalls(es, handlers, 0, 2) == [Called(h, es[0].params), Called(h, es[1].params)]
  {
    assert HandlerCalls(es, handlers, 0, 1) == [Called(h, es[0].params)];
  }

  /**
   * The scripted scene of the repository's timeline test
   * (tests/core/Timeline.test.ts, lines 13-26): two events at 1 s and
   * 2 s sharing one handler; starting at 0 and advancing to 2.1 s calls the
   * handler twice, first with the earlier event's params.
   */
  method ChronologicalHandlers(now: real) returns (calls: seq<Signal>)
    ensures |calls| == 2
    ensures calls[0] == Called("handler", map["clip" := Text("intro")])
    ensures calls[1] == Called("handler", map["material" := Text("smoke"), "origin" := Numbers([0.0, 0.0, 0.0]), "force" := Number(5.0)])
  {
    var intro := TimelineEvent(1.0, AudioPlay, None, map["clip" := Text("intro")]);
    var blast := TimelineEvent(2.0, SplatsExplode, None,
      map["material" := Text("smoke"), "origin" := Numbers([0.0, 0.0, 0.0]), "force" := Number(5.0)]);
    TwoEventScript(intro, blast);
    var timeline := new Timeline(10.0, [intro, blast], map[]);
    timeline.UpdateHandlers(map[AudioPlay := "handler", SplatsExplode := "handler"]);
    timeline.Start(0.0, now);
    TwoEventsDue(timeline.events, 2.1);
    timeline.AdvanceTo(2.1);
    FiredCalls(timeline.events, timeline.handlers, 0, 2);
    assert timeline.events == [intro, blast];
    assert timeline.handlers == map[AudioPlay := "handler", SplatsExplode := "handler"];
    TwoCalls(timeline.events, timeline.handlers, "handler");
    assert timeline.log == Fired(timeline.events, timeline.handlers, 0, 2);
    calls := Calls(timeline.log);
  }
}

/** The event bus. Publishers push `EventData` values onto a pending stack,
    with a de-duplication set keeping equal events from being pushed twice in
    one update cycle; once per frame `Update` drains the stack and routes each
    event it pops to the subscribers of that event's category.

    Dispatch to subscribers is recorded as a trace of (channel, event) pairs
    instead of calls through delegates. */
module Events {
  import opened Wrappers

  /** The coarse channel of an event. Only Camera and MainMenu are routed;
      every other category (Debug, Pickup, ...) stands in `Other`. */
  datatype Category = Camera | MainMenu | Other(name: string)

  /** The specific action within a category (OnPause, OnCameraSetActive,
      OnCameraCycle, ...). */
  type Action = string

  /** One of the untyped additional parameters an event may carry. */
  datatype Param = Text(text: string) | Number(number: int)

  /** One occurrence: category, action and the ordered parameter list.
      Two events are the same event when all three are equal. */
  datatype EventData = EventData(category: Category, action: Action, params: seq<Param>)

  /** The two subscriber channels of the dispatcher. */
  datatype Channel = CameraChanged | MenuChanged

  /** One delivery of an event to the subscribers of a channel. */
  datatype Dispatch = Dispatch(channel: Channel, event: EventData)

  /** The channel an event category is routed to, if any. */
  function Route(c: Category): (r: Option<Channel>)
    ensures r == Some(CameraChanged) <==> c == Camera
    ensures r == Some(MenuChanged) <==> c == MainMenu
    ensures r == None <==> c.Other?
  {
    match c
    case Camera => Some(CameraChanged)
    case MainMenu => Some(MenuChanged)
    case Other(_) => None
  }

  /** Whether anyone has subscribed to `ch`. */
  function Subscribed(ch: Channel, camera: bool, menu: bool): (r: bool)
    ensures r ==> camera || menu
    ensures camera && menu ==> r
    ensures r <==> (ch == CameraChanged && camera) || (ch == MenuChanged && menu)
  {
    match ch
    case CameraChanged => camera
    case MenuChanged => menu
  }

  /** What processing one event delivers: the event on its category's channel
      when that channel has a subscriber, and nothing otherwise. */
  function Process(e: EventData, camera: bool, menu: bool): (r: seq<Dispatch>)
    ensures |r| <= 1
    ensures forall d :: d in r ==> d.event == e && Route(e.category) == Some(d.channel)
    ensures r != [] <==> Route(e.category).Some? && Subscribed(Route(e.category).value, camera, menu)
    ensures r != [] <==> (e.category == Camera && camera) || (e.category == MainMenu && menu)
  {
    match Route(e.category)
    case None => []
    case Some(ch) => if Subscribed(ch, camera, menu) then [Dispatch(ch, e)] else []
  }

  /** The deliveries made by processing `es` in order. */
  function Deliveries(es: seq<EventData>, camera: bool, menu: bool): (r: seq<Dispatch>)
    ensures |r| <= |es|
  {
    if es == [] then [] else Process(es[0], camera, menu) + Deliveries(es[1..], camera, menu)
  }

  /** `s` holds no event twice. */
  predicate NoDuplicates<T(==)>(s: seq<T>) {
    forall i, j :: 0 <= i < j < |s| ==> s[i] != s[j]
  }

  /** The pending events of one update cycle: the stack (top is the last
      element) and the de-duplication set. */
  datatype Pending = Pending(stack: seq<EventData>, seen: set<EventData>)

  /** The relation the dispatcher keeps between its two containers between
      calls: no event is stacked twice, and the set holds the stacked events. */
  predicate Consistent(p: Pending) {
    NoDuplicates(p.stack) && p.seen == set e | e in p.stack
  }

  /** The pending events after publishing `e`: pushed and remembered unless an
      equal event was already remembered. */
  function AfterPublish(p: Pending, e: EventData): (r: Pending)
    ensures e in r.seen && p.seen <= r.seen
    ensures p.stack <= r.stack && |r.stack| <= |p.stack| + 1
    ensures e in p.seen ==> r == p
  {
    if e in p.seen then p else Pending(p.stack + [e], p.seen + {e})
  }

  /** The pending events after publishing each of `es` in turn. */
  function AfterPublishAll(p: Pending, es: seq<EventData>): (r: Pending)
    ensures p.stack <= r.stack && |r.stack| <= |p.stack| + |es|
    ensures p.seen <= r.seen && forall e :: e in es ==> e in r.seen
    decreases |es|
  {
    if es == [] then p else AfterPublishAll(AfterPublish(p, es[0]), es[1..])
  }

  /** The events the drain loop processes, in order, when the stack is `stack`
      and the loop index is `i`: while the index is below the stack count, the
      top is popped and processed. */
  function DrainFrom(stack: seq<EventData>, i: nat): (r: seq<EventData>)
    ensures i < |stack| <==> r != []
    decreases |stack|
  {
    if i < |stack| then [stack[|stack| - 1]] + DrainFrom(stack[..|stack| - 1], i + 1) else []
  }

  /** The events one drain of the stack `s` processes, in order. */
  function Drained(s: seq<EventData>): (r: seq<EventData>)
    ensures |r| == (|s| + 1) / 2
    ensures s != [] ==> r[0] == s[|s| - 1]
  {
    DrainFromShape(s, 0);
    DrainFrom(s, 0)
  }

  /** The event bus. Subscription to a channel is recorded as a flag. */
  class EventDispatcher {
    var pending: seq<EventData>
    var seen: set<EventData>
    var cameraSubscribed: bool
    var menuSubscribed: bool

    /** The pending events as a value. */
    function Buffer(): Pending
      reads this
    {
      Pending(pending, seen)
    }

    ghost predicate Valid()
      reads this
    {
      Consistent(Buffer())
    }

    /** A new dispatcher has nothing pending and no subscribers. The initial
        capacity only sizes the containers. */
    constructor (initialSize: nat)
      ensures Valid()
      ensures pending == [] && seen == {}
      ensures !cameraSubscribed && !menuSubscribed
    {
      pending, seen := [], {};
      cameraSubscribed, menuSubscribed := false, false;
    }

    /** Record `e` for the next drain unless an equal event is already
        pending. */
    method Publish(e: EventData)
      requires Valid()
      modifies this`pending, this`seen
      ensures Valid()
      ensures Buffer() == AfterPublish(old(Buffer()), e)
      ensures e in old(seen) ==> pending == old(pending) && seen == old(seen)
      ensures e !in old(seen) ==> pending == old(pending) + [e] && seen == old(seen) + {e}
    {
      if e !in seen {
        pending := pending + [e];
        seen := seen + {e};
      }
      PublishKeepsConsistent(old(Buffer()), e);
    }

    /** The per-frame drain: pop and process while the loop index is below
        the (shrinking) stack count, then clear both containers. Returns the
        deliveries made. The pops are made on a copy of the stack: no handler
        runs during the drain, so nothing sees the field before it is
        cleared. */
    method Update() returns (trace: seq<Dispatch>)
      modifies this`pending, this`seen
      ensures pending == [] && seen == {}
      ensures Valid()
      ensures trace == Deliveries(Drained(old(pending)), cameraSubscribed, menuSubscribed)
    {
      var camera, menu, stack := cameraSubscribed, menuSubscribed, pending;
      ghost var all := Deliveries(Drained(stack), camera, menu);
      var i := 0;
      trace := [];
      while i < |stack|
        invariant all == trace + Deliveries(DrainFrom(stack, i), camera, menu)
      {
        var e := stack[|stack| - 1];
        PopOne(stack, i, trace, camera, menu);
        stack := stack[..|stack| - 1];
        trace := trace + Process(e, camera, menu);
        i := i + 1;
      }
      pending := [];
      seen := {};
    }
  }

  /** One iteration of the drain loop: the popped event's deliveries are the
      next ones made. */
  lemma PopOne(stack: seq<EventData>, i: nat, trace: seq<Dispatch>, camera: bool, menu: bool)
    requires i < |stack|
    ensures trace + Deliveries(DrainFrom(stack, i), camera, menu)
         == (trace + Process(stack[|stack| - 1], camera, menu))
            + Deliveries(DrainFrom(stack[..|stack| - 1], i + 1), camera, menu)
  {
    var rest := DrainFrom(stack[..|stack| - 1], i + 1);
    var d := DrainFrom(stack, i);
    assert d[0] == stack[|stack| - 1] && d[1..] == rest;
  }

  /** Publishing keeps the two containers consistent. */
  lemma PublishKeepsConsistent(p: Pending, e: EventData)
    requires Consistent(p)
    ensures Consistent(AfterPublish(p, e))
  {
    if e !in p.seen {
      var s := p.stack + [e];
      assert forall x :: x in s <==> x in p.stack || x == e;
    }
  }

  /** Publishing an event already pending changes nothing; a new one goes on
      top of the stack with everything below it untouched. */
  lemma PublishPushesOnce(p: Pending, e: EventData)
    requires Consistent(p)
    ensures var q := AfterPublish(p, e);
      e in q.stack && e in q.seen &&
      (e in p.stack ==> q == p) &&
      (e !in p.stack ==> |q.stack| == |p.stack| + 1 && q.stack[..|p.stack|] == p.stack && q.stack[|p.stack|] == e)
  {
  }

  /** Publishing the same event twice has the effect of publishing it once. */
  lemma PublishIdempotent(p: Pending, e: EventData)
    ensures AfterPublish(AfterPublish(p, e), e) == AfterPublish(p, e)
  {
  }

  /** Publishing a sequence of events from a consistent state keeps it
      consistent, only ever pushes on top, and leaves pending exactly the
      events that were pending or published, each once. */
  lemma {:induction false} PublishAllKeepsConsistent(p: Pending, es: seq<EventData>)
    requires Consistent(p)
    ensures Consistent(AfterPublishAll(p, es))
    ensures p.stack <= AfterPublishAll(p, es).stack
    ensures forall e :: e in AfterPublishAll(p, es).stack <==> e in p.stack || e in es
    decreases |es|
  {
    if es != [] {
      var q := AfterPublish(p, es[0]);
      PublishKeepsConsistent(p, es[0]);
      PublishAllKeepsConsistent(q, es[1..]);
      assert forall e :: e in q.stack <==> e in p.stack || e == es[0];
      assert forall e :: e in es <==> e == es[0] || e in es[1..];
    }
  }

  /** After a drain both containers are empty, so publishing an event equal
      to one published before the drain is accepted again. */
  lemma AcceptedAfterDrain(e: EventData)
    ensures Consistent(Pending([], {}))
    ensures AfterPublish(Pending([], {}), e) == Pending([e], {e})
  {
  }

  /** The shape of what the drain loop processes from a stack `t` with the
      index at `i`: the loop runs until index and count meet, each time taking
      the current top, so it takes half the remaining distance (rounded up),
      newest first. */
  lemma {:induction false} DrainFromShape(t: seq<EventData>, i: nat)
    ensures |DrainFrom(t, i)| == if i < |t| then (|t| - i + 1) / 2 else 0
    ensures forall k :: 0 <= k < |DrainFrom(t, i)| ==> DrainFrom(t, i)[k] == t[|t| - 1 - k]
    decreases |t|
  {
    if i < |t| {
      var t' := t[..|t| - 1];
      DrainFromShape(t', i + 1);
      var d := DrainFrom(t, i);
      assert d == [t[|t| - 1]] + DrainFrom(t', i + 1);
      forall k | 0 < k < |d|
        ensures d[k] == t[|t| - 1 - k]
      {
        assert d[k] == DrainFrom(t', i + 1)[k - 1] == t'[|t'| - 1 - (k - 1)];
      }
    }
  }

  /** The drain processes the ceiling of half the pending events, newest
      first: position `k` of what it processes is the `k`-th from the top. */
  lemma DrainedNewestFirst(s: seq<EventData>)
    ensures |Drained(s)| == (|s| + 1) / 2
    ensures forall k :: 0 <= k < |Drained(s)| ==> Drained(s)[k] == s[|s| - 1 - k]
  {
    DrainFromShape(s, 0);
  }

  /** The oldest half (rounded down) of the pending events is never processed:
      it is dropped when the stack is cleared. */
  lemma DrainedLosesOldest(s: seq<EventData>, k: nat)
    requires NoDuplicates(s)
    requires k < |s| / 2
    ensures s[k] !in Drained(s)
  {
    DrainedNewestFirst(s);
    forall j | 0 <= j < |Drained(s)|
      ensures Drained(s)[j] != s[k]
    {
      assert Drained(s)[j] == s[|s| - 1 - j];
    }
  }

  /** Since the dispatcher never stacks an event twice, one drain processes
      no event twice. */
  lemma DrainedDistinct(s: seq<EventData>)
    requires NoDuplicates(s)
    ensures NoDuplicates(Drained(s))
  {
    DrainedNewestFirst(s);
  }

  /** Processing events that are pairwise distinct makes no delivery twice:
      each event is delivered on at most one channel. */
  lemma {:induction false} DeliveriesDistinct(es: seq<EventData>, camera: bool, menu: bool)
    requires NoDuplicates(es)
    ensures NoDuplicates(Deliveries(es, camera, menu))
  {
    if es != [] {
      var head, rest := Process(es[0], camera, menu), Deliveries(es[1..], camera, menu);
      assert NoDuplicates(es[1..]) by {
        forall i, j | 0 <= i < j < |es[1..]|
          ensures es[1..][i] != es[1..][j]
        {
          assert es[1..][i] == es[i + 1] && es[1..][j] == es[j + 1];
        }
      }
      DeliveriesDistinct(es[1..], camera, menu);
      forall d | d in rest
        ensures d.event != es[0]
      {
        DeliveriesRouteByCategory(es[1..], camera, menu, d);
      }
      var r := head + rest;
      forall i, j | 0 <= i < j < |r|
        ensures r[i] != r[j]
      {
        if i < |head| {
          assert r[i] in head && r[j] in rest;
        } else {
          assert r[i] == rest[i - |head|] && r[j] == rest[j - |head|];
        }
      }
    }
  }

  /** A Camera event is delivered only on the camera channel, a MainMenu event
      only on the menu channel, and an event of any other category nowhere. */
  lemma {:induction false} DeliveriesRouteByCategory(es: seq<EventData>, camera: bool, menu: bool, d: Dispatch)
    requires d in Deliveries(es, camera, menu)
    ensures d.event in es
    ensures d.channel == CameraChanged <==> d.event.category == Camera
    ensures d.channel == MenuChanged <==> d.event.category == MainMenu
    ensures Subscribed(d.channel, camera, menu)
  {
    if d !in Process(es[0], camera, menu) {
      DeliveriesRouteByCategory(es[1..], camera, menu, d);
    }
  }

  /** Every routed event on a subscribed channel is delivered. */
  lemma {:induction false} DeliveriesComplete(es: seq<EventData>, camera: bool, menu: bool, e: EventData)
    requires e in es
    requires Route(e.category).Some? && Subscribed(Route(e.category).value, camera, menu)
    ensures Dispatch(Route(e.category).value, e) in Deliveries(es, camera, menu)
  {
    if e != es[0] {
      DeliveriesComplete(es[1..], camera, menu, e);
    }
  }

  /** Without subscribers nothing is delivered, and nothing fails. */
  lemma {:induction false} NoSubscribersNoDeliveries(es: seq<EventData>)
    ensures Deliveries(es, false, false) == []
  {
    if es != [] {
      NoSubscribersNoDeliveries(es[1..]);
    }
  }

  /** A channel without a subscriber receives nothing, whatever the other
      channel does. */
  lemma UnsubscribedChannelSilent(es: seq<EventData>, camera: bool, menu: bool)
    ensures !camera ==> forall d :: d in Deliveries(es, camera, menu) ==> d.channel == MenuChanged
    ensures !menu ==> forall d :: d in Deliveries(es, camera, menu) ==> d.channel == CameraChanged
  {
    forall d | d in Deliveries(es, camera, menu)
      ensures Subscribed(d.channel, camera, menu)
    {
      DeliveriesRouteByCategory(es, camera, menu, d);
    }
  }

  /** Processing two runs of events one after the other delivers the first
      run's dispatches, then the second's. */
  lemma {:induction false} DeliveriesAppend(a: seq<EventData>, b: seq<EventData>, camera: bool, menu: bool)
    ensures Deliveries(a + b, camera, menu) == Deliveries(a, camera, menu) + Deliveries(b, camera, menu)
  {
    if a == [] {
      assert a + b == b;
    } else {
      assert (a + b)[0] == a[0] && (a + b)[1..] == a[1..] + b;
      DeliveriesAppend(a[1..], b, camera, menu);
    }
  }

  /** When every processed event is routed to a subscribed channel, each one
      is delivered, in processing order: the k-th delivery carries the k-th
      event. */
  lemma {:induction false} DeliveriesInOrder(es: seq<EventData>, camera: bool, menu: bool)
    requires forall e :: e in es ==> Route(e.category).Some? && Subscribed(Route(e.category).value, camera, menu)
    ensures |Deliveries(es, camera, menu)| == |es|
    ensures forall k :: 0 <= k < |es| ==> Deliveries(es, camera, menu)[k] == Dispatch(Route(es[k].category).value, es[k])
  {
    if es != [] {
      var tail := es[1..];
      assert es[0] in es;
      assert forall e :: e in tail ==> e in es;
      DeliveriesInOrder(tail, camera, menu);
      var head, rest := Process(es[0], camera, menu), Deliveries(tail, camera, menu);
      assert head == [Dispatch(Route(es[0].category).value, es[0])];
      var r := head + rest;
      assert Deliveries(es, camera, menu) == r;
      forall k | 0 <= k < |es|
        ensures r[k] == Dispatch(Route(es[k].category).value, es[k])
      {
        if k > 0 {
          assert r[k] == rest[k - 1] && tail[k - 1] == es[k];
        }
      }
    }
  }

  /** Three distinct events published into an empty frame are all pending,
      the newest on top. */
  lemma ThreeEventsPending(p1: EventData, p2: EventData, p3: EventData)
    requires p1 != p2 && p2 != p3 && p1 != p3
    ensures AfterPublishAll(Pending([], {}), [p1, p2, p3]).stack == [p1, p2, p3]
  {
    var s := [p1, p2, p3];
    var q1, q2 := Pending([p1], {p1}), Pending([p1, p2], {p1, p2});
    assert AfterPublish(Pending([], {}), p1) == q1;
    assert AfterPublish(q1, p2) == q2;
    assert AfterPublish(q2, p3) == Pending(s, {p1, p2, p3});
    assert s[0] == p1 && s[1..] == [p2, p3] && [p2, p3][1..] == [p3] && [p3][1..] == [];
    assert AfterPublishAll(Pending([], {}), s) == AfterPublishAll(q1, [p2, p3]);
    assert AfterPublishAll(q1, [p2, p3]) == AfterPublishAll(q2, [p3]);
    assert AfterPublishAll(q2, [p3]) == AfterPublishAll(Pending(s, {p1, p2, p3}), []);
  }

  /** Three camera events pending, with the camera channel subscribed: the
      drain delivers the newest two, newest first, and the oldest is lost. */
  lemma ThreeCameraEventsNewestTwo(p1: EventData, p2: EventData, p3: EventData, menu: bool)
    requires p1.category == Camera && p2.category == Camera && p3.category == Camera
    ensures Deliveries(Drained([p1, p2, p3]), true, menu)
         == [Dispatch(CameraChanged, p3), Dispatch(CameraChanged, p2)]
  {
    var s := [p1, p2, p3];
    assert s[..2] == [p1, p2] && [p1, p2][..1] == [p1];
    assert DrainFrom([p1], 2) == [];
    assert DrainFrom([p1, p2], 1) == [p2];
    assert Drained(s) == [p3, p2];
    assert [p3, p2][1..] == [p2];
    assert Deliveries([p2], true, menu) == [Dispatch(CameraChanged, p2)] + Deliveries([], true, menu);
  }

  /** The opening of a game: a main-menu event (the pause) is published, then
      a camera event (set-active). Both are pending, but with both channels
      subscribed the drain delivers the camera event alone; the pause is lost. */
  lemma StartGameLosesPause(pause: EventData, setActive: EventData)
    requires pause.category == MainMenu && setActive.category == Camera
    ensures AfterPublishAll(Pending([], {}), [pause, setActive]).stack == [pause, setActive]
    ensures Deliveries(Drained([pause, setActive]), true, true) == [Dispatch(CameraChanged, setActive)]
  {
    var s := [pause, setActive];
    var p1 := AfterPublish(Pending([], {}), pause);
    assert s[0] == pause && s[1..] == [setActive];
    assert p1 == Pending([pause], {pause});
    assert AfterPublishAll(Pending([], {}), s) == AfterPublishAll(p1, [setActive]);
    assert AfterPublishAll(p1, [setActive]) == AfterPublishAll(Pending(s, {pause, setActive}), []);
    assert s[..1] == [pause] && DrainFrom([pause], 1) == [];
    assert Drained(s) == [setActive];
    assert Deliveries([setActive], true, true) == Process(setActive, true, true) + Deliveries([], true, true);
  }

  /** The same opening run through a dispatcher object, with the pause
      published a second time before the drain: the duplicate is ignored, the
      drain delivers the camera event alone, and afterwards the pause is
      accepted again. */
  method StartGameFrame() returns (trace: seq<Dispatch>)
    ensures trace == [Dispatch(CameraChanged, EventData(Camera, "OnCameraSetActive", [Text("flight camera 1")]))]
  {
    var pause := EventData(MainMenu, "OnPause", []);
    var setActive := EventData(Camera, "OnCameraSetActive", [Text("flight camera 1")]);
    var d := new EventDispatcher(20);
    d.cameraSubscribed, d.menuSubscribed := true, true;
    d.Publish(pause);
    d.Publish(setActive);
    assert pause in d.seen;
    d.Publish(pause);
    assert d.pending == [pause, setActive];
    StartGameLosesPause(pause, setActive);
    ghost var drained := Deliveries(Drained([pause, setActive]), true, true);
    trace := d.Update();
    assert trace == drained;
    d.Publish(pause);
    assert d.pending == [pause];
  }
}

/** The conversation event bus: a trimmed history, bounded subscriber queues that drop their oldest
    event when full, and subscribers that read the history, then the queue, and the history again
    whenever the queue stays silent.

    `InMemoryConversationEventBus` is the shared state, changed in place. The state machine follows
    one conversation through every interleaving of in-order publishes with the steps of any number of
    subscribers; a subscriber may be overtaken by publishes wherever its generator can suspend. */
module EventBus {
  import opened Wrappers

  datatype Event = Event(sequence: int, payload: string)

  // ---------------------------------------------------------------------------------------------
  // The operations as functions

  /** Python's `del history[:-limit]`: keeps the last `limit` events, deletes nothing for 0, and
      deletes the first events for a negative limit. */
  function Trimmed(history: seq<Event>, limit: int): seq<Event> {
    if limit > 0 then (if |history| <= limit then history else history[|history| - limit..])
    else if |history| <= -limit then (if limit == 0 then history else [])
    else history[-limit..]
  }

  predicate Full(queue: seq<Event>, size: int) {
    0 < size <= |queue|
  }

  function Put(queue: seq<Event>, event: Event, size: int): seq<Event> {
    (if Full(queue, size) then queue[1..] else queue) + [event]
  }

  function After(events: seq<Event>, cursor: int): seq<Event> {
    if events == [] then []
    else After(events[..|events| - 1], cursor)
         + if events[|events| - 1].sequence > cursor then [events[|events| - 1]] else []
  }

  function NextSequence(history: seq<Event>): int {
    if history == [] then 1 else history[|history| - 1].sequence + 1
  }

  // ---------------------------------------------------------------------------------------------
  // The bus object

  class InMemoryConversationEventBus {
    const historyLimit: int
    const queueSize: int
    var histories: map<string, seq<Event>>
    /** For every conversation, the queues of its subscribers. */
    var subscribers: map<string, map<nat, seq<Event>>>

    constructor (historyLimit: int, queueSize: int)
      ensures this.historyLimit == historyLimit && this.queueSize == queueSize
      ensures histories == map[] && subscribers == map[]
    {
      this.historyLimit, this.queueSize := historyLimit, queueSize;
      histories, subscribers := map[], map[];
    }

    function HistoryOf(conversation: string): seq<Event>
      reads this
    {
      if conversation in histories then histories[conversation] else []
    }

    function QueuesOf(conversation: string): map<nat, seq<Event>>
      reads this
    {
      if conversation in subscribers then subscribers[conversation] else map[]
    }

    method Publish(conversation: string, event: Event)
      modifies this
      ensures HistoryOf(conversation) == Trimmed(old(HistoryOf(conversation)) + [event], historyLimit)
      ensures QueuesOf(conversation) ==
              map q | q in old(QueuesOf(conversation)) :: Put(old(QueuesOf(conversation))[q], event, queueSize)
      ensures forall c :: c != conversation ==>
                HistoryOf(c) == old(HistoryOf(c)) && QueuesOf(c) == old(QueuesOf(c))
    {
      histories := histories[conversation := Trimmed(HistoryOf(conversation) + [event], historyLimit)];
      var queues := QueuesOf(conversation);
      var left := queues.Keys;
      var next := queues;
      while left != {}
        invariant left <= queues.Keys == next.Keys
        invariant forall q :: q in queues ==> next[q] == if q in left then queues[q] else Put(queues[q], event, queueSize)
      {
        var q :| q in left;
        left := left - {q};
        var queue := next[q];
        if Full(queue, queueSize) {
          queue := queue[1..];
        }
        next := next[q := queue + [event]];
      }
      subscribers := subscribers[conversation := next];
    }

    method History(conversation: string, after: int) returns (events: seq<Event>)
      ensures events == After(HistoryOf(conversation), after)
    {
      var history := HistoryOf(conversation);
      events := [];
      for i := 0 to |history|
        invariant events == After(history[..i], after)
      {
        assert history[..i + 1][..i] == history[..i];
        if history[i].sequence > after {
          events := events + [history[i]];
        }
      }
      assert history[..|history|] == history;
    }

    method Subscribe(conversation: string, queue: nat)
      requires queue !in QueuesOf(conversation)
      modifies this`subscribers
      ensures QueuesOf(conversation) == old(QueuesOf(conversation))[queue := []]
      ensures forall c :: c != conversation ==> QueuesOf(c) == old(QueuesOf(c))
    {
      subscribers := subscribers[conversation := QueuesOf(conversation)[queue := []]];
    }

    method Discard(conversation: string, queue: nat)
      modifies this`subscribers
      ensures QueuesOf(conversation) == old(QueuesOf(conversation)) - {queue}
      ensures forall c :: c != conversation ==> QueuesOf(c) == old(QueuesOf(c))
    {
      subscribers := subscribers[conversation := QueuesOf(conversation) - {queue}];
    }
  }

  // ---------------------------------------------------------------------------------------------
  // Events after a cursor

  ghost predicate Increasing(events: seq<Event>) {
    forall i, j :: 0 <= i < j < |events| ==> events[i].sequence < events[j].sequence
  }

  /** `part` is what is left of `events` after some of its first ones. */
  ghost predicate IsSuffix(part: seq<Event>, events: seq<Event>) {
    |part| <= |events| && part == events[|events| - |part|..]
  }

  /** Trimming keeps the latest events: up to a positive limit, all for 0, and for a negative limit all but that
      many of the first ones. */
  lemma TrimmedIsALatestPart(history: seq<Event>, limit: int)
    ensures IsSuffix(Trimmed(history, limit), history)
    ensures limit == 0 ==> Trimmed(history, limit) == history
    ensures limit > 0 ==> |Trimmed(history, limit)| == if |history| < limit then |history| else limit
    ensures limit < 0 ==> |Trimmed(history, limit)| == if |history| + limit < 0 then 0 else |history| + limit
  {
  }

  lemma {:induction false} AfterAppends(a: seq<Event>, b: seq<Event>, cursor: int)
    ensures After(a + b, cursor) == After(a, cursor) + After(b, cursor)
  {
    if b == [] {
      assert a + b == a;
    } else {
      AfterAppends(a, b[..|b| - 1], cursor);
      assert (a + b)[..|a + b| - 1] == a + b[..|b| - 1];
    }
  }

  lemma AfterOne(event: Event, cursor: int)
    ensures After([event], cursor) == if event.sequence > cursor then [event] else []
  {
    assert [event][..0] == [];
  }

  lemma {:induction false} NothingAfter(events: seq<Event>, cursor: int)
    requires forall i :: 0 <= i < |events| ==> events[i].sequence <= cursor
    ensures After(events, cursor) == []
  {
    if events == [] {
    } else {
      NothingAfter(events[..|events| - 1], cursor);
    }
  }

  lemma {:induction false} EverythingAfter(events: seq<Event>, cursor: int)
    requires forall i :: 0 <= i < |events| ==> events[i].sequence > cursor
    ensures After(events, cursor) == events
  {
    if events == [] {
    } else {
      EverythingAfter(events[..|events| - 1], cursor);
    }
  }

  lemma {:induction false} AfterTwice(events: seq<Event>, low: int, high: int)
    requires low <= high
    ensures After(After(events, low), high) == After(events, high)
  {
    if events == [] {
    } else {
      var init, last := events[..|events| - 1], events[|events| - 1];
      AfterTwice(init, low, high);
      if last.sequence > low {
        AfterAppends(After(init, low), [last], high);
        AfterOne(last, high);
      } else {
        assert After(events, low) == After(init, low) && After(events, high) == After(init, high);
      }
    }
  }

  /** Where the events after a cursor begin. */
  function Cut(events: seq<Event>, cursor: int): (k: nat)
    ensures k <= |events|
    ensures k < |events| ==> events[k].sequence > cursor
    ensures forall i :: 0 <= i < k ==> events[i].sequence <= cursor
  {
    if events == [] then 0
    else
      var init := events[..|events| - 1];
      var k := Cut(init, cursor);
      if k == |init| && events[|init|].sequence <= cursor then k + 1 else k
  }

  /** In increasing events, those after a cursor are a suffix. */
  lemma AfterIsSuffix(events: seq<Event>, cursor: int)
    requires Increasing(events)
    ensures After(events, cursor) == events[Cut(events, cursor)..]
  {
    var k := Cut(events, cursor);
    assert events == events[..k] + events[k..];
    AfterAppends(events[..k], events[k..], cursor);
    NothingAfter(events[..k], cursor);
    EverythingAfter(events[k..], cursor);
  }

  lemma {:induction false} AfterIsBeyond(events: seq<Event>, cursor: int)
    ensures forall i :: 0 <= i < |After(events, cursor)| ==> After(events, cursor)[i].sequence > cursor
  {
    if events == [] {
    } else {
      AfterIsBeyond(events[..|events| - 1], cursor);
    }
  }

  lemma AfterIsInOrder(events: seq<Event>, cursor: int)
    requires Increasing(events)
    ensures var rest := After(events, cursor); Increasing(rest) && (rest != [] ==> rest[0].sequence > cursor)
  {
    AfterIsSuffix(events, cursor);
    AfterIsBeyond(events, cursor);
    var rest, k := After(events, cursor), Cut(events, cursor);
    assert forall i :: 0 <= i < |rest| ==> rest[i] == events[k + i];
  }

  /** Taking the first of increasing events after a cursor leaves those after it. */
  lemma AfterTheFirst(events: seq<Event>, cursor: int)
    requires Increasing(events) && events != []
    ensures events[0].sequence > cursor ==>
              After(events, cursor) == [events[0]] + After(events[1..], events[0].sequence)
    ensures events[0].sequence <= cursor ==> After(events, cursor) == After(events[1..], cursor)
  {
    var first, rest := events[0], events[1..];
    assert events == [first] + rest;
    AfterAppends([first], rest, cursor);
    AfterOne(first, cursor);
    if first.sequence > cursor {
      forall i | 0 <= i < |rest| ensures rest[i].sequence > first.sequence {
        assert rest[i] == events[i + 1];
      }
      EverythingAfter(rest, first.sequence);
      EverythingAfter(rest, cursor);
    } else {
      assert After(events, cursor) == [] + After(rest, cursor);
    }
  }

  // ---------------------------------------------------------------------------------------------
  // Subscribers

  /** Live holds what is left of the last history read; with nothing left the subscriber waits on its
      queue. */
  datatype Phase = Registered | Live(rest: seq<Event>) | Closed

  /** `delivered` is everything yielded so far. `anchor` is the cursor from which on nothing is known
      to be missing: where the subscription started, or where the last history read after a loss found
      it; `kept` is how much had been delivered by then. `lost` tells that an event beyond the anchor
      has been dropped from the full queue before it was read, or was trimmed from the history before a
      read that needed it. `ever` tells that this has happened at all. */
  datatype Subscriber = Subscriber(
    after: int, queue: seq<Event>, cursor: int, phase: Phase, delivered: seq<Event>,
    anchor: int, kept: nat, lost: bool, ever: bool)

  /** `published` is every event ever published. */
  datatype System = System(limit: int, size: int, published: seq<Event>, history: seq<Event>, subscribers: map<nat, Subscriber>)

  datatype Step =
    | Publish(event: Event)
    | Register(s: nat, after: int)
    | Read(s: nat)
    | Replay(s: nat)
    | Take(s: nat)
    | Close(s: nat)

  function Initial(limit: int, size: int): System {
    System(limit, size, [], [], map[])
  }

  /** A read is the one before the loop, or one after the queue stayed silent; the silence may have
      been broken in the meantime. */
  predicate Enabled(sys: System, step: Step) {
    match step
    case Publish(e) => sys.published != [] ==> sys.published[|sys.published| - 1].sequence < e.sequence
    case Register(s, _) => s !in sys.subscribers
    case Read(s) => s in sys.subscribers && (sys.subscribers[s].phase.Registered? || sys.subscribers[s].phase == Live([]))
    case Replay(s) => s in sys.subscribers && sys.subscribers[s].phase.Live? && sys.subscribers[s].phase.rest != []
    case Take(s) => s in sys.subscribers && sys.subscribers[s].phase == Live([]) && sys.subscribers[s].queue != []
    case Close(s) => s in sys.subscribers
  }

  /** How far what was read from the history reaches. */
  function Horizon(sub: Subscriber): int {
    if sub.phase.Live? && sub.phase.rest != [] then sub.phase.rest[|sub.phase.rest| - 1].sequence else sub.cursor
  }

  function Offered(sub: Subscriber, event: Event, size: int): Subscriber {
    if sub.phase.Closed? then sub
    else
      var loses := sub.phase.Live? && Full(sub.queue, size) && sub.queue[0].sequence > Horizon(sub);
      sub.(queue := Put(sub.queue, event, size), lost := sub.lost || loses, ever := sub.ever || loses)
  }

  function HasRead(sub: Subscriber, history: seq<Event>, published: seq<Event>): Subscriber {
    var rest := After(history, sub.cursor);
    var gap := rest != After(published, sub.cursor);
    var heals := sub.lost && !gap;
    sub.(phase := Live(rest), lost := gap, ever := sub.ever || gap,
         anchor := if heals then sub.cursor else sub.anchor,
         kept := if heals then |sub.delivered| else sub.kept)
  }

  function Replayed(sub: Subscriber): Subscriber
    requires sub.phase.Live? && sub.phase.rest != []
  {
    var e := sub.phase.rest[0];
    sub.(phase := Live(sub.phase.rest[1..]), cursor := if sub.cursor < e.sequence then e.sequence else sub.cursor,
         delivered := sub.delivered + [e])
  }

  /** Events the cursor has passed are skipped. */
  function Taken(sub: Subscriber): Subscriber
    requires sub.queue != []
  {
    var e, rest := sub.queue[0], sub.queue[1..];
    if e.sequence > sub.cursor then sub.(queue := rest, cursor := e.sequence, delivered := sub.delivered + [e])
    else sub.(queue := rest)
  }

  function Apply(sys: System, step: Step): System
    requires Enabled(sys, step)
  {
    match step
    case Publish(e) =>
      sys.(published := sys.published + [e], history := Trimmed(sys.history + [e], sys.limit),
           subscribers := map s | s in sys.subscribers :: Offered(sys.subscribers[s], e, sys.size))
    case Register(s, after) =>
      sys.(subscribers := sys.subscribers[s := Subscriber(after, [], after, Registered, [], after, 0, false, false)])
    case Read(s) =>
      sys.(subscribers := sys.subscribers[s := HasRead(sys.subscribers[s], sys.history, sys.published)])
    case Replay(s) => sys.(subscribers := sys.subscribers[s := Replayed(sys.subscribers[s])])
    case Take(s) => sys.(subscribers := sys.subscribers[s := Taken(sys.subscribers[s])])
    case Close(s) => sys.(subscribers := sys.subscribers[s := sys.subscribers[s].(phase := Closed)])
  }

  // ---------------------------------------------------------------------------------------------
  // The generator

  /** What the subscriber will still deliver of the events published so far. */
  function Pending(sub: Subscriber): seq<Event> {
    (if sub.phase.Live? then sub.phase.rest else []) + After(sub.queue, Horizon(sub))
  }

  /** The state of one `subscribe` generator between two events. */
  class Subscription {
    var cursor: int
    var rest: seq<Event>
    var queue: seq<Event>

    constructor (after: int)
      ensures cursor == after && rest == [] && queue == []
    {
      cursor, rest, queue := after, [], [];
    }

    ghost function Waiting(): seq<Event>
      reads this
    {
      Pending(Subscriber(cursor, queue, cursor, Live(rest), [], cursor, 0, false, false))
    }

    ghost predicate Valid()
      reads this
    {
      Increasing(rest) && Increasing(queue) && (rest != [] ==> rest[0].sequence > cursor)
    }

    /** Reads the history, before the loop or when the queue has been silent. */
    method Read(bus: InMemoryConversationEventBus, conversation: string)
      requires rest == []
      modifies this`rest
      ensures rest == After(bus.HistoryOf(conversation), cursor)
      ensures old(Valid()) && Increasing(bus.HistoryOf(conversation)) ==> Valid()
    {
      rest := bus.History(conversation, cursor);
      if Increasing(bus.HistoryOf(conversation)) {
        AfterIsInOrder(bus.HistoryOf(conversation), cursor);
      }
    }

    /** Runs to the next event that is at hand: the first one pending, after which exactly the others
        are pending. Events the cursor has passed are skipped. */
    method Next() returns (event: Option<Event>)
      requires Valid()
      modifies this
      ensures Valid() && (event.None? <==> old(Waiting()) == [])
      ensures event.Some? ==> old(Waiting()) == [event.value] + Waiting() && cursor == event.value.sequence > old(cursor)
      ensures event.None? ==> rest == [] && queue == [] && cursor == old(cursor)
    {
      if rest != [] {
        var e := rest[0];
        assert Waiting() == [e] + (rest[1..] + After(queue, rest[|rest| - 1].sequence));
        cursor := if cursor < e.sequence then e.sequence else cursor;
        rest := rest[1..];
        return Some(e);
      }
      while queue != []
        invariant Valid() && rest == [] && cursor == old(cursor) && Waiting() == old(Waiting())
        decreases |queue|
      {
        var e := queue[0];
        AfterTheFirst(queue, cursor);
        queue := queue[1..];
        if e.sequence > cursor {
          cursor := e.sequence;
          return Some(e);
        }
      }
      return None;
    }
  }

  // ---------------------------------------------------------------------------------------------
  // The invariant

  ghost predicate Within(part: seq<Event>, events: seq<Event>) {
    forall i :: 0 <= i < |part| ==> part[i] in events
  }

  /** Deliveries are published events, increasing from the start up to the cursor. */
  ghost predicate Ordered(sub: Subscriber, published: seq<Event>) {
    && Increasing(sub.delivered) && Within(sub.delivered, published)
    && (forall i :: 0 <= i < |sub.delivered| ==> sub.after < sub.delivered[i].sequence <= sub.cursor)
    && (sub.cursor == sub.after || exists i :: 0 <= i < |published| && published[i].sequence == sub.cursor)
  }

  ghost predicate Marked(sub: Subscriber) {
    && sub.after <= sub.anchor <= sub.cursor && sub.kept <= |sub.delivered|
    && (!sub.ever ==> !sub.lost && sub.anchor == sub.after && sub.kept == 0)
    && (sub.phase.Registered? ==> sub.delivered == [] && sub.cursor == sub.after && !sub.ever)
  }

  /** What is left of a history read is published, increasing and beyond the cursor. */
  ghost predicate Ahead(rest: seq<Event>, cursor: int, published: seq<Event>) {
    && Increasing(rest) && Within(rest, published)
    && forall i :: 0 <= i < |rest| ==> rest[i].sequence > cursor
  }

  /** What was delivered since the anchor, and what is left of the last history read. */
  function Secured(sub: Subscriber): seq<Event>
    requires sub.kept <= |sub.delivered|
  {
    sub.delivered[sub.kept..] + if sub.phase.Live? then sub.phase.rest else []
  }

  ghost predicate Complete(sub: Subscriber, published: seq<Event>)
    requires sub.kept <= |sub.delivered|
  {
    Secured(sub) + After(sub.queue, Horizon(sub)) == After(published, sub.anchor)
  }

  ghost predicate SubscriberOk(sub: Subscriber, published: seq<Event>) {
    && Ordered(sub, published) && Marked(sub)
    && (!sub.phase.Closed? ==> IsSuffix(sub.queue, published))
    && (sub.phase.Live? ==> Ahead(sub.phase.rest, sub.cursor, published))
    && (sub.phase.Live? && !sub.lost ==> Complete(sub, published))
  }

  ghost predicate Inv(sys: System) {
    && Increasing(sys.published) && IsSuffix(sys.history, sys.published)
    && forall s :: s in sys.subscribers ==> SubscriberOk(sys.subscribers[s], sys.published)
  }

  lemma SuffixIncreases(part: seq<Event>, events: seq<Event>)
    requires IsSuffix(part, events) && Increasing(events)
    ensures Increasing(part) && Within(part, events)
  {
    var d := |events| - |part|;
    assert forall i :: 0 <= i < |part| ==> part[i] == events[d + i];
  }

  /** Appending and dropping first events both leave a suffix. */
  lemma SuffixGrows(part: seq<Event>, events: seq<Event>, event: Event, d: nat)
    requires IsSuffix(part, events) && d <= |part| + 1
    ensures IsSuffix((part + [event])[d..], events + [event])
  {
  }

  lemma WithinMore(part: seq<Event>, events: seq<Event>, event: Event)
    requires Within(part, events)
    ensures Within(part, events + [event])
  {
  }

  lemma IncreasingAppend(events: seq<Event>, event: Event)
    requires Increasing(events) && (events != [] ==> events[|events| - 1].sequence < event.sequence)
    ensures Increasing(events + [event])
  {
    forall i | 0 <= i < |events| ensures events[i].sequence < event.sequence {
      if i < |events| - 1 { assert events[i].sequence < events[|events| - 1].sequence; }
    }
  }

  // -- publish

  lemma OrderedStays(sub: Subscriber, published: seq<Event>, event: Event)
    requires Ordered(sub, published)
    ensures Ordered(sub, published + [event])
  {
    WithinMore(sub.delivered, published, event);
    if sub.cursor != sub.after {
      var i :| 0 <= i < |published| && published[i].sequence == sub.cursor;
      assert (published + [event])[i].sequence == sub.cursor;
    }
  }

  lemma OfferedIsSuffix(queue: seq<Event>, published: seq<Event>, event: Event, size: int)
    requires IsSuffix(queue, published)
    ensures IsSuffix(Put(queue, event, size), published + [event])
  {
    var d := if Full(queue, size) then 1 else 0;
    assert Put(queue, event, size) == (queue + [event])[d..];
    SuffixGrows(queue, published, event, d);
  }

  lemma LaterThanPublished(events: seq<Event>, event: Event, e: Event)
    requires Increasing(events) && e in events && events[|events| - 1].sequence < event.sequence
    ensures e.sequence < event.sequence
  {
    var i :| 0 <= i < |events| && events[i] == e;
    if i < |events| - 1 { assert events[i].sequence < events[|events| - 1].sequence; }
  }

  /** A new event is beyond the horizon exactly when it is beyond the anchor. */
  lemma BeyondTheHorizon(sub: Subscriber, published: seq<Event>, event: Event)
    requires Ordered(sub, published) && Marked(sub) && Increasing(published) && sub.phase.Live?
    requires Ahead(sub.phase.rest, sub.cursor, published)
    requires published != [] ==> published[|published| - 1].sequence < event.sequence
    ensures event.sequence > Horizon(sub) <==> event.sequence > sub.anchor
  {
    var rest := sub.phase.rest;
    if rest != [] {
      assert rest[|rest| - 1] in published;
      LaterThanPublished(published, event, rest[|rest| - 1]);
    } else if sub.cursor != sub.after {
      var i :| 0 <= i < |published| && published[i].sequence == sub.cursor;
      LaterThanPublished(published, event, published[i]);
    }
  }

  lemma Regroup(a: seq<Event>, b: seq<Event>, c: seq<Event>, x: seq<Event>)
    requires a + b == c
    ensures a + (b + x) == c + x
  {
  }

  lemma AppendedIsComplete(
      had: seq<Event>, queue: seq<Event>, kept: seq<Event>, published: seq<Event>, event: Event, horizon: int, anchor: int)
    requires had + After(queue, horizon) == After(published, anchor) && After(kept, horizon) == After(queue, horizon)
    requires event.sequence > horizon <==> event.sequence > anchor
    ensures had + After(kept + [event], horizon) == After(published + [event], anchor)
  {
    AfterAppends(kept, [event], horizon);
    AfterAppends(published, [event], anchor);
    AfterOne(event, horizon);
    AfterOne(event, anchor);
    Regroup(had, After(queue, horizon), After(published, anchor), After([event], horizon));
  }

  lemma OfferedIsComplete(sub: Subscriber, published: seq<Event>, event: Event, size: int)
    requires SubscriberOk(sub, published) && Increasing(published)
    requires published != [] ==> published[|published| - 1].sequence < event.sequence
    requires sub.phase.Live? && !Offered(sub, event, size).lost
    ensures Complete(Offered(sub, event, size), published + [event])
  {
    var h, next := Horizon(sub), Offered(sub, event, size);
    var kept := if Full(sub.queue, size) then sub.queue[1..] else sub.queue;
    assert After(kept, h) == After(sub.queue, h) by {
      if Full(sub.queue, size) {
        SuffixIncreases(sub.queue, published);
        AfterTheFirst(sub.queue, h);
      }
    }
    BeyondTheHorizon(sub, published, event);
    AppendedIsComplete(Secured(sub), sub.queue, kept, published, event, h, sub.anchor);
  }

  lemma OfferedIsMarked(sub: Subscriber, published: seq<Event>, event: Event, size: int)
    requires Ordered(sub, published) && Marked(sub)
    ensures Ordered(Offered(sub, event, size), published + [event]) && Marked(Offered(sub, event, size))
  {
    OrderedStays(sub, published, event);
  }

  lemma AheadStays(rest: seq<Event>, cursor: int, published: seq<Event>, event: Event)
    requires Ahead(rest, cursor, published)
    ensures Ahead(rest, cursor, published + [event])
  {
    WithinMore(rest, published, event);
  }

  lemma OfferedIsOk(sub: Subscriber, published: seq<Event>, event: Event, size: int)
    requires SubscriberOk(sub, published) && Increasing(published)
    requires published != [] ==> published[|published| - 1].sequence < event.sequence
    ensures SubscriberOk(Offered(sub, event, size), published + [event])
  {
    OfferedIsMarked(sub, published, event, size);
    if !sub.phase.Closed? {
      OfferedIsSuffix(sub.queue, published, event, size);
    }
    if sub.phase.Live? {
      AheadStays(sub.phase.rest, sub.cursor, published, event);
      if !Offered(sub, event, size).lost {
        OfferedIsComplete(sub, published, event, size);
      }
    }
  }

  // -- history read

  lemma SuffixOfSuffix(a: seq<Event>, b: seq<Event>, c: seq<Event>)
    requires IsSuffix(a, b) && IsSuffix(b, c)
    ensures IsSuffix(a, c)
  {
  }

  lemma ReadIsAhead(history: seq<Event>, cursor: int, published: seq<Event>)
    requires Increasing(published) && IsSuffix(history, published)
    ensures Ahead(After(history, cursor), cursor, published)
  {
    SuffixIncreases(history, published);
    AfterIsSuffix(history, cursor);
    SuffixOfSuffix(After(history, cursor), history, published);
    SuffixIncreases(After(history, cursor), published);
    AfterIsBeyond(history, cursor);
  }

  lemma EmptySuffix(events: seq<Event>)
    ensures events + [] == events
  {
  }

  /** A complete read leaves nothing to take from the queue. */
  lemma NothingPastTheHorizon(sub: Subscriber, history: seq<Event>, published: seq<Event>)
    requires Increasing(published) && IsSuffix(sub.queue, published)
    requires After(history, sub.cursor) == After(published, sub.cursor)
    ensures After(sub.queue, Horizon(HasRead(sub, history, published))) == []
  {
    var h := Horizon(HasRead(sub, history, published));
    AfterIsSuffix(published, sub.cursor);
    var d := |published| - |sub.queue|;
    forall i | 0 <= i < |sub.queue| ensures sub.queue[i].sequence <= h {
      assert sub.queue[i] == published[d + i];
    }
    NothingAfter(sub.queue, h);
  }

  lemma EmptyPrefix(events: seq<Event>)
    ensures [] + events == events
  {
  }

  /** A waiting subscriber that lost nothing finds in a complete read what its queue holds. */
  lemma CaughtUp(recent: seq<Event>, queue: seq<Event>, published: seq<Event>, cursor: int, anchor: int)
    requires anchor <= cursor && recent + After(queue, cursor) == After(published, anchor)
    requires forall i :: 0 <= i < |recent| ==> recent[i].sequence <= cursor
    ensures recent + After(published, cursor) == After(published, anchor)
  {
    AfterTwice(published, anchor, cursor);
    AfterAppends(recent, After(queue, cursor), cursor);
    NothingAfter(recent, cursor);
    AfterTwice(queue, cursor, cursor);
    EmptyPrefix(After(queue, cursor));
  }

  lemma HasReadIsComplete(sub: Subscriber, history: seq<Event>, published: seq<Event>)
    requires SubscriberOk(sub, published) && Increasing(published)
    requires sub.phase.Registered? || sub.phase == Live([])
    requires !HasRead(sub, history, published).lost
    ensures Complete(HasRead(sub, history, published), published)
  {
    var next := HasRead(sub, history, published);
    var recent := next.delivered[next.kept..];
    assert recent + After(published, sub.cursor) == After(published, next.anchor) by {
      if sub.lost || sub.phase.Registered? {
        assert recent == [];
        EmptyPrefix(After(published, sub.cursor));
      } else {
        EmptySuffix(recent);
        CaughtUp(recent, sub.queue, published, sub.cursor, sub.anchor);
      }
    }
    NothingPastTheHorizon(sub, history, published);
    EmptySuffix(Secured(next));
  }

  lemma HasReadIsOk(sub: Subscriber, history: seq<Event>, published: seq<Event>)
    requires SubscriberOk(sub, published) && Increasing(published) && IsSuffix(history, published)
    requires sub.phase.Registered? || sub.phase == Live([])
    ensures SubscriberOk(HasRead(sub, history, published), published)
  {
    var next := HasRead(sub, history, published);
    ReadIsAhead(history, sub.cursor, published);
    assert Ordered(next, published);
    if !next.lost {
      HasReadIsComplete(sub, history, published);
    }
  }

  // -- delivery

  lemma DeliveryIsOrdered(sub: Subscriber, published: seq<Event>, event: Event)
    requires Ordered(sub, published) && event in published && event.sequence > sub.cursor >= sub.after
    ensures Ordered(sub.(delivered := sub.delivered + [event], cursor := event.sequence), published)
  {
    IncreasingAppend(sub.delivered, event);
    var i :| 0 <= i < |published| && published[i] == event;
    assert published[i].sequence == event.sequence;
  }

  lemma ReplayedIsComplete(sub: Subscriber, published: seq<Event>)
    requires sub.phase.Live? && sub.phase.rest != [] && sub.phase.rest[0].sequence > sub.cursor
    requires sub.kept <= |sub.delivered| && Complete(sub, published)
    ensures Complete(Replayed(sub), published)
  {
    var next, rest := Replayed(sub), sub.phase.rest;
    assert rest == [rest[0]] + rest[1..];
    assert Horizon(next) == Horizon(sub);
    assert Secured(next) == Secured(sub);
  }

  lemma ReplayedIsOk(sub: Subscriber, published: seq<Event>)
    requires SubscriberOk(sub, published) && sub.phase.Live? && sub.phase.rest != []
    ensures SubscriberOk(Replayed(sub), published)
  {
    var next, rest := Replayed(sub), sub.phase.rest;
    assert rest[0] in published && rest[0].sequence > sub.cursor;
    DeliveryIsOrdered(sub, published, rest[0]);
    assert Ordered(next, published);
    assert Ahead(rest[1..], next.cursor, published);
    if !sub.lost {
      ReplayedIsComplete(sub, published);
    }
  }

  lemma DropFirst(queue: seq<Event>, published: seq<Event>)
    requires IsSuffix(queue, published) && queue != []
    ensures IsSuffix(queue[1..], published) && queue[0] in published
  {
    assert queue[0] == published[|published| - |queue|];
  }

  lemma TakenIsComplete(sub: Subscriber, published: seq<Event>)
    requires Increasing(sub.queue) && sub.phase == Live([]) && sub.queue != []
    requires sub.kept <= |sub.delivered| && Complete(sub, published)
    ensures Complete(Taken(sub), published)
  {
    var next, e := Taken(sub), sub.queue[0];
    AfterTheFirst(sub.queue, sub.cursor);
    if e.sequence > sub.cursor {
      assert Secured(next) == Secured(sub) + [e];
      assert Secured(sub) + ([e] + After(next.queue, e.sequence)) == Secured(next) + After(next.queue, e.sequence);
    }
  }

  lemma TakenIsOk(sub: Subscriber, published: seq<Event>)
    requires SubscriberOk(sub, published) && Increasing(published) && sub.phase == Live([]) && sub.queue != []
    ensures SubscriberOk(Taken(sub), published)
  {
    var next, e := Taken(sub), sub.queue[0];
    DropFirst(sub.queue, published);
    assert Ordered(next, published) by {
      if e.sequence > sub.cursor { DeliveryIsOrdered(sub, published, e); }
    }
    if !sub.lost {
      SuffixIncreases(sub.queue, published);
      TakenIsComplete(sub, published);
    }
  }

  // -- every step

  lemma PublishKeepsInv(sys: System, event: Event)
    requires Inv(sys) && Enabled(sys, Publish(event))
    ensures Inv(Apply(sys, Publish(event)))
  {
    var all := sys.published + [event];
    IncreasingAppend(sys.published, event);
    var longer := sys.history + [event];
    var d := |longer| - |Trimmed(longer, sys.limit)|;
    assert Trimmed(longer, sys.limit) == longer[d..];
    SuffixGrows(sys.history, sys.published, event, d);
    forall s | s in sys.subscribers ensures SubscriberOk(Offered(sys.subscribers[s], event, sys.size), all) {
      OfferedIsOk(sys.subscribers[s], sys.published, event, sys.size);
    }
  }

  lemma UpdateKeepsInv(sys: System, s: nat, sub: Subscriber)
    requires Inv(sys) && SubscriberOk(sub, sys.published)
    ensures Inv(sys.(subscribers := sys.subscribers[s := sub]))
  {
  }

  lemma RegisterIsOk(after: int, published: seq<Event>)
    ensures SubscriberOk(Subscriber(after, [], after, Registered, [], after, 0, false, false), published)
  {
  }

  lemma StepKeepsInv(sys: System, step: Step)
    requires Inv(sys) && Enabled(sys, step)
    ensures Inv(Apply(sys, step))
  {
    if step.Publish? {
      PublishKeepsInv(sys, step.event);
    } else {
      match step
      case Register(s, after) => RegisterIsOk(after, sys.published);
      case Read(s) => HasReadIsOk(sys.subscribers[s], sys.history, sys.published);
      case Replay(s) => ReplayedIsOk(sys.subscribers[s], sys.published);
      case Take(s) => TakenIsOk(sys.subscribers[s], sys.published);
      case Close(s) => assert SubscriberOk(sys.subscribers[s].(phase := Closed), sys.published);
      UpdateKeepsInv(sys, step.s, Apply(sys, step).subscribers[step.s]);
    }
  }

  // ---------------------------------------------------------------------------------------------
  // Every execution

  ghost predicate Execution(states: seq<System>, steps: seq<Step>) {
    && |states| == |steps| + 1 && states[0] == Initial(states[0].limit, states[0].size)
    && forall i :: 0 <= i < |steps| ==> Enabled(states[i], steps[i]) && states[i + 1] == Apply(states[i], steps[i])
  }

  lemma {:induction false} ExecutionKeepsInv(states: seq<System>, steps: seq<Step>, n: nat)
    requires Execution(states, steps) && n < |states|
    ensures Inv(states[n])
  {
    if n == 0 {
    } else {
      ExecutionKeepsInv(states, steps, n - 1);
      StepKeepsInv(states[n - 1], steps[n - 1]);
    }
  }

  /** No duplicate, no reordering, nothing made up: whatever was lost, deliveries are published events
      after the starting cursor, in strictly increasing order. */
  lemma DeliveriesIncrease(states: seq<System>, steps: seq<Step>, n: nat, s: nat)
    requires Execution(states, steps) && n < |states| && s in states[n].subscribers
    ensures var sub := states[n].subscribers[s];
            && Increasing(sub.delivered)
            && forall e :: e in sub.delivered ==> e in states[n].published && sub.after < e.sequence <= sub.cursor
  {
    ExecutionKeepsInv(states, steps, n);
    assert SubscriberOk(states[n].subscribers[s], states[n].published);
  }

  /** No gap: if no unread event was dropped from the full queue and no history read came too late,
      what was delivered and what is pending are exactly the events published after the start. */
  lemma DeliveredAndPendingAreEverything(states: seq<System>, steps: seq<Step>, n: nat, s: nat)
    requires Execution(states, steps) && n < |states| && s in states[n].subscribers
    requires states[n].subscribers[s].phase.Live? && !states[n].subscribers[s].ever
    ensures var sub := states[n].subscribers[s];
            sub.delivered + Pending(sub) == After(states[n].published, sub.after)
  {
    ExecutionKeepsInv(states, steps, n);
    var sub := states[n].subscribers[s];
    assert SubscriberOk(sub, states[n].published);
    assert sub.delivered + Pending(sub) == Secured(sub) + After(sub.queue, Horizon(sub));
  }

  lemma CompleteReadHeals(was: Subscriber, history: seq<Event>, published: seq<Event>)
    requires SubscriberOk(was, published) && Increasing(published)
    requires was.phase.Registered? || was.phase == Live([])
    requires After(history, was.cursor) == After(published, was.cursor)
    ensures var sub := HasRead(was, history, published);
            && !sub.lost && sub.kept <= |sub.delivered|
            && Pending(sub) == After(published, sub.cursor)
            && sub.delivered[sub.kept..] + Pending(sub) == After(published, sub.anchor)
  {
    var sub := HasRead(was, history, published);
    NothingPastTheHorizon(was, history, published);
    EmptySuffix(After(published, sub.cursor));
    HasReadIsComplete(was, history, published);
    EmptySuffix(Secured(sub));
  }

  /** A loss is over once the queue has been silent and the history still reaches back to the cursor:
      what is pending is then everything published after the cursor, and from the anchor on nothing is
      missing. */
  lemma ASilentReadHeals(states: seq<System>, steps: seq<Step>, n: nat, s: nat)
    requires Execution(states, steps) && n < |steps| && steps[n] == Read(s) && Enabled(states[n], Read(s))
    requires var cursor := states[n].subscribers[s].cursor;
             After(states[n].history, cursor) == After(states[n].published, cursor)
    ensures s in states[n + 1].subscribers
    ensures var sub := states[n + 1].subscribers[s];
            && !sub.lost && sub.kept <= |sub.delivered|
            && Pending(sub) == After(states[n].published, sub.cursor)
            && sub.delivered[sub.kept..] + Pending(sub) == After(states[n].published, sub.anchor)
  {
    ExecutionKeepsInv(states, steps, n);
    assert SubscriberOk(states[n].subscribers[s], states[n].published);
    CompleteReadHeals(states[n].subscribers[s], states[n].history, states[n].published);
  }

  /** Room for everything published: then nothing is ever dropped or trimmed. */
  predicate Roomy(sys: System) {
    && (sys.limit == 0 || |sys.published| <= sys.limit)
    && (sys.size <= 0 || |sys.published| <= sys.size)
  }

  ghost predicate NothingLost(sys: System) {
    && sys.history == sys.published
    && forall s :: s in sys.subscribers ==> !sys.subscribers[s].ever
  }

  lemma RoomyOffer(sub: Subscriber, published: seq<Event>, event: Event, size: int)
    requires SubscriberOk(sub, published) && !sub.ever && (size <= 0 || |published| < size)
    ensures !Offered(sub, event, size).ever
  {
  }

  lemma RoomyPublishLosesNothing(sys: System, event: Event)
    requires Inv(sys) && Enabled(sys, Publish(event)) && NothingLost(sys) && Roomy(Apply(sys, Publish(event)))
    ensures NothingLost(Apply(sys, Publish(event)))
  {
    forall s | s in sys.subscribers ensures !Offered(sys.subscribers[s], event, sys.size).ever {
      RoomyOffer(sys.subscribers[s], sys.published, event, sys.size);
    }
  }

  /** With the whole history kept, a subscriber's own step loses nothing. */
  lemma OwnStepLosesNothing(sys: System, step: Step)
    requires Enabled(sys, step) && NothingLost(sys) && !step.Publish?
    ensures NothingLost(Apply(sys, step))
  {
    match step
    case Read(s) => assert !HasRead(sys.subscribers[s], sys.history, sys.published).ever;
    case Register(_, _) =>
    case Replay(_) =>
    case Take(_) =>
    case Close(_) =>
  }

  lemma RoomyStepLosesNothing(sys: System, step: Step)
    requires Inv(sys) && Enabled(sys, step) && NothingLost(sys) && Roomy(Apply(sys, step))
    ensures NothingLost(Apply(sys, step))
  {
    if step.Publish? {
      RoomyPublishLosesNothing(sys, step.event);
    } else {
      OwnStepLosesNothing(sys, step);
    }
  }

  lemma {:induction false} ARoomyBusLosesNothing(states: seq<System>, steps: seq<Step>, n: nat)
    requires Execution(states, steps) && n < |states| && Roomy(states[n])
    ensures NothingLost(states[n])
  {
    if n == 0 {
    } else {
      assert Roomy(states[n - 1]);
      ARoomyBusLosesNothing(states, steps, n - 1);
      ExecutionKeepsInv(states, steps, n - 1);
      RoomyStepLosesNothing(states[n - 1], steps[n - 1]);
    }
  }

  // ---------------------------------------------------------------------------------------------
  // Sequence numbers

  function Latest(published: seq<Event>, limit: int): seq<Event> {
    if limit <= 0 || |published| <= limit then published else published[|published| - limit..]
  }

  lemma LatestOneMore(published: seq<Event>, limit: nat, event: Event)
    ensures Trimmed(Latest(published, limit) + [event], limit) == Latest(published + [event], limit)
  {
  }

  lemma StepKeepsTheLatest(sys: System, step: Step)
    requires Enabled(sys, step) && sys.limit >= 0 && sys.history == Latest(sys.published, sys.limit)
    ensures Apply(sys, step).limit == sys.limit
    ensures Apply(sys, step).history == Latest(Apply(sys, step).published, sys.limit)
  {
    if step.Publish? {
      LatestOneMore(sys.published, sys.limit, step.event);
    } else {
      assert Apply(sys, step).history == sys.history && Apply(sys, step).published == sys.published;
    }
  }

  /** For a limit that is not negative the history is always the latest `limit` events, or all of them
      for 0. */
  lemma {:induction false} HistoryIsTheLatest(states: seq<System>, steps: seq<Step>, n: nat)
    requires Execution(states, steps) && n < |states| && states[0].limit >= 0
    ensures states[n].limit == states[0].limit && states[n].history == Latest(states[n].published, states[n].limit)
  {
    if n == 0 {
    } else {
      HistoryIsTheLatest(states, steps, n - 1);
      StepKeepsTheLatest(states[n - 1], steps[n - 1]);
    }
  }

  /** For such a limit, sequence numbers that are asked for continue those published, from 1 on. */
  lemma NextSequenceContinues(states: seq<System>, steps: seq<Step>, n: nat)
    requires Execution(states, steps) && n < |states| && states[0].limit >= 0
    ensures NextSequence(states[n].history) ==
            if states[n].published == [] then 1 else states[n].published[|states[n].published| - 1].sequence + 1
  {
    HistoryIsTheLatest(states, steps, n);
  }

  ghost predicate QueuesFit(sys: System) {
    forall s :: s in sys.subscribers ==> |sys.subscribers[s].queue| <= sys.size
  }

  lemma StepKeepsQueuesBounded(sys: System, step: Step)
    requires Enabled(sys, step) && sys.size > 0 && QueuesFit(sys)
    ensures QueuesFit(Apply(sys, step)) && Apply(sys, step).size == sys.size
  {
  }

  /** With a positive size no queue ever holds more. */
  lemma {:induction false} QueuesAreBounded(states: seq<System>, steps: seq<Step>, n: nat)
    requires Execution(states, steps) && n < |states| && states[0].size > 0
    ensures states[n].size == states[0].size && QueuesFit(states[n])
  {
    if n == 0 {
    } else {
      QueuesAreBounded(states, steps, n - 1);
      StepKeepsQueuesBounded(states[n - 1], steps[n - 1]);
    }
  }

  /** The next sequence number is always in order for a limit that is not negative, and after the very
      first event it is not for a negative one, because the history is then empty. */
  lemma NextSequenceIsInOrder(limit: int, size: int)
    ensures limit >= 0 <==>
            forall states: seq<System>, steps: seq<Step>, payload: string, n: nat ::
              Execution(states, steps) && n < |states| && states[0].limit == limit && states[0].size == size ==>
                Enabled(states[n], Publish(Event(NextSequence(states[n].history), payload)))
  {
    if limit >= 0 {
      forall states: seq<System>, steps: seq<Step>, payload: string, n: nat |
        Execution(states, steps) && n < |states| && states[0].limit == limit && states[0].size == size
        ensures Enabled(states[n], Publish(Event(NextSequence(states[n].history), payload)))
      {
        ExecutionKeepsInv(states, steps, n);
        HistoryIsTheLatest(states, steps, n);
      }
    } else {
      var first := Publish(Event(1, ""));
      var states := [Initial(limit, size), Apply(Initial(limit, size), first)];
      assert Execution(states, [first]);
      assert states[1].history == [] && !Enabled(states[1], Publish(Event(NextSequence(states[1].history), "")));
    }
  }
}

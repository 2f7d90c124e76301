/**
 * Single-delivery observers over a LiveData (LiveDataUtil.kt).
 *
 * The underlying LiveData is modelled as an ordered list of registrations:
 * `setValue` calls `onChanged` on each registered observer in turn. A
 * raw observer (user code) is modelled as a log of the events it received.
 */
module LiveEvents {
  import opened Wrappers

  // ---------------------------------------------------------------------
  // Events and observers
  // ---------------------------------------------------------------------

  /** `EventArgs`: a payload and a flag saying that some observer consumed it. */
  class EventArgs<T> {
    const content: Option<T>
    var handled: bool

    constructor(content: Option<T>)
      ensures this.content == content && !handled
    {
      this.content := content;
      handled := false;
    }

    /** The `data` getter: the payload until the event is handled, null afterwards. */
    function Data(): (r: Option<T>)
      reads this
      ensures r.Some? ==> !handled && r == content
      ensures !handled ==> r == content
    {
      if handled then None else content
    }

    /** Assignment to the public `handled` property. */
    method SetHandled(h: bool)
      modifies this
      ensures handled == h
      ensures Data() == (if h then None else content)
    {
      handled := h;
    }
  }

  /** A user's `Observer`, recording every `onChanged` it gets (a null event is None). */
  class Observer<T> {
    var received: seq<Option<EventArgs<T>>>

    constructor()
      ensures received == []
    {
      received := [];
    }

    method OnChanged(event: Option<EventArgs<T>>)
      modifies this
      ensures received == old(received) + [event]
    {
      received := received + [event];
    }
  }

  /** `event?.handled != true`: a null event or one nobody has handled yet. */
  predicate Deliverable<T>(event: Option<EventArgs<T>>)
    reads if event.Some? then {event.value} else {}
  {
    event.None? || !event.value.handled
  }

  /** `PendingObserver`: forwards to `wrappedObserver` once per arming. */
  class PendingObserver<T> {
    const wrappedObserver: Observer<T>
    var pending: bool

    constructor(wrappedObserver: Observer<T>)
      ensures this.wrappedObserver == wrappedObserver && !pending
    {
      this.wrappedObserver := wrappedObserver;
      pending := false;
    }

    /** Forward a deliverable event when armed, and disarm; otherwise do nothing. */
    method OnChanged(event: Option<EventArgs<T>>)
      modifies if pending then {this as object, wrappedObserver} else {}
      ensures pending == (old(pending) && !Deliverable(event))
      ensures wrappedObserver.received ==
        old(wrappedObserver.received) + (if old(pending) && Deliverable(event) then [event] else [])
    {
      if pending && (event.None? || !event.value.handled) {
        pending := false;
        wrappedObserver.OnChanged(event);
      }
    }

    /** `awaitValue`: arm. */
    method AwaitValue()
      modifies this
      ensures pending
    {
      pending := true;
    }
  }

  /** An `Observer` as LiveData's own registry sees it: a user's observer or a wrapper. */
  datatype Registration<T> = Raw(observer: Observer<T>) | Wrapped(wrapper: PendingObserver<T>)

  // ---------------------------------------------------------------------
  // Sequences of registrations
  // ---------------------------------------------------------------------

  /** No registration occurs twice: LiveData keys its observers by identity. */
  predicate Distinct<X(==)>(s: seq<X>) {
    forall i, j :: 0 <= i < j < |s| ==> s[i] != s[j]
  }

  /** `s` with every occurrence of `x` dropped, the rest in order. */
  function Without<X(==)>(s: seq<X>, x: X): (r: seq<X>)
    ensures forall i :: 0 <= i < |r| ==> r[i] in s && r[i] != x
    ensures forall i :: 0 <= i < |s| && s[i] != x ==> s[i] in r
    ensures |r| <= |s|
  {
    if s == [] then []
    else if s[0] == x then Without(s[1..], x)
    else [s[0]] + Without(s[1..], x)
  }

  lemma {:induction false} WithoutKeepsDistinct<X>(s: seq<X>, x: X)
    requires Distinct(s)
    ensures Distinct(Without(s, x))
  {
    if s != [] {
      assert Distinct(s[1..]);
      WithoutKeepsDistinct(s[1..], x);
      if s[0] != x {
        var r := Without(s[1..], x);
        assert s[0] !in s[1..];
        assert s[0] !in r;
        assert Without(s, x) == [s[0]] + r;
      }
    }
  }

  /** `n` copies of `e`. */
  function Repeat<X>(e: X, n: nat): (r: seq<X>)
    ensures |r| == n && forall i :: 0 <= i < n ==> r[i] == e
  {
    if n == 0 then [] else Repeat(e, n - 1) + [e]
  }

  /** How many times `o` hears one delivery to `r` with every wrapper armed (`d`: the event is deliverable). */
  function Hears<T>(r: Registration<T>, o: Observer<T>, d: bool): nat {
    match r
    case Raw(x) => if x == o then 1 else 0
    case Wrapped(w) => if d && w.wrappedObserver == o then 1 else 0
  }

  /**
   * How many times `o` hears one `setValue` while `regs` are registered and
   * every wrapper is armed: once per raw registration of `o`, and, when the
   * event is deliverable (`d`), once per registered wrapper around `o`.
   */
  function Deliveries<T>(regs: seq<Registration<T>>, o: Observer<T>, d: bool): nat {
    if regs == [] then 0 else Deliveries(regs[..|regs| - 1], o, d) + Hears(regs[|regs| - 1], o, d)
  }

  /** Registering one more observer adds what it hears to what the others heard. */
  lemma DeliveriesStep<T>(regs: seq<Registration<T>>, i: nat, o: Observer<T>, d: bool)
    requires i < |regs|
    ensures Deliveries(regs[..i + 1], o, d) == Deliveries(regs[..i], o, d) + Hears(regs[i], o, d)
  {
    assert regs[..i + 1][..i] == regs[..i];
  }

  /** The user observer a registration reaches. */
  function Target<T>(r: Registration<T>): Observer<T> {
    match r
    case Raw(o) => o
    case Wrapped(w) => w.wrappedObserver
  }

  /**
   * One step of LiveData's dispatch loop: `onChanged(event)` on one
   * registration. An armed wrapper forwards a deliverable event and disarms.
   */
  method Dispatch<T>(r: Registration<T>, event: Option<EventArgs<T>>)
    requires r.Wrapped? ==> r.wrapper.pending
    modifies if r.Wrapped? then {r.wrapper as object, r.wrapper.wrappedObserver} else {r.observer}
    ensures r.Wrapped? ==> r.wrapper.pending == !Deliverable(event)
    ensures Target(r).received == old(Target(r).received) + Repeat(event, Hears(r, Target(r), Deliverable(event)))
  {
    match r {
      case Raw(o) => o.OnChanged(event);
      case Wrapped(w) => w.OnChanged(event);
    }
  }

  /** A raw registration (from `observeForever`) hears every value, handled or not. */
  lemma {:induction false} RawObserverHearsEveryValue<T>(regs: seq<Registration<T>>, o: Observer<T>, d: bool)
    requires Raw(o) in regs
    ensures Deliveries(regs, o, d) >= 1
  {
    var last := regs[|regs| - 1];
    if last != Raw(o) {
      assert Raw(o) in regs[..|regs| - 1] by {
        var i :| 0 <= i < |regs| && regs[i] == Raw(o);
        assert i < |regs| - 1;
        assert regs[..|regs| - 1][i] == Raw(o);
      }
      RawObserverHearsEveryValue(regs[..|regs| - 1], o, d);
    }
  }

  /** A handled event reaches an observer only through a raw registration. */
  lemma {:induction false} HandledReachesOnlyRaw<T>(regs: seq<Registration<T>>, o: Observer<T>)
    requires Raw(o) !in regs
    ensures Deliveries(regs, o, false) == 0
  {
    if regs != [] {
      assert regs == regs[..|regs| - 1] + [regs[|regs| - 1]];
      HandledReachesOnlyRaw(regs[..|regs| - 1], o);
    }
  }

  /**
   * One turn of LiveData's dispatch loop, from "the first `i` registrations
   * have been served" to "the first `i + 1` have". `before` holds what each
   * listener had received when the dispatch began; `d` is whether the event
   * is deliverable.
   */
  method DispatchNext<T>(regs: seq<Registration<T>>, i: nat, wrappers: set<PendingObserver<T>>, ghost listeners: set<Observer<T>>,
                         ghost before: map<Observer<T>, seq<Option<EventArgs<T>>>>, event: Option<EventArgs<T>>, ghost d: bool)
    requires i < |regs| && Distinct(regs)
    requires forall r :: r in regs ==> Target(r) in listeners && (r.Wrapped? ==> r.wrapper in wrappers)
    requires d == Deliverable(event)
    requires forall w :: w in wrappers ==> w.pending == !(d && Wrapped(w) in regs[..i])
    requires forall o :: o in listeners ==> o in before && o.received == before[o] + Repeat(event, Deliveries(regs[..i], o, d))
    modifies wrappers, listeners
    ensures forall w :: w in wrappers ==> w.pending == !(d && Wrapped(w) in regs[..i + 1])
    ensures forall o :: o in listeners ==> o.received == before[o] + Repeat(event, Deliveries(regs[..i + 1], o, d))
  {
    var r := regs[i];
    assert regs[..i + 1] == regs[..i] + [r];
    assert r.Wrapped? ==> r !in regs[..i];
    Dispatch(r, event);
    forall o | o in listeners
      ensures o.received == before[o] + Repeat(event, Deliveries(regs[..i + 1], o, d))
    {
      DeliveriesStep(regs, i, o, d);
      if o != Target(r) {
        assert o.received == old(o.received);
      }
    }
    forall w | w in wrappers
      ensures w.pending == !(d && Wrapped(w) in regs[..i + 1])
    {
      if Wrapped(w) != r {
        assert w.pending == old(w.pending);
      }
    }
  }

  /**
   * LiveData's dispatch of `event` to each of `regs`, in order, while every
   * wrapper in `wrappers` is armed. `listeners` are the user observers that
   * the registrations reach.
   */
  method DispatchAll<T>(regs: seq<Registration<T>>, wrappers: set<PendingObserver<T>>, ghost listeners: set<Observer<T>>,
                        event: Option<EventArgs<T>>)
    requires Distinct(regs)
    requires forall r :: r in regs ==> Target(r) in listeners && (r.Wrapped? ==> r.wrapper in wrappers)
    requires forall w :: w in wrappers ==> w.pending
    modifies wrappers, listeners
    ensures forall w :: w in wrappers ==> w.pending == !(Deliverable(event) && Wrapped(w) in regs)
    ensures forall o :: o in listeners ==>
      o.received == old(o.received) + Repeat(event, Deliveries(regs, o, Deliverable(event)))
  {
    ghost var d := Deliverable(event);
    ghost var before := map o | o in listeners :: o.received;
    var i := 0;
    while i < |regs|
      invariant 0 <= i <= |regs|
      invariant d == Deliverable(event)
      invariant forall w :: w in wrappers ==> w.pending == !(d && Wrapped(w) in regs[..i])
      invariant forall o :: o in listeners ==> o.received == before[o] + Repeat(event, Deliveries(regs[..i], o, d))
    {
      DispatchNext(regs, i, wrappers, listeners, before, event, d);
      i := i + 1;
    }
    assert regs[..i] == regs;
  }

  // ---------------------------------------------------------------------
  // MutableLiveEvent
  // ---------------------------------------------------------------------

  class MutableLiveEvent<T> {
    /** The `observers` ArraySet of wrappers. */
    var observers: set<PendingObserver<T>>
    /** LiveData's registered observers, in registration order. */
    var registrations: seq<Registration<T>>
    /** LiveData's current value, meaningful once `hasValue`. */
    var value: Option<EventArgs<T>>
    var hasValue: bool

    /** Registrations are distinct, and every registered wrapper is in `observers`. */
    ghost predicate Valid()
      reads this
    {
      && Distinct(registrations)
      && forall r :: r in registrations && r.Wrapped? ==> r.wrapper in observers
    }

    /** Every user observer that a delivery can reach. */
    ghost function Listeners(): set<Observer<T>>
      reads this
    {
      (set w | w in observers :: w.wrappedObserver) + (set r | r in registrations && r.Raw? :: r.observer)
    }

    constructor()
      ensures Valid()
      ensures observers == {} && registrations == [] && !hasValue
    {
      observers := {};
      registrations := [];
      value := None;
      hasValue := false;
    }

    /**
     * `observe`: register a fresh wrapper around `observer`. LiveData replays
     * the current value to it on attach, which the unarmed wrapper swallows.
     */
    method Observe(observer: Observer<T>) returns (ghost wrapper: PendingObserver<T>)
      requires Valid()
      modifies this
      ensures Valid()
      ensures fresh(wrapper) && wrapper.wrappedObserver == observer && !wrapper.pending
      ensures observers == old(observers) + {wrapper}
      ensures registrations == old(registrations) + [Wrapped(wrapper)]
      ensures value == old(value) && hasValue == old(hasValue)
      ensures observer.received == old(observer.received)
    {
      var w := new PendingObserver(observer);
      observers := observers + {w};
      registrations := registrations + [Wrapped(w)];
      if hasValue {
        w.OnChanged(value);
      }
      wrapper := w;
    }

    /**
     * `observeForever`: add a wrapper to `observers` but register the raw
     * `observer` itself, which hears the current value on attach and then
     * every value, unfiltered. An observer already registered is not added twice.
     */
    method ObserveForever(observer: Observer<T>) returns (ghost wrapper: PendingObserver<T>)
      requires Valid()
      modifies this, observer
      ensures Valid()
      ensures fresh(wrapper) && wrapper.wrappedObserver == observer && !wrapper.pending
      ensures observers == old(observers) + {wrapper}
      ensures Raw(observer) in old(registrations) ==>
        registrations == old(registrations) && observer.received == old(observer.received)
      ensures Raw(observer) !in old(registrations) ==>
        && registrations == old(registrations) + [Raw(observer)]
        && observer.received == old(observer.received) + (if hasValue then [value] else [])
      ensures value == old(value) && hasValue == old(hasValue)
    {
      var w := new PendingObserver(observer);
      observers := observers + {w};
      if Raw(observer) !in registrations {
        registrations := registrations + [Raw(observer)];
        if hasValue {
          observer.OnChanged(value);
        }
      }
      wrapper := w;
    }

    /**
     * `removeObserver`: a wrapper leaves `observers` and the registrations; a
     * raw observer makes one wrapper around it leave, if there is one. A raw
     * registration made by `observeForever` is never unregistered.
     */
    method RemoveObserver(x: Registration<T>) returns (ghost removed: Option<PendingObserver<T>>)
      requires Valid()
      modifies this
      ensures Valid()
      ensures x.Wrapped? ==> removed == Some(x.wrapper)
      ensures x.Raw? ==>
        (removed.None? <==> forall w :: w in old(observers) ==> w.wrappedObserver != x.observer)
      ensures x.Raw? && removed.Some? ==>
        removed.value in old(observers) && removed.value.wrappedObserver == x.observer
      ensures removed.Some? ==>
        && observers == old(observers) - {removed.value}
        && registrations == Without(old(registrations), Wrapped(removed.value))
      ensures removed.None? ==> observers == old(observers) && registrations == old(registrations)
      ensures value == old(value) && hasValue == old(hasValue)
    {
      var target: PendingObserver<T>;
      match x {
        case Wrapped(w) =>
          target := w;
        case Raw(o) =>
          if w :| w in observers && w.wrappedObserver == o {
            target := w;
          } else {
            return None;
          }
      }
      observers := observers - {target};
      WithoutKeepsDistinct(registrations, Wrapped(target));
      registrations := Without(registrations, Wrapped(target));
      removed := Some(target);
    }

    /** `observers.forEach { it.awaitValue() }`. */
    method ArmAll()
      modifies observers
      ensures forall w :: w in observers ==> w.pending
    {
      var todo := observers;
      while todo != {}
        invariant todo <= observers
        invariant forall w :: w in observers && w !in todo ==> w.pending
        decreases todo
      {
        var w :| w in todo;
        w.AwaitValue();
        todo := todo - {w};
      }
    }

    /** `setValue`: arm every wrapper in `observers`, then deliver `event` to each registration in order. */
    method SetValue(event: Option<EventArgs<T>>)
      requires Valid()
      modifies this, observers, Listeners()
      ensures Valid()
      ensures observers == old(observers) && registrations == old(registrations)
      ensures value == event && hasValue
      ensures forall w :: w in observers ==> w.pending == !(Deliverable(event) && Wrapped(w) in registrations)
      ensures forall o :: o in old(Listeners()) ==>
        o.received == old(o.received) + Repeat(event, Deliveries(registrations, o, Deliverable(event)))
    {
      ArmAll();
      value := event;
      hasValue := true;
      DispatchAll(registrations, observers, Listeners(), event);
    }
  }

  /** What `o` hears from two registrations is what it hears from each. */
  lemma DeliveriesOfTwo<T>(r1: Registration<T>, r2: Registration<T>, o: Observer<T>, d: bool)
    ensures Deliveries([r1, r2], o, d) == Hears(r1, o, d) + Hears(r2, o, d)
  {
    assert [r1, r2][..1] == [r1];
    assert [r1][..0] == [];
    assert Deliveries([r1], o, d) == Deliveries([], o, d) + Hears(r1, o, d);
  }

  /**
   * `setValue` on a MutableLiveEvent with wrappers `wa` around `a` and `wc`
   * around `c`, whose registrations are `wa` and then the raw `c`; `d` says
   * whether the event is deliverable.
   */
  method SetOnPair<T>(live: MutableLiveEvent<T>, ghost wa: PendingObserver<T>, ghost wc: PendingObserver<T>,
                      a: Observer<T>, c: Observer<T>, event: Option<EventArgs<T>>, ghost d: bool)
    requires live.registrations == [Wrapped(wa), Raw(c)] && live.observers == {wa, wc}
    requires wa.wrappedObserver == a && wc.wrappedObserver == c && a != c
    requires d == Deliverable(event)
    modifies live, live.observers, a, c
    ensures live.registrations == old(live.registrations) && live.observers == old(live.observers)
    ensures a.received == old(a.received) + (if d then [event] else [])
    ensures c.received == old(c.received) + [event]
  {
    assert live.Valid();
    assert live.Listeners() == {a, c};
    DeliveriesOfTwo(Wrapped(wa), Raw(c), a, d);
    DeliveriesOfTwo(Wrapped(wa), Raw(c), c, d);
    assert Hears(Wrapped(wa), c, d) == 0 && Hears(Raw(c), c, d) == 1 && Hears(Raw(c), a, d) == 0;
    live.SetValue(event);
    assert Deliverable(event) == d;
    assert Repeat(event, 1) == [event] && Repeat(event, 0) == [];
  }

  /**
   * The logs of the run below, one event appended, as displays. Outside the
   * heap-heavy run this sequence fact is cheap for the solver.
   */
  lemma LogExtension<X>(first: X, last: X)
    ensures [first] + [last] == [first, last]
    ensures [first, first] + [last] == [first, first, last]
  {
  }

  /**
   * A single-delivery run: `a` observes and `c` observes forever; `x` is set;
   * the `x` event, now handled, is set again; then `y` is set. The wrapper
   * gives `a` each new event once and skips the handled one; the raw `c`
   * hears every value.
   */
  method SingleDeliveryRun<T>(x: Option<T>, y: Option<T>)
    returns (ex: EventArgs<T>, ey: EventArgs<T>, heardByA: seq<Option<EventArgs<T>>>, heardByC: seq<Option<EventArgs<T>>>)
    ensures ex.content == x && ey.content == y
    ensures heardByA == [Some(ex), Some(ey)]
    ensures heardByC == [Some(ex), Some(ex), Some(ey)]
  {
    var live := new MutableLiveEvent<T>();
    var a := new Observer<T>();
    var c := new Observer<T>();
    var wa := live.Observe(a);
    var wc := live.ObserveForever(c);
    ex := new EventArgs(x);
    SetOnPair(live, wa, wc, a, c, Some(ex), true);
    assert a.received == [Some(ex)] && c.received == [Some(ex)];
    ex.SetHandled(true);
    SetOnPair(live, wa, wc, a, c, Some(ex), false);
    assert a.received == [Some(ex)] && c.received == [Some(ex), Some(ex)];
    ey := new EventArgs(y);
    SetOnPair(live, wa, wc, a, c, Some(ey), true);
    LogExtension(Some(ex), Some(ey));
    heardByA := a.received;
    heardByC := c.received;
  }
}

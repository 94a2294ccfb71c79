/** Start-up: `OnStart` creates one handler and subscribes its methods to the
    repository events whose switch is on, in a fixed order. */
module Registry {
  import opened Domain
  import opened Rules

  /** The event name each handler method is subscribed under. */
  function EventName(kind: EventKind): string {
    match kind
    case Creating => "item:creating"
    case Saving => "item:saving"
    case Deleting => "item:deleting"
    case Copying => "item:copying"
    case Moving => "item:moving"
    case Renamed => "item:renamed"
    case SortOrderChanged => "item:sortorderchanged"
    case TemplateChanged => "item:templateChanged"
    case Published => "publish:itemProcessed"
  }

  /** Different handlers are subscribed under different event names. */
  lemma EventNamesDistinct(k: EventKind, l: EventKind)
    ensures EventName(k) == EventName(l) <==> k == l
  {
  }

  /** One entry of the event bus: an event name and the handler method behind it. */
  datatype Subscription = Subscription(eventName: string, kind: EventKind)

  function SubscriptionOf(kind: EventKind): Subscription {
    Subscription(EventName(kind), kind)
  }

  /** The order in which `OnStart` considers the handlers. */
  const SourceOrder: seq<EventKind> :=
    [Creating, Saving, Deleting, Copying, Moving, Renamed, SortOrderChanged, TemplateChanged, Published]

  /** The subscription `OnStart` makes for `kind`, if any. */
  function Made(config: Config, kind: EventKind): seq<Subscription> {
    if Subscribes(config, kind) then [SubscriptionOf(kind)] else []
  }

  /** The subscriptions made for `kinds`, in order, keeping the switched-on ones. */
  function Registered(config: Config, kinds: seq<EventKind>): seq<Subscription> {
    if kinds == [] then [] else Made(config, kinds[0]) + Registered(config, kinds[1..])
  }

  /** A subscription is made for exactly the listed, switched-on handlers. */
  lemma {:induction false} RegisteredMembers(config: Config, kinds: seq<EventKind>, s: Subscription)
    ensures s in Registered(config, kinds) <==> s.kind in kinds && Subscribes(config, s.kind) && s == SubscriptionOf(s.kind)
  {
    if kinds != [] {
      RegisteredMembers(config, kinds[1..], s);
      assert s.kind in kinds <==> s.kind == kinds[0] || s.kind in kinds[1..];
    }
  }

  lemma {:induction false} RegisteredSnoc(config: Config, kinds: seq<EventKind>, k: EventKind)
    ensures Registered(config, kinds + [k]) == Registered(config, kinds) + Made(config, k)
  {
    if kinds == [] {
      assert kinds + [k] == [k];
      assert [k][1..] == [];
    } else {
      assert (kinds + [k])[0] == kinds[0];
      assert (kinds + [k])[1..] == kinds[1..] + [k];
      RegisteredSnoc(config, kinds[1..], k);
    }
  }

  /** Everything `OnStart` subscribes for a configuration. */
  function Registrations(config: Config): seq<Subscription> {
    Registered(config, SourceOrder)
  }

  /** A handler is subscribed, under its own event name, exactly when its switch is on. */
  lemma RegisteredIff(config: Config, kind: EventKind)
    ensures SubscriptionOf(kind) in Registrations(config) <==> Subscribes(config, kind)
  {
    RegisteredMembers(config, SourceOrder, SubscriptionOf(kind));
    assert kind in SourceOrder by {
      match kind
      case Creating => assert SourceOrder[0] == kind;
      case Saving => assert SourceOrder[1] == kind;
      case Deleting => assert SourceOrder[2] == kind;
      case Copying => assert SourceOrder[3] == kind;
      case Moving => assert SourceOrder[4] == kind;
      case Renamed => assert SourceOrder[5] == kind;
      case SortOrderChanged => assert SourceOrder[6] == kind;
      case TemplateChanged => assert SourceOrder[7] == kind;
      case Published => assert SourceOrder[8] == kind;
    }
  }

  lemma {:induction false} RegisteredDistinct(config: Config, kinds: seq<EventKind>)
    requires forall i, j :: 0 <= i < j < |kinds| ==> kinds[i] != kinds[j]
    ensures forall i, j :: 0 <= i < j < |Registered(config, kinds)| ==>
      Registered(config, kinds)[i].eventName != Registered(config, kinds)[j].eventName
  {
    if kinds != [] {
      var tail := kinds[1..];
      RegisteredDistinct(config, tail);
      var rest := Registered(config, tail);
      var pre := if Subscribes(config, kinds[0]) then [SubscriptionOf(kinds[0])] else [];
      var r := pre + rest;
      assert Registered(config, kinds) == r;
      assert kinds[0] !in tail;
      forall i, j | 0 <= i < j < |r| ensures r[i].eventName != r[j].eventName {
        assert r[j] == rest[j - |pre|];
        assert j - |pre| < |rest|;
        if i < |pre| {
          assert r[i] == SubscriptionOf(kinds[0]);
          assert r[j] in rest;
          RegisteredMembers(config, tail, r[j]);
          EventNamesDistinct(kinds[0], r[j].kind);
        } else {
          assert r[i] == rest[i - |pre|];
          assert 0 <= i - |pre| < j - |pre| < |rest|;
        }
      }
    }
  }

  /** No event name is subscribed twice. */
  lemma RegistrationsDistinct(config: Config)
    ensures forall i, j :: 0 <= i < j < |Registrations(config)| ==>
      Registrations(config)[i].eventName != Registrations(config)[j].eventName
  {
    RegisteredDistinct(config, SourceOrder);
  }

  /** Neither the master-website flag nor `Audit.Enabled` affects what is subscribed. */
  lemma RegistrationsIgnoreGlobalSwitches(config: Config, enabled: bool, cas: bool)
    ensures Registrations(config.(auditingEnabled := enabled, isCas := cas)) == Registrations(config)
  {
    var other := config.(auditingEnabled := enabled, isCas := cas);
    assert forall k :: Subscribes(other, k) == Subscribes(config, k);
    RegisteredSame(config, other, SourceOrder);
  }

  lemma {:induction false} RegisteredSame(c: Config, d: Config, kinds: seq<EventKind>)
    requires forall k :: Subscribes(c, k) == Subscribes(d, k)
    ensures Registered(c, kinds) == Registered(d, kinds)
  {
    if kinds != [] {
      RegisteredSame(c, d, kinds[1..]);
    }
  }

  /** Subscribing the handlers of the first `n + 1` kinds is subscribing those of the first `n`, then the next one. */
  lemma RegisteredStep(config: Config, n: nat)
    requires n < |SourceOrder|
    ensures Registered(config, SourceOrder[..n + 1]) == Registered(config, SourceOrder[..n]) + Made(config, SourceOrder[n])
  {
    assert SourceOrder[..n + 1] == SourceOrder[..n] + [SourceOrder[n]];
    RegisteredSnoc(config, SourceOrder[..n], SourceOrder[n]);
  }

  /** With no settings, seven handlers are subscribed: all but the sort-order and publish ones. */
  lemma DefaultRegistrations(websiteDatabase: string)
    ensures var r := Registrations(LoadConfig(map[], websiteDatabase));
      |r| == 7 && SubscriptionOf(SortOrderChanged) !in r && SubscriptionOf(Published) !in r
  {
    var c := LoadConfig(map[], websiteDatabase);
    assert c.itemCreating && c.itemSaving && c.itemDeleting && c.itemCopying && c.itemMoving && c.itemRenamed;
    assert !c.itemSortOrderChanged && c.itemTemplateChanged && !c.itemPublished;
    assert SourceOrder[..0] == [];
    RegisteredStep(c, 0);
    assert |Registered(c, SourceOrder[..1])| == 1;
    RegisteredStep(c, 1);
    assert |Registered(c, SourceOrder[..2])| == 2;
    RegisteredStep(c, 2);
    assert |Registered(c, SourceOrder[..3])| == 3;
    RegisteredStep(c, 3);
    assert |Registered(c, SourceOrder[..4])| == 4;
    RegisteredStep(c, 4);
    assert |Registered(c, SourceOrder[..5])| == 5;
    RegisteredStep(c, 5);
    assert |Registered(c, SourceOrder[..6])| == 6;
    RegisteredStep(c, 6);
    assert |Registered(c, SourceOrder[..7])| == 6;
    RegisteredStep(c, 7);
    assert |Registered(c, SourceOrder[..8])| == 7;
    RegisteredStep(c, 8);
    assert |Registered(c, SourceOrder[..9])| == 7;
    assert SourceOrder[..9] == SourceOrder;
    RegisteredIff(c, SortOrderChanged);
    RegisteredIff(c, Published);
  }

  /** `Event.Subscribe`: the bus keeps its subscriptions in the order made. */
  class EventBus {
    var subscriptions: seq<Subscription>

    constructor ()
      ensures subscriptions == []
    {
      subscriptions := [];
    }

    method Subscribe(s: Subscription)
      modifies this
      ensures subscriptions == old(subscriptions) + [s]
    {
      subscriptions := subscriptions + [s];
    }
  }

  /** `if (switch) Event.Subscribe(name, handler)` for the handler of
      `SourceOrder[n]`, the next one after the first `n`. */
  method SubscribeNext(config: Config, bus: EventBus, ghost start: seq<Subscription>, n: nat)
    requires n < |SourceOrder|
    requires bus.subscriptions == start + Registered(config, SourceOrder[..n])
    modifies bus
    ensures bus.subscriptions == start + Registered(config, SourceOrder[..n + 1])
  {
    var kind := SourceOrder[n];
    if Subscribes(config, kind) {
      bus.Subscribe(SubscriptionOf(kind));
    }
    RegisteredStep(config, n);
  }

  /** `OnStart`: one subscription per switched-on handler, in source order. */
  method OnStart(config: Config, bus: EventBus)
    modifies bus
    ensures bus.subscriptions == old(bus.subscriptions) + Registrations(config)
  {
    ghost var start := bus.subscriptions;
    assert SourceOrder[..0] == [];
    SubscribeNext(config, bus, start, 0);  // Creating
    SubscribeNext(config, bus, start, 1);  // Saving
    SubscribeNext(config, bus, start, 2);  // Deleting
    SubscribeNext(config, bus, start, 3);  // Copying
    SubscribeNext(config, bus, start, 4);  // Moving
    SubscribeNext(config, bus, start, 5);  // Renamed
    SubscribeNext(config, bus, start, 6);  // SortOrderChanged
    SubscribeNext(config, bus, start, 7);  // TemplateChanged
    SubscribeNext(config, bus, start, 8);  // Published
    assert SourceOrder[..9] == SourceOrder;
  }
}

/** The adapter interface and the adapter registry of
    `src/adapters/index.ts`. */
module Adapters {
  import opened Wrappers
  import opened Types
  import opened Events
  import MoltX
  import Airc

  /** A `HarpAdapter`: the two adapters of the repository, or any other
      implementation of the interface, given by its fields and its two
      methods. */
  datatype Adapter =
    | MoltXAdapter
    | AircAdapter
    | Custom(platform: string, description: string, producesTypes: seq<string>,
             handles: string -> bool, translation: PlatformEvent -> seq<Section>)

  function PlatformOf(a: Adapter): string {
    match a
    case MoltXAdapter => MoltX.Platform
    case AircAdapter => Airc.Platform
    case Custom(platform, _, _, _, _) => platform
  }

  function ProducesTypesOf(a: Adapter): seq<string> {
    match a
    case MoltXAdapter => MoltX.ProducesTypes
    case AircAdapter => Airc.ProducesTypes
    case Custom(_, _, producesTypes, _, _) => producesTypes
  }

  /** `canHandle` */
  predicate CanHandle(a: Adapter, eventType: string) {
    match a
    case MoltXAdapter => MoltX.CanHandle(eventType)
    case AircAdapter => Airc.CanHandle(eventType)
    case Custom(_, _, _, handles, _) => handles(eventType)
  }

  /** `translate` */
  function TranslateWith(a: Adapter, e: PlatformEvent): seq<Section> {
    match a
    case MoltXAdapter => MoltX.Translate(e)
    case AircAdapter => Airc.Translate(e)
    case Custom(_, _, _, _, translation) => translation(e)
  }

  /** What `translate` on a registry returns: nothing without an adapter for
      the event's platform, nothing when that adapter cannot handle the
      event type, and otherwise the adapter's own translation. */
  function Route(adapters: map<string, Adapter>, e: PlatformEvent): (r: seq<Section>)
    ensures e.platform !in adapters ==> r == []
    ensures e.platform in adapters && !CanHandle(adapters[e.platform], e.eventType) ==> r == []
    ensures e.platform in adapters && CanHandle(adapters[e.platform], e.eventType) ==>
              r == TranslateWith(adapters[e.platform], e)
  {
    if e.platform !in adapters then []
    else if !CanHandle(adapters[e.platform], e.eventType) then []
    else TranslateWith(adapters[e.platform], e)
  }

  /** The registry's map with its insertion order: each registered platform
      occurs once in the order, and each adapter is filed under its own
      platform. */
  ghost predicate Registry(adapters: map<string, Adapter>, order: seq<string>) {
    && (forall p :: p in adapters <==> p in order)
    && (forall i, j :: 0 <= i < j < |order| ==> order[i] != order[j])
    && (forall p :: p in adapters ==> PlatformOf(adapters[p]) == p)
  }

  /** The insertion order after `set`: a new key goes last, an existing key
      keeps its place. */
  function Registered(order: seq<string>, p: string): (r: seq<string>)
    ensures p in r
    ensures p in order ==> r == order
    ensures p !in order ==> r == order + [p]
  {
    if p in order then order else order + [p]
  }

  /** `Array.from(adapters.values())`: the adapters in insertion order. */
  function Listed(adapters: map<string, Adapter>, order: seq<string>): (r: seq<Adapter>)
    requires forall p :: p in order ==> p in adapters
    ensures |r| == |order|
    ensures forall i :: 0 <= i < |order| ==> r[i] == adapters[order[i]]
  {
    if order == [] then [] else [adapters[order[0]]] + Listed(adapters, order[1..])
  }

  /** Registering keeps the registry consistent. */
  lemma RegisterKeepsRegistry(adapters: map<string, Adapter>, order: seq<string>, a: Adapter)
    requires Registry(adapters, order)
    ensures Registry(adapters[PlatformOf(a) := a], Registered(order, PlatformOf(a)))
  {
    var p := PlatformOf(a);
    var order' := Registered(order, p);
    if p !in order {
      forall i, j | 0 <= i < j < |order'|
        ensures order'[i] != order'[j]
      {
        if j == |order| {
          assert order'[i] == order[i];
        }
      }
    }
  }

  /** The list has one adapter per registered platform: no platform twice,
      and none missing. */
  lemma {:induction false} ListedOnePerPlatform(adapters: map<string, Adapter>, order: seq<string>)
    requires Registry(adapters, order)
    ensures var r := Listed(adapters, order);
      && (forall i, j :: 0 <= i < j < |r| ==> PlatformOf(r[i]) != PlatformOf(r[j]))
      && (forall p :: p in adapters ==> exists i :: 0 <= i < |r| && PlatformOf(r[i]) == p)
  {
    var r := Listed(adapters, order);
    forall p | p in adapters
      ensures exists i :: 0 <= i < |r| && PlatformOf(r[i]) == p
    {
      assert p in order;
      var i :| 0 <= i < |order| && order[i] == p;
      assert PlatformOf(r[i]) == p;
    }
  }

  /** Registering an adapter for a platform that already has one replaces it
      in place: the list keeps its length, and the new adapter takes the old
      one's position. */
  lemma ReplaceInPlace(adapters: map<string, Adapter>, order: seq<string>, a: Adapter, i: nat)
    requires Registry(adapters, order)
    requires i < |order| && order[i] == PlatformOf(a)
    ensures var after := Listed(adapters[PlatformOf(a) := a], Registered(order, PlatformOf(a)));
      && |after| == |Listed(adapters, order)|
      && after[i] == a
      && (forall j :: 0 <= j < |after| && j != i ==> after[j] == Listed(adapters, order)[j])
  {
    RegisterKeepsRegistry(adapters, order, a);
  }

  /** A registry routes an event only to the adapter of its platform, and
      the two adapters of the repository only produce the section types
      they declare. */
  lemma RoutedTypesDeclared(adapters: map<string, Adapter>, e: PlatformEvent)
    requires e.platform in adapters && !adapters[e.platform].Custom?
    ensures forall s <- Route(adapters, e) :: s.sectionType in ProducesTypesOf(adapters[e.platform])
  {
    if adapters[e.platform].MoltXAdapter? {
      MoltX.TranslatedTypesDeclared(e);
    } else {
      Airc.TranslatedTypesDeclared(e);
    }
  }

  /** `AdapterRegistry`: the map from platform to adapter, and the map's
      insertion order, which `list` follows. */
  class AdapterRegistry {
    var adapters: map<string, Adapter>
    var order: seq<string>

    ghost predicate Valid()
      reads this
    {
      Registry(adapters, order)
    }

    constructor()
      ensures Valid() && adapters == map[] && order == []
    {
      adapters := map[];
      order := [];
    }

    /** `register`: the adapter is filed under its platform, replacing any
        earlier one. */
    method Register(a: Adapter)
      requires Valid()
      modifies this
      ensures Valid()
      ensures adapters == old(adapters)[PlatformOf(a) := a]
      ensures order == Registered(old(order), PlatformOf(a))
    {
      RegisterKeepsRegistry(adapters, order, a);
      var p := PlatformOf(a);
      if p !in order {
        order := order + [p];
      }
      adapters := adapters[p := a];
    }

    /** `get` */
    method Get(platform: string) returns (r: Option<Adapter>)
      requires Valid()
      ensures r.Some? <==> platform in adapters
      ensures r.Some? ==> r.value == adapters[platform] && PlatformOf(r.value) == platform
    {
      if platform in adapters {
        return Some(adapters[platform]);
      }
      return None;
    }

    /** `translate` */
    method Translate(e: PlatformEvent) returns (r: seq<Section>)
      ensures r == Route(adapters, e)
      ensures e.platform !in adapters ==> r == []
    {
      if e.platform !in adapters {
        return [];
      }
      var adapter := adapters[e.platform];
      if !CanHandle(adapter, e.eventType) {
        return [];
      }
      return TranslateWith(adapter, e);
    }

    /** `list`: one adapter per registered platform, in the order the
        platforms were first registered. */
    method List() returns (r: seq<Adapter>)
      requires Valid()
      ensures r == Listed(adapters, order)
      ensures forall i, j :: 0 <= i < j < |r| ==> PlatformOf(r[i]) != PlatformOf(r[j])
      ensures forall p :: p in adapters ==> exists i :: 0 <= i < |r| && PlatformOf(r[i]) == p
    {
      ListedOnePerPlatform(adapters, order);
      r := Listed(adapters, order);
    }
  }
}

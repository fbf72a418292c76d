/** The FX manager subsystem: the registry that activates effect packs, files them
    as Active (kept until stopped) or Instant (dropped on the next tick), stops them,
    and looks up their live components by access tag. */
module FxManagerSubsystem {
  import opened Sequences
  import opened FxTypes
  import opened SpawnDispatch
  import opened Activation

  /** Both play entry points file a pack as Instant unless told otherwise, and the
      at-location one places it at the identity transform. */
  const DefaultActivationType := Instant
  const DefaultTransform := Identity

  /** Index of the first pack carrying `id`, or -1. */
  function IndexOfId(ps: seq<ActivePack>, id: int): (k: int)
    ensures -1 <= k < |ps|
    ensures k >= 0 ==> ps[k].id == id && forall j :: 0 <= j < k ==> ps[j].id != id
    ensures k == -1 ==> forall j :: 0 <= j < |ps| ==> ps[j].id != id
  {
    if ps == [] then -1
    else if ps[0].id == id then 0
    else
      var k := IndexOfId(ps[1..], id);
      if k < 0 then -1 else k + 1
  }

  /** Index of the first entry carrying `tag`, or -1. */
  function IndexOfTag(es: seq<ActiveEffect>, tag: Tag): (k: int)
    ensures -1 <= k < |es|
    ensures k >= 0 ==> es[k].accessTag == tag && forall j :: 0 <= j < k ==> es[j].accessTag != tag
    ensures k == -1 ==> forall j :: 0 <= j < |es| ==> es[j].accessTag != tag
  {
    if es == [] then -1
    else if es[0].accessTag == tag then 0
    else
      var k := IndexOfTag(es[1..], tag);
      if k < 0 then -1 else k + 1
  }

  /** The collection a handle's kind selects: Active packs for kind Active, Instant
      packs for any other kind. */
  function Selected(activePacks: seq<ActivePack>, instantPacks: seq<ActivePack>, kind: ActivationType): seq<ActivePack>
  {
    if kind == Active then activePacks else instantPacks
  }

  /** The pack a handle denotes: the first pack with its id in the collection its kind
      selects, or the default pack with id -1. */
  function Resolve(activePacks: seq<ActivePack>, instantPacks: seq<ActivePack>, h: Handle): (p: ActivePack)
    ensures !h.IsValid() ==> p == EmptyPack
    ensures p == EmptyPack || (p.id == h.id && p in Selected(activePacks, instantPacks, h.activationType))
    ensures var packs := Selected(activePacks, instantPacks, h.activationType);
      h.IsValid() ==>
        forall k :: 0 <= k < |packs| && packs[k].id == h.id && (forall j :: 0 <= j < k ==> packs[j].id != h.id) ==>
          p == packs[k]
    ensures var packs := Selected(activePacks, instantPacks, h.activationType);
      (forall q :: q in packs ==> q.id != h.id) ==> p == EmptyPack
  {
    var packs := Selected(activePacks, instantPacks, h.activationType);
    if !h.IsValid() then EmptyPack
    else
      var k := IndexOfId(packs, h.id);
      if k < 0 then EmptyPack else packs[k]
  }

  /** The object of the first entry with `tag`, or null. */
  function ObjectByTag(es: seq<ActiveEffect>, tag: Tag): (c: Ref)
    ensures (forall e :: e in es ==> e.accessTag != tag) ==> c == Null
    ensures forall k :: 0 <= k < |es| && es[k].accessTag == tag && (forall j :: 0 <= j < k ==> es[j].accessTag != tag) ==>
      c == es[k].obj
  {
    var k := IndexOfTag(es, tag);
    if k < 0 then Null else es[k].obj
  }

  /** Ids strictly increase along a collection, so no id occurs twice in it. */
  ghost predicate IdsIncreasing(ps: seq<ActivePack>)
  {
    forall i, j :: 0 <= i < j < |ps| ==> ps[i].id < ps[j].id
  }

  ghost predicate WellFiled(ps: seq<ActivePack>, nextId: int)
  {
    IdsIncreasing(ps) && forall p :: p in ps ==> 0 <= p.id < nextId && p.IsActive()
  }

  /** Filtering keeps ids increasing. */
  lemma {:induction false} KeepIdsIncreasing(ps: seq<ActivePack>, f: ActivePack -> bool)
    requires IdsIncreasing(ps)
    ensures IdsIncreasing(Keep(ps, f))
  {
    if ps != [] {
      var prefix := ps[..|ps| - 1];
      var last := ps[|ps| - 1];
      assert IdsIncreasing(prefix);
      KeepIdsIncreasing(prefix, f);
      KeepMembers(prefix, f);
      var k := Keep(prefix, f);
      forall i | 0 <= i < |k| ensures k[i].id < last.id {
        assert k[i] in k;
        var j :| 0 <= j < |prefix| && prefix[j] == k[i];
      }
    }
  }

  /** In a collection with increasing ids, a pack is the only one with its id. */
  lemma IncreasingIdsAreUnique(ps: seq<ActivePack>, k: nat)
    requires IdsIncreasing(ps) && k < |ps|
    ensures forall j :: 0 <= j < |ps| && j != k ==> ps[j].id != ps[k].id
  {
  }

  /** The registry invariant: ids are unique across both collections and below the
      counter; every pack is active and sits in the collection its kind selects;
      pending instant packs imply a pending cleanup. */
  ghost predicate RegistryValid(nextId: int, activePacks: seq<ActivePack>, instantPacks: seq<ActivePack>, armed: bool)
  {
    && nextId >= 0
    && WellFiled(activePacks, nextId)
    && WellFiled(instantPacks, nextId)
    && (forall p :: p in activePacks ==> p.activationType == Active)
    && (forall p :: p in instantPacks ==> p.activationType != Active)
    && (forall p, q :: p in activePacks && q in instantPacks ==> p.id != q.id)
    && (instantPacks != [] ==> armed)
  }

  class FxManager {
    /** The id the next activation consumes. */
    var nextId: int
    /** Packs activated with kind Active, kept until stopped. */
    var activePacks: seq<ActivePack>
    /** Packs of any other kind, dropped when the next-tick timer fires. */
    var instantPacks: seq<ActivePack>
    /** Whether the next-tick cleanup timer is pending. */
    var instantPackTimerArmed: bool
    /** How many times the next-tick cleanup has been scheduled. */
    var scheduledCleanups: nat
    /** Every Deactivate call issued to the renderer, in order. */
    var deactivations: seq<Ref>

    /** Ids are unique across both collections and below the counter; every pack is
        active and sits in the collection its kind selects; pending instant packs
        imply a pending cleanup. */
    ghost predicate Valid()
      reads this
    {
      RegistryValid(nextId, activePacks, instantPacks, instantPackTimerArmed)
    }

    constructor ()
      ensures Valid()
      ensures nextId == 0 && activePacks == [] && instantPacks == []
      ensures !instantPackTimerArmed && scheduledCleanups == 0 && deactivations == []
    {
      nextId := 0;
      activePacks := [];
      instantPacks := [];
      instantPackTimerArmed := false;
      scheduledCleanups := 0;
      deactivations := [];
    }

    /** Hand out the current counter value and advance the counter. */
    method GenerateNewActivePackId() returns (id: int)
      modifies this`nextId
      ensures id == old(nextId) && nextId == old(nextId) + 1
    {
      id := nextId;
      nextId := nextId + 1;
    }

    /** Always file the pack; schedule the cleanup only if none is pending. */
    method AddInstantPack(activePack: ActivePack)
      modifies this`instantPacks, this`instantPackTimerArmed, this`scheduledCleanups
      ensures instantPacks == old(instantPacks) + [activePack]
      ensures instantPackTimerArmed
      ensures scheduledCleanups == old(scheduledCleanups) + (if old(instantPackTimerArmed) then 0 else 1)
    {
      instantPacks := instantPacks + [activePack];
      if !instantPackTimerArmed {
        instantPackTimerArmed := true;
        scheduledCleanups := scheduledCleanups + 1;
      }
    }

    /** Drop every instant pack without deactivating anything. */
    method ClearInstantPacks()
      modifies this`instantPacks
      ensures instantPacks == []
    {
      instantPacks := [];
    }

    /** The next tick: a pending cleanup runs once and is no longer pending. */
    method FireInstantPackTimer()
      requires Valid()
      modifies this`instantPacks, this`instantPackTimerArmed
      ensures Valid()
      ensures instantPacks == [] && !instantPackTimerArmed
      ensures !old(instantPackTimerArmed) ==> instantPacks == old(instantPacks)
    {
      if instantPackTimerArmed {
        instantPackTimerArmed := false;
        ClearInstantPacks();
      }
    }

    /** Everything after the precondition checks of an activation: consume an id,
        build the pack, and file it by kind if it is active. */
    method ActivatePack(source: Ref, target: Ref, attach: Ref, anchor: Anchor, pack: EffectPack,
                        kind: ActivationType, sourceTags: set<Tag>, targetTags: set<Tag>, render: Renderer)
      returns (h: Handle)
      requires Valid()
      modifies this`nextId, this`activePacks, this`instantPacks, this`instantPackTimerArmed, this`scheduledCleanups
      ensures Valid()
      ensures nextId == old(nextId) + 1
      ensures var built := BuiltPack(old(nextId), kind, source, target, attach, anchor, pack, sourceTags, targetTags, render);
        if !built.IsActive() then
          h == InvalidHandle && activePacks == old(activePacks) && instantPacks == old(instantPacks) &&
          instantPackTimerArmed == old(instantPackTimerArmed) && scheduledCleanups == old(scheduledCleanups)
        else
          h == built.CreateHandle() && Resolve(activePacks, instantPacks, h) == built &&
          if kind == Active then
            activePacks == old(activePacks) + [built] && instantPacks == old(instantPacks) &&
            instantPackTimerArmed == old(instantPackTimerArmed) && scheduledCleanups == old(scheduledCleanups)
          else
            activePacks == old(activePacks) && instantPacks == old(instantPacks) + [built] && instantPackTimerArmed &&
            scheduledCleanups == old(scheduledCleanups) + (if old(instantPackTimerArmed) then 0 else 1)
    {
      var id := GenerateNewActivePackId();
      var activePack := AssemblePack(id, kind, source, target, attach, anchor, pack, sourceTags, targetTags, render);
      if !activePack.IsActive() {
        Unfiled(id, activePacks, instantPacks, instantPackTimerArmed);
        return InvalidHandle;
      }
      if kind == Active {
        FileActive(id, activePacks, instantPacks, instantPackTimerArmed, activePack);
        activePacks := activePacks + [activePack];
      } else {
        FileInstant(id, activePacks, instantPacks, instantPackTimerArmed, activePack);
        AddInstantPack(activePack);
      }
      h := activePack.CreateHandle();
    }

    /** Spawn a pack at a transform. An empty pack or a null source is refused before
        any id is consumed. */
    method PlayEffectAtLocation(source: Ref, target: Ref, pack: EffectPack, kind: ActivationType,
                                transform: Transform, sourceTags: set<Tag>, targetTags: set<Tag>, render: Renderer)
      returns (h: Handle)
      requires Valid()
      modifies this`nextId, this`activePacks, this`instantPacks, this`instantPackTimerArmed, this`scheduledCleanups
      ensures Valid()
      ensures !pack.IsValid() || source == Null ==>
        h == InvalidHandle && unchanged(this)
      ensures pack.IsValid() && source != Null ==>
        nextId == old(nextId) + 1 &&
        var built := BuiltPack(old(nextId), kind, source, target, Null, AtLocation(transform), pack,
                               sourceTags, targetTags, render);
        (built.IsActive() <==> h.IsValid()) &&
        (!built.IsActive() ==> activePacks == old(activePacks) && instantPacks == old(instantPacks)) &&
        (built.IsActive() ==> h == built.CreateHandle() && Resolve(activePacks, instantPacks, h) == built) &&
        (built.IsActive() && kind == Active ==>
           activePacks == old(activePacks) + [built] && instantPacks == old(instantPacks)) &&
        (built.IsActive() && kind != Active ==>
           activePacks == old(activePacks) && instantPacks == old(instantPacks) + [built] && instantPackTimerArmed) &&
        (!(built.IsActive() && kind != Active) ==> instantPackTimerArmed == old(instantPackTimerArmed)) &&
        scheduledCleanups ==
          old(scheduledCleanups) + (if built.IsActive() && kind != Active && !old(instantPackTimerArmed) then 1 else 0)
    {
      if !pack.IsValid() {
        return InvalidHandle;
      }
      if source == Null {
        return InvalidHandle;
      }
      h := ActivatePack(source, target, Null, AtLocation(transform), pack, kind, sourceTags, targetTags, render);
    }

    /** Spawn a pack on a component. An empty pack, a null source or a null component
        is refused before any id is consumed. */
    method PlayEffectAttached(source: Ref, target: Ref, attachComponent: Ref, pack: EffectPack,
                              kind: ActivationType, sourceTags: set<Tag>, targetTags: set<Tag>, render: Renderer)
      returns (h: Handle)
      requires Valid()
      modifies this`nextId, this`activePacks, this`instantPacks, this`instantPackTimerArmed, this`scheduledCleanups
      ensures Valid()
      ensures !pack.IsValid() || source == Null || attachComponent == Null ==>
        h == InvalidHandle && unchanged(this)
      ensures pack.IsValid() && source != Null && attachComponent != Null ==>
        nextId == old(nextId) + 1 &&
        var built := BuiltPack(old(nextId), kind, source, target, attachComponent, AtComponent(attachComponent), pack,
                               sourceTags, targetTags, render);
        (built.IsActive() <==> h.IsValid()) &&
        (!built.IsActive() ==> activePacks == old(activePacks) && instantPacks == old(instantPacks)) &&
        (built.IsActive() ==> h == built.CreateHandle() && Resolve(activePacks, instantPacks, h) == built) &&
        (built.IsActive() && kind == Active ==>
           activePacks == old(activePacks) + [built] && instantPacks == old(instantPacks)) &&
        (built.IsActive() && kind != Active ==>
           activePacks == old(activePacks) && instantPacks == old(instantPacks) + [built] && instantPackTimerArmed) &&
        (!(built.IsActive() && kind != Active) ==> instantPackTimerArmed == old(instantPackTimerArmed)) &&
        scheduledCleanups ==
          old(scheduledCleanups) + (if built.IsActive() && kind != Active && !old(instantPackTimerArmed) then 1 else 0)
    {
      if !pack.IsValid() {
        return InvalidHandle;
      }
      if source == Null || attachComponent == Null {
        return InvalidHandle;
      }
      h := ActivatePack(source, target, attachComponent, AtComponent(attachComponent), pack, kind,
                        sourceTags, targetTags, render);
    }

    /** The at-location entry point with its default arguments: kind Instant at the
        identity transform. */
    method PlayEffectAtLocationWithDefaults(source: Ref, target: Ref, pack: EffectPack,
                                            sourceTags: set<Tag>, targetTags: set<Tag>, render: Renderer)
      returns (h: Handle)
      requires Valid()
      modifies this`nextId, this`activePacks, this`instantPacks, this`instantPackTimerArmed, this`scheduledCleanups
      ensures Valid()
      ensures h.IsValid() ==>
        h.activationType == Instant && activePacks == old(activePacks) &&
        instantPacks == old(instantPacks) + [Resolve(activePacks, instantPacks, h)]
      ensures h.IsValid() ==>
        Resolve(activePacks, instantPacks, h) ==
          BuiltPack(old(nextId), Instant, source, target, Null, AtLocation(Identity), pack,
                    sourceTags, targetTags, render)
      ensures !h.IsValid() ==>
        activePacks == old(activePacks) && instantPacks == old(instantPacks)
    {
      h := PlayEffectAtLocation(source, target, pack, DefaultActivationType, DefaultTransform,
                                sourceTags, targetTags, render);
    }

    /** The attached entry point with its default argument: kind Instant. */
    method PlayEffectAttachedWithDefaults(source: Ref, target: Ref, attachComponent: Ref, pack: EffectPack,
                                          sourceTags: set<Tag>, targetTags: set<Tag>, render: Renderer)
      returns (h: Handle)
      requires Valid()
      modifies this`nextId, this`activePacks, this`instantPacks, this`instantPackTimerArmed, this`scheduledCleanups
      ensures Valid()
      ensures h.IsValid() ==>
        h.activationType == Instant && activePacks == old(activePacks) &&
        instantPacks == old(instantPacks) + [Resolve(activePacks, instantPacks, h)]
      ensures h.IsValid() ==>
        Resolve(activePacks, instantPacks, h) ==
          BuiltPack(old(nextId), Instant, source, target, attachComponent, AtComponent(attachComponent), pack,
                    sourceTags, targetTags, render)
      ensures !h.IsValid() ==>
        activePacks == old(activePacks) && instantPacks == old(instantPacks)
    {
      h := PlayEffectAttached(source, target, attachComponent, pack, DefaultActivationType,
                              sourceTags, targetTags, render);
    }

    /** Stop the first Active pack with the handle's id: deactivate its components and
        remove it. Instant packs are never searched; an unknown id changes nothing. */
    method StopActivePack(h: Handle)
      requires Valid()
      modifies this`activePacks, this`deactivations
      ensures Valid()
      ensures var k := IndexOfId(old(activePacks), h.id);
        if k < 0 then
          activePacks == old(activePacks) && deactivations == old(deactivations)
        else
          activePacks == old(activePacks)[..k] + old(activePacks)[k + 1..] &&
          deactivations == old(deactivations) + Deactivations(old(activePacks)[k])
      ensures forall p :: p in activePacks <==> p in old(activePacks) && p.id != h.id
    {
      var i := 0;
      while i < |activePacks|
        invariant 0 <= i <= |activePacks|
        invariant activePacks == old(activePacks) && deactivations == old(deactivations)
        invariant forall j :: 0 <= j < i ==> activePacks[j].id != h.id
      {
        if activePacks[i].id == h.id {
          ghost var packs := activePacks;
          var _, calls := Invalidate(activePacks[i]);
          deactivations := deactivations + calls;
          activePacks := activePacks[..i] + activePacks[i + 1..];
          RemovedAt(packs, i, nextId);
          return;
        }
        i := i + 1;
      }
    }

    /** Stop every Active pack whose id is among the handles' ids, in one pass over
        the Active packs; survivors keep their order and Instant packs are untouched. */
    method StopActivePacks(handles: seq<Handle>)
      requires Valid()
      modifies this`activePacks, this`deactivations
      ensures Valid()
      ensures activePacks == Keep(old(activePacks), Survives(HandleIds(handles)))
      ensures deactivations == old(deactivations) + PackDeactivations(Keep(old(activePacks), Stopped(HandleIds(handles))))
      ensures forall p :: p in activePacks <==> p in old(activePacks) && p.id !in HandleIds(handles)
    {
      var packIdsToRemove := CollectIds(handles);
      var packs := activePacks;
      var kept, calls := RemoveStopped(packs, packIdsToRemove);
      activePacks := kept;
      deactivations := deactivations + calls;
      KeepMembers(packs, Survives(packIdsToRemove));
      KeepIdsIncreasing(packs, Survives(packIdsToRemove));
    }

    /** The pack a handle denotes, searched the way the registry searches it. */
    method GetActivePack(h: Handle) returns (p: ActivePack)
      ensures p == Resolve(activePacks, instantPacks, h)
      ensures p == EmptyPack || p.id == h.id
    {
      if !h.IsValid() {
        return EmptyPack;
      }
      var packs := if h.activationType == Active then activePacks else instantPacks;
      var i := 0;
      while i < |packs|
        invariant 0 <= i <= |packs|
        invariant forall j :: 0 <= j < i ==> packs[j].id != h.id
      {
        if packs[i].id == h.id {
          return packs[i];
        }
        i := i + 1;
      }
      return EmptyPack;
    }

    /** The visual component filed under `tag` in the handle's pack: the first match in
        the visual list, or null when the handle resolves to nothing or no entry matches. */
    method GetVfxSystemComponentByTag(h: Handle, tag: Tag) returns (c: Ref)
      ensures var p := Resolve(activePacks, instantPacks, h);
        c == (if p.IsValid() then ObjectByTag(p.visuals, tag) else Null)
      ensures !h.IsValid() ==> c == Null
      ensures c != Null ==> ActiveEffect(c, tag) in Resolve(activePacks, instantPacks, h).visuals
    {
      var p := GetActivePack(h);
      if !p.IsValid() {
        return Null;
      }
      var k := IndexOfTag(p.visuals, tag);
      c := if k < 0 then Null else p.visuals[k].obj;
      if c != Null {
        assert p.visuals[k] == ActiveEffect(c, tag) && p.visuals[k] in p.visuals;
      }
    }

    /** The audio component filed under `tag`; only the audio list is searched. */
    method GetSfxSystemComponentByTag(h: Handle, tag: Tag) returns (c: Ref)
      ensures var p := Resolve(activePacks, instantPacks, h);
        c == (if p.IsValid() then ObjectByTag(p.sounds, tag) else Null)
      ensures !h.IsValid() ==> c == Null
      ensures c != Null ==> ActiveEffect(c, tag) in Resolve(activePacks, instantPacks, h).sounds
    {
      var p := GetActivePack(h);
      if !p.IsValid() {
        return Null;
      }
      var k := IndexOfTag(p.sounds, tag);
      c := if k < 0 then Null else p.sounds[k].obj;
      if c != Null {
        assert p.sounds[k] == ActiveEffect(c, tag) && p.sounds[k] in p.sounds;
      }
    }
  }

  function HandleIds(handles: seq<Handle>): set<int>
  {
    set h | h in handles :: h.id
  }

  function Survives(ids: set<int>): ActivePack -> bool
  {
    (p: ActivePack) => p.id !in ids
  }

  function Stopped(ids: set<int>): ActivePack -> bool
  {
    (p: ActivePack) => p.id in ids
  }

  /** Gather the handles' ids into a set, so that the pass over the packs tests
      membership instead of rescanning the handles. */
  method CollectIds(handles: seq<Handle>) returns (ids: set<int>)
    ensures ids == HandleIds(handles)
    ensures forall h :: h in handles ==> h.id in ids
  {
    ids := {};
    var i := 0;
    while i < |handles|
      invariant 0 <= i <= |handles|
      invariant ids == HandleIds(handles[..i])
    {
      assert handles[..i + 1] == handles[..i] + [handles[i]];
      ids := ids + {handles[i].id};
      i := i + 1;
    }
    assert handles[..i] == handles;
  }

  /** One pass over the packs: each pack whose id is in `ids` is invalidated and
      dropped, the others are kept in order. */
  method RemoveStopped(packs: seq<ActivePack>, ids: set<int>) returns (kept: seq<ActivePack>, calls: seq<Ref>)
    ensures kept == Keep(packs, Survives(ids))
    ensures calls == PackDeactivations(Keep(packs, Stopped(ids)))
  {
    kept, calls := [], [];
    var j := 0;
    while j < |packs|
      invariant 0 <= j <= |packs|
      invariant kept == Keep(packs[..j], Survives(ids))
      invariant calls == PackDeactivations(Keep(packs[..j], Stopped(ids)))
    {
      var p := packs[j];
      RemoveStep(packs, j, ids);
      if p.id in ids {
        var _, packCalls := Invalidate(p);
        calls := calls + packCalls;
      } else {
        kept := kept + [p];
      }
      j := j + 1;
    }
    assert packs[..j] == packs;
  }

  /** One more pack either joins the survivors or adds its deactivations. */
  lemma RemoveStep(packs: seq<ActivePack>, j: nat, ids: set<int>)
    requires j < |packs|
    ensures Keep(packs[..j + 1], Survives(ids)) ==
      Keep(packs[..j], Survives(ids)) + (if packs[j].id in ids then [] else [packs[j]])
    ensures PackDeactivations(Keep(packs[..j + 1], Stopped(ids))) ==
      PackDeactivations(Keep(packs[..j], Stopped(ids))) + (if packs[j].id in ids then Deactivations(packs[j]) else [])
  {
    var prefix, p := packs[..j], packs[j];
    assert packs[..j + 1] == prefix + [p];
    KeepSnoc(prefix, p, Survives(ids));
    KeepSnoc(prefix, p, Stopped(ids));
    if p.id in ids {
      PackDeactivationsSnoc(Keep(prefix, Stopped(ids)), p);
    } else {
      assert Keep(prefix + [p], Stopped(ids)) == Keep(prefix, Stopped(ids));
    }
  }

  /** Stopping the same handles a second time finds nothing left to stop: the
      survivors are unchanged and no Deactivate call is issued. */
  lemma StopTwiceStopsNothing(ps: seq<ActivePack>, ids: set<int>)
    ensures Keep(Keep(ps, Survives(ids)), Survives(ids)) == Keep(ps, Survives(ids))
    ensures Keep(Keep(ps, Survives(ids)), Stopped(ids)) == []
    ensures PackDeactivations(Keep(Keep(ps, Survives(ids)), Stopped(ids))) == []
  {
    var kept := Keep(ps, Survives(ids));
    KeepMembers(ps, Survives(ids));
    KeepAll(kept, Survives(ids));
    KeepNone(kept, Stopped(ids));
  }

  /** Every Deactivate call issued while stopping `ps`, pack by pack. */
  function PackDeactivations(ps: seq<ActivePack>): seq<Ref>
  {
    if ps == [] then [] else PackDeactivations(ps[..|ps| - 1]) + Deactivations(ps[|ps| - 1])
  }

  lemma PackDeactivationsSnoc(ps: seq<ActivePack>, p: ActivePack)
    ensures PackDeactivations(ps + [p]) == PackDeactivations(ps) + Deactivations(p)
  {
    assert (ps + [p])[..|ps|] == ps;
  }

  /** Filing a fresh active pack whose id is the counter keeps the collection well
      filed under the advanced counter, and its id then resolves to it. */
  lemma AppendFiled(ps: seq<ActivePack>, p: ActivePack, nextId: int)
    requires WellFiled(ps, nextId) && p.id == nextId && p.IsActive()
    ensures WellFiled(ps + [p], nextId + 1)
    ensures IndexOfId(ps + [p], p.id) == |ps|
  {
    AppendIncreasing(ps, p);
    FoundAtEnd(ps, p);
    var r := ps + [p];
    forall q | q in r ensures 0 <= q.id < nextId + 1 && q.IsActive() {
      if q != p {
        assert q in ps;
      }
    }
  }

  lemma AppendIncreasing(ps: seq<ActivePack>, p: ActivePack)
    requires IdsIncreasing(ps)
    requires forall q :: q in ps ==> q.id < p.id
    ensures IdsIncreasing(ps + [p])
  {
    var r := ps + [p];
    forall i, j | 0 <= i < j < |r| ensures r[i].id < r[j].id {
      assert r[i] == ps[i];
      if j < |ps| {
        assert r[j] == ps[j];
      } else {
        assert ps[i] in ps;
      }
    }
  }

  lemma {:induction false} FoundAtEnd(ps: seq<ActivePack>, p: ActivePack)
    requires forall q :: q in ps ==> q.id < p.id
    ensures IndexOfId(ps + [p], p.id) == |ps|
  {
    if ps != [] {
      assert ps[0] in ps;
      assert (ps + [p])[1..] == ps[1..] + [p];
      FoundAtEnd(ps[1..], p);
    }
  }

  /** Consuming an id without filing anything keeps the registry valid. */
  lemma Unfiled(nextId: int, activePacks: seq<ActivePack>, instantPacks: seq<ActivePack>, armed: bool)
    requires RegistryValid(nextId, activePacks, instantPacks, armed)
    ensures RegistryValid(nextId + 1, activePacks, instantPacks, armed)
  {
    Advanced(activePacks, nextId);
    Advanced(instantPacks, nextId);
  }

  /** Filing an active pack of kind Active under the counter's id keeps the registry
      valid, and its handle then resolves to it. */
  lemma FileActive(nextId: int, activePacks: seq<ActivePack>, instantPacks: seq<ActivePack>, armed: bool, p: ActivePack)
    requires RegistryValid(nextId, activePacks, instantPacks, armed)
    requires p.id == nextId && p.IsActive() && p.activationType == Active
    ensures RegistryValid(nextId + 1, activePacks + [p], instantPacks, armed)
    ensures Resolve(activePacks + [p], instantPacks, p.CreateHandle()) == p
  {
    AppendFiled(activePacks, p, nextId);
    Advanced(instantPacks, nextId);
  }

  /** Filing a pack of any other kind among the instant packs, with the cleanup armed,
      keeps the registry valid, and its handle then resolves to it. */
  lemma FileInstant(nextId: int, activePacks: seq<ActivePack>, instantPacks: seq<ActivePack>, armed: bool, p: ActivePack)
    requires RegistryValid(nextId, activePacks, instantPacks, armed)
    requires p.id == nextId && p.IsActive() && p.activationType != Active
    ensures RegistryValid(nextId + 1, activePacks, instantPacks + [p], true)
    ensures Resolve(activePacks, instantPacks + [p], p.CreateHandle()) == p
  {
    AppendFiled(instantPacks, p, nextId);
    Advanced(activePacks, nextId);
  }

  /** A collection well filed under the counter stays so once the counter advances. */
  lemma Advanced(ps: seq<ActivePack>, nextId: int)
    requires WellFiled(ps, nextId)
    ensures WellFiled(ps, nextId + 1)
    ensures forall p :: p in ps ==> p.id != nextId
  {
  }

  /** Removing one pack from a well-filed collection keeps it well filed and removes
      exactly the packs with that pack's id. */
  lemma RemovedAt(ps: seq<ActivePack>, k: nat, nextId: int)
    requires WellFiled(ps, nextId) && k < |ps|
    ensures WellFiled(ps[..k] + ps[k + 1..], nextId)
    ensures forall p :: p in ps[..k] + ps[k + 1..] <==> p in ps && p.id != ps[k].id
  {
    var r := ps[..k] + ps[k + 1..];
    assert forall i :: 0 <= i < |r| ==> r[i] == ps[if i < k then i else i + 1];
    IncreasingIdsAreUnique(ps, k);
    forall p | p in ps && p.id != ps[k].id ensures p in r {
      var i :| 0 <= i < |ps| && ps[i] == p;
      assert r[if i < k then i else i - 1] == p;
    }
  }

  /** The pack built from one ungated visual descriptor spawned at the identity transform. */
  lemma OneVisualBuilt(id: int, kind: ActivationType, source: Ref, asset: Ref, tag: Tag, render: Renderer)
    requires asset != Null
    ensures var v := VfxData(FxData(tag, DefaultAttachData, DefaultTagRequirements), asset);
      BuiltPack(id, kind, source, Null, Null, AtLocation(Identity), EffectPack([v], []), {}, {}, render) ==
      ActivePack(id, kind, source, Null, Null,
                 [ActiveEffect(render(VisualAtLocation(asset, WorldTransform(Identity), Identity)), tag)], [])
  {
    var v := VfxData(FxData(tag, DefaultAttachData, DefaultTagRequirements), asset);
    assert [v][..0] == [];
  }

  /** Two instant activations within one tick get consecutive ids and schedule a
      single cleanup; a component can be looked up once its pack is filed. */
  method InstantActivationsShareOneCleanup(source: Ref, asset: Ref, tag: Tag, render: Renderer)
    returns (h1: Handle, h2: Handle, found: Ref, scheduled: nat)
    requires source != Null && asset != Null
    ensures h1 == Handle(0, Instant) && h2 == Handle(1, Instant)
    ensures found == render(VisualAtLocation(asset, WorldTransform(Identity), Identity))
    ensures scheduled == 1
  {
    var v := VfxData(FxData(tag, DefaultAttachData, DefaultTagRequirements), asset);
    var pack := EffectPack([v], []);
    var m := new FxManager();
    OneVisualBuilt(0, Instant, source, asset, tag, render);
    OneVisualBuilt(1, Instant, source, asset, tag, render);
    h1 := m.PlayEffectAtLocation(source, Null, pack, Instant, Identity, {}, {}, render);
    found := m.GetVfxSystemComponentByTag(h1, tag);
    h2 := m.PlayEffectAtLocation(source, Null, pack, Instant, Identity, {}, {}, render);
    scheduled := m.scheduledCleanups;
  }

  /** An instant pack is found until the next tick and not after it. */
  method InstantPackGoneAfterTick(source: Ref, asset: Ref, tag: Tag, render: Renderer)
    returns (h: Handle, before: Ref, after: Ref)
    requires source != Null && asset != Null
    ensures h == Handle(0, Instant)
    ensures before == render(VisualAtLocation(asset, WorldTransform(Identity), Identity))
    ensures after == Null
  {
    var v := VfxData(FxData(tag, DefaultAttachData, DefaultTagRequirements), asset);
    var pack := EffectPack([v], []);
    var m := new FxManager();
    OneVisualBuilt(0, Instant, source, asset, tag, render);
    h := m.PlayEffectAtLocation(source, Null, pack, Instant, Identity, {}, {}, render);
    before := m.GetVfxSystemComponentByTag(h, tag);
    m.FireInstantPackTimer();
    after := m.GetVfxSystemComponentByTag(h, tag);
  }
}

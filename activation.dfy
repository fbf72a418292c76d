/** What one activation builds: every descriptor is gated against one snapshot of
    the source and target tags, and each one that passes contributes one entry
    (the component the renderer returned, null or not, with the descriptor's access
    tag), in pack order. */
module Activation {
  import opened Sequences
  import opened FxTypes
  import opened SpawnDispatch

  function VfxGate(sourceTags: set<Tag>, targetTags: set<Tag>): VfxData -> bool
  {
    (d: VfxData) => d.fx.CanPlay(sourceTags, targetTags)
  }

  function SfxGate(sourceTags: set<Tag>, targetTags: set<Tag>): SfxData -> bool
  {
    (d: SfxData) => d.fx.CanPlay(sourceTags, targetTags)
  }

  function VfxEntry(anchor: Anchor, render: Renderer): VfxData -> ActiveEffect
  {
    (d: VfxData) => ActiveEffect(Spawned(render, SpawnVfx(d, anchor)), d.fx.accessTag)
  }

  function SfxEntry(anchor: Anchor, render: Renderer): SfxData -> ActiveEffect
  {
    (d: SfxData) => ActiveEffect(Spawned(render, SpawnSfx(d, anchor)), d.fx.accessTag)
  }

  /** The active pack that an activation with id `id` assembles before it decides
      whether to keep it. */
  function BuiltPack(id: int, kind: ActivationType, source: Ref, target: Ref, attach: Ref, anchor: Anchor,
                     pack: EffectPack, sourceTags: set<Tag>, targetTags: set<Tag>, render: Renderer): (p: ActivePack)
    ensures p.id == id && p.activationType == kind
    ensures p.sourceActor == source && p.targetActor == target && p.attachComponent == attach
    ensures |p.visuals| <= |pack.vfxData| && |p.sounds| <= |pack.sfxData|
  {
    ActivePack(id, kind, source, target, attach,
               Map(Keep(pack.vfxData, VfxGate(sourceTags, targetTags)), VfxEntry(anchor, render)),
               Map(Keep(pack.sfxData, SfxGate(sourceTags, targetTags)), SfxEntry(anchor, render)))
  }

  /** The entries of the built pack are exactly the spawn results of the descriptors
      whose gate passes: one entry per passing descriptor, tagged with its access tag. */
  lemma BuiltPackEntries(id: int, kind: ActivationType, source: Ref, target: Ref, attach: Ref, anchor: Anchor,
                         pack: EffectPack, sourceTags: set<Tag>, targetTags: set<Tag>, render: Renderer)
    ensures var p := BuiltPack(id, kind, source, target, attach, anchor, pack, sourceTags, targetTags, render);
      (forall d :: d in pack.vfxData && d.fx.CanPlay(sourceTags, targetTags) ==>
         ActiveEffect(Spawned(render, SpawnVfx(d, anchor)), d.fx.accessTag) in p.visuals) &&
      (forall e :: e in p.visuals ==>
         (exists d :: d in pack.vfxData && d.fx.CanPlay(sourceTags, targetTags) &&
                      e == ActiveEffect(Spawned(render, SpawnVfx(d, anchor)), d.fx.accessTag))) &&
      (forall d :: d in pack.sfxData && d.fx.CanPlay(sourceTags, targetTags) ==>
         ActiveEffect(Spawned(render, SpawnSfx(d, anchor)), d.fx.accessTag) in p.sounds) &&
      (forall e :: e in p.sounds ==>
         (exists d :: d in pack.sfxData && d.fx.CanPlay(sourceTags, targetTags) &&
                      e == ActiveEffect(Spawned(render, SpawnSfx(d, anchor)), d.fx.accessTag)))
  {
    var p := BuiltPack(id, kind, source, target, attach, anchor, pack, sourceTags, targetTags, render);
    var kv := Keep(pack.vfxData, VfxGate(sourceTags, targetTags));
    var ks := Keep(pack.sfxData, SfxGate(sourceTags, targetTags));
    KeepMembers(pack.vfxData, VfxGate(sourceTags, targetTags));
    KeepMembers(pack.sfxData, SfxGate(sourceTags, targetTags));
    forall d | d in pack.vfxData && d.fx.CanPlay(sourceTags, targetTags)
      ensures ActiveEffect(Spawned(render, SpawnVfx(d, anchor)), d.fx.accessTag) in p.visuals
    {
      assert d in kv;
      var i :| 0 <= i < |kv| && kv[i] == d;
      assert p.visuals[i] == VfxEntry(anchor, render)(d);
    }
    forall e | e in p.visuals
      ensures (exists d :: d in pack.vfxData && d.fx.CanPlay(sourceTags, targetTags) &&
                           e == ActiveEffect(Spawned(render, SpawnVfx(d, anchor)), d.fx.accessTag))
    {
      var i :| 0 <= i < |p.visuals| && p.visuals[i] == e;
      assert kv[i] in kv;
    }
    forall d | d in pack.sfxData && d.fx.CanPlay(sourceTags, targetTags)
      ensures ActiveEffect(Spawned(render, SpawnSfx(d, anchor)), d.fx.accessTag) in p.sounds
    {
      assert d in ks;
      var i :| 0 <= i < |ks| && ks[i] == d;
      assert p.sounds[i] == SfxEntry(anchor, render)(d);
    }
    forall e | e in p.sounds
      ensures (exists d :: d in pack.sfxData && d.fx.CanPlay(sourceTags, targetTags) &&
                           e == ActiveEffect(Spawned(render, SpawnSfx(d, anchor)), d.fx.accessTag))
    {
      var i :| 0 <= i < |p.sounds| && p.sounds[i] == e;
      assert ks[i] in ks;
    }
  }

  /** When every visual descriptor passes, the visual list follows the pack
      one-to-one and in order. */
  lemma AllPassingKeepsPackOrder(id: int, kind: ActivationType, source: Ref, target: Ref, attach: Ref,
                                 anchor: Anchor, pack: EffectPack, sourceTags: set<Tag>, targetTags: set<Tag>,
                                 render: Renderer)
    requires forall d :: d in pack.vfxData ==> d.fx.CanPlay(sourceTags, targetTags)
    ensures var p := BuiltPack(id, kind, source, target, attach, anchor, pack, sourceTags, targetTags, render);
      |p.visuals| == |pack.vfxData| &&
      forall i :: 0 <= i < |pack.vfxData| ==>
        p.visuals[i] == ActiveEffect(Spawned(render, SpawnVfx(pack.vfxData[i], anchor)), pack.vfxData[i].fx.accessTag)
  {
    KeepAll(pack.vfxData, VfxGate(sourceTags, targetTags));
  }

  /** A built pack with a real id is active exactly when some descriptor passes its
      gate: an entry is recorded even when the renderer returns null. */
  lemma BuiltPackActiveIffSomeGatePasses(id: int, kind: ActivationType, source: Ref, target: Ref, attach: Ref,
                                         anchor: Anchor, pack: EffectPack, sourceTags: set<Tag>,
                                         targetTags: set<Tag>, render: Renderer)
    requires id >= 0
    ensures BuiltPack(id, kind, source, target, attach, anchor, pack, sourceTags, targetTags, render).IsActive() <==>
      (exists d :: d in pack.vfxData && d.fx.CanPlay(sourceTags, targetTags)) ||
      (exists d :: d in pack.sfxData && d.fx.CanPlay(sourceTags, targetTags))
  {
    KeepNone(pack.vfxData, VfxGate(sourceTags, targetTags));
    KeepNone(pack.sfxData, SfxGate(sourceTags, targetTags));
  }

  /** The example of a pack with an ungated visual "hit" and a sound that needs the
      source to own "burning": a source without "burning" gets only the visual. */
  lemma BurningExample(vfxAsset: Ref, sfxAsset: Ref, source: Ref, render: Renderer, sourceTags: set<Tag>)
    requires vfxAsset != Null && "burning" !in sourceTags
    ensures var v := VfxData(FxData("hit", DefaultAttachData, DefaultTagRequirements), vfxAsset);
      var s := SfxData(FxData("sound", DefaultAttachData, TagRequirements({"burning"}, {}, {}, {})), sfxAsset, TwoDimensional);
      var p := BuiltPack(0, Instant, source, Null, Null, AtLocation(Identity), EffectPack([v], [s]), sourceTags, {}, render);
      p.visuals == [ActiveEffect(render(VisualAtLocation(vfxAsset, WorldTransform(Identity), Identity)), "hit")] &&
      p.sounds == [] && p.IsActive()
  {
    var v := VfxData(FxData("hit", DefaultAttachData, DefaultTagRequirements), vfxAsset);
    var s := SfxData(FxData("sound", DefaultAttachData, TagRequirements({"burning"}, {}, {}, {})), sfxAsset, TwoDimensional);
    assert [v][..0] == [] && [s][..0] == [];
    assert !s.fx.CanPlay(sourceTags, {});
  }

  /** The two loops of an activation: append one entry per passing visual descriptor,
      then one per passing audio descriptor, to a fresh pack with the given id. */
  method AssemblePack(id: int, kind: ActivationType, source: Ref, target: Ref, attach: Ref, anchor: Anchor,
                      pack: EffectPack, sourceTags: set<Tag>, targetTags: set<Tag>, render: Renderer)
    returns (activePack: ActivePack)
    ensures activePack == BuiltPack(id, kind, source, target, attach, anchor, pack, sourceTags, targetTags, render)
  {
    activePack := ActivePack(id, kind, source, target, attach, [], []);
    activePack := AddPassingVisuals(activePack, pack.vfxData, anchor, sourceTags, targetTags, render);
    activePack := AddPassingSounds(activePack, pack.sfxData, anchor, sourceTags, targetTags, render);
  }

  /** The visual loop: spawn every descriptor whose gate passes and append its entry. */
  method AddPassingVisuals(start: ActivePack, vfxData: seq<VfxData>, anchor: Anchor,
                           sourceTags: set<Tag>, targetTags: set<Tag>, render: Renderer)
    returns (activePack: ActivePack)
    ensures activePack ==
      start.(visuals := start.visuals + Map(Keep(vfxData, VfxGate(sourceTags, targetTags)), VfxEntry(anchor, render)))
  {
    activePack := start;
    ghost var gate, entry := VfxGate(sourceTags, targetTags), VfxEntry(anchor, render);
    var i := 0;
    while i < |vfxData|
      invariant 0 <= i <= |vfxData|
      invariant activePack == start.(visuals := start.visuals + Map(Keep(vfxData[..i], gate), entry))
    {
      var d := vfxData[i];
      KeepMapStep(vfxData, i, gate, entry);
      if d.fx.CanPlay(sourceTags, targetTags) {
        activePack := activePack.AddActiveVfx(Spawned(render, SpawnVfx(d, anchor)), d.fx.accessTag);
      }
      i := i + 1;
    }
    assert vfxData[..i] == vfxData;
  }

  /** The audio loop: spawn every descriptor whose gate passes and append its entry. */
  method AddPassingSounds(start: ActivePack, sfxData: seq<SfxData>, anchor: Anchor,
                          sourceTags: set<Tag>, targetTags: set<Tag>, render: Renderer)
    returns (activePack: ActivePack)
    ensures activePack ==
      start.(sounds := start.sounds + Map(Keep(sfxData, SfxGate(sourceTags, targetTags)), SfxEntry(anchor, render)))
  {
    activePack := start;
    ghost var gate, entry := SfxGate(sourceTags, targetTags), SfxEntry(anchor, render);
    var j := 0;
    while j < |sfxData|
      invariant 0 <= j <= |sfxData|
      invariant activePack == start.(sounds := start.sounds + Map(Keep(sfxData[..j], gate), entry))
    {
      var d := sfxData[j];
      KeepMapStep(sfxData, j, gate, entry);
      if d.fx.CanPlay(sourceTags, targetTags) {
        activePack := activePack.AddActiveSound(Spawned(render, SpawnSfx(d, anchor)), d.fx.accessTag);
      }
      j := j + 1;
    }
    assert sfxData[..j] == sfxData;
  }
}

/** The data records of the FX manager: tag gates, effect descriptors, effect packs,
    handles and the runtime record of one activation (an "active effect pack"). */
module FxTypes {
  import opened Sequences

  /** A gameplay tag, compared exactly (no hierarchy). The empty string stands for
      the unset tag. */
  type Tag = string

  type Name = string

  /** A reference to an engine object (actor, scene component, asset or a live
      effect component). The core never dereferences one; it only tests for null. */
  datatype Ref = Null | Obj(id: nat)

  /** A world or relative transform. Transform arithmetic is not modelled, so a
      transform is an opaque token handed through to the renderer. */
  datatype Transform = Identity | Placed(token: nat)

  datatype AttachType = AtSocketLocation | AttachToSocket

  datatype AudioType = TwoDimensional | ThreeDimensional

  /** The engine's attachment rule, as chosen by the author of a descriptor. */
  datatype AttachmentRule = KeepRelative | KeepWorld | SnapToTarget

  datatype AttachData = AttachData(
    relativeTransform: Transform,
    attachType: AttachType,
    socketName: Name,
    attachmentRule: AttachmentRule)

  /** What a default-constructed attachment policy holds. */
  const DefaultAttachData := AttachData(Identity, AtSocketLocation, "root", SnapToTarget)

  /** The four tag sets that gate one descriptor. */
  datatype TagRequirements = TagRequirements(
    sourceRequiredTags: set<Tag>,
    sourceBlockingTags: set<Tag>,
    targetRequiredTags: set<Tag>,
    targetBlockingTags: set<Tag>)
  {
    /** Whether `owning` meets `required` (every tag owned) and `blocking` (none
        owned). Each half is switched on only when the SOURCE set of that kind is
        non-empty, whichever side is being checked. */
    function MeetsTagCriteria(owning: set<Tag>, required: set<Tag>, blocking: set<Tag>): (r: bool)
      ensures r <==>
        (sourceRequiredTags == {} || forall t :: t in required ==> t in owning) &&
        (sourceBlockingTags == {} || forall t :: t in blocking ==> t !in owning)
      ensures required == {} && blocking == {} ==> r
    {
      var meetsRequired := if sourceRequiredTags != {} then required <= owning else true;
      var meetsBlocking := if sourceBlockingTags != {} then owning !! blocking else true;
      meetsRequired && meetsBlocking
    }

    /** On the source side the gates are irrelevant: an empty set constrains nothing. */
    function MeetsSourceTagCriteria(sourceTags: set<Tag>): (r: bool)
      ensures r <==> sourceRequiredTags <= sourceTags && sourceTags !! sourceBlockingTags
    {
      MeetsTagCriteria(sourceTags, sourceRequiredTags, sourceBlockingTags)
    }

    /** On the target side the target sets are consulted only when the matching
        source set is non-empty. */
    function MeetsTargetTagCriteria(targetTags: set<Tag>): (r: bool)
      ensures sourceRequiredTags != {} && sourceBlockingTags != {} ==>
        (r <==> targetRequiredTags <= targetTags && targetTags !! targetBlockingTags)
      ensures sourceRequiredTags == {} && sourceBlockingTags == {} ==> r
      ensures targetRequiredTags <= targetTags && targetTags !! targetBlockingTags ==> r
    {
      MeetsTagCriteria(targetTags, targetRequiredTags, targetBlockingTags)
    }

    function MeetsSourceAndTargetCriteria(sourceTags: set<Tag>, targetTags: set<Tag>): (r: bool)
      ensures r ==> sourceRequiredTags <= sourceTags && sourceTags !! sourceBlockingTags
      ensures r <==> MeetsSourceTagCriteria(sourceTags) && MeetsTargetTagCriteria(targetTags)
    {
      MeetsSourceTagCriteria(sourceTags) && MeetsTargetTagCriteria(targetTags)
    }
  }

  /** A default-constructed set of requirements: all four sets empty. */
  const DefaultTagRequirements := TagRequirements({}, {}, {}, {})

  /** What every descriptor carries, visual or audio. */
  datatype FxData = FxData(accessTag: Tag, attachmentData: AttachData, tagRequirements: TagRequirements)
  {
    function GetRelativeTransform(): Transform { attachmentData.relativeTransform }

    /** A descriptor plays when the source meets the source criteria and the target
        meets the (source-gated) target criteria. */
    function CanPlay(sourceTags: set<Tag>, targetTags: set<Tag>): (r: bool)
      ensures r <==> tagRequirements.MeetsSourceTagCriteria(sourceTags) &&
                     tagRequirements.MeetsTargetTagCriteria(targetTags)
      ensures r ==> tagRequirements.sourceRequiredTags <= sourceTags &&
                    sourceTags !! tagRequirements.sourceBlockingTags
      ensures tagRequirements == DefaultTagRequirements ==> r
    {
      tagRequirements.MeetsSourceAndTargetCriteria(sourceTags, targetTags)
    }
  }

  datatype VfxData = VfxData(fx: FxData, particleSystem: Ref)

  datatype SfxData = SfxData(fx: FxData, sound: Ref, audioType: AudioType)

  const DefaultFxData := FxData("", DefaultAttachData, DefaultTagRequirements)

  /** A default visual descriptor has no asset; a default audio one has no sound and is 2-D. */
  const DefaultVfxData := VfxData(DefaultFxData, Null)

  const DefaultSfxData := SfxData(DefaultFxData, Null, TwoDimensional)

  /** An authored bundle of descriptors, read-only during activation. */
  datatype EffectPack = EffectPack(vfxData: seq<VfxData>, sfxData: seq<SfxData>)
  {
    predicate HasSfx() { |sfxData| > 0 }

    predicate HasVfx() { |vfxData| > 0 }

    /** A pack is valid iff it is not the empty pack. */
    function IsValid(): (r: bool)
      ensures r <==> this != EffectPack([], [])
    {
      HasSfx() || HasVfx()
    }
  }

  datatype ActivationType = None | Instant | Active

  /** The caller's token for an activation: an id and the kind it was filed under. */
  datatype Handle = Handle(id: int, activationType: ActivationType)
  {
    predicate IsValid() { id != -1 }
  }

  /** The default-constructed handle. */
  const InvalidHandle := Handle(-1, None)

  /** One live effect component, paired with the access tag of the descriptor that spawned it. */
  datatype ActiveEffect = ActiveEffect(obj: Ref, accessTag: Tag)

  /** The runtime record of one activation. */
  datatype ActivePack = ActivePack(
    id: int,
    activationType: ActivationType,
    sourceActor: Ref,
    targetActor: Ref,
    attachComponent: Ref,
    visuals: seq<ActiveEffect>,
    sounds: seq<ActiveEffect>)
  {
    /** Append a visual entry; the audio list and the identity stay as they are. */
    function AddActiveVfx(vfx: Ref, accessTag: Tag): (p: ActivePack)
      ensures |p.visuals| == |visuals| + 1 && p.visuals[..|visuals|] == visuals
      ensures p.visuals[|visuals|] == ActiveEffect(vfx, accessTag)
      ensures p.sounds == sounds && p.CreateHandle() == CreateHandle()
      ensures p.sourceActor == sourceActor && p.targetActor == targetActor && p.attachComponent == attachComponent
    {
      this.(visuals := visuals + [ActiveEffect(vfx, accessTag)])
    }

    /** Append an audio entry; the visual list and the identity stay as they are. */
    function AddActiveSound(sound: Ref, accessTag: Tag): (p: ActivePack)
      ensures |p.sounds| == |sounds| + 1 && p.sounds[..|sounds|] == sounds
      ensures p.sounds[|sounds|] == ActiveEffect(sound, accessTag)
      ensures p.visuals == visuals && p.CreateHandle() == CreateHandle()
      ensures p.sourceActor == sourceActor && p.targetActor == targetActor && p.attachComponent == attachComponent
    {
      this.(sounds := sounds + [ActiveEffect(sound, accessTag)])
    }

    predicate HasVfx() { |visuals| > 0 }

    predicate HasSfx() { |sounds| > 0 }

    predicate IsValid() { id > -1 }

    /** Active: a real id and at least one entry, null or not. */
    function IsActive(): (r: bool)
      ensures r <==> id >= 0 && visuals + sounds != []
    {
      IsValid() && (HasSfx() || HasVfx())
    }

    function CreateHandle(): (h: Handle)
      ensures h.id == id && h.activationType == activationType
      ensures IsValid() ==> h.IsValid()
    {
      Handle(id, activationType)
    }
  }

  /** A default-constructed pack, also the "not found" answer of a lookup. */
  const EmptyPack := ActivePack(-1, None, Null, Null, Null, [], [])

  predicate IsLive(e: ActiveEffect) { e.obj != Null }

  function ObjectOf(e: ActiveEffect): Ref { e.obj }

  /** The objects that deactivation reaches: one per non-null entry, in list order. */
  function LiveObjects(es: seq<ActiveEffect>): (r: seq<Ref>)
    ensures Null !in r
    ensures forall e :: e in es && e.obj != Null ==> e.obj in r
    ensures forall x :: x in r ==> exists e :: e in es && e.obj == x
  {
    KeepMembers(es, IsLive);
    var kept := Keep(es, IsLive);
    assert forall i :: 0 <= i < |kept| ==> kept[i] in kept;
    Map(kept, ObjectOf)
  }

  /** Every Deactivate call that invalidating `p` issues, visuals first. */
  function Deactivations(p: ActivePack): (r: seq<Ref>)
    ensures Null !in r
    ensures forall e :: e in p.visuals + p.sounds && e.obj != Null ==> e.obj in r
    ensures forall x :: x in r ==> exists e :: e in p.visuals + p.sounds && e.obj == x
    ensures p.visuals + p.sounds == [] ==> r == []
  {
    LiveObjects(p.visuals) + LiveObjects(p.sounds)
  }

  /** Deactivate every non-null component of one list, skipping null entries.
      The calls issued are returned in order. */
  method DeactivateSystems(es: seq<ActiveEffect>) returns (calls: seq<Ref>)
    ensures calls == LiveObjects(es)
  {
    calls := [];
    if es == [] {
      return;
    }
    var i := 0;
    while i < |es|
      invariant 0 <= i <= |es|
      invariant calls == Map(Keep(es[..i], IsLive), ObjectOf)
    {
      var e := es[i];
      KeepMapStep(es, i, IsLive, ObjectOf);
      if e.obj != Null {
        calls := calls + [e.obj];
      }
      i := i + 1;
    }
    assert es[..i] == es;
  }

  /** Deactivate everything the pack holds and empty both lists. */
  method Invalidate(p: ActivePack) returns (q: ActivePack, calls: seq<Ref>)
    ensures q == p.(visuals := [], sounds := [])
    ensures !q.IsActive() && q.CreateHandle() == p.CreateHandle()
    ensures calls == Deactivations(p)
  {
    var fxCalls := DeactivateSystems(p.visuals);
    var sfxCalls := DeactivateSystems(p.sounds);
    q := p.(visuals := [], sounds := []);
    calls := fxCalls + sfxCalls;
  }

  /** A one-entry list deactivates its object when it is non-null; an empty list nothing. */
  lemma OneLive(e: ActiveEffect)
    ensures LiveObjects([e]) == (if e.obj != Null then [e.obj] else [])
    ensures LiveObjects([]) == []
  {
    assert [e][..0] == [];
  }

  /** The default handle is invalid, and validity depends on the id alone. */
  lemma InvalidHandleIsInvalid(h: Handle)
    ensures InvalidHandle.id == -1 && InvalidHandle.activationType == None
    ensures !InvalidHandle.IsValid()
  {
  }

  /** A default attachment policy places an effect once at the "root" socket with the
      identity offset, snapping to the target if it is ever attached. */
  lemma DefaultAttachDataPlacesAtRoot()
    ensures DefaultAttachData.attachType.AtSocketLocation? && DefaultAttachData.socketName == "root"
    ensures DefaultAttachData.relativeTransform == Identity && DefaultAttachData.attachmentRule.SnapToTarget?
  {
  }

  /** Default descriptors always pass their gate but name no asset: a default visual
      has no particle system, a default audio one no sound and 2-D audio. */
  lemma DefaultDescriptorsPlayButHaveNoAsset(sourceTags: set<Tag>, targetTags: set<Tag>)
    ensures DefaultVfxData.fx.CanPlay(sourceTags, targetTags) && DefaultVfxData.particleSystem == Null
    ensures DefaultSfxData.fx.CanPlay(sourceTags, targetTags) && DefaultSfxData.sound == Null
    ensures DefaultSfxData.audioType == TwoDimensional && DefaultVfxData.fx.accessTag == ""
  {
  }

  /** The default pack is neither valid nor active, refers to nothing, and its handle
      is the invalid handle. */
  lemma EmptyPackIsInert()
    ensures !EmptyPack.IsValid() && !EmptyPack.IsActive()
    ensures EmptyPack.CreateHandle() == InvalidHandle
    ensures EmptyPack.sourceActor == Null && EmptyPack.targetActor == Null && EmptyPack.attachComponent == Null
    ensures Deactivations(EmptyPack) == []
  {
  }

  /** Default requirements let every descriptor play, whatever either side owns. */
  lemma DefaultRequirementsAlwaysMet(sourceTags: set<Tag>, targetTags: set<Tag>)
    ensures DefaultTagRequirements.MeetsSourceAndTargetCriteria(sourceTags, targetTags)
    ensures DefaultFxData.CanPlay(sourceTags, targetTags)
  {
  }

  /** Target requirements are ignored while the source sets are empty: a target that
      owns nothing passes a gate that requires a target tag. */
  lemma TargetGateFollowsSourceSets(t: Tag)
    ensures TagRequirements({}, {}, {t}, {}).MeetsTargetTagCriteria({})
    ensures TagRequirements({}, {}, {}, {t}).MeetsTargetTagCriteria({t})
  {
  }
}

/** Which renderer call a descriptor turns into. The renderer itself (particle,
    Niagara and audio libraries) is an oracle: it receives a spawn request and hands
    back a live component, or null. */
module SpawnDispatch {
  import opened FxTypes

  /** The engine's attach-location type expected by the attached spawn calls. */
  datatype AttachLocation = SnapToTargetLocation | KeepRelativeOffset | KeepWorldPosition

  /** The fixed three-entry table from attachment rule to attach-location type. */
  function GetAttachLocationType(rule: AttachmentRule): (l: AttachLocation)
    ensures l.SnapToTargetLocation? <==> rule.SnapToTarget?
    ensures l.KeepRelativeOffset? <==> rule.KeepRelative?
    ensures l.KeepWorldPosition? <==> rule.KeepWorld?
  {
    match rule
    case SnapToTarget => SnapToTargetLocation
    case KeepRelative => KeepRelativeOffset
    case KeepWorld => KeepWorldPosition
  }

  /** Where an at-location spawn goes: a transform from the caller, or the current
      world transform of a socket of a component (which the renderer reads). */
  datatype Placement = WorldTransform(transform: Transform) | SocketTransform(component: Ref, socket: Name)

  /** One renderer call, with the arguments the core decides. */
  datatype SpawnRequest =
    | NoSpawn
    | VisualAtLocation(asset: Ref, placement: Placement, relative: Transform)
    | VisualAttached(asset: Ref, component: Ref, socket: Name, relative: Transform, rule: AttachLocation)
    | Sound2D(asset: Ref)
    | SoundAtLocation(asset: Ref, placement: Placement, relative: Transform)
    | SoundAttached(asset: Ref, component: Ref, socket: Name, relative: Transform, rule: AttachLocation)

  /** The renderer oracle: what a spawn call returns, possibly null. */
  type Renderer = SpawnRequest -> Ref

  /** The component a request yields; a request that spawns nothing yields null
      without reaching the renderer. */
  function Spawned(render: Renderer, req: SpawnRequest): Ref
  {
    if req.NoSpawn? then Null else render(req)
  }

  function SpawnVfxDataAtLocation(d: VfxData, p: Placement): (r: SpawnRequest)
    ensures r.NoSpawn? <==> d.particleSystem == Null
    ensures r.NoSpawn? || r.VisualAtLocation?
    ensures r.VisualAtLocation? ==>
      r.asset == d.particleSystem && r.placement == p && r.relative == d.fx.GetRelativeTransform()
  {
    if d.particleSystem == Null then NoSpawn
    else VisualAtLocation(d.particleSystem, p, d.fx.GetRelativeTransform())
  }

  /** At a socket location the descriptor is placed once at the socket and not
      attached; otherwise it is attached with the descriptor's rule. */
  function SpawnVfxDataAtComponent(d: VfxData, component: Ref): (r: SpawnRequest)
    ensures r.NoSpawn? <==> d.particleSystem == Null
    ensures d.fx.attachmentData.attachType == AtSocketLocation ==>
      r == SpawnVfxDataAtLocation(d, SocketTransform(component, d.fx.attachmentData.socketName))
    ensures r.VisualAttached? <==> d.particleSystem != Null && d.fx.attachmentData.attachType.AttachToSocket?
    ensures r.VisualAttached? ==>
      r.asset == d.particleSystem && r.component == component && r.socket == d.fx.attachmentData.socketName &&
      r.relative == d.fx.GetRelativeTransform() && r.rule == GetAttachLocationType(d.fx.attachmentData.attachmentRule)
  {
    var attach := d.fx.attachmentData;
    if d.particleSystem == Null then NoSpawn
    else if attach.attachType.AtSocketLocation? then
      SpawnVfxDataAtLocation(d, SocketTransform(component, attach.socketName))
    else
      VisualAttached(d.particleSystem, component, attach.socketName, d.fx.GetRelativeTransform(),
                     GetAttachLocationType(attach.attachmentRule))
  }

  /** 2-D audio is non-positional; 3-D audio is placed like a visual. */
  function SpawnSfxDataAtLocation(d: SfxData, p: Placement): (r: SpawnRequest)
    ensures r.NoSpawn? <==> d.sound == Null
    ensures r.Sound2D? <==> d.sound != Null && d.audioType == TwoDimensional
    ensures r.NoSpawn? || r.Sound2D? || r.SoundAtLocation?
    ensures !r.NoSpawn? ==> r.asset == d.sound
    ensures r.SoundAtLocation? ==> r.placement == p && r.relative == d.fx.GetRelativeTransform()
  {
    if d.sound == Null then NoSpawn
    else if d.audioType.TwoDimensional? then Sound2D(d.sound)
    else SoundAtLocation(d.sound, p, d.fx.GetRelativeTransform())
  }

  /** Both a socket-location descriptor and a 2-D sound go to the at-location path
      with the socket's transform; only a 3-D sound attached to a socket is attached. */
  function SpawnSfxDataAtComponent(d: SfxData, component: Ref): (r: SpawnRequest)
    ensures r.NoSpawn? <==> d.sound == Null
    ensures d.fx.attachmentData.attachType == AtSocketLocation || d.audioType == TwoDimensional ==>
      r == SpawnSfxDataAtLocation(d, SocketTransform(component, d.fx.attachmentData.socketName))
    ensures r.SoundAttached? <==>
      d.sound != Null && d.fx.attachmentData.attachType.AttachToSocket? && d.audioType.ThreeDimensional?
    ensures r.SoundAttached? ==>
      r.asset == d.sound && r.component == component && r.socket == d.fx.attachmentData.socketName &&
      r.relative == d.fx.GetRelativeTransform() && r.rule == GetAttachLocationType(d.fx.attachmentData.attachmentRule)
  {
    var attach := d.fx.attachmentData;
    if d.sound == Null then NoSpawn
    else if attach.attachType.AtSocketLocation? || d.audioType == TwoDimensional then
      SpawnSfxDataAtLocation(d, SocketTransform(component, attach.socketName))
    else
      SoundAttached(d.sound, component, attach.socketName, d.fx.GetRelativeTransform(),
                    GetAttachLocationType(attach.attachmentRule))
  }

  /** The two activation entry points: at a caller-given transform, or on a component. */
  datatype Anchor = AtLocation(transform: Transform) | AtComponent(component: Ref)

  function SpawnVfx(d: VfxData, anchor: Anchor): SpawnRequest
  {
    match anchor
    case AtLocation(t) => SpawnVfxDataAtLocation(d, WorldTransform(t))
    case AtComponent(c) => SpawnVfxDataAtComponent(d, c)
  }

  function SpawnSfx(d: SfxData, anchor: Anchor): SpawnRequest
  {
    match anchor
    case AtLocation(t) => SpawnSfxDataAtLocation(d, WorldTransform(t))
    case AtComponent(c) => SpawnSfxDataAtComponent(d, c)
  }

  /** A 2-D sound ignores where it is asked to play: every placement, and every
      component it might have been attached to, gives the same request. */
  lemma TwoDimensionalSoundIgnoresPlacement(d: SfxData, a1: Anchor, a2: Anchor)
    requires d.audioType == TwoDimensional
    ensures SpawnSfx(d, a1) == SpawnSfx(d, a2)
    ensures d.sound != Null ==> SpawnSfx(d, a1) == Sound2D(d.sound)
  {
  }

  /** A socket-location descriptor spawned on a component is the same request as an
      at-location spawn at that socket's transform, for visuals and sounds alike. */
  lemma SocketLocationDegradesToAtLocation(v: VfxData, s: SfxData, component: Ref)
    requires v.fx.attachmentData.attachType == AtSocketLocation
    requires s.fx.attachmentData.attachType == AtSocketLocation
    ensures SpawnVfx(v, AtComponent(component)) ==
      SpawnVfxDataAtLocation(v, SocketTransform(component, v.fx.attachmentData.socketName))
    ensures SpawnSfx(s, AtComponent(component)) ==
      SpawnSfxDataAtLocation(s, SocketTransform(component, s.fx.attachmentData.socketName))
    ensures !SpawnVfx(v, AtComponent(component)).VisualAttached?
    ensures !SpawnSfx(s, AtComponent(component)).SoundAttached?
  {
  }
}

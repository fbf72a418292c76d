# FX manager: effect-pack activation and tracking

This project models the core of an Unreal Engine plugin that plays authored bundles of
visual and audio effects, called *effect packs*, on behalf of gameplay code. The model
is written in Dafny and its properties are proved.

- **Descriptors.** Each visual (VFX) or audio (SFX) descriptor carries:
  - an access tag;
  - an attachment policy;
  - four gameplay-tag sets that gate it: source required, source blocking, target required, target blocking.
- **Activation.** An activation does the following, in order:
  1. It checks its preconditions.
  2. It consumes a fresh id from a counter.
  3. It gates every descriptor against one snapshot of the source actor's tags and the target actor's tags.
  4. It asks the renderer to spawn each descriptor that passes, and records the returned component with the descriptor's access tag.
  5. It files the resulting *active pack* in one of two collections. Kind `Active` goes to a long-lived collection that the caller stops explicitly. Any other kind goes to a collection that a next-tick timer empties.
- **Handles.** A handle `(id, kind)` is the caller's token. It is used to look up a pack's components by access tag, and to stop Active packs.

The model has five modules:

- `Sequences`: order-preserving filter (`Keep`) and map (`Map`), the two shapes in which the registry walks its arrays.
- `FxTypes` (`Public/FXTypes.h`): the records — tag requirements, descriptors, effect packs, handles and active packs. `FActiveEffectPack` is a datatype value, because the registry's arrays store copies. Its in-place `Invalidate` is a method that returns the cleared pack and the renderer `Deactivate` calls it issues.
- `SpawnDispatch` (`Private/FXManagerSubsystem.cpp:203-313`): which renderer request a descriptor becomes. The renderer is an oracle `Renderer = SpawnRequest -> Ref`, which may return null.
- `Activation` (`Private/FXManagerSubsystem.cpp:59-84`): the specification `BuiltPack` of what one activation assembles, the two loops that assemble it, and lemmas about it.
- `FxManagerSubsystem` (`Private/FXManagerSubsystem.cpp`, `Public/FXManagerSubsystem.h`): the class `FxManager`. Its fields are:
  - the id counter;
  - the Active and Instant collections;
  - a flag for the pending next-tick timer;
  - a count of cleanups scheduled;
  - a log of every `Deactivate` call.

  The invariant `Valid()` holds after every public operation: the play, stop, lookup and timer entry points. The internal steps `GenerateNewActivePackId`, `AddInstantPack` and `ClearInstantPacks` neither require nor ensure it; the activation keeps it around them. It says:
  - ids lie below the counter;
  - ids are strictly increasing within each collection, and so unique;
  - ids are disjoint across the two collections;
  - every filed pack is active and sits in the collection its kind selects;
  - pending Instant packs imply a pending cleanup.

Behaviour the model follows as the code has it:

- **The tag gate.** `MeetsTagCriteria` switches its required half and its blocking half on the emptiness of the SOURCE required and SOURCE blocking sets, also when it checks the target. A descriptor that only has target requirements therefore never checks them. `TargetGateFollowsSourceSets` exhibits this. The model keeps this behaviour, because the code is what runs.
- **Id consumption.** An activation that passes its preconditions consumes an id even when nothing ends up filed.
- **Null entries.** A descriptor that passes its gate contributes an entry even when the renderer returns null. Such an entry makes the pack active, and `Deactivate` skips it.
- **The not-found pack.** A handle that resolves to nothing yields the default pack with id -1 (`EmptyPack`). The source returns that default by reference to a local variable. The model returns the value.
- **Default arguments.** The default activation kind of both play entry points is `Instant`.

## Model

| member | source | states |
|---|---|---|
| `FxTypes.TagRequirements.MeetsTagCriteria` | Source/FXManager/Public/FXTypes.h:85-101 | the result holds iff every required tag is owned (only when the source-required set is non-empty) and no blocking tag is owned (only when the source-blocking set is non-empty); empty sets to check always pass |
| `FxTypes.TagRequirements.MeetsSourceTagCriteria` | Source/FXManager/Public/FXTypes.h:104 | on the source side the check is exact: source-required ⊆ owned and owned disjoint from source-blocking |
| `FxTypes.TagRequirements.MeetsTargetTagCriteria` | Source/FXManager/Public/FXTypes.h:106 | the exact target check when both source sets are non-empty; always true when both are empty; never stricter than the exact target check |
| `FxTypes.TagRequirements.MeetsSourceAndTargetCriteria` | Source/FXManager/Public/FXTypes.h:108-109 | the conjunction of the source check on the source tags and the target check on the target tags; passing implies the exact source check |
| `FxTypes.DefaultRequirementsAlwaysMet` | Source/FXManager/Public/FXTypes.h:64-70 | with all four sets empty every descriptor can play, whatever the source and target own |
| `FxTypes.TargetGateFollowsSourceSets` | Source/FXManager/Public/FXTypes.h:90-98 | a target that owns nothing passes a gate that requires a target tag, and a target that owns a blocking tag passes, while the source sets are empty |
| `FxTypes.DefaultAttachDataPlacesAtRoot` | Source/FXManager/Public/FXTypes.h:36-42 | a default attachment policy places the effect at the "root" socket's location with the identity offset, and snaps to the target if attached |
| `FxTypes.FxData.CanPlay` | Source/FXManager/Public/FXTypes.h:131-134 | a descriptor plays iff the source meets the source criteria and the target meets the source-gated target criteria; playing implies the exact source check; default requirements always play |
| `FxTypes.DefaultDescriptorsPlayButHaveNoAsset` | Source/FXManager/Public/FXTypes.h:142-161 | default visual and audio descriptors always pass their gate but name no asset, and default audio is 2-D |
| `FxTypes.EffectPack.IsValid` | Source/FXManager/Public/FXTypes.h:187-191 | a pack is valid iff it is not the pack with no VFX and no SFX descriptors |
| `FxTypes.InvalidHandleIsInvalid` | Source/FXManager/Public/FXTypes.h:208-220 | the default handle is (-1, None) and is not valid |
| `FxTypes.ActivePack.AddActiveVfx` | Source/FXManager/Public/FXTypes.h:277 | exactly one (object, tag) entry is appended at the end of the visual list; the audio list, id, kind and actor references are unchanged |
| `FxTypes.ActivePack.AddActiveSound` | Source/FXManager/Public/FXTypes.h:278 | exactly one (object, tag) entry is appended at the end of the audio list; the visual list, id, kind and actor references are unchanged |
| `FxTypes.ActivePack.IsActive` | Source/FXManager/Public/FXTypes.h:280-283 | a pack is active iff its id is non-negative and it holds at least one visual or audio entry |
| `FxTypes.ActivePack.CreateHandle` | Source/FXManager/Public/FXTypes.h:286 | the handle carries the pack's id and kind, and a valid pack gives a valid handle |
| `FxTypes.EmptyPackIsInert` | Source/FXManager/Public/FXTypes.h:248-255 | the default pack has id -1 and so is neither valid nor active, refers to no actor or component, deactivates nothing, and its handle is the invalid handle |
| `FxTypes.Deactivations` | Source/FXManager/Public/FXTypes.h:288-292 | invalidating a pack reaches every non-null object of its visual and audio entries and nothing else, never a null one; a pack without entries issues no call |
| `FxTypes.LiveObjects` | Source/FXManager/Public/FXTypes.h:298-304 | the objects reached are never null, include every non-null entry's object, and come only from entries of the list |
| `FxTypes.DeactivateSystems` | Source/FXManager/Public/FXTypes.h:294-322 | the loop issues one Deactivate call per non-null entry, in list order, skipping null entries |
| `FxTypes.Invalidate` | Source/FXManager/Public/FXTypes.h:288-292 | both entry lists end empty, so the pack is no longer active; identity is kept; the calls are the visuals' live objects followed by the sounds' |
| `FxTypes.OneLive` | Source/FXManager/Public/FXTypes.h:294-322 | a one-entry list deactivates its object exactly when it is non-null; an empty list deactivates nothing |
| `SpawnDispatch.GetAttachLocationType` | Source/FXManager/Private/FXManagerSubsystem.cpp:12-17 | the three-entry table is a bijection: each attachment rule maps to its own attach-location type |
| `SpawnDispatch.SpawnVfxDataAtLocation` | Source/FXManager/Private/FXManagerSubsystem.cpp:203-229 | a null asset spawns nothing; otherwise one at-location request with the caller's placement and the descriptor's relative transform |
| `SpawnDispatch.SpawnSfxDataAtLocation` | Source/FXManager/Private/FXManagerSubsystem.cpp:231-253 | a null sound spawns nothing; a 2-D sound is a non-positional request; a 3-D sound is placed with the caller's placement and relative transform |
| `SpawnDispatch.SpawnVfxDataAtComponent` | Source/FXManager/Private/FXManagerSubsystem.cpp:255-289 | a null asset spawns nothing; a socket-location descriptor becomes the at-location request at the socket's transform; an attach-to-socket descriptor is attached to the component and socket with its mapped attach rule |
| `SpawnDispatch.SpawnSfxDataAtComponent` | Source/FXManager/Private/FXManagerSubsystem.cpp:291-313 | a null sound spawns nothing; socket-location descriptors and 2-D sounds go to the at-location path at the socket's transform; only a 3-D attach-to-socket sound is attached |
| `SpawnDispatch.TwoDimensionalSoundIgnoresPlacement` | Source/FXManager/Private/FXManagerSubsystem.cpp:240-243 | a 2-D sound yields the same request wherever or on whatever component it is played |
| `SpawnDispatch.SocketLocationDegradesToAtLocation` | Source/FXManager/Private/FXManagerSubsystem.cpp:265-269 | a socket-location visual or sound spawned on a component is exactly the at-location request at the socket, never an attached one |
| `Activation.BuiltPack` | Source/FXManager/Private/FXManagerSubsystem.cpp:59-84 | the built pack has the activation's id, kind and actor references, and no more entries than descriptors |
| `Activation.BuiltPackEntries` | Source/FXManager/Private/FXManagerSubsystem.cpp:61-84 | every descriptor that passes the gate on the one tag snapshot contributes its spawn result with its access tag, and every entry comes from such a descriptor (visuals and sounds) |
| `Activation.AllPassingKeepsPackOrder` | Source/FXManager/Private/FXManagerSubsystem.cpp:64-73 | when every visual descriptor passes, the visual entries follow the pack one-to-one and in order |
| `Activation.BuiltPackActiveIffSomeGatePasses` | Source/FXManager/Private/FXManagerSubsystem.cpp:59-89 | with a real id the built pack is active iff some visual or audio descriptor passes its gate, whether or not the renderer returns null |
| `Activation.BurningExample` | Source/FXManager/Private/FXManagerSubsystem.cpp:61-84 | an ungated visual plus a sound requiring the source tag "burning": a source without it gets the visual only, and the pack is active |
| `Activation.AssemblePack` | Source/FXManager/Private/FXManagerSubsystem.cpp:59-84 | the pack assembled from a fresh record by the visual loop and then the audio loop is the built pack |
| `Activation.AddPassingVisuals` | Source/FXManager/Private/FXManagerSubsystem.cpp:64-73 | the visual loop appends, in pack order, one entry per passing descriptor and changes nothing else |
| `Activation.AddPassingSounds` | Source/FXManager/Private/FXManagerSubsystem.cpp:75-84 | the audio loop appends, in pack order, one entry per passing descriptor and changes nothing else |
| `FxManagerSubsystem.IndexOfId` | Source/FXManager/Private/FXManagerSubsystem.cpp:326-333 | the index of the first pack with the id, or -1 exactly when no pack has it |
| `FxManagerSubsystem.IndexOfTag` | Source/FXManager/Public/FXManagerSubsystem.h:110-115 | the index of the first entry with the access tag, or -1 exactly when no entry has it |
| `FxManagerSubsystem.Resolve` | Source/FXManager/Private/FXManagerSubsystem.cpp:316-336 | an invalid handle resolves to the sentinel; a valid handle resolves to the first pack carrying its id in the collection its kind selects (Active for kind Active, Instant otherwise), and to the sentinel exactly when that collection has no such pack |
| `FxManagerSubsystem.ObjectByTag` | Source/FXManager/Public/FXManagerSubsystem.h:110-115 | the object of the first entry carrying the tag, null or not; null when no entry carries it |
| `FxManagerSubsystem.KeepIdsIncreasing` | Source/FXManager/Private/FXManagerSubsystem.cpp:174-182 | removing packs from a collection keeps its ids strictly increasing |
| `FxManagerSubsystem.IncreasingIdsAreUnique` | Source/FXManager/Private/FXManagerSubsystem.cpp:352-355 | ids handed out by the counter and kept increasing are never shared by two packs |
| `FxManagerSubsystem.FxManager.constructor` | Source/FXManager/Public/FXManagerSubsystem.h:33-41 | the counter starts at 0, both collections are empty, no cleanup is pending, nothing was deactivated |
| `FxManagerSubsystem.FxManager.GenerateNewActivePackId` | Source/FXManager/Private/FXManagerSubsystem.cpp:352-355 | returns the counter's value and advances it by one |
| `FxManagerSubsystem.FxManager.AddInstantPack` | Source/FXManager/Private/FXManagerSubsystem.cpp:338-345 | always appends the pack; schedules a cleanup only when none is pending |
| `FxManagerSubsystem.FxManager.ClearInstantPacks` | Source/FXManager/Private/FXManagerSubsystem.cpp:347-350 | empties the Instant collection and touches nothing else, issuing no Deactivate call |
| `FxManagerSubsystem.FxManager.FireInstantPackTimer` | Source/FXManager/Private/FXManagerSubsystem.cpp:341-349 | the pending cleanup runs once: afterwards the Instant collection is empty and no cleanup is pending |
| `FxManagerSubsystem.FxManager.ActivatePack` | Source/FXManager/Private/FXManagerSubsystem.cpp:59-92 | one id is consumed; an inactive built pack gives the invalid handle and files nothing; otherwise kind Active appends it to the Active collection and any other kind appends it to the Instant collection (never both), and the handle (id, kind) resolves to it |
| `FxManagerSubsystem.FxManager.PlayEffectAtLocation` | Source/FXManager/Private/FXManagerSubsystem.cpp:44-93 | an empty pack or a null source gives the invalid handle and changes nothing; otherwise one id is consumed and the pack built at the transform is filed by kind exactly when it is active |
| `FxManagerSubsystem.FxManager.PlayEffectAttached` | Source/FXManager/Private/FXManagerSubsystem.cpp:95-144 | as the at-location entry point, with a null attach component also refused and every descriptor spawned on the component |
| `FxManagerSubsystem.FxManager.PlayEffectAtLocationWithDefaults` | Source/FXManager/Public/FXManagerSubsystem.h:52-54 | with the default arguments (kind Instant, identity transform) a successful activation files exactly the pack an Instant activation at the identity transform builds, in the Instant collection only; a refused activation files nothing |
| `FxManagerSubsystem.FxManager.PlayEffectAttachedWithDefaults` | Source/FXManager/Public/FXManagerSubsystem.h:56-59 | with the default argument (kind Instant) a successful activation files exactly the pack an Instant activation on the component builds, in the Instant collection only; a refused activation files nothing |
| `FxManagerSubsystem.FxManager.StopActivePack` | Source/FXManager/Private/FXManagerSubsystem.cpp:146-158 | removes only the first Active pack with the handle's id and logs its deactivations; an unknown id changes nothing; the Instant collection is never touched |
| `FxManagerSubsystem.FxManager.StopActivePacks` | Source/FXManager/Private/FXManagerSubsystem.cpp:160-183 | removes exactly the Active packs whose id is among the handles' ids, keeps the survivors in order, logs the stopped packs' deactivations in order, and leaves the Instant collection alone |
| `FxManagerSubsystem.FxManager.GetActivePack` | Source/FXManager/Private/FXManagerSubsystem.cpp:316-336 | the loop returns what the handle resolves to: the sentinel or a pack with the handle's id |
| `FxManagerSubsystem.FxManager.GetVfxSystemComponentByTag` | Source/FXManager/Private/FXManagerSubsystem.cpp:185-192 | null when the handle resolves to no valid pack, else the first visual entry's object with the tag, or null; a non-null answer is an entry of that pack; read-only |
| `FxManagerSubsystem.FxManager.GetSfxSystemComponentByTag` | Source/FXManager/Private/FXManagerSubsystem.cpp:194-201 | the same as the visual lookup, searching only the audio list |
| `FxManagerSubsystem.CollectIds` | Source/FXManager/Private/FXManagerSubsystem.cpp:164-171 | the set holds exactly the ids of the handles |
| `FxManagerSubsystem.RemoveStopped` | Source/FXManager/Private/FXManagerSubsystem.cpp:173-182 | the single pass keeps the packs whose id is not in the set, in order, and issues the deactivations of the others, in order |
| `FxManagerSubsystem.StopTwiceStopsNothing` | Source/FXManager/Private/FXManagerSubsystem.cpp:160-183 | stopping the same ids again keeps every survivor and issues no Deactivate call |
| `FxManagerSubsystem.FileActive` | Source/FXManager/Private/FXManagerSubsystem.cpp:91 | filing a fresh active pack of kind Active keeps the registry invariant under the advanced counter, and its handle resolves to it |
| `FxManagerSubsystem.FileInstant` | Source/FXManager/Private/FXManagerSubsystem.cpp:91 | filing a fresh active pack of another kind in the Instant collection, with the timer pending, keeps the invariant, and its handle resolves to it |
| `FxManagerSubsystem.Unfiled` | Source/FXManager/Private/FXManagerSubsystem.cpp:86-89 | an id consumed without filing anything keeps the invariant |
| `FxManagerSubsystem.RemovedAt` | Source/FXManager/Private/FXManagerSubsystem.cpp:153-154 | removing the pack at one index keeps the collection well filed and removes exactly the packs with that id |
| `FxManagerSubsystem.OneVisualBuilt` | Source/FXManager/Private/FXManagerSubsystem.cpp:64-73 | a pack of one ungated visual spawned at the identity transform builds one entry holding the renderer's component |
| `FxManagerSubsystem.InstantActivationsShareOneCleanup` | Source/FXManager/Private/FXManagerSubsystem.cpp:338-345 | two Instant activations in one tick get ids 0 and 1 and schedule exactly one cleanup, and a filed pack's component is found by its tag |
| `FxManagerSubsystem.InstantPackGoneAfterTick` | Source/FXManager/Private/FXManagerSubsystem.cpp:338-350 | an Instant pack's component is found before the next tick and not after it |

## Left out

- Transform arithmetic: location addition, rotation "addition" and scale multiplication are floating point. A transform is an opaque token that is passed through to the renderer.
- The renderer:
  - The engine spawn calls are an oracle that may return null. This covers the Cascade versus Niagara asset-kind dispatch, which returns null for any other kind of asset.
  - `Deactivate` calls are recorded in a log.
  - The socket transform is read by the renderer from the request.
  - The renderer is a function of the request, so identical requests return the same component. For example, a pack that lists the same descriptor twice builds two entries holding one component. The engine instead spawns, or takes from a pool, a separate component for every call. The model therefore does not distinguish components spawned by identical requests.
- Actor tags: reading them through the gameplay-tag interface is replaced by a given tag set per side.
- The timer manager and the world context are a flag plus a `FireInstantPackTimer` method. Per-world timer managers are not distinguished.
- Subsystem lifecycle and singleton access are not modelled. Neither are logging nor the reflection macros.
- Weak object pointers are opaque references that are never dereferenced. Garbage collection is not modelled.
- `FxManagerSubsystem.FxManager.GenerateNewActivePackId` does not model the 32-bit overflow of the counter. The counter is an unbounded integer.
- The comparison operators between an active pack and a handle (`FXTypes.h:266-267`) are not modelled. No operation of the core uses them.
- `FActiveEffectPack` is a value. Updating a pack in place, and aliasing between packs, are therefore not modelled.
- The `SpawnSFXDataAtLocation` branch for an audio-type byte that is neither 2-D nor 3-D is not modelled. The audio type is a two-valued datatype.

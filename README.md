# GearVRF / SamsungXR: light store, shader registry, scene-object children, AR anchor pool

A Dafny model of four small stateful pieces of the GearVRF (later SamsungXR)
VR/AR framework, with their properties proved:

- **Lights** (`lights.dfy`): the native `Light` component's parameter store.
  It keeps named float, vec3, vec4 and mat4 uniforms, a per-shader-program
  dirty table, the component's enable flag, a uniform-offset table and a
  light ID. `getFloat`, `getVec3` and `getVec4` return the stored value, or
  throw a "not found" string for a missing key. `getMat4` returns false for a
  missing key and leaves the caller's matrix alone. `getOffset` returns -1
  when either lookup misses. The setters store the value. They mark every
  dirty entry true when the light is enabled. `setFloat` only does so when the
  value actually changes, and it compares against the 0 that
  `std::map::operator[]` inserts for a missing key.
- **Shaders** (`shaders.dfy`): `SXRShaderManager`'s template registry. This
  is a map, filled on demand, from a shader template class to the one
  `SXRShaderId` created for it. Lookup-or-create is idempotent. Every stored
  id belongs to the class it is stored under, given the assumption about the
  `SXRShaderId` constructor stated under "Left out".
- **SceneGraph** (`scene_graph.dfy`): a `GVRSceneObject` node. Its native
  state is represented by fields: name, transform, render data, camera,
  camera rig, eye-pointee holder, parent and child list. Attach, detach and
  get follow the wrapper's doc comments. `getChildByIndex` throws
  `IndexOutOfBoundsException` when there is no child at the index. The
  one-shot `Children` iterator keeps a live index. `iterator()` returns the
  object itself, so a second pass over the same Iterable sees nothing.
- **ArSample** (`ar_sample.dfy`): the AR sample's `ARMain`. It keeps a pool of
  at most 20 anchors with a counter. Each call to `addVirtualObject` appends
  an anchor until the pool holds 20, then recycles the entry at
  `count % size`. The chosen anchor is always named `"id: " + count`.
  `TouchHandler` is a drag state machine over `mDraggingObject`.

Java `null` and thrown exceptions are modelled as `Option` and `Result`
(`wrappers.dfy`). Calls into code that is not shown become parameters: the
anchor that the AR SDK creates, the hit test's pose, and whether the pointer
still picks the dragged object. The callbacks on `VirtualObject` are returned
as a list of `Callback` values.

Every `children()` call builds a new iterator. Iterating the same Iterable a
second time yields nothing (`SceneGraph.IterateTwice`). The native side of
`addChildObject` and `removeChildObject` is not visible. `addChildObject`
appends the child and sets its parent, as its doc comment says. For
`removeChildObject`, see "Left out".

## Model

| member | source | states |
|---|---|---|
| `Lights.Light.constructor` | GVRf/Framework/framework/src/main/jni/objects/light.h:50-53 | a new light has `shadowMapIndex == -1`, an empty ID and empty tables; `enabled` is whatever the component base set |
| `Lights.CurrentFloat` | GVRf/Framework/framework/src/main/jni/objects/light.h:75 | the value `floats_[key]` reads: the stored float for a present key, the 0 that `operator[]` inserts for a missing one |
| `Lights.NotFound` | GVRf/Framework/framework/src/main/jni/objects/light.h:69 | the thrown message is `"Light::"`, the getter's name, `"() : "`, the key and `" not found"`, in that order; the same shape serves the getVec3 and getVec4 messages |
| `Lights.AllDirty` | GVRf/Framework/framework/src/main/jni/objects/light.h:223-227 | marking all shaders dirty keeps exactly the same program keys and maps every one to true |
| `Lights.Light.SetDirty` | GVRf/Framework/framework/src/main/jni/objects/light.h:223-227 | the loop over the dirty table sets every entry to true and neither adds nor removes a key |
| `Lights.Light.SetEnable` | GVRf/Framework/framework/src/main/jni/objects/light.h:59-62 | `enabled` becomes the argument, and the dirty table is marked all-true whatever the argument |
| `Lights.Light.GetFloat` | GVRf/Framework/framework/src/main/jni/objects/light.h:64-72 | a present key yields its float; a missing key yields the error `"Light::getFloat() : <key> not found"` |
| `Lights.Light.SetFloat` | GVRf/Framework/framework/src/main/jni/objects/light.h:74-83 | afterwards the key holds the value, even for a missing key set to 0; the dirty table is marked all-true exactly when the light is enabled and the value read through `operator[]` (0 when missing) differs, and is otherwise untouched |
| `Lights.Light.GetVec3` | GVRf/Framework/framework/src/main/jni/objects/light.h:85-93 | stored vec3 for a present key, the not-found error otherwise |
| `Lights.Light.SetVec3` | GVRf/Framework/framework/src/main/jni/objects/light.h:95-100 | always stores the vector; dirties all shaders exactly when enabled |
| `Lights.Light.GetVec4` | GVRf/Framework/framework/src/main/jni/objects/light.h:102-110 | stored vec4 for a present key, the not-found error otherwise |
| `Lights.Light.SetVec4` | GVRf/Framework/framework/src/main/jni/objects/light.h:112-117 | always stores the vector; dirties all shaders exactly when enabled |
| `Lights.Light.GetMat4` | GVRf/Framework/framework/src/main/jni/objects/light.h:119-126 | returns true and copies the stored matrix out exactly when the key is present; otherwise returns false and the caller's matrix is left as it was |
| `Lights.Light.SetMat4` | GVRf/Framework/framework/src/main/jni/objects/light.h:128-133 | always stores the matrix; dirties all shaders exactly when enabled |
| `Lights.Light.GetOffset` | GVRf/Framework/framework/src/main/jni/objects/light.h:232-242 | `offsets_[key][program]` when both lookups hit, -1 when either misses; reads only |
| `Lights.Light.GetLightID` | GVRf/Framework/framework/src/main/jni/objects/light.h:199-201 | returns the stored light ID |
| `Lights.Light.SetLightID` | GVRf/Framework/framework/src/main/jni/objects/light.h:209-211 | replaces the light ID and nothing else |
| `Lights.FloatRoundTrip` | GVRf/Framework/framework/src/main/jni/objects/light.h:64-83 | on any light, `getFloat(k)` after `setFloat(k, v)` returns `v` |
| `Lights.ZeroOnMissingKey` | GVRf/Framework/framework/src/main/jni/objects/light.h:75 | `setFloat(k, 0)` on a missing key adds `k -> 0` and leaves the dirty table unchanged, even when enabled |
| `Lights.Mat4RoundTrip` | GVRf/Framework/framework/src/main/jni/objects/light.h:119-133 | on any light, `getMat4(k, m)` after `setMat4(k, x)` returns true and yields `x` |
| `Lights.LightIDRoundTrip` | GVRf/Framework/framework/src/main/jni/objects/light.h:199-211 | `getLightID()` after `setLightID(s)` returns `s` |
| `Shaders.ShaderId.constructor` | SXR/SDK/sxrsdk/src/main/java/com/samsungxr/SXRShaderManager.java:87 | `new SXRShaderId(shaderClass)` remembers the class it was made for (an assumption; see "Left out") |
| `Shaders.ShaderManager.constructor` | SXR/SDK/sxrsdk/src/main/java/com/samsungxr/SXRShaderManager.java:123 | the registry starts empty, and so satisfies the invariant that each id belongs to its class |
| `Shaders.ShaderManager.GetShaderType` | SXR/SDK/sxrsdk/src/main/java/com/samsungxr/SXRShaderManager.java:80-92 | a registered class yields its stored id and the map is unchanged; an unregistered class gets a new id made for it, which is stored under that class alone while every other entry stays the same; in both cases the class is registered afterwards and the invariant holds |
| `Shaders.ShaderManager.AddShaderID` | SXR/SDK/sxrsdk/src/main/java/com/samsungxr/SXRShaderManager.java:94-97 | `s.ID` is registered afterwards; if it was new, the stored id is a new object distinct from `s` |
| `Shaders.IdsAreDistinct` | SXR/SDK/sxrsdk/src/main/java/com/samsungxr/SXRShaderManager.java:118-123 | in a valid registry two different classes never share an id |
| `Shaders.LookupTwice` | SXR/SDK/sxrsdk/src/main/java/com/samsungxr/SXRShaderManager.java:80-92 | two successive `getShaderType(c)` calls return the same id; the registry ends as the first call left it |
| `SceneGraph.SceneObject.constructor` | GVRf/Framework/src/org/gearvrf/GVRSceneObject.java:47-50 | a new node has a transform attached, no other component, no children, no parent and an empty name |
| `SceneGraph.SceneObject.WithRenderData` | GVRf/Framework/src/org/gearvrf/GVRSceneObject.java:62-67 | the mesh constructor also attaches new render data |
| `SceneGraph.SceneObject.GetName` | GVRf/Framework/src/org/gearvrf/GVRSceneObject.java:194-196 | returns the current name |
| `SceneGraph.SceneObject.SetName` | GVRf/Framework/src/org/gearvrf/GVRSceneObject.java:207-209 | replaces the name only |
| `SceneGraph.SceneObject.AttachTransform` | GVRf/Framework/src/org/gearvrf/GVRSceneObject.java:217-219 | the transform slot holds the new transform, whatever it held before |
| `SceneGraph.SceneObject.DetachTransform` | GVRf/Framework/src/org/gearvrf/GVRSceneObject.java:225-228 | the transform slot is empty |
| `SceneGraph.SceneObject.GetTransform` | GVRf/Framework/src/org/gearvrf/GVRSceneObject.java:240-243 | the attached transform, null when none |
| `SceneGraph.SceneObject.AttachRenderData` | GVRf/Framework/src/org/gearvrf/GVRSceneObject.java:255-257 | replaces any previous render data |
| `SceneGraph.SceneObject.DetachRenderData` | GVRf/Framework/src/org/gearvrf/GVRSceneObject.java:264-266 | clears the render-data slot |
| `SceneGraph.SceneObject.GetRenderData` | GVRf/Framework/src/org/gearvrf/GVRSceneObject.java:274-277 | the attached render data, null when none |
| `SceneGraph.SceneObject.AttachCamera` | GVRf/Framework/src/org/gearvrf/GVRSceneObject.java:287-289 | replaces any previous camera |
| `SceneGraph.SceneObject.DetachCamera` | GVRf/Framework/src/org/gearvrf/GVRSceneObject.java:294-296 | clears the camera slot |
| `SceneGraph.SceneObject.GetCamera` | GVRf/Framework/src/org/gearvrf/GVRSceneObject.java:304-311 | the attached camera, null when none |
| `SceneGraph.SceneObject.AttachCameraRig` | GVRf/Framework/src/org/gearvrf/GVRSceneObject.java:322-324 | replaces any previous camera rig |
| `SceneGraph.SceneObject.DetachCameraRig` | GVRf/Framework/src/org/gearvrf/GVRSceneObject.java:329-331 | clears the camera-rig slot |
| `SceneGraph.SceneObject.GetCameraRig` | GVRf/Framework/src/org/gearvrf/GVRSceneObject.java:339-342 | the attached camera rig, null when none |
| `SceneGraph.SceneObject.AttachEyePointeeHolder` | GVRf/Framework/src/org/gearvrf/GVRSceneObject.java:353-356 | replaces any previous eye-pointee holder |
| `SceneGraph.SceneObject.DetachEyePointeeHolder` | GVRf/Framework/src/org/gearvrf/GVRSceneObject.java:361-363 | clears the eye-pointee-holder slot |
| `SceneGraph.SceneObject.GetEyePointeeHolder` | GVRf/Framework/src/org/gearvrf/GVRSceneObject.java:372-376 | the attached eye-pointee holder, null when none |
| `SceneGraph.SceneObject.GetParent` | GVRf/Framework/src/org/gearvrf/GVRSceneObject.java:387-391 | the node this one was added to, null for a node never added |
| `SceneGraph.SceneObject.AddChildObject` | GVRf/Framework/src/org/gearvrf/GVRSceneObject.java:400-402 | the child is appended after the existing children and its parent becomes this node |
| `SceneGraph.SceneObject.RemoveChildObject` | GVRf/Framework/src/org/gearvrf/GVRSceneObject.java:411-413 | the first occurrence of the child is removed and nothing else; the child's parent link is cleared when it pointed here |
| `SceneGraph.RemoveFirst` | GVRf/Framework/src/org/gearvrf/GVRSceneObject.java:411-413 | removal of an absent child changes nothing; removal of a present child drops exactly one occurrence (the first), one shorter and the same multiset less that child |
| `SceneGraph.RemoveAppended` | GVRf/Framework/src/org/gearvrf/GVRSceneObject.java:400-413 | adding a child that was not a child, then removing it, restores the earlier child list |
| `SceneGraph.SceneObject.GetChildrenCount` | GVRf/Framework/src/org/gearvrf/GVRSceneObject.java:421-423 | the number of children |
| `SceneGraph.SceneObject.GetChildByIndex` | GVRf/Framework/src/org/gearvrf/GVRSceneObject.java:435-443 | succeeds exactly when `0 <= i < count`, with the child at `i`; otherwise fails with `IndexOutOfBoundsException(i, count)` |
| `SceneGraph.SceneObject.ChildrenOf` | GVRf/Framework/src/org/gearvrf/GVRSceneObject.java:456-458 | every `children()` call returns a new iteration over this node, at index 0 |
| `SceneGraph.Children.constructor` | GVRf/Framework/src/org/gearvrf/GVRSceneObject.java:466-469 | the iteration starts at index 0 over the given node |
| `SceneGraph.Children.Iterator` | GVRf/Framework/src/org/gearvrf/GVRSceneObject.java:472-474 | `iterator()` returns the Iterable itself, not a new iterator |
| `SceneGraph.Children.HasNext` | GVRf/Framework/src/org/gearvrf/GVRSceneObject.java:477-479 | true exactly when the index is below the live child count |
| `SceneGraph.Children.Next` | GVRf/Framework/src/org/gearvrf/GVRSceneObject.java:482-484 | yields the child at the current index, or the bounds exception when there is none; the index advances by one in both cases |
| `SceneGraph.Children.Remove` | GVRf/Framework/src/org/gearvrf/GVRSceneObject.java:486-489 | always fails with `UnsupportedOperationException` and changes nothing |
| `SceneGraph.IterateTwice` | GVRf/Framework/src/org/gearvrf/GVRSceneObject.java:445-489 | over any unmodified node, a full for-each pass over `children()` visits children `0..count-1` in order, each once; a second pass over the same Iterable finds `hasNext()` false at once |
| `SceneGraph.ReplaceRenderData` | GVRf/Framework/src/org/gearvrf/GVRSceneObject.java:245-277 | attaching render data `a` then `b` leaves `b`; after detaching, the getter returns null |
| `SceneGraph.BuildAndPrune` | GVRf/Framework/src/org/gearvrf/GVRSceneObject.java:378-443 | root with children `a`, `b`, then remove `a`: the count is 1, child 0 is `b` (whose parent is the root) and `a` has no parent |
| `ArSample.DecimalInjective` | SXR/Extensions/x3d/src/main/java/com/samsungxr/x3d/ar/ARMain.java:487 | different counts produce different decimal renderings, so different `"id: "` names |
| `ArSample.Decimal` | SXR/Extensions/x3d/src/main/java/com/samsungxr/x3d/ar/ARMain.java:487 | the decimal rendering of a non-negative count: non-empty and made of digits only |
| `ArSample.AnchorName` | SXR/Extensions/x3d/src/main/java/com/samsungxr/x3d/ar/ARMain.java:487 | every anchor name starts with `"id: "` and is followed by at least one digit |
| `ArSample.PoolAfterAdd` | SXR/Extensions/x3d/src/main/java/com/samsungxr/x3d/ar/ARMain.java:475-485 | below 20 the pool grows by one: an anchor with the created handle, the count's name and the hit pose is placed at the end; from 20 on, the size stays the same and entry `count % size` gets the count's name and the pose; every other entry is unchanged |
| `ArSample.PoolInvariant` | SXR/Extensions/x3d/src/main/java/com/samsungxr/x3d/ar/ARMain.java:475-491 | a pool that satisfies the invariant holds at most 20 anchors and no more than there have been adds |
| `ArSample.AnchorNameInjective` | SXR/Extensions/x3d/src/main/java/com/samsungxr/x3d/ar/ARMain.java:487 | `"id: " + a == "id: " + b` only when `a == b` |
| `ArSample.SlotWriter` | SXR/Extensions/x3d/src/main/java/com/samsungxr/x3d/ar/ARMain.java:475-485 | the entry at `slot` was last written by the one call among the last 20 whose number is congruent to `slot` modulo 20 |
| `ArSample.SameSlotInWindow` | SXR/Extensions/x3d/src/main/java/com/samsungxr/x3d/ar/ARMain.java:483 | two call numbers less than 20 apart that pick the same entry are the same call |
| `ArSample.SlotWriterStep` | SXR/Extensions/x3d/src/main/java/com/samsungxr/x3d/ar/ARMain.java:475-491 | call number `count` writes entry `count % 20` and leaves every other entry's last writer as it was |
| `ArSample.PoolAfterAddKeepsInvariant` | SXR/Extensions/x3d/src/main/java/com/samsungxr/x3d/ar/ARMain.java:475-491 | every add keeps the pool invariant with the count one higher: `size == min(count, 20)` and each entry is named after the last call that wrote it; a full pool has exactly 20 entries |
| `ArSample.PoolNamesDistinct` | SXR/Extensions/x3d/src/main/java/com/samsungxr/x3d/ar/ARMain.java:475-491 | in a pool that satisfies the invariant, no two anchors have the same name |
| `ArSample.ARMain.constructor` | SXR/Extensions/x3d/src/main/java/com/samsungxr/x3d/ar/ARMain.java:84-85 | the pool starts empty with count 0 |
| `ArSample.ARMain.AddVirtualObject` | SXR/Extensions/x3d/src/main/java/com/samsungxr/x3d/ar/ARMain.java:475-491 | below 20, exactly one new anchor is appended, at the pose; from 20 on, nothing is appended and entry `count % size` is re-posed; the chosen anchor is named `"id: " + old count`, and the count goes up by exactly one |
| `ArSample.FillPool` | SXR/Extensions/x3d/src/main/java/com/samsungxr/x3d/ar/ARMain.java:475-491 | `n` adds to a fresh pool leave `min(n, 20)` anchors with pairwise distinct names |
| `ArSample.TouchHandler.constructor` | SXR/Extensions/x3d/src/main/java/com/samsungxr/x3d/ar/ARMain.java:190-191 | the handler starts with nothing being dragged |
| `ArSample.TouchHandler.OnEnter` | SXR/Extensions/x3d/src/main/java/com/samsungxr/x3d/ar/ARMain.java:200-210 | does nothing for the pass-through node or while dragging; otherwise calls only the node's pick-enter callback |
| `ArSample.TouchHandler.OnExit` | SXR/Extensions/x3d/src/main/java/com/samsungxr/x3d/ar/ARMain.java:212-228 | on the pass-through node, calls the dragged object's pick-exit (if any) and ends the drag; on another node, calls its pick-exit only when nothing is dragged and leaves the drag state alone |
| `ArSample.TouchHandler.OnTouchStart` | SXR/Extensions/x3d/src/main/java/com/samsungxr/x3d/ar/ARMain.java:230-253 | a non-pass-through node becomes the dragged object, with its touch-start callback, only when nothing is dragged; the pass-through node is ignored and a current drag is kept; the pass-through node is never dragged |
| `ArSample.TouchHandler.OnTouchEnd` | SXR/Extensions/x3d/src/main/java/com/samsungxr/x3d/ar/ARMain.java:255-273 | afterwards nothing is dragged; a dragged object gets touch-end if still picked and pick-exit otherwise; a single tap happens exactly when nothing was dragged and the node is the pass-through one; only a tap can change the pool |
| `ArSample.TouchHandler.OnInside` | SXR/Extensions/x3d/src/main/java/com/samsungxr/x3d/ar/ARMain.java:275-285 | reports the dragged object it would move (none when not dragging) and changes no state |
| `ArSample.TouchHandler.OnSingleTap` | SXR/Extensions/x3d/src/main/java/com/samsungxr/x3d/ar/ARMain.java:331-343 | a tap with a null hit returns before `addVirtualObject`, so the pool and count are unchanged; with a hit it performs exactly one add at the hit pose |

## Left out

- Lights: floats are mathematical reals. IEEE NaN (never equal to itself, so it always re-stores and dirties) and the equality of -0.0 with 0.0 are not modelled. Vectors and matrices are only stored and compared.
- Lights: `enabled_` belongs to the `Component` base class, which is not part of this model. The constructor takes its initial value as a parameter.
- Lights: the dirty and offset tables are filled by `render`, which is only declared in this header. The model starts them empty, and every method works on any contents. GL program ids are wrapped in a datatype `Program`.
- Lights: `render` and `makeShadowMap` are declared only and do GL work. `castShadow()`, `getShadowMap` and `castShadow(Material)` depend on the owner's component table, which is not shown. `getComponentType` returns a constant defined elsewhere.
- Shaders: `addShader`, `getShader`, `makeLayout` and `bindCalcMatrix` are native calls whose code is not shown. `shaderId.getTemplate(ctx)` and `getSXRContext()` are side effects outside the model. The registry's state is the `mShaderTemplates` map alone.
- Shaders.ShaderId: the `SXRShaderId` class is not part of this model. Its constructor is assumed to store its class argument in `ID`, which `addShaderID` reads back as `shaderID.ID`. `Valid()`, the `shaderId.ID == shaderClass` clause of `GetShaderType` and `IdsAreDistinct` all rest on this assumption.
- SceneGraph.SceneObject.RemoveChildObject: the native removal is not shown. The model removes the first occurrence and clears the child's parent link only when it points to this node.
- SceneGraph: the native scene-object code is not shown. Its state is modelled as the node's fields, under the contracts given in the wrapper's doc comments. `addChildObject` does not check for cycles, and it does not detach the child from a previous parent. The native code behind both is not visible.
- SceneGraph: wrapper identity is not modelled, because components are handles compared by value. This covers the `factory` and wrapper registry, the new `GVRCamera` wrapper that `getCamera` builds on each call, and the dead-native-pointer check in `getParent`.
- SceneGraph: the constructors built from width and height, or with a texture and shader, are not modelled. They go through `createQuad` and `GVRMaterial`, which are not shown. Only the attachment of render data is kept (`WithRenderData`).
- SceneGraph: Java `int` overflow of the iterator index or child count (2^31 children) is not modelled.
- ArSample.ARMain.AddVirtualObject: does not model the 32-bit wrap-around of `mVirtObjCount`, because the counter is unbounded here. In Java the counter wraps to a negative value on add number 2^31. Only a tap with a non-null hit adds. After the wrap the pool would grow past 20 again.
- ArSample: anchors are values. Aliasing between the pool and the scene graph (`mainScene.addNode(anchor)`) is not modelled. Neither is the `VirtualObject` that becomes the anchor's child.
- ArSample: `createAnchor`, `hitTest` and `pickSceneObject` are AR SDK calls. Their results arrive as parameters: the created anchor, the optional hit pose, and whether the dragged object is still picked.
- ArSample: `onInside`'s float drag arithmetic is not modelled: yaw, scale and the 0.1 scale clamp. Neither are the transform updates it makes or the `updateAnchorPose` of the dragged object's parent anchor.
- ArSample: also left out are pick rays, logging, the `cnt` log counter, and the commented-out proto/cone block in `addVirtualObject`.
- ArSample: `resume()` with its listener registration and swallowed exception is left out, and so are the plane and anchor event listeners. These only forward to the AR SDK.
- ArSample: failures the sample never guards against are not modelled. These are the `ClassCastException` when a touched node is not a `VirtualObject`, and the null `mixedReality` before `resume()`.
- Concurrency is not modelled. The model assumes single-threaded use.

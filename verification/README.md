# ofx-rs plugin adapter, modelled in Dafny

`ofx-rs` is a Rust adapter that lets plugin code be loaded by an OpenFX
image-effect host. This project models its core:

- **The plugin descriptor** (`ofx/src/plugin.rs`). The host drives it
  through two entry points.
  - `setHost` records the host descriptor.
  - `mainEntry` passes an action name, as a C string, and three opaque
    handles. The descriptor maps the name to a typed action through two
    `EnumIndex` lookup tables, runs the before-hook, runs the plugin's own
    `execute` and then the after-hook.
  - On Load, the before-hook fetches the host's suites in a fixed order.
    On Describe, it caches the effect handle.
  - On DestroyInstance, the after-hook frees the instance data.
- **The typed handles** (`ofx/src/handle.rs`): Boolean and string parameter
  values, clip and image acquisition and release, clip and parameter
  definition and lookup, the abort flag, and the per-instance data pointer.
- **Identified enums** (`ofx/src/enums.rs`): image-effect contexts and bit
  depths, which correspond one to one with protocol byte strings.

## How the model is built

| module | file | contents |
|---|---|---|
| `Results` | `results.dfy` | `Option`, `Status`, `Error`, `Result` and `Check` (a status becomes a result) |
| `CStrings` | `cstrings.dfy` | bytes, UTF-8 validity, and the `CStr`/`CString` conversions |
| `Host` | `host.dfy` | the abstract host and the plugin heap |
| `Enums` | `enums.dfy` | the `identified_enum!` macro and its two instances |
| `Indexes` | `indexes.dfy` | `EnumIndex` |
| `ActionNames` | `action_names.dfy` | the action vocabulary, tokens and signature table |
| `Suites` | `suites.dfy` | the suite table and `load`'s fetching |
| `Handles` | `handles.dfy` | the handle operations |
| `Plugin` | `plugin.dfy` | the descriptor, `map_action`, the hooks and `dispatch` |

**The host is abstract.** Every suite call is appended to a log.
- The status the host answers, and the handles it hands back, are arbitrary
  functions of the calls made so far.
- A successful write stores its value in a slot, and a read sees the slot.
  A slot the host never wrote reads as the value Rust initialised the
  out-parameter with: 0 or null.
- A suite call succeeds exactly when its status is `kOfxStatOK`. Any other
  status becomes `HostFailure(status)`.
- Because handles may depend on the log, the instance-data lemmas assume
  that the host hands out the same property set for an effect every time
  it is asked (`Handles.StableProperties`).

**The plugin's heap** holds boxed instance data. `Free` of an address that
is not live is recorded as an invalid free, so a double free is observable.

**The plugin's `execute`** is plugin code the adapter does not see. It is a
parameter: a function from the context, the action and the world to a
status, the action as `execute` left it and a new world. `execute` gets the
action by mutable reference, so it may rewrite it, and the after-hook runs
on whatever it left.

**Text.** A Rust `String` or `&str` is modelled as its UTF-8 bytes. UTF-8
validity is Table 3-7 of the Unicode Standard, which is what `str::from_utf8`
checks. The protocol constants are ASCII literals followed by a NUL.

**The central results:**
- `Plugin.MapActionResolves` pins `map_action` down against a
  specification. `ActionNames.Resolve` names the action a token belongs to,
  and `ActionNames.Signature` gives that action's fixed argument shape.
- `Plugin.DispatchKeepsValid` shows every message keeps the descriptor's
  invariant.
- The scenario lemmas state what Load, Unload, Describe, DestroyInstance and
  an early action do end to end.

## Model

| member | source | states |
|---|---|---|
| CStrings.FromBytesWithNul | ofx/src/plugin.rs:41 | a buffer is a C string exactly when its only NUL is the last byte, and then it is its contents plus that NUL |
| CStrings.CStringNew | ofx/src/plugin.rs:52 | `CString::new` fails exactly on bytes holding a NUL; otherwise the buffer is the bytes plus one NUL, and reading it back as a C string gives the bytes |
| CStrings.ToStr | ofx/src/plugin.rs:42 | conversion to `str` succeeds exactly on valid UTF-8 and keeps the bytes |
| CStrings.CStrContents | ofx/src/plugin.rs:191 | what is read from a host buffer is a NUL-free prefix of it, stopped by a NUL when it is shorter than the buffer |
| CStrings.CStrContentsOfCString | ofx/src/plugin.rs:191 | reading a NUL-terminated buffer built from NUL-free bytes gives back exactly those bytes |
| Indexes.Insert | ofx/src/plugin.rs:40-49 | a key that is not an exactly NUL-terminated UTF-8 C string registers nothing; otherwise the text before the NUL maps to the value, and the value maps back to that text |
| Indexes.Find | ofx/src/plugin.rs:51-55 | a lookup finds something only for NUL-free UTF-8 bytes |
| Indexes.InsertThenFind | ofx/src/plugin.rs:40-55 | round trip: a NUL-free UTF-8 key inserted with its terminator is found again with its value |
| Indexes.InsertKeepsOthers | ofx/src/plugin.rs:40-55 | inserting one key changes no other key's lookup |
| Indexes.FindRejects | ofx/src/plugin.rs:51-55 | bytes with a NUL or invalid UTF-8 are never found, and the empty index finds nothing |
| Indexes.InsertAllFind | ofx/src/plugin.rs:40-55 | after a list of insertions, a lookup gives the last value registered under that key, or what the index held before |
| Indexes.FindTokens | ofx/src/plugin.rs:354-383 | an index built from a table that registers every tag under its token and terminator finds a name exactly when it is some tag's token, and finds it to a tag whose token it is |
| ActionNames.Token | ofx/src/plugin.rs:354-383 | an action's name is NUL-free UTF-8 |
| ActionNames.Constant | ofx/src/plugin.rs:354-383 | each compiled-in action constant is the action's name followed by one NUL |
| ActionNames.TokenInjective | ofx/src/plugin.rs:354-383 | no two actions, in either family, share a name |
| ActionNames.RegistrationsComplete | ofx/src/plugin.rs:354-383 | the constructor registers every global and every image-effect action |
| ActionNames.Resolve | ofx/src/plugin.rs:191-228 | specification of the lookup: the action whose name a byte string is, preferring an image-effect action; `None` exactly when it names no action |
| Plugin.GlobalTable | ofx/src/plugin.rs:354-368 | the global registrations, in the constructor's order, pair each action with its constant |
| Plugin.EffectTable | ofx/src/plugin.rs:370-383 | the image-effect registrations, in the constructor's order, pair each action with its constant |
| Plugin.GlobalTableShape | ofx/src/plugin.rs:354-368 | every global registration is a name plus NUL, and every global action is registered |
| Plugin.EffectTableShape | ofx/src/plugin.rs:370-383 | every image-effect registration is a name plus NUL, and every image-effect action is registered |
| Plugin.GlobalIndexFinds | ofx/src/plugin.rs:327-368 | the built global index finds a name exactly when it is a global action's name, and to that action |
| Plugin.EffectIndexFinds | ofx/src/plugin.rs:327-383 | the built image-effect index finds a name exactly when it is an image-effect action's name, and to that action |
| Plugin.BuiltIsIndexed | ofx/src/plugin.rs:327-396 | the constructor's two indexes each answer every name with the action of their family that it names, or nothing |
| Plugin.New | ofx/src/plugin.rs:305-397 | a new descriptor has no host, no suites and no cached handle, holds the built indexes, and its identifier is the name with one NUL; the `OfxPlugin` record carries the API constant, the versions and that identifier |
| Plugin.NewIsValid | ofx/src/plugin.rs:305-397 | a new descriptor satisfies the invariant: constructor-built indexes, and suites only with a host |
| Plugin.LoadedSuites | ofx/src/plugin.rs:399-401 | the suites exist exactly when they were loaded; otherwise the error is `SuiteNotInitialized` |
| Plugin.NewImageEffect | ofx/src/plugin.rs:403-420 | an effect handle is built exactly when the suites are loaded; it wraps the handle with the property, image-effect, OpenGL-render and parameter suites |
| Plugin.EffectOf | ofx/src/plugin.rs:407-419 | the effect handle carries the given handle and the loaded suites, with the OpenGL-render suite exactly when the host provided it |
| Plugin.TypedProperties | ofx/src/plugin.rs:422-428 | a property set is wrapped exactly when the suites are loaded, and then with the property suite |
| Plugin.MapArgs | ofx/src/plugin.rs:161-190 | an action without payload always succeeds; any other shape succeeds exactly when the suites are loaded, has the requested shape and carries the handles given, wrapped with the suites; the only failure is `SuiteNotInitialized` |
| Plugin.MapEffectAction | ofx/src/plugin.rs:192-205 | a mapped image-effect action keeps its own tag |
| Plugin.MapGlobalAction | ofx/src/plugin.rs:206-222 | a mapped global action keeps its own tag |
| Plugin.MapEffectActionFollowsSignature | ofx/src/plugin.rs:192-205 | the image-effect branch of `map_action` agrees, action by action, with the signature table |
| Plugin.MapGlobalActionFollowsSignature | ofx/src/plugin.rs:206-222 | the global branch of `map_action` agrees, action by action, with the signature table |
| Plugin.MapAction | ofx/src/plugin.rs:153-229 | a mapped action has the shape the signature table gives its tag and carries the handles given, wrapped with the loaded suites; a failure is `InvalidAction`, or `SuiteNotInitialized` when no suites are loaded |
| Plugin.MapActionResolves | ofx/src/plugin.rs:191-228 | with the constructor's indexes, `map_action` is `InvalidAction` for a name that is no action's, and otherwise the mapping the signature of the resolved action calls for |
| Plugin.MapsToken | ofx/src/plugin.rs:191-228 | a buffer holding an action's name is mapped by that action's signature |
| Plugin.MapsToResolved | ofx/src/plugin.rs:191-223 | the image-effect lookup finds the resolved image-effect action; for a global action it fails and the global lookup finds it; for an unknown name both fail |
| Plugin.EffectIndexTakesPrecedence | ofx/src/plugin.rs:192-206 | a name the image-effect index knows is mapped the same whatever the global index holds |
| Plugin.HandleOnlyMapping | ofx/src/plugin.rs:162-164 | with suites loaded, an action whose signature is the effect handle alone carries the handle wrapped with those suites |
| Plugin.BeforeExecute | ofx/src/plugin.rs:233-242 | Load runs `load`: on failure the error is returned and the suites are unchanged; on success the suites are set. Describe caches the effect handle. Every other action passes and changes nothing. Only the suites and the cached handle ever change, and suites change only with a host |
| Suites.Load | ofx/src/plugin.rs:430-432 | without a host, or without `fetchSuite`, the result is `HostNotReady` and no call is made |
| Suites.FirstMissing | ofx/src/plugin.rs:466-479 | the first required request the host cannot answer, if any; none exactly when every required suite is answered |
| Suites.RequiredPresent | ofx/src/plugin.rs:466-479 | a host that answers every required request yields each of the eight required suites |
| Suites.FetchSuites | ofx/src/plugin.rs:466-479 | loading succeeds exactly when every required suite is provided, and then all twelve requests are made in order and the suites are what the host answered. Otherwise the error is `InvalidSuite` and no request follows the first missing one |
| Suites.Fetched | ofx/src/plugin.rs:466-479 | the suite table holds each required suite and each optional suite that is not null |
| Plugin.AfterExecute | ofx/src/plugin.rs:244-256 | DestroyInstance drops the instance data; every other action does nothing |
| Plugin.Dispatch | ofx/src/plugin.rs:259-291 | `setHost` records the host and nothing else; a mapping failure is returned with nothing changed; the indexes, identifier and `OfxPlugin` record never change |
| Plugin.Run | ofx/src/plugin.rs:275-290 | a before-hook error is returned at once. Without host or suites the result is OK and `execute` is not reached. Otherwise `execute` runs, then the after-hook on the action as `execute` left it; the result is `execute`'s unless the after-hook fails |
| Plugin.DispatchKeepsValid | ofx/src/plugin.rs:259-291 | every message keeps the descriptor's invariant |
| Plugin.ResolveToken | ofx/src/plugin.rs:354-383 | an action's own name resolves to that action |
| Plugin.ConstantHoldsToken | ofx/src/plugin.rs:191 | reading an action's compiled-in constant as a C string gives the action's name |
| Plugin.DispatchToken | ofx/src/plugin.rs:259-291 | `mainEntry` with an action's name is that action's mapping, followed on success by the hooks and `execute` |
| Plugin.NeedsSuites | ofx/src/plugin.rs:399-420 | before the suites are loaded, every handled action with a payload fails to map with `SuiteNotInitialized` |
| Plugin.ActionBeforeLoadFails | ofx/src/plugin.rs:272 | before Load, an action that needs an effect handle fails with `SuiteNotInitialized`, changing neither the descriptor nor the world |
| Plugin.RunWithoutSuites | ofx/src/plugin.rs:275-290 | before Load, any action but Load and Describe passes the before-hook, does not reach `execute` and changes nothing |
| Plugin.UnloadBeforeLoadPasses | ofx/src/plugin.rs:484-486 | Unload before Load is OK and changes nothing |
| Plugin.RunLoad | ofx/src/plugin.rs:430-482 | Load without a host or `fetchSuite` is `HostNotReady` with nothing changed; with a host lacking a required suite it is `InvalidSuite` and the descriptor is unchanged; with a complete host the suites are what it provides |
| Plugin.LoadTransition | ofx/src/plugin.rs:430-482 | the same, through `mainEntry` with the Load action's name |
| Plugin.DescribeCachesHandle | ofx/src/plugin.rs:488-496 | Describe with suites loaded caches the effect handle it was given, wrapped with those suites |
| Plugin.RunDestroy | ofx/src/plugin.rs:277-287 | for DestroyInstance, the after-hook runs on the action `execute` hands back, and the result is `execute`'s unless that hook fails |
| Plugin.DestroyDropsInstanceData | ofx/src/plugin.rs:244-287 | through `mainEntry` with the DestroyInstance action's name: if `execute` leaves a DestroyInstance action, the instance data of the effect it carries is dropped, whether or not `execute` succeeded, and the result is `execute`'s unless the drop fails; if `execute` rewrote it into another action, nothing is dropped and `execute`'s result stands |
| Handles.BoolGetValue | ofx/src/handle.rs:222-232 | one `paramGetValue` call; on success the value is true exactly when the host's integer is nonzero; on failure the error is the host's status |
| Handles.BoolSetValue | ofx/src/handle.rs:234-242 | one `paramSetValue` call carrying 1 for true and 0 for false |
| Handles.BoolSetThenGet | ofx/src/handle.rs:221-243 | round trip: a Boolean the host accepts is read back unchanged |
| Handles.StringGetValue | ofx/src/handle.rs:246-264 | one call; a host failure is returned; a null pointer reads as the empty string; otherwise the value is the bytes up to the NUL when they are UTF-8, else a string-conversion error |
| Handles.StringSetValue | ofx/src/handle.rs:266-276 | a value holding a NUL is refused without calling the host; otherwise one call carries the value and one NUL |
| Handles.StringSetThenGet | ofx/src/handle.rs:245-277 | round trip: a string the host accepts is read back unchanged |
| Handles.AcquireImage | ofx/src/handle.rs:315-329 | one `clipGetImage` call; on success the image is the one the host issued, is not a texture, and keeps the clip's suites |
| Handles.LoadTexture | ofx/src/handle.rs:331-349 | without the OpenGL-render suite, `InvalidSuite` and no call; otherwise one `clipLoadTexture` call, and on success the image is the texture the host issued and keeps the clip's suites |
| Handles.DropImage | ofx/src/handle.rs:448-460 | a texture is freed with `clipFreeTexture`, and is `InvalidSuite` with no call when the suite is missing; any other image is released with `clipReleaseImage` |
| Handles.AcquireThenRelease | ofx/src/handle.rs:448-460 | each drop of an acquired image makes exactly one call, the one matching how it was acquired; that drop panics exactly when the host refuses the call |
| Handles.ClonesReleaseTwice | ofx/src/handle.rs:74-82 | an `Image` is `Clone` and `Drop`, so dropping two copies of one image sends the host the same release call twice |
| Handles.TextureWithoutSuitePanics | ofx/src/handle.rs:391-396 | a texture without the OpenGL-render suite cannot be released: dropping it panics without calling the host |
| Handles.GetDescriptor | ofx/src/handle.rs:415-424 | on success, three reads in order (bounds, row bytes, data) and a descriptor of the values read; a failure comes from the host after one to three calls; host state is unchanged |
| Handles.GetDescriptorStopsAtRefusal | ofx/src/handle.rs:415-424 | the descriptor is read exactly when the host answers all three reads; otherwise the first refused read ends it, after that read and the ones before it, with that read's status |
| Handles.Properties | ofx/src/handle.rs:569-583 | one `getPropertySet` call; on success the set the host issued, with the effect's property suite |
| Handles.ParameterSet | ofx/src/handle.rs:637-648 | one `getParamSet` call; on success the set the host issued, with the effect's property and parameter suites |
| Handles.LookUpClip | ofx/src/handle.rs:616-631 | one `clipGetHandle` call; on success the clip and properties the host issued, with the effect's suites |
| Handles.DefineClip | ofx/src/handle.rs:603-614 | one `clipDefine` call; on success the property set the host issued |
| Handles.OutputClip | ofx/src/handle.rs:650-652 | looks up the clip named `Output` plus NUL |
| Handles.SimpleInputClip | ofx/src/handle.rs:654-656 | looks up the clip named `Source` plus NUL |
| Handles.GetClip | ofx/src/handle.rs:658-661 | a name with a NUL is refused without calling the host; otherwise the clip is looked up by the name and one NUL |
| Handles.NewClip | ofx/src/handle.rs:671-674 | a name with a NUL is refused without calling the host; otherwise the clip is defined by the name and one NUL |
| Handles.NewOutputClip | ofx/src/handle.rs:663-665 | defines the clip named `Output` plus NUL |
| Handles.NewSimpleInputClip | ofx/src/handle.rs:667-669 | defines the clip named `Source` plus NUL |
| Handles.ClipNamesReachHostIntact | ofx/src/handle.rs:658-674 | a clip name with a NUL never reaches the host; a clean one reaches it in exactly one call, and the host reads back exactly that name |
| Handles.IsAborted | ofx/src/handle.rs:633-635 | never fails; true exactly when the host's abort flag is nonzero |
| Handles.AbortFollowsHostFlag | ofx/src/handle.rs:633-635 | `abort` reports true exactly when the host has raised the effect's abort flag to a nonzero value; asking twice gives the same answer and logs one `abort` call per query |
| Host.Alloc | ofx/src/handle.rs:685-686 | boxing gives a fresh non-null address holding the data, and everything else on the heap is unchanged |
| Host.Free | ofx/src/handle.rs:717-725 | unboxing a live address releases it; unboxing any other address is recorded as an invalid free |
| Handles.SetInstanceData | ofx/src/handle.rs:680-695 | succeeds exactly when the host answers both the property-set request and the pointer write OK; a refusal returns `HostFailure` of the refused status, and the log holds the property-set request alone when that is refused, otherwise both calls. Nothing already on the heap changes. On success one fresh box holds the data and its address is stored in the instance-data property; if the host refuses, the new box is freed again |
| Handles.GetInstanceDataPtr | ofx/src/handle.rs:697-703 | succeeds exactly when the host answers both the property-set request and the pointer read OK (`PointerReadAnswered`); a refusal returns `HostFailure` of the refused status after logging the calls up to it. On success the result is the pointer stored in the effect's instance-data property, which is null if none was stored |
| Handles.DropInstanceData | ofx/src/handle.rs:717-725 | frees the stored pointer when it is non-null and leaves the slot as it is; a failure to read it is returned with the heap unchanged |
| Handles.SetThenGetInstanceData | ofx/src/handle.rs:680-703 | round trip: after a successful set, a host that answers both reads OK gives back a pointer that is live and holds exactly the data stored |
| Handles.DoubleDropIsInvalidFree | ofx/src/handle.rs:717-725 | when the host answers the reads OK, dropping the instance data twice releases the same box twice, and the second release is an invalid free |
| Handles.DefineParam | ofx/src/handle.rs:741-757 | a name with a NUL is refused without calling the host; otherwise one `paramDefine` call with the name and one NUL |
| Handles.Parameter | ofx/src/handle.rs:759-777 | a name with a NUL is refused without calling the host; otherwise one `paramGetHandle` call, and on success the handle and properties issued, with the set's suites |
| Handles.ParamNamesReachHostIntact | ofx/src/handle.rs:741-777 | a parameter name with a NUL never reaches the host; a clean name reaches it in exactly one `paramDefine` or `paramGetHandle` call whose buffer the host reads back as the name |
| Enums.ToBytes | ofx/src/enums.rs:20-25 | the constant declared for the tag |
| Enums.FromBytes | ofx/src/enums.rs:27-35 | `None` exactly when no declared constant equals the name; otherwise the tag of the first constant that does |
| Enums.RoundTrip | ofx/src/enums.rs:8-38 | with distinct tags and constants, `from_bytes` inverts `to_bytes` |
| Enums.FromBytesThenToBytes | ofx/src/enums.rs:8-38 | with distinct tags, `to_bytes` inverts `from_bytes` on every name it recognises |
| Enums.NoConstantMatches | ofx/src/enums.rs:27-35 | a name `from_bytes` does not recognise is no tag's constant |
| Enums.ContextDeclsWellFormed | ofx/src/enums.rs:40-45 | the two contexts have distinct constants and every context is declared |
| Enums.BitDepthDeclsWellFormed | ofx/src/enums.rs:47-53 | the three bit depths have distinct constants and every bit depth is declared |
| Enums.ContextToBytes | ofx/src/enums.rs:40-45 | Filter and General map to their NUL-terminated constants |
| Enums.ContextFromBytes | ofx/src/enums.rs:40-45 | `None` exactly when the name is no context's constant; otherwise the context whose constant it is |
| Enums.ContextRoundTrip | ofx/src/enums.rs:40-45 | every context survives `to_bytes` then `from_bytes` |
| Enums.BitDepthToBytes | ofx/src/enums.rs:47-53 | Byte, Short and Float map to their NUL-terminated constants |
| Enums.BitDepthFromBytes | ofx/src/enums.rs:47-53 | `None` exactly when the name is no bit depth's constant; otherwise the bit depth whose constant it is |
| Enums.BitDepthRoundTrip | ofx/src/enums.rs:47-53 | every bit depth survives `to_bytes` then `from_bytes` |

## Behaviour of the code worth knowing

These are facts about the code as written, and the model keeps them.

- **Lookup order.** `map_action` consults the image-effect index first and
  the global index only when that fails
  (`Plugin.EffectIndexTakesPrecedence`). The two families' names are
  disjoint (`ActionNames.TokenInjective`), so the order does not change the
  result.
- **CreateInstance before Load.** Mapping CreateInstance already needs the
  suites, so before Load it fails with `SuiteNotInitialized` and nothing
  runs (`Plugin.ActionBeforeLoadFails`).
- **Instance data.** `drop_instance_data` does not clear the stored
  pointer. A second DestroyInstance therefore frees the same box again
  (`Handles.DoubleDropIsInvalidFree`).
- **Images.** `Image` derives `Clone` and implements `Drop`, and every drop
  releases the host image. Two copies of one image release it twice
  (`Handles.ClonesReleaseTwice`).
- **OpenGL suite.** Of the OpenGL suites, only the image-effect
  OpenGL-render suite is fetched, and only it reaches effect handles.

## Left out

- **Not part of this model:** `ofx/src/lib.rs`, `ofx-sys/build/macro_constants.h`
  and the crate's `result.rs`, `suites.rs`, `property.rs`, `action.rs` and
  `types.rs`.
  - Status codes are abstract; only `kOfxStatOK` is distinguished.
  - `suite_fn!` and `to_result!` are modelled as "OK is success, anything
    else is `HostFailure(status)`".
- **The C ABI and pointer mechanics.** Raw pointers, `Rc`/`RefCell` sharing
  and the `unsafe` casts are not modelled, nor are the `setHost` and
  `mainEntry` trampolines and the global plugin registry. Handles are opaque
  numbers.
- **The plugin's `execute`.** It is a parameter of `Plugin.Dispatch`: it is
  code the adapter calls but does not contain.
- **Logging** (`debug!`, `info!`, `warn!`, `error!`) and `Debug`/`Display`
  have no effect on behaviour.
- **Threads.** `Runnable`, `run_in_threads` and `num_threads` are left out;
  concurrency is outside this model.
- **Tiles and mutable descriptors.** `get_tiles_mut`, which splits image
  memory into tiles, is left out. `get_descriptor_mut` makes the same three
  reads as `Handles.GetDescriptor`.
- **`_mut` variants.** `get_image_mut`, `get_image_rect_mut` and
  `load_texture_mut` make the same calls as their shared counterparts and
  are covered by `Handles.AcquireImage` and `Handles.LoadTexture`.
  `get_image` and `get_image_mut` are the region-less case.
- **Other parameter types.** The generic `ParamHandle<T>` operations for
  Int and Double values, and the key functions, are left out.
  - Double values are floating point, which is not modelled.
  - The key functions forward to the host with no logic of their own.
- **Not modelled for lack of logic of their own:**
  - the `param_define_*` helpers, which are `Handles.DefineParam` with a
    fixed `ParamType`;
  - `get_region_of_definition`, a host read of a floating-point rectangle;
  - `ClipInstance::properties`, which wraps a handle it already holds;
  - the descriptor flavour of `properties`, which makes the same call as
    `Handles.Properties`;
  - `get_instance_data`, a pointer cast of `Handles.GetInstanceDataPtr`;
  - `get_pointer`, which always returns `Unimplemented`;
  - `PropertySetHandle::empty`.
- **Tests.** The crate's tests are not modelled.
- **Version numbers.** `Plugin.New` takes the plugin version as unbounded
  naturals, not `u32`. No arithmetic is done on them.
- **Panics.** `Plugin.New` requires a NUL-free name, because
  `CString::new(name).unwrap()` panics on one. `Drop for Image` panicking is
  modelled as the predicate `Handles.DropPanics`, not as an abort.
- **Instance data payloads.** They are opaque integers. The type `T` and its
  own destructor are not modelled. `drop_instance_data` rebuilds the box
  from an untyped pointer, so in the code `T`'s destructor never runs and
  the allocator is handed the layout of `c_void` rather than of `T`. The
  model's `Host.Free` records only which address is released, not with
  what layout.
- Plugin.DispatchToken, Plugin.ActionBeforeLoadFails, Plugin.UnloadBeforeLoadPasses, Plugin.LoadTransition, Plugin.DescribeCachesHandle, Plugin.DestroyDropsInstanceData: these take any buffer whose C-string contents are the action's name, not only the compiled-in constant. `Plugin.ConstantHoldsToken` connects the two.

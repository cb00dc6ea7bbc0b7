# Vulkan context bootstrap — a Dafny model

This project models `ContextInit`, the class that brings up a Vulkan
rendering context. It runs seven stages in a fixed order:

1. create the instance, with the validation layer when Java assertions are on
   and the layer is installed;
2. install the debug messenger (failure is not fatal);
3. create the window surface (windowed mode only);
4. pick the physical device with the caller's ranker;
5. resolve the graphics, present, dedicated-transfer and dedicated-compute
   queue families;
6. create the logical device and read back its queues;
7. create the VMA allocator.

The first stage that throws stops the run. `cleanup` then destroys every
non-null handle, allocator first and instance last, and the error is
rethrown.

## Modules

- `Wrappers`: `Option` and `Result`.
- `Vulkan`: the shared vocabulary.
  - Java's 32-bit `int` is `int32`; queue flag words are `bv32`.
  - The queue flag bits are GRAPHICS 0x1, COMPUTE 0x2 and TRANSFER 0x4. They
    are `VkQueueFlagBits` from section 5.3.1 of the Vulkan specification.
  - Also here: the extension and layer names, the render configuration, and
    the error kinds.
- `InstanceSetup`: the validation-layer check, the validation decision and the
  instance extension set.
- `DeviceSelection`: the rank scan of `pickPhysicalDevice`.
- `QueueFamilies`: the one-pass scan of `findQueueFamilyIndices`. Both the
  as-written and the corrected version are modelled.
- `LogicalDevice`: the `vkCreateDevice` request: queue-create entries,
  device extensions and features.
- `ContextInit`: the stages, `init` and `cleanup`.
  - Every driver and GLFW call is a field of a `Driver` value: a result code
    plus the handle it yields.
  - Each handle is an `Option`.
  - The attempt keeps a log of created handles. `cleanup` is the list of
    destroy calls it makes.

Optional queue-family indices are `Option<nat>`. The source uses `-1` for
"none".

The model is parameterised by `Build`, which is either `AsWritten` or
`Corrected` (see "## Findings"):

- `AsWritten` follows the source's branches for one attempt on a fresh `ContextInit` (see "## Left out" for what is not modelled).
- `Corrected` replaces the two defects by their evident intent.

## Model

All source paths are under `src/main/java/club/doki7/rkt/vk/init/`.

| member | source | states |
|---|---|---|
| InstanceSetup.FindValidationLayer | src/main/java/club/doki7/rkt/vk/init/ContextInit.java:567-573 | the layer loop answers yes exactly when the validation layer's name occurs at or after the starting position |
| InstanceSetup.CheckValidationLayerSupport | src/main/java/club/doki7/rkt/vk/init/ContextInit.java:546-575 | support is reported iff both enumeration calls succeed and the validation layer is listed; an empty layer list always gives false |
| InstanceSetup.ValidationEnabled | src/main/java/club/doki7/rkt/vk/init/ContextInit.java:132-143 | validation is on iff assertions are enabled and the layer check succeeds; when on, the layer is really installed |
| InstanceSetup.BuildInstanceRequest | src/main/java/club/doki7/rkt/vk/init/ContextInit.java:153-189 | fails iff windowed and GLFW cannot report its extensions. An extension is requested iff it is one of: always-requested, caller-supplied, GLFW-required in windowed mode, or debug-utils with validation on. The layer list and the chained debug create-info are present iff validation is on |
| InstanceSetup.HeadlessIgnoresWindowExtensions | src/main/java/club/doki7/rkt/vk/init/ContextInit.java:155-167 | without a window system the GLFW answer has no effect on the instance request |
| InstanceSetup.DebugUtilsOnlyWithValidation | src/main/java/club/doki7/rkt/vk/init/ContextInit.java:169-171 | debug-utils is requested with validation and (unless someone else asks for it) not without |
| DeviceSelection.SelectFrom | src/main/java/club/doki7/rkt/vk/init/ContextInit.java:282-291 | the scan continued from any position, with a running best consistent with the prefix, finds nothing iff every rank is negative. Otherwise it finds the best index: non-negative rank, no rank above it, every earlier rank strictly below it |
| DeviceSelection.SelectBest | src/main/java/club/doki7/rkt/vk/init/ContextInit.java:282-295 | the rank scan started at `Integer.MIN_VALUE` returns the first index holding the highest non-negative rank, or nothing when all ranks are negative |
| DeviceSelection.PickPhysicalDevice | src/main/java/club/doki7/rkt/vk/init/ContextInit.java:245-297 | each error path: first enumeration fails, zero devices, second enumeration fails, no eligible device. Otherwise it succeeds iff some rank is non-negative, and returns the best index |
| DeviceSelection.BestIsUnique | src/main/java/club/doki7/rkt/vk/init/ContextInit.java:287-290 | the strict comparison makes "best" a single index: ties go to the earliest |
| DeviceSelection.SelectedRankIgnoresOrder | src/main/java/club/doki7/rkt/vk/init/ContextInit.java:282-295 | reordering the devices does not change whether one is chosen nor the rank of the one chosen |
| DeviceSelection.HigherRankWinsInEitherOrder | src/main/java/club/doki7/rkt/vk/init/ContextInit.java:287-290 | worked cases: the higher rank wins in either order, a tie goes to the first, all-negative selects nothing |
| QueueFamilies.RolesExclude | src/main/java/club/doki7/rkt/vk/init/ContextInit.java:323-364 | no flag word qualifies for two of graphics, dedicated transfer and dedicated compute |
| QueueFamilies.Visit | src/main/java/club/doki7/rkt/vk/init/ContextInit.java:319-373 | one iteration at family `i`: a role already found keeps its family. An unfound role takes `i` exactly when `i` qualifies, and no other family. Graphics qualifies by the GRAPHICS bit, present by a yes surface answer in windowed mode, dedicated transfer and compute by their flags unless switched off |
| QueueFamilies.ScanFrom | src/main/java/club/doki7/rkt/vk/init/ContextInit.java:318-374 | after the whole scan, each enabled role holds the least qualifying family (or none exists). Present holds the least family whose answer was yes. A disabled role stays unassigned |
| QueueFamilies.VisitExtends | src/main/java/club/doki7/rkt/vk/init/ContextInit.java:318-374 | one loop iteration extends the first-match facts from `i` families to `i + 1` |
| QueueFamilies.Conclude | src/main/java/club/doki7/rkt/vk/init/ContextInit.java:376-387 | fails iff no graphics family was found, or a window system is present and no present family was found. The error is no-graphics exactly when graphics is missing, and no-present otherwise. On success the indices are the scan's, with graphics unwrapped |
| QueueFamilies.FindQueueFamilyIndices | src/main/java/club/doki7/rkt/vk/init/ContextInit.java:299-389 | the resolver as written. It fails only with no-graphics or no-present, and succeeds iff some family has GRAPHICS and either there is no window system or family 1 can present. No-graphics is returned iff no family has GRAPHICS. No-present is returned iff graphics exists, a window system is present and family 1 cannot present. On success graphics/transfer/compute are the first qualifying families, and present is family 0 when windowed and absent when headless |
| QueueFamilies.FindQueueFamilyIndicesPerFamily | src/main/java/club/doki7/rkt/vk/init/ContextInit.java:299-389 | the corrected resolver: the same two failures and the same success condition, with "family 1 cannot present" replaced by "no family can present". A windowed present family is the first family that supports the surface |
| QueueFamilies.ResolvedRolesAreDisjoint | src/main/java/club/doki7/rkt/vk/init/ContextInit.java:323-364 | whenever resolution succeeds, graphics, dedicated transfer and dedicated compute are pairwise distinct |
| QueueFamilies.ResolversAgreeOnUniformSupport | src/main/java/club/doki7/rkt/vk/init/ContextInit.java:332-343 | when the driver gives every family the same presentation answer, the two resolvers return the same result |
| QueueFamilies.ScanFromAgrees | src/main/java/club/doki7/rkt/vk/init/ContextInit.java:318-374 | the scan depends on the presentation query only through its answers: two queries that answer alike give the same scan |
| QueueFamilies.PresentQueryIgnoresFamily | src/main/java/club/doki7/rkt/vk/init/ContextInit.java:333-338 | counterexample: two full families where only family 1 can present; as written, present is family 0, which cannot present; corrected, it is family 1 |
| LogicalDevice.FamilyOrder | src/main/java/club/doki7/rkt/vk/init/ContextInit.java:412-438 | the as-written entry families start with graphics and mention exactly the resolved families |
| LogicalDevice.QueueCreateInfoCount | src/main/java/club/doki7/rkt/vk/init/ContextInit.java:401-410 | the counting pass gives between 1 and 4 entries, and exactly as many as the filling pass writes as written |
| LogicalDevice.DistinctFamilyOrder | src/main/java/club/doki7/rkt/vk/init/ContextInit.java:401-438 | the corrected entry families start with graphics, have no duplicates and mention exactly the resolved families |
| LogicalDevice.QueueCreateInfos | src/main/java/club/doki7/rkt/vk/init/ContextInit.java:399-438 | one entry per family, each asking for one queue at priority 1.0 |
| LogicalDevice.FillQueueCreateInfos | src/main/java/club/doki7/rkt/vk/init/ContextInit.java:401-438 | the counting pass and the filling pass agree: every write lands inside the allocation, the length is the count, and the entries are graphics, then present when it differs from graphics, then transfer, then compute |
| LogicalDevice.AsWrittenDistinctUnlessPresentOverlaps | src/main/java/club/doki7/rkt/vk/init/ContextInit.java:401-438 | for a resolved triple, the as-written entries are duplicate-free iff the present family does not coincide with the dedicated transfer or compute family |
| LogicalDevice.CorrectedAgreesWithoutOverlap | src/main/java/club/doki7/rkt/vk/init/ContextInit.java:401-438 | when no such overlap occurs, the corrected entry list equals the as-written one |
| LogicalDevice.DuplicateQueueFamilyReachable | src/main/java/club/doki7/rkt/vk/init/ContextInit.java:402-432 | counterexample on the resolver as written: flags [TRANSFER, GRAPHICS+COMPUTE] with the family-1 surface query answering yes resolve to graphics 1, present = transfer = 0. As written that gives entries [1, 0, 0], which repeat family 0; corrected it gives [1, 0] |
| LogicalDevice.ThreeDedicatedFamilies | src/main/java/club/doki7/rkt/vk/init/ContextInit.java:318-438 | worked case: graphics-only, transfer-only and compute-only families resolve to 0, 1, 2 and give three distinct single-queue entries |
| LogicalDevice.RequestedFeatures | src/main/java/club/doki7/rkt/vk/init/ContextInit.java:393-397 | sample-rate shading and dynamic rendering are always on; anisotropy is on iff the configuration asks for it |
| LogicalDevice.DeviceExtensions | src/main/java/club/doki7/rkt/vk/init/ContextInit.java:440-447 | the set contains the always-requested and caller-supplied names, and the host-copy bundle when enabled. It contains swapchain iff a present family exists or the caller asks for it. It contains nothing else |
| LogicalDevice.HostCopyOnlyWhenEnabled | src/main/java/club/doki7/rkt/vk/init/ContextInit.java:444-446 | unless the caller names them, the host-copy extensions are all requested iff host copy is enabled, and none is requested otherwise |
| LogicalDevice.DeviceRequestContents | src/main/java/club/doki7/rkt/vk/init/ContextInit.java:391-464 | the device request starts with a graphics entry; every entry asks for one queue; as written, its length is the counting pass. Swapchain is requested iff a present family exists or the caller names it; anisotropy follows the configuration; the validation layer is listed iff validation is on |
| LogicalDevice.BuildDeviceRequest | src/main/java/club/doki7/rkt/vk/init/ContextInit.java:454-464 | the request sent to `vkCreateDevice` carries exactly the queue-create entries of the build's family list, the device extension set and the requested features. Its first entry is a single graphics queue; sample-rate shading and dynamic rendering are on; the layer list is exactly the validation layer when validation is on, and empty otherwise |
| LogicalDevice.RequestNamesResolvedFamilies | src/main/java/club/doki7/rkt/vk/init/ContextInit.java:412-460 | the entries of the request name exactly the resolved families, graphics first. As written they follow graphics, present, transfer, compute; corrected they name each family once |
| LogicalDevice.CorrectedRequestsEachFamilyOnce | src/main/java/club/doki7/rkt/vk/init/ContextInit.java:412-438 | in the corrected run, no two entries of the `vkCreateDevice` request share a `queueFamilyIndex` |
| ContextInit.CleanupReversesCreation | src/main/java/club/doki7/rkt/vk/init/ContextInit.java:525-544 | `cleanup` destroys exactly the non-null handles, in the reverse of the order the stages create them |
| ContextInit.Cleanup | src/main/java/club/doki7/rkt/vk/init/ContextInit.java:525-544 | every destroy call names a handle the state holds under that kind, and every handle the state holds is destroyed |
| ContextInit.AbsentKindNeverLogged | src/main/java/club/doki7/rkt/vk/init/ContextInit.java:525-544 | a null handle is neither in the creation log nor destroyed |
| ContextInit.CreateInstanceStage | src/main/java/club/doki7/rkt/vk/init/ContextInit.java:131-201 | succeeds iff the instance request can be built and `vkCreateInstance` returns SUCCESS for that request. The request can be built unless windowed without GLFW extensions. An unbuildable request fails with its reason. A rejected call aborts with its code, tagged as instance creation. On success exactly the returned instance is held, with validation decided as above; on failure nothing is held |
| ContextInit.SetupDebugMessengerStage | src/main/java/club/doki7/rkt/vk/init/ContextInit.java:203-228 | never fails. The messenger held is the handle `vkCreateDebugUtilsMessengerEXT` returned, when validation is on and the call succeeded, and none otherwise. Everything held before is kept, and the log gains exactly that messenger |
| ContextInit.CreateSurfaceStage | src/main/java/club/doki7/rkt/vk/init/ContextInit.java:230-243 | fails iff windowed and the surface call fails, reporting its code. On success the surface is the call's handle when windowed and none when headless; everything held before is kept, and the log gains exactly that surface |
| ContextInit.PickPhysicalDeviceStage | src/main/java/club/doki7/rkt/vk/init/ContextInit.java:245-297 | succeeds iff the selection over the driver's devices and the caller's ranks succeeds, and then holds exactly the index it picks, the best-ranked device. Every handle held before is kept and the log is unchanged. On failure it aborts with the selection's own error, and nothing new is held |
| ContextInit.FindQueueFamiliesStage | src/main/java/club/doki7/rkt/vk/init/ContextInit.java:299-389 | succeeds iff the resolver succeeds on the chosen device, and then holds the families it reports. Every handle held before is kept and the log is unchanged. On failure it aborts with the resolver's reason, and nothing new is held |
| ContextInit.FetchQueue | src/main/java/club/doki7/rkt/vk/init/ContextInit.java:476-496 | fails iff the role has a family whose queue reads back null, naming that family. Otherwise a queue is held iff the role has a family, and it is the queue the driver returned |
| ContextInit.FetchQueues | src/main/java/club/doki7/rkt/vk/init/ContextInit.java:475-496 | fails iff some resolved role's queue reads back null. A null graphics read is reported first, and the error always names a family that reads null. On success each role's queue is the driver's read for its family, held for exactly the roles that have a family |
| ContextInit.CreateLogicalDeviceStage | src/main/java/club/doki7/rkt/vk/init/ContextInit.java:466-496 | a failed `vkCreateDevice` aborts with its code and no device. Otherwise the device is recorded and the queues are read. On success the device held is the handle `vkCreateDevice` returned for this request, everything held before is kept, and the log gains exactly that device |
| ContextInit.FetchQueuesStage | src/main/java/club/doki7/rkt/vk/init/ContextInit.java:472-496 | records the device `h` before any queue read. It fails iff some resolved role reads null, with the error of the queue reads and the device held and logged. On success the device held is `h`, the held queues are those reads, everything held before is kept, and the log gains exactly `h` |
| ContextInit.CreateAllocatorStage | src/main/java/club/doki7/rkt/vk/init/ContextInit.java:500-523 | fails iff the allocator call fails, and the allocator is held only on success. On success the allocator is the call's handle, everything held before is kept, and the log gains exactly that allocator |
| ContextInit.Pipeline | src/main/java/club/doki7/rkt/vk/init/ContextInit.java:88-95 | a failed run leaves exactly the handles of the stages before the failing one (plus the device after a null queue read), never the allocator. A successful run holds every stage's handle, the best-ranked device, the resolver's families and a queue per resolved role. The log is the driver's handles (`PipelineLogsDriverHandles`); when a run fails, and with which error, is `PipelineStopsAtFirstError` |
| ContextInit.Init | src/main/java/club/doki7/rkt/vk/init/ContextInit.java:84-129 | the creation log is exactly the handles the driver handed out, in order. On failure the destroy calls are that log reversed; on success nothing is destroyed. The rethrown error is tied to the failing check by `InitReportsFirstError` |
| ContextInit.PipelineStopsAtFirstError | src/main/java/club/doki7/rkt/vk/init/ContextInit.java:88-99 | the run fails iff some check fails, taking the checks in stage order: the instance request, `vkCreateInstance`, the surface, selection, the resolver, `vkCreateDevice`, the queue reads, the allocator. It fails with the error of the first failing check |
| ContextInit.InitReportsFirstError | src/main/java/club/doki7/rkt/vk/init/ContextInit.java:88-99 | `init` rethrows exactly the error of the first failing check, and returns a context iff no check fails |
| ContextInit.PipelineLogsDriverHandles | src/main/java/club/doki7/rkt/vk/init/ContextInit.java:88-99 | the creation log a run leaves, failed or not, is exactly the handles the driver returned, in order. Each creating call that is reached and succeeds contributes its handle, up to the first failing check. No handle is lost, replaced or invented |
| ContextInit.NoCheckFails | src/main/java/club/doki7/rkt/vk/init/ContextInit.java:84-99 | no check fails when the window system reports its extensions and every creating call returns SUCCESS. It also needs some rank to be non-negative, the best-ranked device's families to resolve, and every queue read to be non-null |
| ContextInit.EveryCallSucceedingGivesContext | src/main/java/club/doki7/rkt/vk/init/ContextInit.java:84-129 | under the same conditions `init` returns a context |
| ContextInit.Assemble | src/main/java/club/doki7/rkt/vk/init/ContextInit.java:101-128 | the handles of the returned context, listed in creation order, are exactly the creation log. The physical device handed out is the selected device's handle, and the families and queues are those the stages resolved and read |
| ContextInit.FailedInitDestroysEachHandleOnce | src/main/java/club/doki7/rkt/vk/init/ContextInit.java:96-99 | a failed attempt destroys each handle the driver handed out exactly once, and nothing else |
| ContextInit.AllocatorNeverDestroyed | src/main/java/club/doki7/rkt/vk/init/ContextInit.java:521-528 | the allocator is recorded only on success, so `cleanup` never destroys one |
| ContextInit.SuccessfulInitHoldsEveryHandle | src/main/java/club/doki7/rkt/vk/init/ContextInit.java:101-128 | on success the creation log is the returned context's handles: instance, messenger (if any), surface (if any), device, allocator |
| ContextInit.EarlyFailureCreatesNoDevice | src/main/java/club/doki7/rkt/vk/init/ContextInit.java:88-95 | a failure in the instance, surface, selection or queue-family stage creates no device and no allocator |
| ContextInit.NullQueueDestroysDeviceFirst | src/main/java/club/doki7/rkt/vk/init/ContextInit.java:472-477 | after a null queue read, cleanup destroys the device first and the instance last |
| ContextInit.HeadlessCreatesNoSurface | src/main/java/club/doki7/rkt/vk/init/ContextInit.java:230-243 | without a window system no surface is ever created. A successful context has no surface, no present family and no present queue |
| ContextInit.NoEligibleDeviceCreatesNoDevice | src/main/java/club/doki7/rkt/vk/init/ContextInit.java:293-295 | when the ranker rejects every device, the attempt fails no later than selection and never creates a device or allocator |
| ContextInit.CorrectedPresentFamilySupportsSurface | src/main/java/club/doki7/rkt/vk/init/ContextInit.java:332-343 | with the per-family query, the present family of a successful windowed run is the first family of the chosen device that supports the surface |

## Left out

- Native interop:
  - Not modelled: Arena allocation, native memory reads and writes, `VulkanLoader`, the command tables, and the internals of `VMA`.
  - Each driver call is replaced by its result code and handle.
  - A null handle read where the source calls `Objects.requireNonNull` is not modelled, except for queue reads: there a null read aborts with `NullQueueHandle`.
- Logging, `populateDebugMessengerCreateInfo` and `DebugCallback`: they only produce messages. The request records only whether the debug create-info is chained.
- Application info: version encoding (`Version.encode`) and the engine name are not modelled.
- GLFW: decoding extension-name strings from native memory is not modelled. The window system supplies `Option<seq<string>>`.
- `RenderContext`: the arena and command tables are not modelled. The context keeps only the handles and the resolved families.
- Device properties: each device's `properties` are taken as given. The per-device property query in the logging loop (ContextInit.java:265-280) is not modelled, nor are its null checks.
- Ranker: the caller's ranker is a total function. A ranker that throws would abort through the catch at ContextInit.java:96-99, with cleanup; that path is not modelled.
- The queue priority is the real number 1.0, not a 32-bit float.
- Queue-family indices and counts are unbounded naturals. The source's `int` never comes near its range here.
- Ranks keep the 32-bit `int32` type, so `Integer.MIN_VALUE` is modelled exactly.
- Constructing the Java exception messages is not modelled.
- One attempt per object: every attempt starts from an empty state. In the source, `init()` never resets the instance, device or allocator fields (ContextInit.java:49-68, 84-99), `surface` is reset only when headless (ContextInit.java:241), and `cleanup` nulls nothing (ContextInit.java:525-544). So a second `init()` on the same object that fails early would destroy the first attempt's handles again. Repeated `init()` calls are not modelled.
- Surface-support query: its result code is ignored by the source (ContextInit.java:333-338) and is not modelled. When the device has a single queue family, the constant index 1 is out of range; the model still gives `surfaceSupport(1)` a defined answer.
- `ShaderStorageBufferObject.java` and `module-info.java` are not part of this model.

The model follows the code as `Build.AsWritten`, including two places
where the code departs from its evident intent:

- Presentation: the loop queries the surface support of family `1`
  (ContextInit.java:335) on every iteration, yet records and logs the
  current family `i` as the present family (ContextInit.java:340-341).
- Deduplication: only present is checked against graphics
  (ContextInit.java:402, 419). The valid-usage rules of `VkDeviceCreateInfo`
  in the Vulkan specification (section "Device Creation") require the
  `queueFamilyIndex` of each element of `pQueueCreateInfos` to be unique.

## Findings

| source | as written | input that shows it | evidently intended | confidence | as-written member | corrected member |
|---|---|---|---|---|---|---|
| src/main/java/club/doki7/rkt/vk/init/ContextInit.java:333-338 | the surface-support query passes the constant family index 1 on every iteration, so the present family is always 0 or none | two families with all flags, where only family 1 can present: family 0 is chosen as present although it cannot present | query family `i`, choosing the first family that can present | high (not executed) | QueueFamilies.PresentQueryIgnoresFamily | QueueFamilies.FindQueueFamilyIndicesPerFamily |
| src/main/java/club/doki7/rkt/vk/init/ContextInit.java:401-438 | entries are deduplicated only present against graphics, so present can repeat the dedicated transfer or compute family | flags [TRANSFER, GRAPHICS+COMPUTE], windowed, with the family-1 surface query answering yes: present = transfer = 0 gives entries for families [1, 0, 0] | one entry per distinct family, which `vkCreateDevice` requires | medium (not executed) | LogicalDevice.DuplicateQueueFamilyReachable | LogicalDevice.CorrectedRequestsEachFamilyOnce |

`Init`, `Pipeline` and the stages take a `Build` parameter:

- `Init(AsWritten, …)` is the code as written.
- `Init(Corrected, …)` uses both corrected definitions.
- `ContextInit.CorrectedPresentFamilySupportsSurface` proves the corrected
  run presents only on a family that can present.
- `LogicalDevice.CorrectedRequestsEachFamilyOnce` proves the corrected run's
  `vkCreateDevice` request names each family once.

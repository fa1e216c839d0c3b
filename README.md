# vub host program: a Dafny model

vub runs a single-pass parallel prefix sum on a Vulkan GPU. The scan kernel
itself is not part of this model. What is modelled is the host side around it:

- the descriptor-table record that the host and the shader share;
- the block-shape constants;
- the integer helpers `popCount`, `divideRoundUp` and `roundUp`;
- the fixed-capacity `CappedArray<T>` container;
- the descriptor-set-layout builder of the device header;
- the selection and mapping rules of the Vulkan device wrapper.

Every Vulkan query the wrapper makes becomes an input. The queries are:

- the physical devices and their types and limits;
- the queue families;
- the memory types;
- the format features;
- the driver call that exports a file descriptor.

The structures the wrapper fills in before calling Vulkan become results.
The source's fatal paths (`PANIC_AND_EXIT`) become a `Fatal` result.

Files:

- `types.dfy`: the integer widths, bit-vector flags and the `Result` type.
- `vk.dfy`: the Vulkan enumerants and flag bits used, with their values from `vulkan_core.h`.
- `prefix_sum.dfy`: `ProcessorDescriptor`, its 16-byte layout, the block shape and the partition count.
- `helper.dfy`: population count, C `int` ceiling division and round-up.
- `capped_array.dfy`: `CappedArray<T>` as a class over an `array<T>`, plus its iterator.
- `gpu_device_layout.dfy`: the variadic `makeDescriptorSetLayout` template.
- `gpu_device.dfy`: the rules inside `gpu-device.cc`.

## Model

| member | source | states |
|---|---|---|
| PrefixSum.AddElemWrapsOnOverflow | include/prefix-sum.h:6-18 | the unsigned 32-bit fields store sums modulo 2^32, and a stored sum is below an operand exactly when the true sum overflowed |
| PrefixSum.BlockShape | include/prefix-sum.h:22-25 | a block is 16 × 128 = 2048 elements, and 128 threads are exactly 4 warps of 32 |
| PrefixSum.NumBlocksCoversInput | include/prefix-sum.h:24-25 | `divideRoundUp(n, 2048)` blocks cover all n inputs; the last block is non-empty; zero inputs give zero blocks; every input index k lies in block k / 2048, one of the counted blocks |
| PrefixSum.DriverInputBlocks | example/main.cc:3 | the driver's 2048 × 2048 inputs make exactly 2048 full blocks |
| PrefixSum.Encode | include/prefix-sum.h:11-19 | a descriptor occupies exactly 16 bytes, each field a 4-byte little-endian word |
| PrefixSum.FieldOffsets | include/prefix-sum.h:11-19 | status, blockAggregate, blockInclusivePrefix and pad are read back from byte offsets 0, 4, 8 and 12 |
| PrefixSum.DecodeEncode | include/prefix-sum.h:11-19 | reading a slot back gives the record that was written |
| PrefixSum.EncodeDecode | include/prefix-sum.h:11-19 | every 16-byte pattern is the encoding of the record decoded from it |
| PrefixSum.EncodeTable | include/prefix-sum.h:11-19 | a table of k descriptors occupies 16·k bytes |
| PrefixSum.TableSlotAt | include/prefix-sum.h:11-19 | slot i of the table is exactly the 16 bytes at offset 16·i |
| Helper.CountBits | example/helper.h:12-19 | the count of the low n bits is the size of the set of their set positions, and at most n |
| Helper.PopCount | example/helper.h:12-19 | `popCount(x)` is the number of positions in 0..31 whose bit is set, hence at most 32 |
| Helper.PairBits | example/helper.h:12-19 | the only set bits of the bitwise or of `1 << g` and `1 << p` are g and p |
| Helper.PopCountOfPair | example/helper.h:12-19 | the popcount of the bitwise or of `1 << g` and `1 << p` is 1 when g = p and 2 otherwise |
| Helper.CDiv | example/helper.h:23 | C `int` division truncates toward zero, never exceeds the dividend in magnitude, and agrees with floor division on non-negative operands |
| Helper.CDivInRange | example/helper.h:23 | the only `int` quotient outside `int`'s range is INT_MIN / -1 |
| Helper.DivideRoundUp | example/helper.h:21-24 | for a ≥ 0 and b > 0 the result q is the ceiling: q·b ≥ a and (q−1)·b < a; the requires exclude exactly the undefined behaviour of the expression |
| Helper.DivideRoundUpExact | example/helper.h:21-24 | the rounded-up quotient equals the exact quotient precisely when b divides a |
| Helper.RoundUp | example/helper.h:26-30 | the result is a multiple of the boundary, with x ≤ result < x + boundary |
| Helper.RoundUpU32 | example/helper.h:26-30 | with `T = uint32_t` the result is always a multiple of the boundary; it equals `RoundUp` when `input + boundary - 1` fits in 32 bits and is 0 otherwise, so it is at least the input exactly when that sum fits |
| Helper.RoundUpOfMultiple | example/helper.h:26-30 | a multiple of the boundary is returned unchanged |
| Helper.RoundUpIdempotent | example/helper.h:26-30 | rounding up twice is rounding up once |
| Helper.RoundUpIsDivideRoundUpTimesBoundary | example/helper.h:21-30 | `roundUp(x, b) == b * divideRoundUp(x, b)` wherever both are defined |
| CappedArrays.CappedArray.constructor | example/capped-array.h:18-20 | a default-constructed array is empty, with no capacity and no owned storage |
| CappedArrays.CappedArray.MoveFrom | example/capped-array.h:22-29 | the move constructor takes the source's buffer, size and capacity; since the source's flag is cleared before it is copied, neither object owns the buffer afterwards |
| CappedArrays.CappedArray.MoveAssign | example/capped-array.h:31-39 | move assignment copies the same fields and ends with neither object owning the buffer |
| CappedArrays.CappedArray.Destroy | example/capped-array.h:12-16 | the destructor frees the buffer exactly when the array owns it |
| CappedArrays.CappedArray.Alloc | example/capped-array.h:41-48 | `alloc(max)` installs fresh owned storage of max slots, with size 0 and capacity max |
| CappedArrays.CappedArray.SetPtr | example/capped-array.h:50-57 | `setPtr(p, max)` installs the caller's buffer, not owned, with size 0 and capacity max |
| CappedArrays.CappedArray.Push | example/capped-array.h:59-66 | needs a free slot; stores the element at the old size and returns that index; size grows by one; contents gain exactly that element; capacity, ownership and every other slot stay as they were |
| CappedArrays.CappedArray.Clear | example/capped-array.h:68 | size becomes 0 and nothing else changes, including the stored slots |
| CappedArrays.CappedArray.Size | example/capped-array.h:69 | `size()` is the number of stored elements |
| CappedArrays.CappedArray.Data | example/capped-array.h:70 | `data()` is the element buffer |
| CappedArrays.CappedArray.Capacity | example/capped-array.h:71 | `capacity()` is the capacity, never below the size |
| CappedArrays.CappedArray.Get | example/capped-array.h:72-73 | reading any slot i of the buffer, unchecked against size or capacity, yields the stored slot, and for i below the size the i-th element |
| CappedArrays.CappedArray.Set | example/capped-array.h:72 | writing through any slot i of the buffer changes that slot and no other |
| CappedArrays.CappedArray.Begin | example/capped-array.h:114 | `begin()` points at index 0 of this array |
| CappedArrays.CappedArray.End | example/capped-array.h:115 | `end()` points at index size, taken modulo 2^32 by the iterator's `uint32_t` index |
| CappedArrays.CappedArray.BeginEqualsEndIffEmpty | example/capped-array.h:114-115 | on an array of fewer than 2^32 elements, `begin() == end()` exactly when it is empty |
| CappedArrays.Iterator.Equals | example/capped-array.h:106 | `==` compares only the indices: two iterators are equal exactly when they differ at most in their container |
| CappedArrays.Iterator.NotEquals | example/capped-array.h:107 | `!=` holds exactly when `==` does not |
| CappedArrays.IteratorComparison | example/capped-array.h:106-107 | `!=` is the negation of `==` for any two iterators, whatever containers they point into |
| GpuDeviceLayout.MakeDescriptorBindingInfo | example/gpu-device.h:138-146 | the binding takes the given number and the descriptor's type and count, is visible to all shader stages and has no immutable samplers |
| GpuDeviceLayout.MakeDescriptorSetLayout | example/gpu-device.h:136-155 | k ≥ 1 descriptors give exactly k bindings, and the create-info built by `makeDescriptorSetLayoutImpl` (example/gpu-device.cc:1103-1117) passes count k; binding i has number i and the i-th descriptor's type and count, with all stages and no samplers; binding numbers strictly increase |
| GpuDevice.MakeDescriptorSetLayoutInfo | example/gpu-device.cc:1103-1117 | the create-info carries the binding count and the bindings unchanged |
| GpuDevice.FindDepthFormat | example/gpu-device.cc:148-167 | the result is the first format whose features for the requested tiling include all requested ones; with none, or with a tiling other than linear or optimal, the call is fatal |
| GpuDevice.FindMemoryType | example/gpu-device.cc:821-840 | the result is the smallest index allowed by `memoryTypeBits` whose property flags include all requested ones; with none the call is fatal |
| GpuDevice.ScanQueueFamilies | example/gpu-device.cc:231-250 | the family loop computes the recursive family scan |
| GpuDevice.ScanWithoutPresentFamily | example/gpu-device.cc:231-250 | with no present family the loop never stops early, and the last graphics-capable family wins, or the variable keeps its value |
| GpuDevice.ScanSeekingGraphicsFamily | example/gpu-device.cc:231-250 | with a present family and no graphics family yet, the loop stops at the first graphics-capable family, or leaves the variable alone |
| GpuDevice.ScanWithBothFamiliesSet | example/gpu-device.cc:231-250 | with both variables already set, only the first family scanned is considered before the loop breaks |
| GpuDevice.ZeroInitialisedScanPicksFamilyZero | example/gpu-device.cc:231-250 | starting from the zero-initialised variables, the scan always ends with family 0 |
| GpuDevice.ZeroInitialisedScanIgnoresCapability | example/gpu-device.cc:231-250 | a device whose only graphics family is family 1 still gets family 0 |
| GpuDevice.SelectPhysicalDevice | example/gpu-device.cc:206-252 | the device loop computes the selection fold over the devices |
| GpuDevice.SelectAmongPicksLastDiscrete | example/gpu-device.cc:206-252 | the selected device is the last discrete GPU, with that device's push-constant limit, and the graphics family is that device's family scan started from the family the earlier devices left; with no discrete GPU it is device 0, the limit stays 0 and the graphics family keeps its initial value |
| GpuDevice.ZeroInitialisedSelectionKeepsFamilyZero | example/gpu-device.cc:206-252 | from zero-initialised family variables, the graphics family is 0 after any device list |
| GpuDevice.FamilyMask | example/gpu-device.cc:256-258 | `uniqueQueueFamilyFinder` has one bit per requested family: bit i is set exactly when i is the graphics or the present family |
| GpuDevice.FamilyMaskPopCount | example/gpu-device.cc:256-259 | the unique-family count is 1 when the two families coincide and 2 otherwise |
| GpuDevice.CollectSetBits | example/gpu-device.cc:264-271 | the loop collects the ascending set-bit positions of the mask, stopping at bit 32 or once `count` are found |
| GpuDevice.SetBitsBelowOfPair | example/gpu-device.cc:256-271 | the set-bit positions of the family mask are exactly the distinct families, ascending |
| GpuDevice.PairBelowComplete | example/gpu-device.cc:264-271 | stopping once all set bits are found loses no family |
| GpuDevice.UniqueQueueFamilies | example/gpu-device.cc:256-271 | the unique family list is the distinct requested families in ascending order, and its length is the popcount of the family mask |
| GpuDevice.MakeQueueCreateInfos | example/gpu-device.cc:273-286 | each unique family gets one create-info with that family index and one queue |
| GpuDevice.MakeDevice | example/gpu-device.cc:170-324 | with no device the call is fatal; otherwise it returns the last discrete GPU (or device 0) with its push-constant limit, the scanned graphics family, the deduplicated families with one queue each, and the first supported depth format; apart from failing Vulkan calls, the only fatal paths are no device, a family outside 0..31 and no depth format |
| GpuDevice.Make | example/gpu-device.cc:528-541 | from the zero-initialised family variables the device always uses queue family 0 alone; it is the device the selection fold picks, with that device's push-constant limit and the first supported depth format; apart from failing Vulkan calls, the only fatal paths are no device, and no supported depth format on the selected device |
| GpuDevice.AccessFlagsForStage | example/gpu-device.cc:562-597 | the stage table succeeds exactly on its ten listed stages, always with a non-zero access mask, and is fatal with the offending stage otherwise |
| GpuDevice.AccessFlagsForStageEntries | example/gpu-device.cc:562-597 | transfer maps to TRANSFER_WRITE plus TRANSFER_READ; top-of-pipe and all-commands map alike; the compute and bottom-of-pipe stages are not listed |
| GpuDevice.MultiStageMaskIsFatal | example/gpu-device.cc:562-597 | a stage mask naming two or more stages is always fatal, because the switch compares whole masks |
| GpuDevice.AccessFlagsForLayout | example/gpu-device.cc:599-632 | the layout table succeeds exactly on its eight listed layouts and is fatal with the offending layout otherwise |
| GpuDevice.AccessFlagsForLayoutZeroOnlyForUndefinedAndPresent | example/gpu-device.cc:599-632 | only UNDEFINED and PRESENT_SRC need no access; the read-only depth-stencil and preinitialised layouts are not listed |
| GpuDevice.MakeImageBarrier | example/gpu-device.cc:634-658 | the masks come from the old and new layouts, the layouts and image are copied, and the range is always mip 0 and layer 0, one of each; fatal exactly when a layout is unlisted, reporting the old layout first |
| GpuDevice.ImageBarrierIgnoresCounts | example/gpu-device.cc:634-658 | the levelCount and layerCount arguments have no effect on the barrier |
| GpuDevice.MakeBufferBarrier | example/gpu-device.cc:660-677 | the masks come from the source and destination stages and the buffer, offset and size are copied; fatal exactly when a stage is unlisted |
| GpuDevice.SubmitInfoSingleWait | example/gpu-device.cc:734-753 | the submission waits on no semaphore when wait is null and on exactly that one otherwise, signals likewise, and carries exactly the one command buffer |
| GpuDevice.SubmitInfoMultiWait | example/gpu-device.cc:755-775 | the caller's wait count, semaphores and stages go through unchanged; it signals the one semaphore unless null, and carries exactly the one command buffer |
| GpuDevice.SubmitOverloadsAgree | example/gpu-device.cc:734-775 | with one non-null wait semaphore the two overloads build the same submission |
| GpuDevice.MakeDefaultDescriptorPool | example/gpu-device.cc:479-515 | the default pool lists the 11 core descriptor types once each in enum order, 100 descriptors each, with maxSets 1100 and the free-descriptor-set flag |
| GpuDevice.GetSemaphoreHandle | example/gpu-device.cc:1063-1081 | a type other than opaque-fd gives -1; otherwise the result is the driver's fd for this semaphore, asked for as opaque-fd |
| GpuDevice.GetMemoryHandle | example/gpu-device.cc:1083-1101 | a mask other than exactly the opaque-fd bit gives -1; otherwise the result is the driver's fd for this memory, asked for as opaque-fd |
| GpuDevice.MemoryHandleRefusesCombinedMask | example/gpu-device.cc:1083-1101 | a mask naming opaque-fd together with any other handle type is refused with -1 |

Names used above:

- The "recursive family scan" is `GpuDevice.ScanFamiliesFrom`.
- The "selection fold" is `GpuDevice.SelectAmong`.
- The "distinct families, ascending" is `GpuDevice.PairBelow`.

The lemmas beside each definition state what they mean.

## Left out

- The scan kernel and its decoupled look-back are not part of this model: the shader's source is not among these files.
- Every Vulkan call is represented only by the data it returns: creation of instances, devices, pools, buffers, images, pipelines and descriptor sets, plus memory mapping, queue submission, presentation and `waitIdle`. This includes the `vkQueueSubmit` of both `submitCommandBuffer` overloads, which submits the built info once on the graphics queue with the caller's fence.
- `PANIC_AND_EXIT`, `VK_CHECK`, the messages they print and the debug-messenger callback are not modelled; the fatal paths are `Fatal` results.
- Code under `#if 0` is not modelled: the swapchain functions and the present-support query. The model keeps the consequence that `presentFamily` is never assigned.
- The function-pointer globals, the `sType`/`pNext` tags and the float queue priority are not modelled.
- `GpuDevice.MakeDevice`: the push-constant limit is reported in the result. In the source it stays in a local of `makeDevice` and never reaches `Impl::maxPushConstantSize`.
- `GpuDevice.MakeDevice`: an empty device list makes the source index past the end of its device vector. A family outside 0..31 makes its `1 << family` undefined. The model reports both as errors, where the source has undefined behaviour.
- `GpuDevice.ScanQueueFamilies`: queue-family lists longer than 2^31 are excluded by type, because the source stores the index in an `int32`.
- `GpuDevice.FindDepthFormat`: the model tests the source's two tiling branches as one disjunction, `SupportsFeatures`.
- PrefixSum.Encode: the source lays the descriptor out in the host's byte order; the model fixes that order as little-endian.
- Helper.RoundUp: the template's `T` is modelled as an unbounded non-negative integer. The unsigned 32-bit instantiation, with its wrap-around, is `Helper.RoundUpU32`. Signed `T` (overflow near its maximum, and negative inputs, where truncating division gives e.g. `roundUp(-5, 4) == 0`) and types narrower than `int`, which C promotes, are not captured. `Helper.RoundUpOfMultiple` and `Helper.RoundUpIdempotent` hold for this unbounded model; `RoundUpU32` shows where the 32-bit version departs from it.
- `CappedArrays.CappedArray`: `malloc`/`free` and raw-pointer aliasing are not modelled. The storage is a Dafny array plus the owned flag. `Destroy` reports whether the buffer would be freed.
- `CappedArrays.CappedArray.constructor`: the source leaves every field indeterminate. The model starts empty, with no capacity and nothing owned.
- `CappedArrays.CappedArray.MoveAssign`: storage this array owned before is not released, as in the source. The model does not track the leak.
- The iterator's `operator*`, `operator->` and both `operator++` are not modelled. The first two name a member `mData` that does not exist, so they cannot be instantiated.
- `example/main.cc` is not modelled beyond `NUM_INPUTS`. It only drives device and buffer creation.
- `GpuDeviceLayout.MakeDescriptorSetLayout`: an empty argument pack is excluded, because it would declare a zero-length array.

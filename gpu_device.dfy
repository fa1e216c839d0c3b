/** The selection and mapping rules of the Vulkan device wrapper. Each Vulkan
    query the wrapper makes is an input here (a sequence of device, queue-family,
    memory-type or format properties); each structure it fills in before handing
    it to Vulkan is a result. */
module GpuDevice {
  import opened Types
  import Vk
  import Helper

  /** The paths on which the wrapper prints a message and exits the process. */
  datatype Error =
    | NoDepthFormat
    | NoMemoryType
    | UnhandledStage(stage: Flags)
    | UnhandledLayout(layout: u32)
    | NoPhysicalDevice
    | QueueFamilyOutOfRange(family: i32)

  // ---------------------------------------------------------------------------
  // findDepthFormat
  // ---------------------------------------------------------------------------

  /** `VkFormatProperties` */
  datatype FormatProperties = FormatProperties(
    linearTilingFeatures: Flags,
    optimalTilingFeatures: Flags,
    bufferFeatures: Flags)

  /** A format qualifies when, for the requested tiling, its features include
      every requested feature. Only linear and optimal tiling can qualify. */
  predicate SupportsFeatures(props: FormatProperties, tiling: u32, features: Flags) {
    || (tiling == Vk.IMAGE_TILING_LINEAR && props.linearTilingFeatures & features == features)
    || (tiling == Vk.IMAGE_TILING_OPTIMAL && props.optimalTilingFeatures & features == features)
  }

  /** `format` is the first of `formats` that qualifies. */
  predicate IsFirstSupportedFormat(
    formatProperties: u32 -> FormatProperties, formats: seq<u32>,
    tiling: u32, features: Flags, format: u32)
  {
    exists i :: 0 <= i < |formats| && formats[i] == format
      && SupportsFeatures(formatProperties(formats[i]), tiling, features)
      && forall j :: 0 <= j < i ==> !SupportsFeatures(formatProperties(formats[j]), tiling, features)
  }

  predicate NoSupportedFormat(
    formatProperties: u32 -> FormatProperties, formats: seq<u32>, tiling: u32, features: Flags)
  {
    forall i :: 0 <= i < |formats| ==> !SupportsFeatures(formatProperties(formats[i]), tiling, features)
  }

  lemma FirstSupportedAt(
    formatProperties: u32 -> FormatProperties, formats: seq<u32>,
    tiling: u32, features: Flags, i: nat)
    requires i < |formats| && SupportsFeatures(formatProperties(formats[i]), tiling, features)
    requires forall j :: 0 <= j < i ==> !SupportsFeatures(formatProperties(formats[j]), tiling, features)
    ensures IsFirstSupportedFormat(formatProperties, formats, tiling, features, formats[i])
  {
  }

  /** `findDepthFormat`: `formatProperties` answers `vkGetPhysicalDeviceFormatProperties`. */
  method FindDepthFormat(
    formatProperties: u32 -> FormatProperties, formats: seq<u32>,
    tiling: u32, features: Flags) returns (r: Result<u32, Error>)
    requires |formats| < U32_MODULUS
    ensures r.Ok? ==> IsFirstSupportedFormat(formatProperties, formats, tiling, features, r.value)
    ensures r.Fatal? ==> r.error == NoDepthFormat && NoSupportedFormat(formatProperties, formats, tiling, features)
    ensures tiling != Vk.IMAGE_TILING_LINEAR && tiling != Vk.IMAGE_TILING_OPTIMAL ==> r.Fatal?
  {
    var i := 0;
    while i < |formats|
      invariant 0 <= i <= |formats|
      invariant forall j :: 0 <= j < i ==> !SupportsFeatures(formatProperties(formats[j]), tiling, features)
    {
      var properties := formatProperties(formats[i]);
      if SupportsFeatures(properties, tiling, features) {
        FirstSupportedAt(formatProperties, formats, tiling, features, i);
        return Ok(formats[i]);
      }
      i := i + 1;
    }
    return Fatal(NoDepthFormat);
  }

  /** The depth formats `makeDevice` tries, in order. */
  const DEPTH_FORMAT_CANDIDATES: seq<u32> :=
    [Vk.FORMAT_D32_SFLOAT, Vk.FORMAT_D32_SFLOAT_S8_UINT, Vk.FORMAT_D24_UNORM_S8_UINT]

  // ---------------------------------------------------------------------------
  // findMemoryType
  // ---------------------------------------------------------------------------

  /** `VkMemoryType` */
  datatype MemoryType = MemoryType(propertyFlags: Flags, heapIndex: u32)

  /** `VkMemoryRequirements` */
  datatype MemoryRequirements = MemoryRequirements(size: u64, alignment: u64, memoryTypeBits: Flags)

  /** Memory type `i` is allowed by the resource and has every requested property. */
  predicate MemoryTypeSuitable(
    memoryTypes: seq<MemoryType>, i: nat, properties: Flags, requirements: MemoryRequirements)
    requires i < |memoryTypes| <= Vk.MAX_MEMORY_TYPES
  {
    requirements.memoryTypeBits & (1 << i) != 0
      && memoryTypes[i].propertyFlags & properties == properties
  }

  /** `findMemoryType`: `memoryTypes` is the first `memoryTypeCount` entries
      that `vkGetPhysicalDeviceMemoryProperties` reports. */
  method FindMemoryType(
    memoryTypes: seq<MemoryType>, properties: Flags, requirements: MemoryRequirements)
    returns (r: Result<u32, Error>)
    requires |memoryTypes| <= Vk.MAX_MEMORY_TYPES
    ensures r.Ok? ==>
      && r.value < |memoryTypes|
      && MemoryTypeSuitable(memoryTypes, r.value, properties, requirements)
      && forall j :: 0 <= j < r.value ==> !MemoryTypeSuitable(memoryTypes, j, properties, requirements)
    ensures r.Fatal? ==>
      && r.error == NoMemoryType
      && forall j :: 0 <= j < |memoryTypes| ==> !MemoryTypeSuitable(memoryTypes, j, properties, requirements)
  {
    var i := 0;
    while i < |memoryTypes|
      invariant 0 <= i <= |memoryTypes|
      invariant forall j :: 0 <= j < i ==> !MemoryTypeSuitable(memoryTypes, j, properties, requirements)
    {
      if MemoryTypeSuitable(memoryTypes, i, properties, requirements) {
        return Ok(i);
      }
      i := i + 1;
    }
    return Fatal(NoMemoryType);
  }

  // ---------------------------------------------------------------------------
  // makeDevice: physical-device and queue-family selection
  // ---------------------------------------------------------------------------

  /** `VkQueueFamilyProperties` (the fields the wrapper reads). */
  datatype QueueFamilyProperties = QueueFamilyProperties(queueFlags: Flags, queueCount: u32)

  /** A queue-family list whose indices fit in the `int32` family variables. */
  type QueueFamilyList = s: seq<QueueFamilyProperties> | |s| <= 0x8000_0000

  /** What the wrapper queries of one physical device. */
  datatype PhysicalDevice = PhysicalDevice(
    deviceType: u32,
    maxPushConstantsSize: u32,
    queueFamilies: QueueFamilyList,
    formatProperties: u32 -> FormatProperties)

  predicate IsDiscrete(device: PhysicalDevice) {
    device.deviceType == Vk.PHYSICAL_DEVICE_TYPE_DISCRETE_GPU
  }

  predicate GraphicsCapable(family: QueueFamilyProperties) {
    family.queueFlags & Vk.QUEUE_GRAPHICS_BIT != 0 && family.queueCount > 0
  }

  /** The family loop of `makeDevice` from family `f` on, with the current value
      `graphicsFamily` of the in-out variable: a graphics-capable family is
      recorded, and the loop stops once both family variables are non-negative. */
  function ScanFamiliesFrom(
    families: QueueFamilyList, f: nat, graphicsFamily: i32, presentFamily: i32): i32
    requires f <= |families|
    decreases |families| - f
  {
    if f == |families| then graphicsFamily
    else
      var g := if GraphicsCapable(families[f]) then f as i32 else graphicsFamily;
      if presentFamily >= 0 && g >= 0 then g
      else ScanFamiliesFrom(families, f + 1, g, presentFamily)
  }

  /** With no present family yet the loop never stops early: the last
      graphics-capable family wins, or the variable keeps its value. */
  lemma {:induction false} ScanWithoutPresentFamily(
    families: QueueFamilyList, f: nat, graphicsFamily: i32, presentFamily: i32)
    requires f <= |families| && presentFamily < 0
    ensures var r := ScanFamiliesFrom(families, f, graphicsFamily, presentFamily);
      || (r == graphicsFamily && forall j :: f <= j < |families| ==> !GraphicsCapable(families[j]))
      || (f <= r < |families| && GraphicsCapable(families[r])
          && forall j :: r < j < |families| ==> !GraphicsCapable(families[j]))
    decreases |families| - f
  {
    if f < |families| {
      var g := if GraphicsCapable(families[f]) then f as i32 else graphicsFamily;
      ScanWithoutPresentFamily(families, f + 1, g, presentFamily);
    }
  }

  /** With a present family and no graphics family yet, the loop stops at the
      first graphics-capable family, or leaves the variable unchanged. */
  lemma {:induction false} ScanSeekingGraphicsFamily(
    families: QueueFamilyList, f: nat, graphicsFamily: i32, presentFamily: i32)
    requires f <= |families| && presentFamily >= 0 && graphicsFamily < 0
    ensures var r := ScanFamiliesFrom(families, f, graphicsFamily, presentFamily);
      || (r == graphicsFamily && forall j :: f <= j < |families| ==> !GraphicsCapable(families[j]))
      || (f <= r < |families| && GraphicsCapable(families[r])
          && forall j :: f <= j < r ==> !GraphicsCapable(families[j]))
    decreases |families| - f
  {
    if f < |families| && !GraphicsCapable(families[f]) {
      ScanSeekingGraphicsFamily(families, f + 1, graphicsFamily, presentFamily);
    }
  }

  /** With both variables already non-negative the loop looks at family `f`
      only: it is taken if graphics-capable, otherwise the old value stays. */
  lemma ScanWithBothFamiliesSet(
    families: QueueFamilyList, f: nat, graphicsFamily: i32, presentFamily: i32)
    requires f < |families| && presentFamily >= 0 && graphicsFamily >= 0
    ensures ScanFamiliesFrom(families, f, graphicsFamily, presentFamily)
      == if GraphicsCapable(families[f]) then f else graphicsFamily
  {
  }

  /** `GPUDevice::make` passes the members of a value-initialised `Impl`, so both
      family variables start at 0 and the loop always ends with family 0. */
  lemma ZeroInitialisedScanPicksFamilyZero(families: QueueFamilyList)
    ensures ScanFamiliesFrom(families, 0, 0, 0) == 0
  {
    if |families| > 0 {
      ScanWithBothFamiliesSet(families, 0, 0, 0);
    }
  }

  /** So a device whose only graphics family is family 1 still gets family 0. */
  lemma ZeroInitialisedScanIgnoresCapability()
    ensures var families := [QueueFamilyProperties(0, 1), QueueFamilyProperties(Vk.QUEUE_GRAPHICS_BIT, 1)];
      !GraphicsCapable(families[0]) && GraphicsCapable(families[1])
      && ScanFamiliesFrom(families, 0, 0, 0) == 0
  {
    var families: QueueFamilyList := [QueueFamilyProperties(0, 1), QueueFamilyProperties(Vk.QUEUE_GRAPHICS_BIT, 1)];
    ZeroInitialisedScanPicksFamilyZero(families);
  }

  /** The inner family loop of `makeDevice`. */
  method ScanQueueFamilies(families: QueueFamilyList, graphicsFamily: i32, presentFamily: i32)
    returns (g: i32)
    ensures g == ScanFamiliesFrom(families, 0, graphicsFamily, presentFamily)
  {
    g := graphicsFamily;
    var f := 0;
    while f < |families|
      invariant 0 <= f <= |families|
      invariant ScanFamiliesFrom(families, f, g, presentFamily)
        == ScanFamiliesFrom(families, 0, graphicsFamily, presentFamily)
    {
      if GraphicsCapable(families[f]) {
        g := f as i32;
      }
      if presentFamily >= 0 && g >= 0 {
        break;
      }
      f := f + 1;
    }
  }

  /** The three variables the device loop overwrites. */
  datatype Selection = Selection(selected: nat, maxPushConstantSize: u32, graphicsFamily: i32)

  /** The device loop of `makeDevice` after the first `n` devices: each discrete
      GPU overwrites the selection, its push-constant limit and, through the
      family loop, the graphics family. */
  function SelectAmong(devices: seq<PhysicalDevice>, n: nat, graphicsFamily: i32, presentFamily: i32): Selection
    requires n <= |devices|
  {
    if n == 0 then Selection(0, 0, graphicsFamily)
    else
      var s := SelectAmong(devices, n - 1, graphicsFamily, presentFamily);
      var d := devices[n - 1];
      if IsDiscrete(d) then
        Selection(n - 1, d.maxPushConstantsSize,
                  ScanFamiliesFrom(d.queueFamilies, 0, s.graphicsFamily, presentFamily))
      else s
  }

  /** The selected device is the last discrete GPU, with that device's push-constant
      limit, and the graphics family is what that device's family loop makes of the
      family left by the earlier devices; if there is none it is device 0, the limit
      stays 0 and the graphics family keeps its initial value. */
  lemma {:induction false} SelectAmongPicksLastDiscrete(
    devices: seq<PhysicalDevice>, n: nat, graphicsFamily: i32, presentFamily: i32)
    requires n <= |devices|
    ensures var s := SelectAmong(devices, n, graphicsFamily, presentFamily);
      || (s.selected < n && IsDiscrete(devices[s.selected])
          && s.maxPushConstantSize == devices[s.selected].maxPushConstantsSize
          && (forall j :: s.selected < j < n ==> !IsDiscrete(devices[j]))
          && s.graphicsFamily == ScanFamiliesFrom(devices[s.selected].queueFamilies, 0,
               SelectAmong(devices, s.selected, graphicsFamily, presentFamily).graphicsFamily, presentFamily))
      || (s.selected == 0 && s.maxPushConstantSize == 0 && s.graphicsFamily == graphicsFamily
          && forall j :: 0 <= j < n ==> !IsDiscrete(devices[j]))
  {
    if n > 0 {
      SelectAmongPicksLastDiscrete(devices, n - 1, graphicsFamily, presentFamily);
    }
  }

  /** With the zero-initialised family variables, the graphics family is 0
      after any sequence of devices. */
  lemma {:induction false} ZeroInitialisedSelectionKeepsFamilyZero(devices: seq<PhysicalDevice>, n: nat)
    requires n <= |devices|
    ensures SelectAmong(devices, n, 0, 0).graphicsFamily == 0
  {
    if n > 0 {
      ZeroInitialisedSelectionKeepsFamilyZero(devices, n - 1);
      ZeroInitialisedScanPicksFamilyZero(devices[n - 1].queueFamilies);
    }
  }

  /** The mask `uniqueQueueFamilyFinder`: one bit per requested family. */
  function FamilyMask(graphicsFamily: nat, presentFamily: nat): (m: bv32)
    requires graphicsFamily < 32 && presentFamily < 32
    ensures forall i :: 0 <= i < 32 ==>
      (Helper.BitSet(m, i) <==> (i == graphicsFamily || i == presentFamily))
  {
    var m: bv32 := (0 | (1 << graphicsFamily)) | (1 << presentFamily);
    Helper.PairBitsEverywhere(graphicsFamily, presentFamily, m);
    m
  }

  lemma FamilyMaskPopCount(g: nat, p: nat)
    requires g < 32 && p < 32
    ensures Helper.PopCount(FamilyMask(g, p)) == if g == p then 1 else 2
  {
    assert FamilyMask(g, p) == (1 << g) | (1 << p);
    Helper.PopCountOfPair(g, p);
  }

  /** The positions below `n` of the set bits of `mask`, ascending. */
  function SetBitsBelow(mask: bv32, n: nat): seq<u32>
    requires n <= 32
  {
    if n == 0 then [] else SetBitsBelow(mask, n - 1) + (if Helper.BitSet(mask, n - 1) then [n - 1] else [])
  }

  /** The distinct values among `g` and `p` below `n`, ascending. */
  function PairBelow(g: nat, p: nat, n: nat): seq<u32>
    requires g < 32 && p < 32
  {
    var lo, hi := if g <= p then g else p, if g <= p then p else g;
    (if lo < n then [lo] else []) + (if hi < n && hi != lo then [hi] else [])
  }

  /** Extending the bound by one adds `n - 1` exactly when it is one of the families. */
  lemma PairBelowStep(g: nat, p: nat, n: nat)
    requires g < 32 && p < 32 && 0 < n <= 32
    ensures PairBelow(g, p, n) == PairBelow(g, p, n - 1) + (if n - 1 == g || n - 1 == p then [n - 1] else [])
  {
  }

  lemma {:induction false} SetBitsBelowOfPair(g: nat, p: nat, n: nat)
    requires g < 32 && p < 32 && n <= 32
    ensures SetBitsBelow(FamilyMask(g, p), n) == PairBelow(g, p, n)
  {
    if n > 0 {
      SetBitsBelowOfPair(g, p, n - 1);
      PairBelowStep(g, p, n);
      assert Helper.BitSet(FamilyMask(g, p), n - 1) <==> (n - 1 == g || n - 1 == p);
    }
  }

  /** Once the prefix holds as many families as there are, it holds them all. */
  lemma PairBelowComplete(g: nat, p: nat, n: nat)
    requires g < 32 && p < 32 && n <= 32
    requires n == 32 || |PairBelow(g, p, n)| == if g == p then 1 else 2
    ensures PairBelow(g, p, n) == PairBelow(g, p, 32)
    ensures PairBelow(g, p, 32) == if g == p then [g] else if g < p then [g, p] else [p, g]
  {
  }

  /** The `set_bits` loop of `makeDevice`: it walks the bits of `mask` upwards,
      collecting the set positions, until bit 32 or until `count` are found. */
  method CollectSetBits(mask: bv32, count: u32) returns (indices: seq<u32>, bit: nat)
    ensures bit <= 32 && indices == SetBitsBelow(mask, bit)
    ensures bit == 32 || |indices| == count
  {
    indices := [];
    var b: nat, setBits := 0, 0;
    while b < 32 && setBits < count
      invariant 0 <= b <= 32
      invariant indices == SetBitsBelow(mask, b)
      invariant setBits == |indices| <= count
    {
      if Helper.BitSet(mask, b) {
        indices := indices + [b];
        setBits := setBits + 1;
      }
      b := b + 1;
    }
    bit := b;
  }

  /** The unique-family step of `makeDevice`: the distinct requested families,
      ascending, one per set bit of the family mask. */
  method UniqueQueueFamilies(graphicsFamily: i32, presentFamily: i32) returns (indices: seq<u32>)
    requires 0 <= graphicsFamily < 32 && 0 <= presentFamily < 32
    ensures |indices| == Helper.PopCount(FamilyMask(graphicsFamily, presentFamily))
    ensures indices == if graphicsFamily == presentFamily then [graphicsFamily]
                       else if graphicsFamily < presentFamily then [graphicsFamily, presentFamily]
                       else [presentFamily, graphicsFamily]
  {
    var mask := FamilyMask(graphicsFamily, presentFamily);
    var count := Helper.PopCount(mask);
    FamilyMaskPopCount(graphicsFamily, presentFamily);
    var bit;
    indices, bit := CollectSetBits(mask, count);
    SetBitsBelowOfPair(graphicsFamily, presentFamily, bit);
    PairBelowComplete(graphicsFamily, presentFamily, bit);
  }

  /** `VkDeviceQueueCreateInfo` (the queue priority, a float, is not modelled). */
  datatype DeviceQueueCreateInfo = DeviceQueueCreateInfo(queueFamilyIndex: u32, queueCount: u32)

  /** One create-info per unique family, each asking for one queue. */
  method MakeQueueCreateInfos(indices: seq<u32>) returns (infos: seq<DeviceQueueCreateInfo>)
    ensures |infos| == |indices|
    ensures forall i :: 0 <= i < |infos| ==>
      infos[i].queueFamilyIndex == indices[i] && infos[i].queueCount == 1
  {
    var a := new DeviceQueueCreateInfo[|indices|];
    for i := 0 to |indices|
      invariant forall k :: 0 <= k < i ==>
        a[k].queueFamilyIndex == indices[k] && a[k].queueCount == 1
    {
      a[i] := DeviceQueueCreateInfo(indices[i], 1);
    }
    infos := a[..];
  }

  /** The device loop of `makeDevice`. */
  method SelectPhysicalDevice(devices: seq<PhysicalDevice>, graphicsFamily: i32, presentFamily: i32)
    returns (s: Selection)
    ensures s == SelectAmong(devices, |devices|, graphicsFamily, presentFamily)
  {
    var selected: nat := 0;
    var maxPushConstantSize: u32 := 0;
    var g := graphicsFamily;
    for i := 0 to |devices|
      invariant Selection(selected, maxPushConstantSize, g) == SelectAmong(devices, i, graphicsFamily, presentFamily)
    {
      if IsDiscrete(devices[i]) {
        selected := i;
        maxPushConstantSize := devices[i].maxPushConstantsSize;
        g := ScanQueueFamilies(devices[i].queueFamilies, g, presentFamily);
      }
    }
    s := Selection(selected, maxPushConstantSize, g);
  }

  /** What `makeDevice` determines besides the Vulkan objects it creates. */
  datatype DeviceSetup = DeviceSetup(
    physicalDevice: nat,
    maxPushConstantSize: u32,
    graphicsFamily: i32,
    presentFamily: i32,
    queueFamilyIndices: seq<u32>,
    queueCreateInfos: seq<DeviceQueueCreateInfo>,
    depthFormat: u32)

  /** The selection logic of `makeDevice`. `devices` is what
      `vkEnumeratePhysicalDevices` and the property queries report;
      `graphicsFamily` and `presentFamily` are the in-out family variables on
      entry. With no device at all the source indexes past the end of its device
      list, and a family outside 0..31 makes its `1 << family` undefined: both
      are reported as errors here. */
  method MakeDevice(devices: seq<PhysicalDevice>, graphicsFamily: i32, presentFamily: i32)
    returns (r: Result<DeviceSetup, Error>)
    ensures |devices| == 0 <==> r == Fatal(NoPhysicalDevice)
    ensures r.Ok? ==>
      var s := SelectAmong(devices, |devices|, graphicsFamily, presentFamily);
      && r.value.physicalDevice == s.selected < |devices|
      && r.value.maxPushConstantSize == s.maxPushConstantSize
      && r.value.graphicsFamily == s.graphicsFamily
      && r.value.presentFamily == presentFamily
      && 0 <= s.graphicsFamily < 32 && 0 <= presentFamily < 32
      && r.value.queueFamilyIndices
           == (if s.graphicsFamily == presentFamily then [s.graphicsFamily as u32]
               else if s.graphicsFamily < presentFamily then [s.graphicsFamily as u32, presentFamily as u32]
               else [presentFamily as u32, s.graphicsFamily as u32])
      && |r.value.queueCreateInfos| == |r.value.queueFamilyIndices|
      && (forall i :: 0 <= i < |r.value.queueCreateInfos| ==>
            r.value.queueCreateInfos[i] == DeviceQueueCreateInfo(r.value.queueFamilyIndices[i], 1))
      && IsFirstSupportedFormat(devices[s.selected].formatProperties, DEPTH_FORMAT_CANDIDATES,
           Vk.IMAGE_TILING_OPTIMAL, Vk.FORMAT_FEATURE_DEPTH_STENCIL_ATTACHMENT_BIT, r.value.depthFormat)
    ensures r.Fatal? && |devices| > 0 ==>
      var s := SelectAmong(devices, |devices|, graphicsFamily, presentFamily);
      && s.selected < |devices|
      && (|| (r.error == QueueFamilyOutOfRange(s.graphicsFamily) && !(0 <= s.graphicsFamily < 32))
          || (r.error == QueueFamilyOutOfRange(presentFamily) && !(0 <= presentFamily < 32))
          || (r.error == NoDepthFormat && 0 <= s.graphicsFamily < 32 && 0 <= presentFamily < 32
              && NoSupportedFormat(devices[s.selected].formatProperties, DEPTH_FORMAT_CANDIDATES,
                   Vk.IMAGE_TILING_OPTIMAL, Vk.FORMAT_FEATURE_DEPTH_STENCIL_ATTACHMENT_BIT)))
  {
    var s := SelectPhysicalDevice(devices, graphicsFamily, presentFamily);
    var selected, maxPushConstantSize, g := s.selected, s.maxPushConstantSize, s.graphicsFamily;
    if |devices| == 0 {
      return Fatal(NoPhysicalDevice);
    }
    SelectAmongPicksLastDiscrete(devices, |devices|, graphicsFamily, presentFamily);
    if !(0 <= g < 32) {
      return Fatal(QueueFamilyOutOfRange(g));
    }
    if !(0 <= presentFamily < 32) {
      return Fatal(QueueFamilyOutOfRange(presentFamily));
    }
    var indices := UniqueQueueFamilies(g, presentFamily);
    var infos := MakeQueueCreateInfos(indices);
    var depth := FindDepthFormat(devices[selected].formatProperties, DEPTH_FORMAT_CANDIDATES,
                                 Vk.IMAGE_TILING_OPTIMAL, Vk.FORMAT_FEATURE_DEPTH_STENCIL_ATTACHMENT_BIT);
    if depth.Fatal? {
      return Fatal(depth.error);
    }
    return Ok(DeviceSetup(selected, maxPushConstantSize, g, presentFamily, indices, infos, depth.value));
  }

  /** `GPUDevice::make` hands `makeDevice` the members of a freshly value-initialised
      `Impl`, so both family variables are 0 on entry: the device then always uses
      queue family 0 alone, and the family range errors cannot occur. The device
      is the one the selection fold picks, and the only other failure is a
      selected device with no supported depth format. */
  method Make(devices: seq<PhysicalDevice>) returns (r: Result<DeviceSetup, Error>)
    ensures |devices| == 0 <==> r == Fatal(NoPhysicalDevice)
    ensures |devices| > 0 && r.Fatal? ==>
      var s := SelectAmong(devices, |devices|, 0, 0);
      && r.error == NoDepthFormat && s.selected < |devices|
      && NoSupportedFormat(devices[s.selected].formatProperties, DEPTH_FORMAT_CANDIDATES,
           Vk.IMAGE_TILING_OPTIMAL, Vk.FORMAT_FEATURE_DEPTH_STENCIL_ATTACHMENT_BIT)
    ensures r.Ok? ==>
      var s := SelectAmong(devices, |devices|, 0, 0);
      && r.value.physicalDevice == s.selected < |devices|
      && r.value.maxPushConstantSize == s.maxPushConstantSize
      && IsFirstSupportedFormat(devices[s.selected].formatProperties, DEPTH_FORMAT_CANDIDATES,
           Vk.IMAGE_TILING_OPTIMAL, Vk.FORMAT_FEATURE_DEPTH_STENCIL_ATTACHMENT_BIT, r.value.depthFormat)
      && r.value.graphicsFamily == 0 && r.value.presentFamily == 0
      && r.value.queueFamilyIndices == [0]
      && r.value.queueCreateInfos == [DeviceQueueCreateInfo(0, 1)]
  {
    r := MakeDevice(devices, 0, 0);
    if |devices| > 0 {
      ZeroInitialisedSelectionKeepsFamilyZero(devices, |devices|);
    }
  }

  // ---------------------------------------------------------------------------
  // findAccessFlagsFor
  // ---------------------------------------------------------------------------

  /** The pipeline stages the stage table lists. */
  const HANDLED_STAGES: set<Flags> := {
    Vk.PIPELINE_STAGE_COLOR_ATTACHMENT_OUTPUT_BIT,
    Vk.PIPELINE_STAGE_EARLY_FRAGMENT_TESTS_BIT, Vk.PIPELINE_STAGE_LATE_FRAGMENT_TESTS_BIT,
    Vk.PIPELINE_STAGE_TOP_OF_PIPE_BIT,
    Vk.PIPELINE_STAGE_VERTEX_INPUT_BIT,
    Vk.PIPELINE_STAGE_VERTEX_SHADER_BIT, Vk.PIPELINE_STAGE_GEOMETRY_SHADER_BIT,
    Vk.PIPELINE_STAGE_FRAGMENT_SHADER_BIT,
    Vk.PIPELINE_STAGE_TRANSFER_BIT,
    Vk.PIPELINE_STAGE_ALL_COMMANDS_BIT }

  /** `findAccessFlagsFor(VkPipelineStageFlags)`: the switch compares the whole mask. */
  function AccessFlagsForStage(stage: Flags): (r: Result<Flags, Error>)
    ensures r.Ok? <==> stage in HANDLED_STAGES
    ensures r.Ok? ==> r.value != 0
    ensures r.Fatal? ==> r.error == UnhandledStage(stage)
  {
    if stage == Vk.PIPELINE_STAGE_COLOR_ATTACHMENT_OUTPUT_BIT then
      Ok(Vk.ACCESS_MEMORY_WRITE_BIT)
    else if stage == Vk.PIPELINE_STAGE_EARLY_FRAGMENT_TESTS_BIT
         || stage == Vk.PIPELINE_STAGE_LATE_FRAGMENT_TESTS_BIT then
      Ok(Vk.ACCESS_MEMORY_WRITE_BIT | Vk.ACCESS_MEMORY_READ_BIT)
    else if stage == Vk.PIPELINE_STAGE_TOP_OF_PIPE_BIT then
      Ok(Vk.ACCESS_MEMORY_READ_BIT | Vk.ACCESS_MEMORY_WRITE_BIT)
    else if stage == Vk.PIPELINE_STAGE_VERTEX_INPUT_BIT then
      Ok(Vk.ACCESS_VERTEX_ATTRIBUTE_READ_BIT)
    else if stage == Vk.PIPELINE_STAGE_VERTEX_SHADER_BIT
         || stage == Vk.PIPELINE_STAGE_GEOMETRY_SHADER_BIT
         || stage == Vk.PIPELINE_STAGE_FRAGMENT_SHADER_BIT then
      Ok(Vk.ACCESS_UNIFORM_READ_BIT)
    else if stage == Vk.PIPELINE_STAGE_TRANSFER_BIT then
      Ok(Vk.ACCESS_TRANSFER_WRITE_BIT | Vk.ACCESS_TRANSFER_READ_BIT)
    else if stage == Vk.PIPELINE_STAGE_ALL_COMMANDS_BIT then
      Ok(Vk.ACCESS_MEMORY_WRITE_BIT | Vk.ACCESS_MEMORY_READ_BIT)
    else
      Fatal(UnhandledStage(stage))
  }

  /** A few entries of the stage table. */
  lemma AccessFlagsForStageEntries()
    ensures AccessFlagsForStage(Vk.PIPELINE_STAGE_TRANSFER_BIT)
      == Ok(Vk.ACCESS_TRANSFER_WRITE_BIT | Vk.ACCESS_TRANSFER_READ_BIT)
    ensures AccessFlagsForStage(Vk.PIPELINE_STAGE_TOP_OF_PIPE_BIT)
      == AccessFlagsForStage(Vk.PIPELINE_STAGE_ALL_COMMANDS_BIT)
    ensures AccessFlagsForStage(Vk.PIPELINE_STAGE_COMPUTE_SHADER_BIT).Fatal?
    ensures AccessFlagsForStage(Vk.PIPELINE_STAGE_BOTTOM_OF_PIPE_BIT).Fatal?
  {
  }

  /** Every listed stage is a single bit, so a mask naming two or more stages is fatal. */
  lemma MultiStageMaskIsFatal(stage: Flags)
    requires stage & (stage - 1) != 0
    ensures AccessFlagsForStage(stage) == Fatal(UnhandledStage(stage))
  {
  }

  /** The image layouts the layout table lists. */
  const HANDLED_LAYOUTS: set<u32> := {
    Vk.IMAGE_LAYOUT_UNDEFINED, Vk.IMAGE_LAYOUT_PRESENT_SRC_KHR,
    Vk.IMAGE_LAYOUT_TRANSFER_DST_OPTIMAL,
    Vk.IMAGE_LAYOUT_GENERAL,
    Vk.IMAGE_LAYOUT_TRANSFER_SRC_OPTIMAL,
    Vk.IMAGE_LAYOUT_SHADER_READ_ONLY_OPTIMAL,
    Vk.IMAGE_LAYOUT_DEPTH_STENCIL_ATTACHMENT_OPTIMAL,
    Vk.IMAGE_LAYOUT_COLOR_ATTACHMENT_OPTIMAL }

  /** `findAccessFlagsFor(VkImageLayout)` */
  function AccessFlagsForLayout(layout: u32): (r: Result<Flags, Error>)
    ensures r.Ok? <==> layout in HANDLED_LAYOUTS
    ensures r.Fatal? ==> r.error == UnhandledLayout(layout)
  {
    if layout == Vk.IMAGE_LAYOUT_UNDEFINED || layout == Vk.IMAGE_LAYOUT_PRESENT_SRC_KHR then
      Ok(0)
    else if layout == Vk.IMAGE_LAYOUT_TRANSFER_DST_OPTIMAL then
      Ok(Vk.ACCESS_TRANSFER_WRITE_BIT | Vk.ACCESS_TRANSFER_READ_BIT)
    else if layout == Vk.IMAGE_LAYOUT_GENERAL then
      Ok(Vk.ACCESS_MEMORY_WRITE_BIT | Vk.ACCESS_MEMORY_READ_BIT)
    else if layout == Vk.IMAGE_LAYOUT_TRANSFER_SRC_OPTIMAL then
      Ok(Vk.ACCESS_TRANSFER_WRITE_BIT)
    else if layout == Vk.IMAGE_LAYOUT_SHADER_READ_ONLY_OPTIMAL then
      Ok(Vk.ACCESS_SHADER_READ_BIT)
    else if layout == Vk.IMAGE_LAYOUT_DEPTH_STENCIL_ATTACHMENT_OPTIMAL then
      Ok(Vk.ACCESS_DEPTH_STENCIL_ATTACHMENT_READ_BIT | Vk.ACCESS_DEPTH_STENCIL_ATTACHMENT_WRITE_BIT)
    else if layout == Vk.IMAGE_LAYOUT_COLOR_ATTACHMENT_OPTIMAL then
      Ok(Vk.ACCESS_COLOR_ATTACHMENT_WRITE_BIT)
    else
      Fatal(UnhandledLayout(layout))
  }

  /** UNDEFINED and PRESENT_SRC are the only layouts that need no access; the
      read-only depth-stencil and preinitialised layouts are not listed at all. */
  lemma AccessFlagsForLayoutZeroOnlyForUndefinedAndPresent(layout: u32)
    ensures AccessFlagsForLayout(layout) == Ok(0)
      <==> layout == Vk.IMAGE_LAYOUT_UNDEFINED || layout == Vk.IMAGE_LAYOUT_PRESENT_SRC_KHR
    ensures AccessFlagsForLayout(Vk.IMAGE_LAYOUT_DEPTH_STENCIL_READ_ONLY_OPTIMAL).Fatal?
    ensures AccessFlagsForLayout(Vk.IMAGE_LAYOUT_PREINITIALIZED).Fatal?
  {
  }

  // ---------------------------------------------------------------------------
  // makeBarrier
  // ---------------------------------------------------------------------------

  /** `VkImageSubresourceRange` */
  datatype ImageSubresourceRange = ImageSubresourceRange(
    aspectMask: Flags, baseMipLevel: u32, levelCount: u32, baseArrayLayer: u32, layerCount: u32)

  /** `VkImageMemoryBarrier`; the queue-family indices are left zero by the
      designated initialiser. */
  datatype ImageMemoryBarrier = ImageMemoryBarrier(
    srcAccessMask: Flags, dstAccessMask: Flags,
    oldLayout: u32, newLayout: u32,
    srcQueueFamilyIndex: u32, dstQueueFamilyIndex: u32,
    image: Handle, subresourceRange: ImageSubresourceRange)

  /** `makeBarrier(VkImage, ...)`. The masks come from the layout table, source
      layout first; the range covers mip level 0 and array layer 0 only. */
  function MakeImageBarrier(
    image: Handle, aspect: Flags, oldLayout: u32, newLayout: u32,
    levelCount: u32, layerCount: u32): (r: Result<ImageMemoryBarrier, Error>)
    ensures r.Ok? <==> oldLayout in HANDLED_LAYOUTS && newLayout in HANDLED_LAYOUTS
    ensures r.Ok? ==>
      && Ok(r.value.srcAccessMask) == AccessFlagsForLayout(oldLayout)
      && Ok(r.value.dstAccessMask) == AccessFlagsForLayout(newLayout)
      && r.value.oldLayout == oldLayout && r.value.newLayout == newLayout
      && r.value.image == image
      && r.value.subresourceRange == ImageSubresourceRange(aspect, 0, 1, 0, 1)
    ensures r.Fatal? ==> r.error == (if oldLayout !in HANDLED_LAYOUTS then UnhandledLayout(oldLayout)
                                     else UnhandledLayout(newLayout))
  {
    var range := ImageSubresourceRange(aspect, 0, 1, 0, 1);
    var src := AccessFlagsForLayout(oldLayout);
    if src.Fatal? then Fatal(src.error)
    else
      var dst := AccessFlagsForLayout(newLayout);
      if dst.Fatal? then Fatal(dst.error)
      else Ok(ImageMemoryBarrier(src.value, dst.value, oldLayout, newLayout, 0, 0, image, range))
  }

  /** The level and layer counts passed in have no effect on the barrier. */
  lemma ImageBarrierIgnoresCounts(
    image: Handle, aspect: Flags, oldLayout: u32, newLayout: u32,
    levelCount: u32, layerCount: u32, levelCount': u32, layerCount': u32)
    ensures MakeImageBarrier(image, aspect, oldLayout, newLayout, levelCount, layerCount)
         == MakeImageBarrier(image, aspect, oldLayout, newLayout, levelCount', layerCount')
  {
  }

  /** `VkBufferMemoryBarrier` */
  datatype BufferMemoryBarrier = BufferMemoryBarrier(
    srcAccessMask: Flags, dstAccessMask: Flags,
    srcQueueFamilyIndex: u32, dstQueueFamilyIndex: u32,
    buffer: Handle, offset: u64, size: u64)

  /** `makeBarrier(VkBuffer, ...)`: masks from the stage table, offset and size copied. */
  function MakeBufferBarrier(
    buffer: Handle, offset: u32, size: u32, src: Flags, dst: Flags): (r: Result<BufferMemoryBarrier, Error>)
    ensures r.Ok? <==> src in HANDLED_STAGES && dst in HANDLED_STAGES
    ensures r.Ok? ==>
      && Ok(r.value.srcAccessMask) == AccessFlagsForStage(src)
      && Ok(r.value.dstAccessMask) == AccessFlagsForStage(dst)
      && r.value.buffer == buffer && r.value.offset == offset && r.value.size == size
    ensures r.Fatal? ==> r.error == (if src !in HANDLED_STAGES then UnhandledStage(src)
                                     else UnhandledStage(dst))
  {
    var srcMask := AccessFlagsForStage(src);
    if srcMask.Fatal? then Fatal(srcMask.error)
    else
      var dstMask := AccessFlagsForStage(dst);
      if dstMask.Fatal? then Fatal(dstMask.error)
      else Ok(BufferMemoryBarrier(srcMask.value, dstMask.value, 0, 0, buffer, offset, size))
  }

  // ---------------------------------------------------------------------------
  // submitCommandBuffer
  // ---------------------------------------------------------------------------

  /** `VkSubmitInfo`; each pointer field is the array it points to. */
  datatype SubmitInfo = SubmitInfo(
    waitSemaphoreCount: u32,
    waitSemaphores: seq<Handle>,
    waitDstStageMask: seq<Flags>,
    commandBufferCount: u32,
    commandBuffers: seq<Handle>,
    signalSemaphoreCount: u32,
    signalSemaphores: seq<Handle>)

  /** The semaphores a submission actually waits on / signals: the first
      `count` entries of the pointed-to arrays. */
  function WaitedSemaphores(info: SubmitInfo): seq<Handle>
    requires info.waitSemaphoreCount <= |info.waitSemaphores|
  {
    info.waitSemaphores[..info.waitSemaphoreCount]
  }

  function SignalledSemaphores(info: SubmitInfo): seq<Handle>
    requires info.signalSemaphoreCount <= |info.signalSemaphores|
  {
    info.signalSemaphores[..info.signalSemaphoreCount]
  }

  /** The submit info of the single-wait `submitCommandBuffer`: a null semaphore
      handle means "no semaphore". */
  function SubmitInfoSingleWait(cmdbuf: Handle, wait: Handle, signal: Handle, waitStage: Flags): (info: SubmitInfo)
    ensures info.waitSemaphoreCount == 0 <==> wait == NULL_HANDLE
    ensures info.signalSemaphoreCount == 0 <==> signal == NULL_HANDLE
    ensures info.commandBufferCount == 1 && info.commandBuffers == [cmdbuf]
    ensures info.waitSemaphoreCount <= |info.waitSemaphores|
    ensures WaitedSemaphores(info) == if wait == NULL_HANDLE then [] else [wait]
    ensures info.signalSemaphoreCount <= |info.signalSemaphores|
    ensures SignalledSemaphores(info) == if signal == NULL_HANDLE then [] else [signal]
    ensures info.waitDstStageMask == [waitStage]
  {
    SubmitInfo(
      if wait == NULL_HANDLE then 0 else 1, [wait], [waitStage],
      1, [cmdbuf],
      if signal == NULL_HANDLE then 0 else 1, [signal])
  }

  /** The submit info of the multi-wait `submitCommandBuffer`: the caller's
      wait count and arrays go through unchanged. */
  function SubmitInfoMultiWait(
    cmdbuf: Handle, waitCount: u32, wait: seq<Handle>, signal: Handle, waitStage: seq<Flags>): (info: SubmitInfo)
    ensures info.waitSemaphoreCount == waitCount && info.waitSemaphores == wait
    ensures info.waitDstStageMask == waitStage
    ensures info.commandBufferCount == 1 && info.commandBuffers == [cmdbuf]
    ensures info.signalSemaphoreCount == 0 <==> signal == NULL_HANDLE
    ensures info.signalSemaphoreCount <= |info.signalSemaphores|
    ensures SignalledSemaphores(info) == if signal == NULL_HANDLE then [] else [signal]
  {
    SubmitInfo(waitCount, wait, waitStage, 1, [cmdbuf], if signal == NULL_HANDLE then 0 else 1, [signal])
  }

  /** With one semaphore to wait on, both overloads describe the same submission. */
  lemma SubmitOverloadsAgree(cmdbuf: Handle, wait: Handle, signal: Handle, waitStage: Flags)
    requires wait != NULL_HANDLE
    ensures SubmitInfoSingleWait(cmdbuf, wait, signal, waitStage)
         == SubmitInfoMultiWait(cmdbuf, 1, [wait], signal, [waitStage])
  {
  }

  // ---------------------------------------------------------------------------
  // makeDefaultDescriptorPool
  // ---------------------------------------------------------------------------

  /** `VkDescriptorPoolSize` */
  datatype DescriptorPoolSize = DescriptorPoolSize(descriptorType: u32, descriptorCount: u32)

  /** `VkDescriptorPoolCreateInfo` */
  datatype DescriptorPoolCreateInfo = DescriptorPoolCreateInfo(
    flags: Flags, maxSets: u32, poolSizeCount: u32, poolSizes: seq<DescriptorPoolSize>)

  /** The descriptor types of the default pool, in the order the source lists them. */
  const DEFAULT_POOL_TYPES: seq<u32> := [
    Vk.DESCRIPTOR_TYPE_SAMPLER,
    Vk.DESCRIPTOR_TYPE_COMBINED_IMAGE_SAMPLER,
    Vk.DESCRIPTOR_TYPE_SAMPLED_IMAGE,
    Vk.DESCRIPTOR_TYPE_STORAGE_IMAGE,
    Vk.DESCRIPTOR_TYPE_UNIFORM_TEXEL_BUFFER,
    Vk.DESCRIPTOR_TYPE_STORAGE_TEXEL_BUFFER,
    Vk.DESCRIPTOR_TYPE_UNIFORM_BUFFER,
    Vk.DESCRIPTOR_TYPE_STORAGE_BUFFER,
    Vk.DESCRIPTOR_TYPE_UNIFORM_BUFFER_DYNAMIC,
    Vk.DESCRIPTOR_TYPE_STORAGE_BUFFER_DYNAMIC,
    Vk.DESCRIPTOR_TYPE_INPUT_ATTACHMENT]

  const DEFAULT_SET_COUNT: u32 := 100

  /** `sizeof(VkDescriptorPoolSize)`: two 32-bit fields. */
  const POOL_SIZE_BYTES: nat := 8

  /** `makeDefaultDescriptorPool`: 100 descriptors of every core descriptor type. */
  method MakeDefaultDescriptorPool() returns (info: DescriptorPoolCreateInfo)
    ensures info.poolSizeCount == |info.poolSizes| == 11
    ensures forall i :: 0 <= i < |info.poolSizes| ==>
      info.poolSizes[i].descriptorType == i && info.poolSizes[i].descriptorCount == 100
    ensures info.maxSets == 1100
    ensures info.flags == Vk.DESCRIPTOR_POOL_CREATE_FREE_DESCRIPTOR_SET_BIT
  {
    var setCount := DEFAULT_SET_COUNT;
    var sizes := new DescriptorPoolSize[|DEFAULT_POOL_TYPES|](i requires 0 <= i < |DEFAULT_POOL_TYPES| =>
      DescriptorPoolSize(DEFAULT_POOL_TYPES[i], 0));
    var n := sizes.Length;
    for i := 0 to n
      invariant forall k :: 0 <= k < n ==> sizes[k].descriptorType == DEFAULT_POOL_TYPES[k]
      invariant forall k :: 0 <= k < i ==> sizes[k].descriptorCount == setCount
    {
      sizes[i] := sizes[i].(descriptorCount := setCount);
    }
    var maxSets := setCount * (n * POOL_SIZE_BYTES) / POOL_SIZE_BYTES;
    info := DescriptorPoolCreateInfo(Vk.DESCRIPTOR_POOL_CREATE_FREE_DESCRIPTOR_SET_BIT, maxSets, n, sizes[..]);
  }

  // ---------------------------------------------------------------------------
  // getSemaphoreHandle, getMemoryHandle
  // ---------------------------------------------------------------------------

  /** `VkSemaphoreGetFdInfoKHR` / `VkMemoryGetFdInfoKHR`: the object and the handle type asked for. */
  datatype GetFdInfo = GetFdInfo(object: Handle, handleType: Flags)

  /** `getSemaphoreHandle`: `getFd` answers `vkGetSemaphoreFdKHR`. Only the
      opaque file-descriptor type is exported; any other type gives -1. */
  function GetSemaphoreHandle(handleType: Flags, semaphore: Handle, getFd: GetFdInfo -> i32): (fd: i32)
    ensures handleType != Vk.EXTERNAL_SEMAPHORE_HANDLE_TYPE_OPAQUE_FD_BIT ==> fd == -1
    ensures handleType == Vk.EXTERNAL_SEMAPHORE_HANDLE_TYPE_OPAQUE_FD_BIT ==>
      fd == getFd(GetFdInfo(semaphore, Vk.EXTERNAL_SEMAPHORE_HANDLE_TYPE_OPAQUE_FD_BIT))
  {
    if handleType != Vk.EXTERNAL_SEMAPHORE_HANDLE_TYPE_OPAQUE_FD_BIT then -1
    else getFd(GetFdInfo(semaphore, Vk.EXTERNAL_SEMAPHORE_HANDLE_TYPE_OPAQUE_FD_BIT))
  }

  /** `getMemoryHandle`: `getFd` answers `vkGetMemoryFdKHR`. The type is a mask
      here, and only the mask holding exactly the opaque-fd bit is accepted. */
  function GetMemoryHandle(handleTypes: Flags, memory: Handle, getFd: GetFdInfo -> i32): (fd: i32)
    ensures handleTypes != Vk.EXTERNAL_MEMORY_HANDLE_TYPE_OPAQUE_FD_BIT ==> fd == -1
    ensures handleTypes == Vk.EXTERNAL_MEMORY_HANDLE_TYPE_OPAQUE_FD_BIT ==>
      fd == getFd(GetFdInfo(memory, Vk.EXTERNAL_MEMORY_HANDLE_TYPE_OPAQUE_FD_BIT))
  {
    if handleTypes != Vk.EXTERNAL_MEMORY_HANDLE_TYPE_OPAQUE_FD_BIT then -1
    else getFd(GetFdInfo(memory, Vk.EXTERNAL_MEMORY_HANDLE_TYPE_OPAQUE_FD_BIT))
  }

  /** A mask that names the opaque-fd type together with any other type is refused. */
  lemma MemoryHandleRefusesCombinedMask(handleTypes: Flags, memory: Handle, getFd: GetFdInfo -> i32)
    requires handleTypes & Vk.EXTERNAL_MEMORY_HANDLE_TYPE_OPAQUE_FD_BIT != 0
    requires handleTypes & !Vk.EXTERNAL_MEMORY_HANDLE_TYPE_OPAQUE_FD_BIT != 0
    ensures GetMemoryHandle(handleTypes, memory, getFd) == -1
  {
  }

  // ---------------------------------------------------------------------------
  // makeDescriptorSetLayoutImpl
  // ---------------------------------------------------------------------------

  /** `VkDescriptorSetLayoutBinding`; `immutableSamplers` is the pointer value (0 = nullptr). */
  datatype DescriptorSetLayoutBinding = DescriptorSetLayoutBinding(
    binding: u32, descriptorType: u32, descriptorCount: u32, stageFlags: Flags, immutableSamplers: u64)

  /** `VkDescriptorSetLayoutCreateInfo` */
  datatype DescriptorSetLayoutCreateInfo = DescriptorSetLayoutCreateInfo(
    bindingCount: u32, bindings: seq<DescriptorSetLayoutBinding>)

  /** The create-info `makeDescriptorSetLayoutImpl` hands to `vkCreateDescriptorSetLayout`. */
  function MakeDescriptorSetLayoutInfo(bindings: seq<DescriptorSetLayoutBinding>, numBindings: u32)
    : (info: DescriptorSetLayoutCreateInfo)
    ensures info.bindingCount == numBindings && info.bindings == bindings
  {
    DescriptorSetLayoutCreateInfo(numBindings, bindings)
  }
}

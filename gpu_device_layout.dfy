/** The variadic `makeDescriptorSetLayout` template of the device header: one
    layout binding per `BindingDesc` argument, numbered in argument order. */
module GpuDeviceLayout {
  import opened Types
  import Vk
  import GpuDevice

  /** `BindingDesc`: what the caller says about one binding. */
  datatype BindingDesc = BindingDesc(descriptorType: u32, descriptorCount: u32)

  /** The `makeDescriptorBindingInfo` lambda: binding number `id`, visible to
      every shader stage, no immutable samplers. */
  function MakeDescriptorBindingInfo(desc: BindingDesc, id: u32): (b: GpuDevice.DescriptorSetLayoutBinding)
    ensures b.binding == id
    ensures b.descriptorType == desc.descriptorType && b.descriptorCount == desc.descriptorCount
    ensures b.stageFlags == Vk.SHADER_STAGE_ALL && b.immutableSamplers == 0
  {
    GpuDevice.DescriptorSetLayoutBinding(id, desc.descriptorType, desc.descriptorCount, Vk.SHADER_STAGE_ALL, 0)
  }

  /** `makeDescriptorSetLayout(bindings...)`. The pack expansion runs left to
      right with a post-incremented counter, so binding `i` gets number `i`; the
      bindings array is a C array, so at least one binding is required. */
  method MakeDescriptorSetLayout(bindingsIn: seq<BindingDesc>)
    returns (info: GpuDevice.DescriptorSetLayoutCreateInfo)
    requires 1 <= |bindingsIn| < U32_MODULUS
    ensures info.bindingCount == |bindingsIn| == |info.bindings|
    ensures forall i :: 0 <= i < |bindingsIn| ==>
      && info.bindings[i].binding == i
      && info.bindings[i].descriptorType == bindingsIn[i].descriptorType
      && info.bindings[i].descriptorCount == bindingsIn[i].descriptorCount
      && info.bindings[i].stageFlags == Vk.SHADER_STAGE_ALL
      && info.bindings[i].immutableSamplers == 0
    ensures forall i, j :: 0 <= i < j < |info.bindings| ==> info.bindings[i].binding < info.bindings[j].binding
  {
    var bindings := new GpuDevice.DescriptorSetLayoutBinding[|bindingsIn|];
    var id: u32 := 0;
    for k := 0 to |bindingsIn|
      invariant id == k
      invariant forall i :: 0 <= i < k ==> bindings[i] == MakeDescriptorBindingInfo(bindingsIn[i], i)
    {
      bindings[k] := MakeDescriptorBindingInfo(bindingsIn[k], id);
      id := id + 1;
    }
    info := GpuDevice.MakeDescriptorSetLayoutInfo(bindings[..], |bindingsIn|);
  }
}

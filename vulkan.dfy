/**
 * The decision rules and state updates of src/lib/Vulkan.c: the checks that
 * required layer and extension names are available, the choice of physical
 * device, queue families, surface format, present mode, image count and
 * extent, the memory-type search and the image-layout transition table.
 *
 * Every driver call is foreign. Its answer is a parameter: an enumeration
 * that returns VK_SUCCESS is `Some(list)`, one that does not is `None`.
 * Handles are opaque numbers.
 */
module Vulkan {
  import opened Base

  // Enumerant values of the Vulkan 1.3 specification.
  const VK_FORMAT_B8G8R8A8_SRGB: u32 := 50
  const VK_COLOR_SPACE_SRGB_NONLINEAR_KHR: u32 := 0
  const VK_PRESENT_MODE_MAILBOX_KHR: u32 := 1
  const VK_PRESENT_MODE_FIFO_KHR: u32 := 2
  const VK_SHARING_MODE_EXCLUSIVE: u32 := 0
  const VK_SHARING_MODE_CONCURRENT: u32 := 1
  const VK_IMAGE_LAYOUT_UNDEFINED: u32 := 0
  const VK_IMAGE_LAYOUT_SHADER_READ_ONLY_OPTIMAL: u32 := 5
  const VK_IMAGE_LAYOUT_TRANSFER_DST_OPTIMAL: u32 := 7
  const VK_ACCESS_SHADER_READ_BIT: u32 := 0x20
  const VK_ACCESS_TRANSFER_WRITE_BIT: u32 := 0x1000
  const VK_PIPELINE_STAGE_TOP_OF_PIPE_BIT: u32 := 0x1
  const VK_PIPELINE_STAGE_FRAGMENT_SHADER_BIT: u32 := 0x80
  const VK_PIPELINE_STAGE_TRANSFER_BIT: u32 := 0x1000
  /** VK_MAX_MEMORY_TYPES: the length of the memoryTypes array a driver fills. */
  const VK_MAX_MEMORY_TYPES: nat := 32

  const ValidationLayerName: string := "VK_LAYER_KHRONOS_validation"
  const SwapchainExtensionName: string := "VK_KHR_swapchain"
  const PortabilitySubsetName: string := "VK_KHR_portability_subset"

  /** ASPECT_SQUARE, the aspect ratio a fresh driver state starts with. */
  const ASPECT_SQUARE: Ratio := 1.0
  /** The queue priority every queue create info carries. */
  const QueuePriority: real := 1.0

  type Handle = nat
  /** An f32 aspect ratio, modelled as an exact positive rational. */
  type Ratio = r: real | r > 0.0 witness 1.0

  datatype SurfaceFormat = SurfaceFormat(format: u32, colorSpace: u32)
  const WantedFormat := SurfaceFormat(VK_FORMAT_B8G8R8A8_SRGB, VK_COLOR_SPACE_SRGB_NONLINEAR_KHR)

  datatype SurfaceCapabilities = SurfaceCapabilities(minImageCount: u32, maxImageCount: u32)
  datatype Extent2D = Extent2D(width: u32, height: u32)

  /**
   * One queue family as the driver reports it: its graphics bit, and the
   * answer of vkGetPhysicalDeviceSurfaceSupportKHR (None when that call fails).
   */
  datatype QueueFamily = QueueFamily(graphics: bool, present: Option<bool>)

  /** m_SwapChain__queues, without the queue handles. */
  datatype Queues = Queues(same: bool, graphicsFound: bool, graphicsIndex: nat, presentFound: bool, presentIndex: nat)
  const ResetQueues := Queues(false, false, 0, false, 0)

  datatype QueueCreateInfo = QueueCreateInfo(queueFamilyIndex: nat, queueCount: nat, priority: real)

  /** What Vulkan__CreateLogicalDeviceAndQueues hands to vkCreateDevice. */
  datatype DeviceCreateInfo = DeviceCreateInfo(
    queueCreateInfos: seq<QueueCreateInfo>,
    enabledLayers: seq<string>,
    enabledExtensions: seq<string>,
    samplerAnisotropy: bool)

  /** What Vulkan__CreateSwapChain hands to vkCreateSwapchainKHR. */
  datatype SwapchainCreateInfo = SwapchainCreateInfo(
    minImageCount: u32,
    imageFormat: SurfaceFormat,
    imageExtent: Extent2D,
    imageSharingMode: u32,
    queueFamilyIndices: seq<nat>,
    presentMode: u32,
    oldSwapchain: Option<Handle>)

  /** The driver's answers during swapchain creation. */
  datatype SwapchainDriver = SwapchainDriver(created: Option<Handle>, imageCount: Option<nat>, imagesFetched: bool)

  /** The masks and stages of the one barrier a layout transition records. */
  datatype Barrier = Barrier(srcAccessMask: u32, dstAccessMask: u32, srcStage: u32, dstStage: u32)

  /**
   * The window and viewport fields of Vulkan_t, which Window.c and main.c
   * write: m_aspectRatio, m_windowWidth/Height, m_viewportX/Y/Width/Height,
   * m_bufferWidth/Height, m_framebufferResized, m_minimized, m_maximized.
   */
  datatype ViewState = ViewState(
    aspectRatio: Ratio,
    windowWidth: u32, windowHeight: u32,
    viewportX: u32, viewportY: u32, viewportWidth: u32, viewportHeight: u32,
    bufferWidth: u32, bufferHeight: u32,
    framebufferResized: bool, minimized: bool, maximized: bool)

  ghost predicate AllFound(required: seq<string>, available: seq<string>) {
    forall i :: 0 <= i < |required| ==> required[i] in available
  }

  /** The search loops of the Assert*Supported functions: strcmp equality is string equality. */
  method Contains(names: seq<string>, name: string) returns (found: bool)
    ensures found <==> name in names
  {
    found := false;
    var i := 0;
    while i < |names|
      invariant 0 <= i <= |names|
      invariant name !in names[..i]
    {
      if names[i] == name {
        found := true;
        break;
      }
      assert names[..i + 1] == names[..i] + [names[i]];
      i := i + 1;
    }
    if !found {
      assert names[..i] == names;
    }
  }

  /**
   * The outer validation loop: the index of the first required name that is
   * not available (the one named by the abort message), or None when all are.
   */
  method FirstMissing(required: seq<string>, available: seq<string>) returns (missing: Option<nat>)
    ensures missing.None? <==> AllFound(required, available)
    ensures missing.Some? ==> missing.value < |required| && required[missing.value] !in available
    ensures missing.Some? ==> AllFound(required[..missing.value], available)
  {
    var i := 0;
    while i < |required|
      invariant 0 <= i <= |required|
      invariant AllFound(required[..i], available)
    {
      var found := Contains(available, required[i]);
      if !found {
        return Some(i);
      }
      assert forall k :: 0 <= k < i + 1 ==> required[..i + 1][k] == required[k];
      i := i + 1;
    }
    assert required[..i] == required;
    return None;
  }

  /**
   * The format loop of Vulkan__CreateSwapChain: the format chosen is a list
   * entry that is B8G8R8A8_SRGB in the SRGB_NONLINEAR colour space, and there
   * is none iff no entry is.
   */
  method FindSurfaceFormat(formats: seq<SurfaceFormat>) returns (r: Option<SurfaceFormat>)
    ensures r.Some? <==> WantedFormat in formats
    ensures r.Some? ==> r.value == WantedFormat
  {
    var i := 0;
    while i < |formats|
      invariant 0 <= i <= |formats|
      invariant WantedFormat !in formats[..i]
    {
      if formats[i].format == VK_FORMAT_B8G8R8A8_SRGB && formats[i].colorSpace == VK_COLOR_SPACE_SRGB_NONLINEAR_KHR {
        return Some(formats[i]);
      }
      assert formats[..i + 1] == formats[..i] + [formats[i]];
      i := i + 1;
    }
    assert formats[..i] == formats;
    return None;
  }

  /** The present-mode loop: MAILBOX iff it is listed, otherwise FIFO; it never fails. */
  method ChoosePresentMode(modes: seq<u32>) returns (mode: u32)
    ensures mode == VK_PRESENT_MODE_MAILBOX_KHR <==> VK_PRESENT_MODE_MAILBOX_KHR in modes
    ensures mode != VK_PRESENT_MODE_MAILBOX_KHR ==> mode == VK_PRESENT_MODE_FIFO_KHR
  {
    var found := false;
    mode := VK_PRESENT_MODE_FIFO_KHR;
    var i := 0;
    while i < |modes|
      invariant 0 <= i <= |modes|
      invariant VK_PRESENT_MODE_MAILBOX_KHR !in modes[..i]
      invariant mode == VK_PRESENT_MODE_FIFO_KHR && !found
    {
      if modes[i] == VK_PRESENT_MODE_MAILBOX_KHR {
        mode := modes[i];
        found := true;
        break;
      }
      assert modes[..i + 1] == modes[..i] + [modes[i]];
      i := i + 1;
    }
    if !found {
      assert modes[..i] == modes;
      mode := VK_PRESENT_MODE_FIFO_KHR;
    }
  }

  /** Memory type `i` is allowed by `typeFilter` (bit i set) and has every requested property. */
  predicate Suitable(typeFilter: bv32, properties: bv32, propertyFlags: seq<bv32>, i: nat)
    requires i < |propertyFlags| <= VK_MAX_MEMORY_TYPES
  {
    typeFilter & (1 << i) != 0 && propertyFlags[i] & properties == properties
  }

  /**
   * Vulkan__FindMemoryType: the least index whose bit is set in `typeFilter`
   * and whose property flags include `properties`; None where the source aborts.
   * `propertyFlags` holds memoryTypes[i].propertyFlags for i < memoryTypeCount.
   */
  method FindMemoryType(typeFilter: bv32, properties: bv32, propertyFlags: seq<bv32>) returns (r: Option<nat>)
    requires |propertyFlags| <= VK_MAX_MEMORY_TYPES
    ensures r.None? <==> forall i :: 0 <= i < |propertyFlags| ==> !Suitable(typeFilter, properties, propertyFlags, i)
    ensures r.Some? ==> r.value < |propertyFlags| && Suitable(typeFilter, properties, propertyFlags, r.value)
    ensures r.Some? ==> forall j :: 0 <= j < r.value ==> !Suitable(typeFilter, properties, propertyFlags, j)
  {
    var i := 0;
    while i < |propertyFlags|
      invariant 0 <= i <= |propertyFlags|
      invariant forall j :: 0 <= j < i ==> !Suitable(typeFilter, properties, propertyFlags, j)
    {
      if typeFilter & (1 << i) != 0 && propertyFlags[i] & properties == properties {
        assert Suitable(typeFilter, properties, propertyFlags, i);
        return Some(i);
      }
      i := i + 1;
    }
    return None;
  }

  /**
   * The table of Vulkan__TransitionImageLayout: exactly two transitions are
   * supported, every other pair aborts (None).
   */
  function LayoutTransition(oldLayout: u32, newLayout: u32): (r: Option<Barrier>)
    ensures r.Some? <==>
              (oldLayout == VK_IMAGE_LAYOUT_UNDEFINED && newLayout == VK_IMAGE_LAYOUT_TRANSFER_DST_OPTIMAL)
              || (oldLayout == VK_IMAGE_LAYOUT_TRANSFER_DST_OPTIMAL && newLayout == VK_IMAGE_LAYOUT_SHADER_READ_ONLY_OPTIMAL)
  {
    if oldLayout == VK_IMAGE_LAYOUT_UNDEFINED && newLayout == VK_IMAGE_LAYOUT_TRANSFER_DST_OPTIMAL then
      Some(Barrier(0, VK_ACCESS_TRANSFER_WRITE_BIT, VK_PIPELINE_STAGE_TOP_OF_PIPE_BIT, VK_PIPELINE_STAGE_TRANSFER_BIT))
    else if oldLayout == VK_IMAGE_LAYOUT_TRANSFER_DST_OPTIMAL && newLayout == VK_IMAGE_LAYOUT_SHADER_READ_ONLY_OPTIMAL then
      Some(Barrier(VK_ACCESS_TRANSFER_WRITE_BIT, VK_ACCESS_SHADER_READ_BIT, VK_PIPELINE_STAGE_TRANSFER_BIT, VK_PIPELINE_STAGE_FRAGMENT_SHADER_BIT))
    else
      None
  }

  /**
   * The texture upload path UNDEFINED -> TRANSFER_DST -> SHADER_READ_ONLY:
   * the first barrier makes transfer writes wait for nothing, the second makes
   * fragment-shader reads wait for exactly the transfer writes the first enabled.
   */
  lemma UploadTransitionsChain()
    ensures LayoutTransition(VK_IMAGE_LAYOUT_UNDEFINED, VK_IMAGE_LAYOUT_TRANSFER_DST_OPTIMAL)
            == Some(Barrier(0, VK_ACCESS_TRANSFER_WRITE_BIT, VK_PIPELINE_STAGE_TOP_OF_PIPE_BIT, VK_PIPELINE_STAGE_TRANSFER_BIT))
    ensures LayoutTransition(VK_IMAGE_LAYOUT_TRANSFER_DST_OPTIMAL, VK_IMAGE_LAYOUT_SHADER_READ_ONLY_OPTIMAL)
            == Some(Barrier(VK_ACCESS_TRANSFER_WRITE_BIT, VK_ACCESS_SHADER_READ_BIT, VK_PIPELINE_STAGE_TRANSFER_BIT, VK_PIPELINE_STAGE_FRAGMENT_SHADER_BIT))
    ensures LayoutTransition(VK_IMAGE_LAYOUT_UNDEFINED, VK_IMAGE_LAYOUT_SHADER_READ_ONLY_OPTIMAL).None?
  {
  }

  // ---------------------------------------------------------------------------
  // Queue-family selection

  /** Family `f` answered that it can present to the surface. */
  predicate Presents(f: QueueFamily) {
    f.present == Some(true)
  }

  predicate HasBoth(f: QueueFamily) {
    f.graphics && Presents(f)
  }

  /** One iteration of the selection at Vulkan.c:370-387, for family index `i`. */
  function Step(q: Queues, i: nat, f: QueueFamily): (r: Queues)
    ensures q.same ==> r == q
    ensures !q.same ==> (r.same <==> HasBoth(f))
    ensures (q.graphicsFound ==> r.graphicsFound) && (q.presentFound ==> r.presentFound)
    ensures r.graphicsIndex == q.graphicsIndex || (r.graphicsIndex == i && f.graphics)
    ensures r.presentIndex == q.presentIndex || (r.presentIndex == i && Presents(f))
  {
    if q.same then q
    else if f.graphics && Presents(f) then Queues(true, true, i, true, i)
    else if f.graphics then q.(same := false, graphicsFound := true, graphicsIndex := i)
    else if Presents(f) then q.(same := false, presentFound := true, presentIndex := i)
    else q
  }

  /** The state of m_SwapChain__queues after the loop has seen `fams`, starting from `q`. */
  function Scan(q: Queues, fams: seq<QueueFamily>): (r: Queues)
    ensures (q.graphicsFound ==> r.graphicsFound) && (q.presentFound ==> r.presentFound)
    ensures r.graphicsIndex == q.graphicsIndex || (r.graphicsIndex < |fams| && fams[r.graphicsIndex].graphics)
    ensures r.presentIndex == q.presentIndex || (r.presentIndex < |fams| && Presents(fams[r.presentIndex]))
    decreases |fams|
  {
    if fams == [] then q else Step(Scan(q, fams[..|fams| - 1]), |fams| - 1, fams[|fams| - 1])
  }

  /** Once a combined family was seen, later families change nothing. */
  lemma {:induction false} ScanKeepsSame(q: Queues, fams: seq<QueueFamily>)
    requires q.same
    ensures Scan(q, fams) == q
    decreases |fams|
  {
    if fams != [] {
      ScanKeepsSame(q, fams[..|fams| - 1]);
    }
  }

  lemma {:induction false} ScanAppend(q: Queues, fams: seq<QueueFamily>, more: seq<QueueFamily>)
    requires Scan(q, fams).same
    ensures Scan(q, fams + more) == Scan(q, fams)
    decreases |more|
  {
    if more != [] {
      var all := fams + more;
      assert all[..|all| - 1] == fams + more[..|more| - 1];
      ScanAppend(q, fams, more[..|more| - 1]);
      assert Scan(q, all) == Step(Scan(q, fams + more[..|more| - 1]), |all| - 1, all[|all| - 1]);
    } else {
      assert fams + more == fams;
    }
  }

  /** Without a combined family, the scan from the reset state keeps the last graphics and the last present family. */
  lemma {:induction false} ScanWithoutBoth(fams: seq<QueueFamily>)
    requires forall k :: 0 <= k < |fams| ==> !HasBoth(fams[k])
    ensures !Scan(ResetQueues, fams).same
    ensures Scan(ResetQueues, fams).graphicsFound <==> exists k :: 0 <= k < |fams| && fams[k].graphics
    ensures Scan(ResetQueues, fams).presentFound <==> exists k :: 0 <= k < |fams| && Presents(fams[k])
    ensures var q := Scan(ResetQueues, fams);
            q.graphicsFound ==> q.graphicsIndex < |fams| && fams[q.graphicsIndex].graphics
                                && forall j :: q.graphicsIndex < j < |fams| ==> !fams[j].graphics
    ensures var q := Scan(ResetQueues, fams);
            q.presentFound ==> q.presentIndex < |fams| && Presents(fams[q.presentIndex])
                               && forall j :: q.presentIndex < j < |fams| ==> !Presents(fams[j])
    decreases |fams|
  {
    if fams != [] {
      var init := fams[..|fams| - 1];
      ScanWithoutBoth(init);
      assert forall k :: 0 <= k < |init| ==> init[k] == fams[k];
    }
  }

  /** With a combined family, the scan from the reset state selects the first one for both roles. */
  lemma {:induction false} ScanWithBoth(fams: seq<QueueFamily>, k: nat)
    requires k < |fams| && HasBoth(fams[k])
    requires forall j :: 0 <= j < k ==> !HasBoth(fams[j])
    ensures Scan(ResetQueues, fams) == Queues(true, true, k, true, k)
  {
    var head := fams[..k + 1];
    assert head[..k] == fams[..k];
    ScanWithoutBoth(fams[..k]);
    assert Scan(ResetQueues, head) == Queues(true, true, k, true, k);
    assert fams == head + fams[k + 1..];
    ScanAppend(ResetQueues, head, fams[k + 1..]);
  }

  /** The queue create infos, one per distinct family (Vulkan.c:425-442, second slot at index 1). */
  function QueueCreateInfos(q: Queues): (r: seq<QueueCreateInfo>)
    ensures |r| == (if q.same then 1 else 2)
    ensures r[0].queueFamilyIndex == q.graphicsIndex && (!q.same ==> r[1].queueFamilyIndex == q.presentIndex)
    ensures forall j :: 0 <= j < |r| ==> r[j].queueCount == 1 && r[j].priority == QueuePriority
  {
    if q.same then [QueueCreateInfo(q.graphicsIndex, 1, QueuePriority)]
    else [QueueCreateInfo(q.graphicsIndex, 1, QueuePriority), QueueCreateInfo(q.presentIndex, 1, QueuePriority)]
  }

  /**
   * From the reset state: one create info iff some family has both roles,
   * two otherwise, and the families named are always distinct, as
   * vkCreateDevice requires.
   */
  lemma QueueCreateInfosDistinct(fams: seq<QueueFamily>)
    requires Scan(ResetQueues, fams).graphicsFound && Scan(ResetQueues, fams).presentFound
    ensures var infos := QueueCreateInfos(Scan(ResetQueues, fams));
            (|infos| == 1 <==> exists k :: 0 <= k < |fams| && HasBoth(fams[k]))
            && (|infos| == 2 <==> forall k :: 0 <= k < |fams| ==> !HasBoth(fams[k]))
            && forall a, b :: 0 <= a < b < |infos| ==> infos[a].queueFamilyIndex != infos[b].queueFamilyIndex
  {
    if k :| 0 <= k < |fams| && HasBoth(fams[k]) {
      var first := FirstBoth(fams, k);
      ScanWithBoth(fams, first);
    } else {
      ScanWithoutBoth(fams);
    }
  }

  /** The least index of a combined family, given that some index `k` is one. */
  function FirstBoth(fams: seq<QueueFamily>, k: nat): (first: nat)
    requires k < |fams| && HasBoth(fams[k])
    ensures first <= k && HasBoth(fams[first])
    ensures forall j :: 0 <= j < first ==> !HasBoth(fams[j])
    decreases k
  {
    if exists j :: 0 <= j < k && HasBoth(fams[j]) then
      var j :| 0 <= j < k && HasBoth(fams[j]);
      FirstBoth(fams, j)
    else k
  }

  /**
   * The create-info array as the source fills it (Vulkan.c:425-441): `same ? 1 : 2`
   * entries (the second one uninitialised until written), the first written at
   * index 0 and, without a combined family, the second at index 2. None when
   * that second write lies outside the array.
   */
  function QueueCreateInfosAsWritten(q: Queues): Option<seq<QueueCreateInfo>> {
    var first := QueueCreateInfo(q.graphicsIndex, 1, QueuePriority);
    if q.same then Some([first])
    else Store([first, first], 2, QueueCreateInfo(q.presentIndex, 1, QueuePriority))
  }

  /** A write `a[index] = v` into a C array: None when the index is outside it. */
  function Store<T>(a: seq<T>, index: nat, v: T): (r: Option<seq<T>>)
    ensures r.Some? <==> index < |a|
    ensures r.Some? ==> |r.value| == |a| && r.value[index] == v
                        && forall j :: 0 <= j < |a| && j != index ==> r.value[j] == a[j]
  {
    if index < |a| then Some(a[index := v]) else None
  }

  /**
   * From the reset state, the as-written fill writes out of bounds exactly
   * when no family has both roles; otherwise it gives the intended create infos.
   */
  lemma SecondQueueCreateInfoOutOfBounds(fams: seq<QueueFamily>)
    ensures var q := Scan(ResetQueues, fams);
            && (QueueCreateInfosAsWritten(q).None? <==> forall k :: 0 <= k < |fams| ==> !HasBoth(fams[k]))
            && (QueueCreateInfosAsWritten(q).Some? ==> QueueCreateInfosAsWritten(q).value == QueueCreateInfos(q))
  {
    var q := Scan(ResetQueues, fams);
    if k :| 0 <= k < |fams| && HasBoth(fams[k]) {
      ScanWithBoth(fams, FirstBoth(fams, k));
      assert QueueCreateInfosAsWritten(q).value == QueueCreateInfos(q);
    } else {
      ScanWithoutBoth(fams);
    }
  }

  /** The guard before the swapchain-extension append (Vulkan.c:228-230), as written. */
  predicate SwapchainAppendGuardAsWritten(count: nat, capacity: nat) {
    count <= capacity
  }

  /**
   * On a driver state whose required device-extension list is full, the
   * as-written guard passes, and the append then writes at an index outside
   * the array.
   */
  lemma SwapchainAppendGuardAdmitsFullList(c: Context)
    requires c.Valid() && c.requiredPhysicalDeviceExtensionsCount == c.requiredPhysicalDeviceExtensions.Length
    ensures SwapchainAppendGuardAsWritten(c.requiredPhysicalDeviceExtensionsCount, c.requiredPhysicalDeviceExtensions.Length)
    ensures !(0 <= c.requiredPhysicalDeviceExtensionsCount < c.requiredPhysicalDeviceExtensions.Length)
  {
  }

  // ---------------------------------------------------------------------------
  // u8 loop counters

  /**
   * The inner search loops as written: the index is a u8, so after 255 it
   * wraps to 0. Some(found) when the loop ends within `fuel` steps, None when
   * it is still running.
   */
  function SearchU8(names: seq<string>, name: string, i: u8, fuel: nat): (r: Option<bool>)
    ensures r == Some(true) ==> name in names
    ensures r == Some(false) ==> |names| < 0x100
    decreases fuel
  {
    if fuel == 0 then None
    else if !(i < |names|) then Some(false)
    else if names[i] == name then Some(true)
    else SearchU8(names, name, (i + 1) % 0x100, fuel - 1)
  }

  /** Below 256 names, the as-written search started at `i` ends and answers whether `name` is among the names from `i` on. */
  lemma {:induction false} SearchU8BelowLimit(names: seq<string>, name: string, i: u8, fuel: nat)
    requires |names| < 0x100 && i <= |names| && |names| - i < fuel
    ensures SearchU8(names, name, i, fuel) == Some(name in names[i..])
    decreases fuel
  {
    if i < |names| && names[i] != name {
      assert (i + 1) % 0x100 == i + 1;
      SearchU8BelowLimit(names, name, i + 1, fuel - 1);
      assert names[i..] == [names[i]] + names[i + 1..];
    } else if i < |names| {
      assert names[i..][0] == name;
    }
  }

  /** With 256 or more available names and none of the first 256 equal to `name`, the as-written loop never ends. */
  lemma {:induction false} SearchU8NeverEnds(names: seq<string>, name: string, i: u8, fuel: nat)
    requires |names| >= 0x100
    requires forall k :: 0 <= k < 0x100 ==> names[k] != name
    ensures SearchU8(names, name, i, fuel) == None
    decreases fuel
  {
    if fuel > 0 {
      SearchU8NeverEnds(names, name, (i + 1) % 0x100, fuel - 1);
    }
  }

  /**
   * A counting loop `for (i = start; i < count; i++)` with no early exit,
   * whose index wraps modulo `modulus` (0x100 for a u8 index): true when it
   * ends within `fuel` steps.
   */
  predicate CountingLoopEnds(count: nat, i: nat, modulus: nat, fuel: nat)
    requires 0 < modulus
    decreases fuel
  {
    fuel > 0 && (!(i < count) || CountingLoopEnds(count, (i + 1) % modulus, modulus, fuel - 1))
  }

  /** An index narrower than the count: once the count reaches the modulus, the loop never ends. */
  lemma {:induction false} CountingLoopNeverEnds(count: nat, i: nat, modulus: nat, fuel: nat)
    requires 0 < modulus <= count && i < modulus
    ensures !CountingLoopEnds(count, i, modulus, fuel)
    decreases fuel
  {
    if fuel > 0 {
      CountingLoopNeverEnds(count, (i + 1) % modulus, modulus, fuel - 1);
    }
  }

  /** An index wide enough for the count: the loop ends after exactly `count - i` steps. */
  lemma {:induction false} CountingLoopEndsWhenWide(count: nat, i: nat, modulus: nat, fuel: nat)
    requires i <= count < modulus
    ensures CountingLoopEnds(count, i, modulus, fuel) <==> count - i < fuel
    decreases fuel
  {
    if fuel > 0 && i < count {
      assert (i + 1) % modulus == i + 1;
      CountingLoopEndsWhenWide(count, i + 1, modulus, fuel - 1);
    }
  }

  /**
   * The listing loops over the available layers (Vulkan.c:68), instance
   * extensions (:110) and queue families (:345), as written: a u8 index
   * against a u32 count ends iff the count is below 256.
   */
  lemma ListingLoopU8(count: u32, fuel: nat)
    ensures CountingLoopEnds(count, 0, 0x100, fuel) <==> count < 0x100 && count < fuel
  {
    if count < 0x100 {
      CountingLoopEndsWhenWide(count, 0, 0x100, fuel);
    } else {
      CountingLoopNeverEnds(count, 0, 0x100, fuel);
    }
  }

  /** The same loops with an index as wide as the u32 count: they end after `count` steps. */
  lemma ListingLoopU32(count: u32, fuel: nat)
    ensures CountingLoopEnds(count, 0, 0x1_0000_0000, fuel) <==> count < fuel
  {
    CountingLoopEndsWhenWide(count, 0, 0x1_0000_0000, fuel);
  }

  // ---------------------------------------------------------------------------
  // Image count

  /**
   * MATH_CLAMP(minImageCount + 1, minImageCount, maxImageCount) in u32
   * arithmetic: because of the argument order it is minImageCount + 1
   * whatever maxImageCount is.
   */
  function ImageCount(caps: SurfaceCapabilities): (n: nat)
    ensures caps.minImageCount + 1 < 0x1_0000_0000 ==> n == caps.minImageCount + 1
  {
    Clamp(ToU32(caps.minImageCount + 1), caps.minImageCount, caps.maxImageCount)
  }

  /** A device allowing at most 2 images with a minimum of 2 is asked for 3. */
  lemma ImageCountExceedsMax()
    ensures ImageCount(SurfaceCapabilities(2, 2)) == 3
  {
  }

  /** The driver state Vulkan_t, restricted to the fields the modelled rules read and write. */
  class Context {
    const requiredDriverExtensions: array<string>
    var requiredDriverExtensionsCount: nat
    const requiredValidationLayers: array<string>
    var requiredValidationLayersCount: nat
    const requiredPhysicalDeviceExtensions: array<string>
    var requiredPhysicalDeviceExtensionsCount: nat

    /** VULKAN_SWAPCHAIN_FORMATS_CAP, VULKAN_SWAPCHAIN_PRESENT_MODES_CAP, VULKAN_SWAPCHAIN_IMAGES_CAP. */
    const formatsCap: nat
    const presentModesCap: nat
    const imagesCap: nat

    var physicalDevice: Option<Handle>
    var surface: Option<Handle>
    var logicalDevice: Option<Handle>
    var swapChain: Option<Handle>

    var view: ViewState

    var capabilities: SurfaceCapabilities
    var formats: seq<SurfaceFormat>
    var presentModes: seq<u32>
    var queues: Queues
    var imagesCount: nat
    var imageFormat: u32
    var extent: Extent2D

    var instanceCount: nat
    var currentFrame: nat
    var drawIndexCount: nat

    ghost predicate Valid()
      reads this
    {
      && requiredDriverExtensionsCount <= requiredDriverExtensions.Length
      && requiredValidationLayersCount <= requiredValidationLayers.Length
      && requiredPhysicalDeviceExtensionsCount <= requiredPhysicalDeviceExtensions.Length
      && requiredDriverExtensions != requiredValidationLayers
      && requiredDriverExtensions != requiredPhysicalDeviceExtensions
      && requiredValidationLayers != requiredPhysicalDeviceExtensions
    }

    ghost function RequiredDriverExtensions(): seq<string>
      reads this, requiredDriverExtensions
      requires Valid()
    {
      requiredDriverExtensions[..requiredDriverExtensionsCount]
    }

    ghost function RequiredValidationLayers(): seq<string>
      reads this, requiredValidationLayers
      requires Valid()
    {
      requiredValidationLayers[..requiredValidationLayersCount]
    }

    ghost function RequiredPhysicalDeviceExtensions(): seq<string>
      reads this, requiredPhysicalDeviceExtensions
      requires Valid()
    {
      requiredPhysicalDeviceExtensions[..requiredPhysicalDeviceExtensionsCount]
    }

    /**
     * The statically allocated Vulkan_t: fixed-capacity name arrays, no
     * handles, empty counts and lists, and the reset queue selection.
     */
    constructor (driverExtensionsCap: nat, validationLayersCap: nat, physicalDeviceExtensionsCap: nat,
                 formatsCap: nat, presentModesCap: nat, imagesCap: nat)
      ensures Valid()
      ensures fresh(requiredDriverExtensions) && fresh(requiredValidationLayers) && fresh(requiredPhysicalDeviceExtensions)
      ensures requiredDriverExtensions.Length == driverExtensionsCap
      ensures requiredValidationLayers.Length == validationLayersCap
      ensures requiredPhysicalDeviceExtensions.Length == physicalDeviceExtensionsCap
      ensures RequiredDriverExtensions() == [] && RequiredValidationLayers() == [] && RequiredPhysicalDeviceExtensions() == []
      ensures this.formatsCap == formatsCap && this.presentModesCap == presentModesCap && this.imagesCap == imagesCap
      ensures physicalDevice == None && surface == None && logicalDevice == None && swapChain == None
      ensures view.bufferWidth == 0 && view.bufferHeight == 0
      ensures queues == ResetQueues && currentFrame == 0
    {
      requiredDriverExtensions := new string[driverExtensionsCap];
      requiredValidationLayers := new string[validationLayersCap];
      requiredPhysicalDeviceExtensions := new string[physicalDeviceExtensionsCap];
      requiredDriverExtensionsCount, requiredValidationLayersCount, requiredPhysicalDeviceExtensionsCount := 0, 0, 0;
      this.formatsCap, this.presentModesCap, this.imagesCap := formatsCap, presentModesCap, imagesCap;
      physicalDevice, surface, logicalDevice, swapChain := None, None, None, None;
      view := ViewState(ASPECT_SQUARE, 0, 0, 0, 0, 0, 0, 0, 0, false, false, false);
      capabilities := SurfaceCapabilities(0, 0);
      formats, presentModes := [], [];
      queues := ResetQueues;
      imagesCount, imageFormat, extent := 0, 0, Extent2D(0, 0);
      instanceCount, currentFrame, drawIndexCount := 0, 0, 0;
    }

    /**
     * Vulkan__InitDriver1: resets the counts, the device, the window and
     * viewport state, the surface lists and the queue selection, then
     * asserts that the loader initialised (`loaderOk`). The buffer size is
     * not reset: the source assigns zero to two local variables instead.
     */
    method InitDriver1(loaderOk: bool) returns (ok: bool)
      requires Valid()
      modifies this`requiredDriverExtensionsCount, this`requiredValidationLayersCount,
               this`requiredPhysicalDeviceExtensionsCount, this`physicalDevice, this`view,
               this`formats, this`presentModes, this`queues
      ensures Valid()
      ensures RequiredDriverExtensions() == [] && RequiredValidationLayers() == [] && RequiredPhysicalDeviceExtensions() == []
      ensures physicalDevice == None
      ensures view == ViewState(ASPECT_SQUARE, 0, 0, 0, 0, 0, 0, old(view.bufferWidth), old(view.bufferHeight), false, false, false)
      ensures formats == [] && presentModes == []
      ensures queues == ResetQueues
      ensures ok == loaderOk
    {
      requiredDriverExtensionsCount := 0;
      requiredValidationLayersCount := 0;
      requiredPhysicalDeviceExtensionsCount := 0;
      physicalDevice := None;
      view := view.(aspectRatio := ASPECT_SQUARE, windowWidth := 0, windowHeight := 0,
                    viewportX := 0, viewportY := 0, viewportWidth := 0, viewportHeight := 0,
                    framebufferResized := false, minimized := false, maximized := false);
      formats := [];
      presentModes := [];
      queues := ResetQueues;
      ok := loaderOk;
    }

    /**
     * Vulkan__AssertDriverValidationLayersSupported. With DEBUG_VULKAN
     * (`debugVulkan`) the Khronos validation layer is appended first, which
     * needs a free slot. The availability check runs only when some layer is
     * required; it needs the enumeration to succeed with at least one layer
     * and every required layer to be listed.
     */
    method AssertValidationLayersSupported(debugVulkan: bool, available: Option<seq<string>>) returns (ok: bool)
      requires Valid()
      modifies this`requiredValidationLayersCount, requiredValidationLayers
      ensures Valid()
      ensures var required := if debugVulkan then old(RequiredValidationLayers()) + [ValidationLayerName]
                              else old(RequiredValidationLayers());
              && (ok <==> && (debugVulkan ==> old(requiredValidationLayersCount) < requiredValidationLayers.Length)
                          && (|required| > 0 ==> available.Some? && |available.value| > 0 && AllFound(required, available.value)))
              && (ok ==> RequiredValidationLayers() == required)
    {
      if debugVulkan {
        if !(requiredValidationLayersCount < requiredValidationLayers.Length) {
          return false;
        }
        requiredValidationLayers[requiredValidationLayersCount] := ValidationLayerName;
        requiredValidationLayersCount := requiredValidationLayersCount + 1;
        assert RequiredValidationLayers() == old(RequiredValidationLayers()) + [ValidationLayerName];
      }
      if requiredValidationLayersCount > 0 {
        if available.None? || |available.value| == 0 {
          return false;
        }
        var missing := FirstMissing(requiredValidationLayers[..requiredValidationLayersCount], available.value);
        if missing.Some? {
          return false;
        }
      }
      return true;
    }

    /**
     * Vulkan__AssertDriverExtensionsSupported: the enumeration must succeed
     * with at least one extension, and every required driver extension must
     * be listed. Nothing changes.
     */
    method AssertDriverExtensionsSupported(available: Option<seq<string>>) returns (ok: bool)
      requires Valid()
      ensures ok <==> available.Some? && |available.value| > 0 && AllFound(RequiredDriverExtensions(), available.value)
    {
      if available.None? || |available.value| == 0 {
        return false;
      }
      var missing := FirstMissing(requiredDriverExtensions[..requiredDriverExtensionsCount], available.value);
      return missing.None?;
    }

    /** The append of a required driver extension in main (main.c:201-206), guarded by a free slot. */
    method RequireDriverExtension(name: string) returns (ok: bool)
      requires Valid()
      modifies this`requiredDriverExtensionsCount, requiredDriverExtensions
      ensures Valid()
      ensures ok <==> old(requiredDriverExtensionsCount) < requiredDriverExtensions.Length
      ensures ok ==> RequiredDriverExtensions() == old(RequiredDriverExtensions()) + [name]
    {
      if !(requiredDriverExtensionsCount < requiredDriverExtensions.Length) {
        return false;
      }
      requiredDriverExtensions[requiredDriverExtensionsCount] := name;
      requiredDriverExtensionsCount := requiredDriverExtensionsCount + 1;
      assert RequiredDriverExtensions() == old(RequiredDriverExtensions()) + [name];
      return true;
    }

    /**
     * Vulkan__UsePhysicalDevice: strictly the device at the requested
     * enumeration index; the enumeration must succeed with at least one device.
     */
    method UsePhysicalDevice(devices: Option<seq<Handle>>, requiredDeviceIndex: u8) returns (ok: bool)
      modifies this`physicalDevice
      ensures ok <==> devices.Some? && 0 < |devices.value| && requiredDeviceIndex < |devices.value|
      ensures ok ==> physicalDevice == Some(devices.value[requiredDeviceIndex])
    {
      if devices.None? || |devices.value| == 0 {
        return false;
      }
      var i := 0;
      while i < |devices.value|
        invariant 0 <= i <= |devices.value|
        invariant i <= requiredDeviceIndex
      {
        if i == requiredDeviceIndex {
          physicalDevice := Some(devices.value[i]);
          return true;
        }
        i := i + 1;
      }
      return false;
    }

    /**
     * Vulkan__AssertSwapChainSupported: appends the swapchain extension
     * (with the capacity guard `<`), runs the portability-subset scan over the
     * REQUIRED list, checks every required device extension is available,
     * and caches the surface capabilities, formats and present modes, each
     * list non-empty and within its capacity.
     *
     * The scan appends the portability-subset name for every required entry
     * equal to it, including the ones it appended itself; the source has no
     * bound there, the model aborts when the array is full. So a required
     * list already holding that name always ends in an abort, and any other
     * list comes out of the scan unchanged.
     */
    method AssertSwapChainSupported(
      deviceExtensions: Option<seq<string>>,
      caps: Option<SurfaceCapabilities>,
      surfaceFormats: Option<seq<SurfaceFormat>>,
      surfacePresentModes: Option<seq<u32>>) returns (ok: bool)
      requires Valid()
      modifies this`requiredPhysicalDeviceExtensionsCount, requiredPhysicalDeviceExtensions,
               this`capabilities, this`formats, this`presentModes
      ensures Valid()
      ensures PortabilitySubsetName in old(RequiredPhysicalDeviceExtensions()) ==> !ok
      ensures PortabilitySubsetName !in old(RequiredPhysicalDeviceExtensions()) ==>
                (ok <==> && old(requiredPhysicalDeviceExtensionsCount) < requiredPhysicalDeviceExtensions.Length
                         && deviceExtensions.Some? && |deviceExtensions.value| > 0
                         && AllFound(old(RequiredPhysicalDeviceExtensions()) + [SwapchainExtensionName], deviceExtensions.value)
                         && caps.Some?
                         && surfaceFormats.Some? && 0 < |surfaceFormats.value| <= formatsCap
                         && surfacePresentModes.Some? && 0 < |surfacePresentModes.value| <= presentModesCap)
      ensures ok ==> RequiredPhysicalDeviceExtensions() == old(RequiredPhysicalDeviceExtensions()) + [SwapchainExtensionName]
      ensures ok ==> capabilities == caps.value && formats == surfaceFormats.value && presentModes == surfacePresentModes.value
    {
      if !(requiredPhysicalDeviceExtensionsCount < requiredPhysicalDeviceExtensions.Length) {
        return false;
      }
      requiredPhysicalDeviceExtensions[requiredPhysicalDeviceExtensionsCount] := SwapchainExtensionName;
      requiredPhysicalDeviceExtensionsCount := requiredPhysicalDeviceExtensionsCount + 1;
      ghost var withSwapchain := RequiredPhysicalDeviceExtensions();
      assert withSwapchain == old(RequiredPhysicalDeviceExtensions()) + [SwapchainExtensionName];

      if deviceExtensions.None? || |deviceExtensions.value| == 0 {
        return false;
      }

      var i := 0;
      while i < requiredPhysicalDeviceExtensionsCount
        invariant Valid()
        invariant 0 <= i <= requiredPhysicalDeviceExtensionsCount
        invariant PortabilitySubsetName !in withSwapchain ==> RequiredPhysicalDeviceExtensions() == withSwapchain
        invariant PortabilitySubsetName in withSwapchain ==> PortabilitySubsetName in RequiredPhysicalDeviceExtensions()[i..]
        decreases requiredPhysicalDeviceExtensions.Length - i
      {
        if requiredPhysicalDeviceExtensions[i] == PortabilitySubsetName {
          if requiredPhysicalDeviceExtensionsCount == requiredPhysicalDeviceExtensions.Length {
            return false;
          }
          requiredPhysicalDeviceExtensions[requiredPhysicalDeviceExtensionsCount] := PortabilitySubsetName;
          requiredPhysicalDeviceExtensionsCount := requiredPhysicalDeviceExtensionsCount + 1;
          assert RequiredPhysicalDeviceExtensions()[requiredPhysicalDeviceExtensionsCount - 1] == PortabilitySubsetName;
        } else if PortabilitySubsetName in withSwapchain {
          var rest := RequiredPhysicalDeviceExtensions()[i..];
          assert rest == [rest[0]] + rest[1..];
        }
        i := i + 1;
      }
      assert PortabilitySubsetName !in withSwapchain;

      var missing := FirstMissing(requiredPhysicalDeviceExtensions[..requiredPhysicalDeviceExtensionsCount], deviceExtensions.value);
      if missing.Some? {
        return false;
      }

      if caps.None? {
        return false;
      }
      capabilities := caps.value;

      formats := [];
      if surfaceFormats.None? || |surfaceFormats.value| == 0 || |surfaceFormats.value| > formatsCap {
        return false;
      }
      formats := surfaceFormats.value;

      presentModes := [];
      if surfacePresentModes.None? || |surfacePresentModes.value| == 0 || |surfacePresentModes.value| > presentModesCap {
        return false;
      }
      presentModes := surfacePresentModes.value;
      return true;
    }

    /**
     * The queue selection and create-info construction of
     * Vulkan__CreateLogicalDeviceAndQueues. A device and a surface must be
     * bound, every surface-support query must succeed, and a graphics and a
     * present family must have been found; `device` is vkCreateDevice's answer.
     */
    method CreateLogicalDeviceAndQueues(families: seq<QueueFamily>, device: Option<Handle>)
      returns (ok: bool, info: DeviceCreateInfo)
      requires Valid()
      modifies this`queues, this`logicalDevice
      ensures ok <==> && old(physicalDevice).Some? && old(surface).Some?
                      && (forall k :: 0 <= k < |families| ==> families[k].present.Some?)
                      && Scan(old(queues), families).graphicsFound
                      && Scan(old(queues), families).presentFound
                      && device.Some?
      ensures ok ==> queues == Scan(old(queues), families)
      ensures ok ==> info == DeviceCreateInfo(QueueCreateInfos(queues), RequiredValidationLayers(),
                                              RequiredPhysicalDeviceExtensions(), true)
      ensures ok ==> logicalDevice == device
    {
      info := DeviceCreateInfo([], [], [], false);
      if physicalDevice.None? || surface.None? {
        return false, info;
      }

      var i := 0;
      while i < |families|
        invariant 0 <= i <= |families|
        invariant queues == Scan(old(queues), families[..i])
        invariant forall k :: 0 <= k < i ==> families[k].present.Some?
      {
        var family := families[i];
        if family.present.None? {
          return false, info;
        }
        var present := family.present.value;
        if !queues.same {
          if family.graphics && present {
            queues := Queues(true, true, i, true, i);
          } else if family.graphics {
            queues := queues.(same := false, graphicsFound := true, graphicsIndex := i);
          } else if present {
            queues := queues.(same := false, presentFound := true, presentIndex := i);
          }
        }
        assert families[..i + 1][..i] == families[..i];
        i := i + 1;
      }
      assert families[..i] == families;

      if !queues.graphicsFound || !queues.presentFound {
        return false, info;
      }

      var queueCreateInfosCount := if queues.same then 1 else 2;
      var queueCreateInfos := new QueueCreateInfo[queueCreateInfosCount];
      queueCreateInfos[0] := QueueCreateInfo(queues.graphicsIndex, 1, QueuePriority);
      if !queues.same {
        queueCreateInfos[1] := QueueCreateInfo(queues.presentIndex, 1, QueuePriority);
      }
      info := DeviceCreateInfo(queueCreateInfos[..], requiredValidationLayers[..requiredValidationLayersCount],
                               requiredPhysicalDeviceExtensions[..requiredPhysicalDeviceExtensionsCount], true);

      if device.None? {
        return false, info;
      }
      logicalDevice := device;
      return true, info;
    }

    /**
     * The choices of Vulkan__CreateSwapChain: the B8G8R8A8_SRGB /
     * SRGB_NONLINEAR format (abort if absent), MAILBOX if listed else FIFO,
     * the buffer size as extent, the image count, and exclusive sharing for a
     * combined family or concurrent sharing over [graphics, present].
     * `driver` holds the answers of vkCreateSwapchainKHR and the two
     * vkGetSwapchainImagesKHR calls.
     */
    method CreateSwapChain(priorSwapChain: Option<Handle>, driver: SwapchainDriver)
      returns (ok: bool, info: SwapchainCreateInfo)
      modifies this`imagesCount, this`swapChain, this`imageFormat, this`extent
      ensures ok <==> && WantedFormat in formats
                      && driver.created.Some?
                      && driver.imageCount.Some? && driver.imageCount.value <= imagesCap
                      && driver.imagesFetched
      ensures ok ==> imagesCount == ImageCount(capabilities)
      ensures ok ==> info.minImageCount == imagesCount
      ensures ok ==> info.imageFormat == WantedFormat && imageFormat == VK_FORMAT_B8G8R8A8_SRGB
      ensures ok ==> (info.presentMode == VK_PRESENT_MODE_MAILBOX_KHR <==> VK_PRESENT_MODE_MAILBOX_KHR in presentModes)
      ensures ok ==> (info.presentMode != VK_PRESENT_MODE_MAILBOX_KHR ==> info.presentMode == VK_PRESENT_MODE_FIFO_KHR)
      ensures ok ==> info.imageExtent == Extent2D(view.bufferWidth, view.bufferHeight) == extent
      ensures ok ==> queues.same ==> info.imageSharingMode == VK_SHARING_MODE_EXCLUSIVE && info.queueFamilyIndices == []
      ensures ok ==> !queues.same ==> info.imageSharingMode == VK_SHARING_MODE_CONCURRENT
                                      && info.queueFamilyIndices == [queues.graphicsIndex, queues.presentIndex]
      ensures ok ==> info.oldSwapchain == priorSwapChain && swapChain == driver.created
    {
      info := SwapchainCreateInfo(0, SurfaceFormat(0, 0), Extent2D(0, 0), 0, [], 0, None);
      var format := FindSurfaceFormat(formats);
      if format.None? {
        return false, info;
      }
      var mode := ChoosePresentMode(presentModes);
      var ext := Extent2D(view.bufferWidth, view.bufferHeight);
      imagesCount := Clamp(ToU32(capabilities.minImageCount + 1), capabilities.minImageCount, capabilities.maxImageCount);

      var sharing, indices;
      if queues.same {
        sharing, indices := VK_SHARING_MODE_EXCLUSIVE, [];
      } else {
        sharing, indices := VK_SHARING_MODE_CONCURRENT, [queues.graphicsIndex, queues.presentIndex];
      }
      info := SwapchainCreateInfo(imagesCount, format.value, ext, sharing, indices, mode, priorSwapChain);

      if driver.created.None? {
        return false, info;
      }
      swapChain := driver.created;
      if driver.imageCount.None? || driver.imageCount.value > imagesCap || !driver.imagesFetched {
        return false, info;
      }
      imageFormat := format.value.format;
      extent := ext;
      return true, info;
    }
  }
}

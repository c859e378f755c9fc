/**
 Physical-device selection of vsg::PhysicalDevice::create.

 The Vulkan driver queries (vkEnumeratePhysicalDevices,
 vkGetPhysicalDeviceQueueFamilyProperties, vkGetPhysicalDeviceSurfaceSupportKHR)
 are replaced by their answers, given as data: an instance is the sequence of
 its devices in enumeration order, a device is the sequence of its queue
 families, and each family carries the answer of the surface-support query.
 Whether a surface was passed is the flag `hasSurface`.
 */
module PhysicalDevice {

  type uint32 = x: int | 0 <= x < 0x1_0000_0000

  /** VkQueueFlags: a 32-bit mask of VkQueueFlagBits. */
  type QueueFlags = bv32

  const VK_QUEUE_GRAPHICS_BIT: QueueFlags := 0x1
  const VK_QUEUE_COMPUTE_BIT: QueueFlags := 0x2
  const VK_QUEUE_TRANSFER_BIT: QueueFlags := 0x4
  const VK_QUEUE_SPARSE_BINDING_BIT: QueueFlags := 0x8

  /** VkResult codes the selection can fail with. */
  const VK_INCOMPLETE: int := 5
  const VK_ERROR_INVALID_EXTERNAL_HANDLE: int := -1000072003

  const UNDEFINED_INSTANCE_MESSAGE: string :=
    "Error: vsg::PhysicalDevice::create(...) failed to create physical device, undefined Instance."
  const NO_SUITABLE_DEVICE_MESSAGE: string :=
    "Error: vsg::Device::create(...) failed to create physical device."

  datatype Option<T> = None | Some(value: T)

  /**
   One VkQueueFamilyProperties record, together with the answer the driver
   gives for "does this family support presentation to the surface".
   */
  datatype QueueFamily = QueueFamily(queueFlags: QueueFlags, queueCount: uint32, presentSupported: bool)

  /** An instance, reduced to its physical devices' queue families in enumeration order. */
  datatype Instance = Instance(devices: seq<seq<QueueFamily>>)

  /**
   PhysicalDevice::Result: either the chosen device (its position in the
   enumeration) with its three family indices (-1 meaning unassigned), or an
   error message with a VkResult code.
   */
  datatype Result =
    | Ok(deviceIndex: nat, graphicsFamily: int, presentFamily: int, computeFamily: int)
    | Err(message: string, code: int)

  /** The three roles a queue family is scanned for. */
  datatype Role = Graphics | Compute | Present

  predicate Serves(family: QueueFamily, role: Role)
  {
    match role
    case Graphics => (family.queueFlags & VK_QUEUE_GRAPHICS_BIT) != 0
    case Compute => (family.queueFlags & VK_QUEUE_COMPUTE_BIT) != 0
    case Present => family.queueCount > 0 && family.presentSupported
  }

  /**
   The family a scan assigns to `role`: the greatest index whose family serves
   the role, or -1 when there is none (a later match overwrites an earlier one).
   */
  function LastServing(families: seq<QueueFamily>, role: Role): (r: int)
    ensures -1 <= r < |families|
    ensures r >= 0 ==> Serves(families[r], role)
    ensures forall j :: r < j < |families| ==> !Serves(families[j], role)
  {
    if |families| == 0 then -1
    else if Serves(families[|families| - 1], role) then |families| - 1
    else LastServing(families[..|families| - 1], role)
  }

  /** The mask holding the graphics bit, the compute bit, both or neither. */
  function Mask(graphics: bool, compute: bool): (m: QueueFlags)
    ensures m & !(VK_QUEUE_GRAPHICS_BIT | VK_QUEUE_COMPUTE_BIT) == 0
    ensures (m & VK_QUEUE_GRAPHICS_BIT != 0) == graphics && (m & VK_QUEUE_COMPUTE_BIT != 0) == compute
  {
    (if graphics then VK_QUEUE_GRAPHICS_BIT else 0) | (if compute then VK_QUEUE_COMPUTE_BIT else 0)
  }

  /**
   The `matchedQueues` mask a scan builds: the graphics bit when a graphics
   family was found, the compute bit when a compute family was found.
   */
  function MatchedQueues(families: seq<QueueFamily>): QueueFlags
  {
    Mask(LastServing(families, Graphics) >= 0, LastServing(families, Compute) >= 0)
  }

  /** ORing the graphics bit, then the compute bit, into a mask of found roles records the newly found roles. */
  lemma MaskGrows(graphics: bool, compute: bool, addGraphics: bool, addCompute: bool)
    ensures var withGraphics := if addGraphics then Mask(graphics, compute) | VK_QUEUE_GRAPHICS_BIT else Mask(graphics, compute);
      (if addCompute then withGraphics | VK_QUEUE_COMPUTE_BIT else withGraphics)
        == Mask(graphics || addGraphics, compute || addCompute)
  {
  }

  /** The matched mask holds the graphics (compute) bit exactly when some family has it. */
  lemma MatchedQueuesMeaning(families: seq<QueueFamily>)
    ensures MatchedQueues(families) & !(VK_QUEUE_GRAPHICS_BIT | VK_QUEUE_COMPUTE_BIT) == 0
    ensures (MatchedQueues(families) & VK_QUEUE_GRAPHICS_BIT != 0)
        <==> exists i :: 0 <= i < |families| && Serves(families[i], Graphics)
    ensures (MatchedQueues(families) & VK_QUEUE_COMPUTE_BIT != 0)
        <==> exists i :: 0 <= i < |families| && Serves(families[i], Compute)
  {
  }

  /** The locals that the scan over one device's queue families leaves behind. */
  datatype FamilyScan = FamilyScan(graphicsFamily: int, presentFamily: int, computeFamily: int, matchedQueues: QueueFlags)

  /**
   The scan of a device's queue families, one family at a time in index
   order: a family that has the graphics (compute) bit becomes the graphics
   (compute) family and adds that bit to the mask; with a surface, a family
   with queues that can present becomes the present family.
   */
  function Scan(families: seq<QueueFamily>, hasSurface: bool): (s: FamilyScan)
    ensures -1 <= s.graphicsFamily < |families|
    ensures -1 <= s.presentFamily < |families|
    ensures -1 <= s.computeFamily < |families|
    ensures !hasSurface ==> s.presentFamily == -1
  {
    if |families| == 0 then FamilyScan(-1, -1, -1, 0)
    else
      var i := |families| - 1;
      var family := families[i];
      var before := Scan(families[..i], hasSurface);
      var withGraphics :=
        if Serves(family, Graphics) then before.matchedQueues | VK_QUEUE_GRAPHICS_BIT else before.matchedQueues;
      FamilyScan(
        if Serves(family, Graphics) then i else before.graphicsFamily,
        if hasSurface && Serves(family, Present) then i else before.presentFamily,
        if Serves(family, Compute) then i else before.computeFamily,
        if Serves(family, Compute) then withGraphics | VK_QUEUE_COMPUTE_BIT else withGraphics)
  }

  /** The scan of one more family, as the loop body computes it from the scan so far. */
  lemma ScanExtends(families: seq<QueueFamily>, i: nat, hasSurface: bool)
    requires i < |families|
    ensures var before, family := Scan(families[..i], hasSurface), families[i];
      var withGraphics :=
        if Serves(family, Graphics) then before.matchedQueues | VK_QUEUE_GRAPHICS_BIT else before.matchedQueues;
      Scan(families[..i + 1], hasSurface) == FamilyScan(
        if Serves(family, Graphics) then i else before.graphicsFamily,
        if hasSurface && Serves(family, Present) then i else before.presentFamily,
        if Serves(family, Compute) then i else before.computeFamily,
        if Serves(family, Compute) then withGraphics | VK_QUEUE_COMPUTE_BIT else withGraphics)
  {
    assert families[..i + 1][..i] == families[..i];
  }

  /**
   The scan keeps the last match for every role: its indices are those of
   `LastServing` and its mask is `MatchedQueues`.
   */
  lemma {:induction false} ScanKeepsLastMatch(families: seq<QueueFamily>, hasSurface: bool)
    ensures Scan(families, hasSurface) == FamilyScan(
      LastServing(families, Graphics),
      if hasSurface then LastServing(families, Present) else -1,
      LastServing(families, Compute),
      MatchedQueues(families))
  {
    if |families| > 0 {
      var prefix := families[..|families| - 1];
      var family := families[|families| - 1];
      ScanKeepsLastMatch(prefix, hasSurface);
      MaskGrows(LastServing(prefix, Graphics) >= 0, LastServing(prefix, Compute) >= 0,
                Serves(family, Graphics), Serves(family, Compute));
    }
  }

  /**
   The acceptance test applied to a device's scan: every requested bit was
   matched, and a presenting family was found when there is a surface.
   */
  predicate Accepts(s: FamilyScan, queueFlags: QueueFlags, hasSurface: bool)
  {
    (s.matchedQueues & queueFlags) == queueFlags && (!hasSurface || s.presentFamily >= 0)
  }

  /** Whether a device, given by its queue families, passes the acceptance test. */
  predicate Qualifies(families: seq<QueueFamily>, queueFlags: QueueFlags, hasSurface: bool)
  {
    Accepts(Scan(families, hasSurface), queueFlags, hasSurface)
  }

  /** The success result for the device at `deviceIndex`, carrying the family indices its scan found. */
  function Chosen(deviceIndex: nat, s: FamilyScan): Result
  {
    Ok(deviceIndex, s.graphicsFamily, s.presentFamily, s.computeFamily)
  }

  /** Selection among the devices from position `i` on, one device at a time. */
  function SelectFrom(devices: seq<seq<QueueFamily>>, queueFlags: QueueFlags, hasSurface: bool, i: nat): Result
    requires i <= |devices|
    decreases |devices| - i
  {
    if i == |devices| then Err(NO_SUITABLE_DEVICE_MESSAGE, VK_INCOMPLETE)
    else if Qualifies(devices[i], queueFlags, hasSurface) then Chosen(i, Scan(devices[i], hasSurface))
    else SelectFrom(devices, queueFlags, hasSurface, i + 1)
  }

  /**
   What selection from position `i` on means: a success names a qualifying
   device at or after `i`, with its scanned family indices, and no device
   between `i` and it qualifies; a failure is the VK_INCOMPLETE error and no
   device from `i` on qualifies.
   */
  lemma {:induction false} SelectFromFindsFirst(devices: seq<seq<QueueFamily>>, queueFlags: QueueFlags, hasSurface: bool, i: nat)
    requires i <= |devices|
    ensures var r := SelectFrom(devices, queueFlags, hasSurface, i);
      && (r.Ok? ==>
        && i <= r.deviceIndex < |devices|
        && Qualifies(devices[r.deviceIndex], queueFlags, hasSurface)
        && (forall j :: i <= j < r.deviceIndex ==> !Qualifies(devices[j], queueFlags, hasSurface))
        && r == Chosen(r.deviceIndex, Scan(devices[r.deviceIndex], hasSurface)))
      && (r.Err? ==>
        && r == Err(NO_SUITABLE_DEVICE_MESSAGE, VK_INCOMPLETE)
        && forall j :: i <= j < |devices| ==> !Qualifies(devices[j], queueFlags, hasSurface))
    decreases |devices| - i
  {
    if i < |devices| && !Qualifies(devices[i], queueFlags, hasSurface) {
      SelectFromFindsFirst(devices, queueFlags, hasSurface, i + 1);
    }
  }

  /** One step of the selection, given the scan of the device at `i`: take it if it qualifies, else move on. */
  lemma SelectFromStep(devices: seq<seq<QueueFamily>>, queueFlags: QueueFlags, hasSurface: bool, i: nat, scan: FamilyScan)
    requires i < |devices| && scan == Scan(devices[i], hasSurface)
    ensures SelectFrom(devices, queueFlags, hasSurface, i)
      == if Accepts(scan, queueFlags, hasSurface)
         then Ok(i, scan.graphicsFamily, scan.presentFamily, scan.computeFamily)
         else SelectFrom(devices, queueFlags, hasSurface, i + 1)
  {
  }

  /** What PhysicalDevice::create returns, as a function of the driver's answers. */
  function Select(instance: Option<Instance>, queueFlags: QueueFlags, hasSurface: bool): Result
  {
    match instance
    case None => Err(UNDEFINED_INSTANCE_MESSAGE, VK_ERROR_INVALID_EXTERNAL_HANDLE)
    case Some(inst) => SelectFrom(inst.devices, queueFlags, hasSurface, 0)
  }

  /**
   The inner loop of PhysicalDevice::create over one device's queue families:
   the last graphics, compute and (with a surface) presenting family, and the
   mask of matched capabilities.
   */
  method ScanQueueFamilies(queueFamilies: seq<QueueFamily>, hasSurface: bool)
    returns (graphicsFamily: int, presentFamily: int, computeFamily: int, matchedQueues: QueueFlags)
    ensures FamilyScan(graphicsFamily, presentFamily, computeFamily, matchedQueues) == Scan(queueFamilies, hasSurface)
  {
    graphicsFamily, presentFamily, computeFamily := -1, -1, -1;
    matchedQueues := 0;
    var i := 0;
    while i < |queueFamilies|
      invariant 0 <= i <= |queueFamilies|
      invariant FamilyScan(graphicsFamily, presentFamily, computeFamily, matchedQueues) == Scan(queueFamilies[..i], hasSurface)
    {
      var queueFamily := queueFamilies[i];
      ScanExtends(queueFamilies, i, hasSurface);
      if (queueFamily.queueFlags & VK_QUEUE_GRAPHICS_BIT) != 0 {
        graphicsFamily := i;
        matchedQueues := matchedQueues | VK_QUEUE_GRAPHICS_BIT;
      }
      if (queueFamily.queueFlags & VK_QUEUE_COMPUTE_BIT) != 0 {
        computeFamily := i;
        matchedQueues := matchedQueues | VK_QUEUE_COMPUTE_BIT;
      }
      if hasSurface {
        if queueFamily.queueCount > 0 && queueFamily.presentSupported {
          presentFamily := i;
        }
      }
      i := i + 1;
    }
    assert queueFamilies[..i] == queueFamilies;
  }

  /**
   PhysicalDevice::create: scan each device's queue families in order and
   return the first device that provides the requested queue capabilities
   (and a presentation family when a surface is given).
   */
  method Create(instance: Option<Instance>, queueFlags: QueueFlags, hasSurface: bool) returns (r: Result)
    ensures r == Select(instance, queueFlags, hasSurface)
  {
    if instance.None? {
      return Err(UNDEFINED_INSTANCE_MESSAGE, VK_ERROR_INVALID_EXTERNAL_HANDLE);
    }
    var devices := instance.value.devices;
    var d := 0;
    while d < |devices|
      invariant 0 <= d <= |devices|
      invariant SelectFrom(devices, queueFlags, hasSurface, d) == SelectFrom(devices, queueFlags, hasSurface, 0)
    {
      var graphicsFamily, presentFamily, computeFamily, matchedQueues := ScanQueueFamilies(devices[d], hasSurface);
      var scan := FamilyScan(graphicsFamily, presentFamily, computeFamily, matchedQueues);
      SelectFromStep(devices, queueFlags, hasSurface, d, scan);
      if Accepts(scan, queueFlags, hasSurface) {
        return Ok(d, graphicsFamily, presentFamily, computeFamily);
      }
      d := d + 1;
    }
    return Err(NO_SUITABLE_DEVICE_MESSAGE, VK_INCOMPLETE);
  }

  /** Without an instance, no device is looked at and the handle error is returned. */
  lemma UndefinedInstanceIsRejected(queueFlags: QueueFlags, hasSurface: bool)
    ensures Select(None, queueFlags, hasSurface).Err?
    ensures Select(None, queueFlags, hasSurface).code == VK_ERROR_INVALID_EXTERNAL_HANDLE
  {
  }

  /**
   With an instance, selection succeeds exactly when some device qualifies;
   it then returns the first such device with that device's scan results, and
   otherwise fails with VK_INCOMPLETE (also when there are no devices at all).
   */
  lemma SelectReturnsFirstQualifyingDevice(inst: Instance, queueFlags: QueueFlags, hasSurface: bool)
    ensures var r := Select(Some(inst), queueFlags, hasSurface);
      && (r.Ok? <==> exists k :: 0 <= k < |inst.devices| && Qualifies(inst.devices[k], queueFlags, hasSurface))
      && (r.Ok? ==>
            && r.deviceIndex < |inst.devices|
            && Qualifies(inst.devices[r.deviceIndex], queueFlags, hasSurface)
            && (forall j :: 0 <= j < r.deviceIndex ==> !Qualifies(inst.devices[j], queueFlags, hasSurface))
            && r.graphicsFamily == LastServing(inst.devices[r.deviceIndex], Graphics)
            && r.computeFamily == LastServing(inst.devices[r.deviceIndex], Compute)
            && r.presentFamily == (if hasSurface then LastServing(inst.devices[r.deviceIndex], Present) else -1))
      && (r.Err? ==> r.code == VK_INCOMPLETE)
  {
    SelectFromFindsFirst(inst.devices, queueFlags, hasSurface, 0);
    var r := Select(Some(inst), queueFlags, hasSurface);
    if r.Ok? {
      ScanKeepsLastMatch(inst.devices[r.deviceIndex], hasSurface);
    }
  }

  lemma {:induction false} SelectFromIgnoresLaterDevices(
    devices: seq<seq<QueueFamily>>, more: seq<seq<QueueFamily>>, queueFlags: QueueFlags, hasSurface: bool, i: nat)
    requires i <= |devices|
    requires SelectFrom(devices, queueFlags, hasSurface, i).Ok?
    ensures SelectFrom(devices + more, queueFlags, hasSurface, i) == SelectFrom(devices, queueFlags, hasSurface, i)
    decreases |devices| - i
  {
    var all := devices + more;
    assert i < |devices|;
    assert all[i] == devices[i];
    if Qualifies(devices[i], queueFlags, hasSurface) {
      assert SelectFrom(all, queueFlags, hasSurface, i) == Chosen(i, Scan(devices[i], hasSurface));
    } else {
      assert SelectFrom(all, queueFlags, hasSurface, i) == SelectFrom(all, queueFlags, hasSurface, i + 1);
      SelectFromIgnoresLaterDevices(devices, more, queueFlags, hasSurface, i + 1);
    }
  }

  /**
   Enumeration stops at the first qualifying device: devices enumerated after
   it cannot change the result.
   */
  lemma LaterDevicesAreNeverExamined(devices: seq<seq<QueueFamily>>, more: seq<seq<QueueFamily>>, queueFlags: QueueFlags, hasSurface: bool)
    requires Select(Some(Instance(devices)), queueFlags, hasSurface).Ok?
    ensures Select(Some(Instance(devices + more)), queueFlags, hasSurface) == Select(Some(Instance(devices)), queueFlags, hasSurface)
  {
    SelectFromIgnoresLaterDevices(devices, more, queueFlags, hasSurface, 0);
  }

  /**
   `matchedQueues` never holds anything but the graphics and compute bits, so
   a request for any other bit (transfer, sparse binding, ...) fails on every
   instance, with or without a surface.
   */
  lemma OtherQueueBitsAreNeverMatched(inst: Instance, queueFlags: QueueFlags, hasSurface: bool)
    requires queueFlags & !(VK_QUEUE_GRAPHICS_BIT | VK_QUEUE_COMPUTE_BIT) != 0
    ensures Select(Some(inst), queueFlags, hasSurface) == Err(NO_SUITABLE_DEVICE_MESSAGE, VK_INCOMPLETE)
  {
    SelectFromFindsFirst(inst.devices, queueFlags, hasSurface, 0);
    var r := Select(Some(inst), queueFlags, hasSurface);
    if r.Ok? {
      ScanKeepsLastMatch(inst.devices[r.deviceIndex], hasSurface);
      assert false;
    }
  }

  /** Every family index of a selected device is -1 or a valid index of that device's families. */
  lemma SelectedFamilyIndicesAreInRange(inst: Instance, queueFlags: QueueFlags, hasSurface: bool)
    requires Select(Some(inst), queueFlags, hasSurface).Ok?
    ensures var r := Select(Some(inst), queueFlags, hasSurface);
      && r.deviceIndex < |inst.devices|
      && var n := |inst.devices[r.deviceIndex]|;
      && -1 <= r.graphicsFamily < n
      && -1 <= r.presentFamily < n
      && -1 <= r.computeFamily < n
  {
    SelectFromFindsFirst(inst.devices, queueFlags, hasSurface, 0);
  }

  /** Without a surface the present family stays unassigned and places no demand. */
  lemma NoSurfaceLeavesPresentFamilyUnassigned(families: seq<QueueFamily>, queueFlags: QueueFlags)
    ensures Scan(families, false).presentFamily == -1
    ensures Qualifies(families, queueFlags, false) <==> (MatchedQueues(families) & queueFlags) == queueFlags
  {
    ScanKeepsLastMatch(families, false);
  }

  /** A device without queue families qualifies only for the empty request without a surface. */
  lemma DeviceWithoutFamiliesQualifiesOnlyForEmptyRequest(queueFlags: QueueFlags, hasSurface: bool)
    ensures Qualifies([], queueFlags, hasSurface) <==> queueFlags == 0 && !hasSurface
  {
  }

  /** A device whose families all lack the graphics bit never satisfies a graphics request. */
  lemma NoGraphicsFamilyFailsGraphicsRequest(families: seq<QueueFamily>, queueFlags: QueueFlags, hasSurface: bool)
    requires forall i :: 0 <= i < |families| ==> (families[i].queueFlags & VK_QUEUE_GRAPHICS_BIT) == 0
    requires queueFlags & VK_QUEUE_GRAPHICS_BIT != 0
    ensures !Qualifies(families, queueFlags, hasSurface)
  {
    ScanKeepsLastMatch(families, hasSurface);
    MatchedQueuesMeaning(families);
  }

  /**
   Two devices, graphics and compute requested with a surface: the first
   device has only a compute family (index 1, which can also present), the
   second has a combined graphics/compute family at 0 and a presenting family
   at 2. The second device is chosen with families (0, 2, 0).
   */
  lemma TwoDeviceExample()
    ensures
      var d0 := [QueueFamily(VK_QUEUE_TRANSFER_BIT, 1, false), QueueFamily(VK_QUEUE_COMPUTE_BIT, 1, true)];
      var d1 := [QueueFamily(VK_QUEUE_GRAPHICS_BIT | VK_QUEUE_COMPUTE_BIT, 4, false),
                 QueueFamily(VK_QUEUE_TRANSFER_BIT, 2, false),
                 QueueFamily(VK_QUEUE_TRANSFER_BIT, 1, true)];
      Select(Some(Instance([d0, d1])), VK_QUEUE_GRAPHICS_BIT | VK_QUEUE_COMPUTE_BIT, true) == Ok(1, 0, 2, 0)
  {
    var d0 := [QueueFamily(VK_QUEUE_TRANSFER_BIT, 1, false), QueueFamily(VK_QUEUE_COMPUTE_BIT, 1, true)];
    var d1 := [QueueFamily(VK_QUEUE_GRAPHICS_BIT | VK_QUEUE_COMPUTE_BIT, 4, false),
               QueueFamily(VK_QUEUE_TRANSFER_BIT, 2, false),
               QueueFamily(VK_QUEUE_TRANSFER_BIT, 1, true)];
    assert d0[..1] == [d0[0]];
    assert LastServing(d0, Graphics) == -1;
    assert d1[..2] == [d1[0], d1[1]];
    assert d1[..2][..1] == [d1[0]];
    assert LastServing(d1, Graphics) == 0;
    assert LastServing(d1, Compute) == 0;
    assert LastServing(d1, Present) == 2;
    ScanKeepsLastMatch(d0, true);
    ScanKeepsLastMatch(d1, true);
    var request := VK_QUEUE_GRAPHICS_BIT | VK_QUEUE_COMPUTE_BIT;
    assert !Qualifies(d0, request, true);
    assert MatchedQueues(d1) == request;
    assert Qualifies(d1, request, true);
    var devices := [d0, d1];
    assert SelectFrom(devices, request, true, 1) == Ok(1, 0, 2, 0);
  }
}

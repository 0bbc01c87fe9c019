/**
 Queue-family discovery of `Device::findQueueFamilies` over the queue
 families a physical device reports, and the family the logical device's one
 queue is created on.
 */
module QueueFamilies {
  import opened Wrappers

  /** `VkQueueFlagBits`; a `VkQueueFlags` mask is the set of its bits. */
  datatype QueueFlag = Graphics | Compute | Transfer | SparseBinding | ProtectedMemory

  /** The outcome of `getSurfaceSupportKHR` for one family and the device's surface. */
  datatype SurfaceSupport = Supported(present: bool) | QueryFailed

  /** One entry of `getQueueFamilyProperties`, with its surface-support answer. */
  datatype QueueFamily = QueueFamily(queueFlags: set<QueueFlag>, surfaceSupport: SurfaceSupport)

  /** `Device::QueueFamilyIndices`: three independently optional family indices. */
  datatype QueueFamilyIndices = QueueFamilyIndices(
    graphicsFamily: Option<nat>, presentFamily: Option<nat>, computeFamily: Option<nat>)
  {
    /** `isComplete()`: all three roles are set. */
    predicate IsComplete() {
      graphicsFamily.Some? && presentFamily.Some? && computeFamily.Some?
    }
  }

  const Unset: QueueFamilyIndices := QueueFamilyIndices(None, None, None)

  /** Default of the `graphicsRequired` argument in the header. */
  const DefaultGraphicsRequired: bool := true

  /** The `std::runtime_error` thrown when the surface-support query fails. */
  datatype QueueError = SurfaceSupportQueryFailed

  datatype Role = GraphicsRole | PresentRole | ComputeRole

  /** Family `f` can serve `role`. */
  predicate Capable(f: QueueFamily, role: Role) {
    match role
    case GraphicsRole => Graphics in f.queueFlags
    case PresentRole => f.surfaceSupport == Supported(true)
    case ComputeRole => Compute in f.queueFlags
  }

  /** The largest index below `n` whose family can serve `role`. */
  function LastCapable(fs: seq<QueueFamily>, role: Role, n: nat): (r: Option<nat>)
    requires n <= |fs|
    ensures r.Some? ==> r.value < n && Capable(fs[r.value], role)
    ensures r.Some? ==> forall j :: r.value < j < n ==> !Capable(fs[j], role)
    ensures r.None? ==> forall j :: 0 <= j < n ==> !Capable(fs[j], role)
  {
    if n == 0 then None
    else if Capable(fs[n - 1], role) then Some(n - 1)
    else LastCapable(fs, role, n - 1)
  }

  /** Each role holds the last capable family among the first `n`. */
  function RolesUpTo(fs: seq<QueueFamily>, n: nat): QueueFamilyIndices
    requires n <= |fs|
  {
    QueueFamilyIndices(LastCapable(fs, GraphicsRole, n), LastCapable(fs, PresentRole, n), LastCapable(fs, ComputeRole, n))
  }

  /** Every role is served by some family among the first `n`. */
  predicate Filled(fs: seq<QueueFamily>, n: nat)
    requires n <= |fs|
  {
    RolesUpTo(fs, n).IsComplete()
  }

  /** A graphics-mode scan over `fs` ends after the first `n` families. */
  predicate StopsAt(fs: seq<QueueFamily>, n: nat)
    requires n <= |fs|
  {
    (Filled(fs, n) || n == |fs|) && (n == 0 || !Filled(fs, n - 1))
  }

  lemma {:induction false} FilledMonotone(fs: seq<QueueFamily>, m: nat, n: nat)
    requires m <= n <= |fs|
    requires Filled(fs, m)
    ensures Filled(fs, n)
  {
    var g, p, c := LastCapable(fs, GraphicsRole, m).value, LastCapable(fs, PresentRole, m).value, LastCapable(fs, ComputeRole, m).value;
    assert LastCapable(fs, GraphicsRole, n).Some? by { assert Capable(fs[g], GraphicsRole); }
    assert LastCapable(fs, PresentRole, n).Some? by { assert Capable(fs[p], PresentRole); }
    assert LastCapable(fs, ComputeRole, n).Some? by { assert Capable(fs[c], ComputeRole); }
  }

  /** A role after the loop from family `i` is the one it entered with, or a family from `i` on that can serve it. */
  predicate KeptOrCapable(fs: seq<QueueFamily>, i: nat, before: Option<nat>, after: Option<nat>, role: Role) {
    after == before || (after.Some? && i <= after.value < |fs| && Capable(fs[after.value], role))
  }

  /**
   The graphics-mode loop from family `i` on: each family capable of a role
   overwrites that role, a failed surface query aborts, and the loop stops
   once all three roles are set.
   */
  function ScanGraphics(fs: seq<QueueFamily>, i: nat, acc: QueueFamilyIndices): (r: Result<QueueFamilyIndices, QueueError>)
    requires i <= |fs|
    decreases |fs| - i
    ensures r.Failure? ==> exists j :: i <= j < |fs| && fs[j].surfaceSupport == QueryFailed
    ensures (forall j :: i <= j < |fs| ==> fs[j].surfaceSupport != QueryFailed) ==> r.Success?
    ensures r.Success? ==> KeptOrCapable(fs, i, acc.graphicsFamily, r.value.graphicsFamily, GraphicsRole)
    ensures r.Success? ==> KeptOrCapable(fs, i, acc.presentFamily, r.value.presentFamily, PresentRole)
    ensures r.Success? ==> KeptOrCapable(fs, i, acc.computeFamily, r.value.computeFamily, ComputeRole)
    ensures r.Success? && acc.IsComplete() ==> r.value.IsComplete()
  {
    if i == |fs| then Success(acc)
    else
      var f := fs[i];
      var withCompute := if Compute in f.queueFlags then acc.(computeFamily := Some(i)) else acc;
      var withGraphics := if Graphics in f.queueFlags then withCompute.(graphicsFamily := Some(i)) else withCompute;
      match f.surfaceSupport
      case QueryFailed => Failure(SurfaceSupportQueryFailed)
      case Supported(present) =>
        var next := if present then withGraphics.(presentFamily := Some(i)) else withGraphics;
        if next.IsComplete() then Success(next) else ScanGraphics(fs, i + 1, next)
  }

  /** The compute-only loop from family `i` on: stops at the first compute-capable family. */
  function ScanCompute(fs: seq<QueueFamily>, i: nat): (r: Option<nat>)
    requires i <= |fs|
    decreases |fs| - i
    ensures r.Some? ==> i <= r.value < |fs| && Compute in fs[r.value].queueFlags
    ensures r.Some? ==> forall j :: i <= j < r.value ==> Compute !in fs[j].queueFlags
    ensures r.None? ==> forall j :: i <= j < |fs| ==> Compute !in fs[j].queueFlags
  {
    if i == |fs| then None
    else if Compute in fs[i].queueFlags then Some(i)
    else ScanCompute(fs, i + 1)
  }

  /**
   `Device::findQueueFamilies`. Without graphics only the compute role is
   looked for, the lowest compute-capable family wins and the surface is never
   queried; the graphics-mode behaviour is stated by `GraphicsScanSpec`.
   */
  function FindQueueFamilies(fs: seq<QueueFamily>, graphicsRequired: bool): (r: Result<QueueFamilyIndices, QueueError>)
    ensures !graphicsRequired ==> r.Success? && r.value.graphicsFamily.None? && r.value.presentFamily.None?
    ensures !graphicsRequired && r.value.computeFamily.Some? ==>
      var c := r.value.computeFamily.value;
      c < |fs| && Compute in fs[c].queueFlags && forall j :: 0 <= j < c ==> Compute !in fs[j].queueFlags
    ensures !graphicsRequired && r.value.computeFamily.None? ==> forall j :: 0 <= j < |fs| ==> Compute !in fs[j].queueFlags
  {
    if graphicsRequired then ScanGraphics(fs, 0, Unset)
    else Success(Unset.(computeFamily := ScanCompute(fs, 0)))
  }

  /** One step of the graphics-mode loop turns the roles of the first `i` families into those of the first `i + 1`. */
  lemma ScanGraphicsStep(fs: seq<QueueFamily>, i: nat)
    requires i < |fs|
    requires fs[i].surfaceSupport != QueryFailed
    ensures var next := RolesUpTo(fs, i + 1);
      ScanGraphics(fs, i, RolesUpTo(fs, i)) == (if next.IsComplete() then Success(next) else ScanGraphics(fs, i + 1, next))
  {
  }

  /** The graphics-mode loop, entered at family `i` with the roles of the first `i` families. */
  lemma {:induction false} ScanGraphicsSpec(fs: seq<QueueFamily>, i: nat)
    requires i <= |fs|
    requires !Filled(fs, i)
    requires forall j :: 0 <= j < i ==> fs[j].surfaceSupport != QueryFailed
    decreases |fs| - i
    ensures var r := ScanGraphics(fs, i, RolesUpTo(fs, i));
      && (r.Success? <==> forall j :: 0 <= j < |fs| && fs[j].surfaceSupport == QueryFailed ==> Filled(fs, j))
      && (r.Success? ==> exists n :: i <= n <= |fs| && StopsAt(fs, n) && r.value == RolesUpTo(fs, n))
  {
    var acc := RolesUpTo(fs, i);
    var r := ScanGraphics(fs, i, acc);
    if i == |fs| {
      assert StopsAt(fs, i) by {
        if i > 0 && Filled(fs, i - 1) {
          FilledMonotone(fs, i - 1, i);
        }
      }
    } else {
      var f := fs[i];
      if f.surfaceSupport == QueryFailed {
        assert r.Failure?;
      } else {
        var next := RolesUpTo(fs, i + 1);
        ScanGraphicsStep(fs, i);
        if next.IsComplete() {
          assert StopsAt(fs, i + 1);
          forall j | 0 <= j < |fs| && fs[j].surfaceSupport == QueryFailed
            ensures Filled(fs, j)
          {
            FilledMonotone(fs, i + 1, j);
          }
        } else {
          ScanGraphicsSpec(fs, i + 1);
        }
      }
    }
  }

  /**
   `findQueueFamilies` with `graphicsRequired`: the scan ends after the first
   `n` families, where `n` is the shortest prefix in which every role has a
   capable family (or all families when there is none). Each role then holds
   the LAST capable index in that prefix, not the first. A failed surface
   query inside the scanned prefix aborts the whole call; one after it is
   never made.
   */
  lemma GraphicsScanSpec(fs: seq<QueueFamily>)
    ensures var r := FindQueueFamilies(fs, true);
      && (r.Success? <==> forall j :: 0 <= j < |fs| && fs[j].surfaceSupport == QueryFailed ==> Filled(fs, j))
      && (r.Success? ==> exists n :: 0 <= n <= |fs| && StopsAt(fs, n) && r.value == RolesUpTo(fs, n))
      && (r.Success? ==> (r.value.IsComplete() <==> Filled(fs, |fs|)))
  {
    assert RolesUpTo(fs, 0) == Unset;
    ScanGraphicsSpec(fs, 0);
    var r := FindQueueFamilies(fs, true);
    if r.Success? {
      var n :| 0 <= n <= |fs| && StopsAt(fs, n) && r.value == RolesUpTo(fs, n);
      if Filled(fs, n) {
        FilledMonotone(fs, n, |fs|);
      }
    }
  }

  /**
   The overwrite is observable: with a graphics-only family 0, a graphics and
   present family 1 and a compute family 2, the graphics role ends on family
   1 although family 0 is the first graphics-capable one.
   */
  lemma LaterFamilyOverwritesGraphics()
    ensures var fs := [
        QueueFamily({Graphics}, Supported(false)),
        QueueFamily({Graphics}, Supported(true)),
        QueueFamily({Compute}, Supported(false))];
      FindQueueFamilies(fs, true) == Success(QueueFamilyIndices(Some(1), Some(1), Some(2)))
  {
  }

  /**
   The family of the logical device's single queue: the graphics family when a
   surface exists, the compute family otherwise. `None` is the exception that
   `std::optional::value()` throws on an unset role.
   */
  function DeviceQueueFamily(indices: QueueFamilyIndices, hasSurface: bool): (r: Option<nat>)
    ensures r.None? <==> if hasSurface then indices.graphicsFamily.None? else indices.computeFamily.None?
    ensures hasSurface && indices.IsComplete() ==> r.Some?
    ensures hasSurface ==> r == indices.graphicsFamily
    ensures !hasSurface ==> r == indices.computeFamily
  {
    if hasSurface then indices.graphicsFamily else indices.computeFamily
  }

  /**
   When the scan ran in the mode matching the surface and found what that mode
   needs, the device queue's family exists and can do the work: graphics with
   a surface, compute without one.
   */
  lemma DeviceQueueFamilyIsCapable(fs: seq<QueueFamily>, hasSurface: bool, indices: QueueFamilyIndices)
    requires FindQueueFamilies(fs, hasSurface) == Success(indices)
    requires if hasSurface then indices.IsComplete() else indices.computeFamily.Some?
    ensures DeviceQueueFamily(indices, hasSurface).Some?
    ensures DeviceQueueFamily(indices, hasSurface).value < |fs|
    ensures hasSurface ==> Graphics in fs[DeviceQueueFamily(indices, hasSurface).value].queueFlags
    ensures !hasSurface ==> Compute in fs[DeviceQueueFamily(indices, hasSurface).value].queueFlags
  {
    if hasSurface {
      GraphicsScanSpec(fs);
      var n :| 0 <= n <= |fs| && StopsAt(fs, n) && indices == RolesUpTo(fs, n);
    }
  }
}

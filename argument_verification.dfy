/** The device, dtype and shape consistency checks of
    cheetah/utils/argument_verification.py.

    A tensor is reduced to the three attributes the checks read. A failed
    `assert all(...)` is an `AssertionError` carrying the assertion's message. */
module ArgumentVerification {
  import opened Wrappers

  type Device = string
  type DType = string
  type Shape = seq<nat>

  datatype TensorInfo = TensorInfo(device: Device, dtype: DType, shape: Shape)

  const DeviceMismatch := "All tensors must be on the same device."
  const DTypeMismatch := "All arguments must have the same dtype."
  const ShapeMismatch := "Arguments must have the same shape."

  /** `all(x == first for x in xs)`, evaluated element by element. */
  function AllEqual<T(==)>(xs: seq<T>, first: T): (r: bool)
    ensures r <==> forall i :: 0 <= i < |xs| ==> xs[i] == first
  {
    if |xs| == 0 then true else xs[0] == first && AllEqual(xs[1..], first)
  }

  function Devices(ts: seq<TensorInfo>): (r: seq<Device>)
    ensures |r| == |ts| && forall i :: 0 <= i < |ts| ==> r[i] == ts[i].device
  {
    seq(|ts|, i requires 0 <= i < |ts| => ts[i].device)
  }

  function DTypes(ts: seq<TensorInfo>): (r: seq<DType>)
    ensures |r| == |ts| && forall i :: 0 <= i < |ts| ==> r[i] == ts[i].dtype
  {
    seq(|ts|, i requires 0 <= i < |ts| => ts[i].dtype)
  }

  function Shapes(ts: seq<TensorInfo>): (r: seq<Shape>)
    ensures |r| == |ts| && forall i :: 0 <= i < |ts| ==> r[i] == ts[i].shape
  {
    seq(|ts|, i requires 0 <= i < |ts| => ts[i].shape)
  }

  /** `are_all_the_same_device`; `defaultDevice` stands for `torch.get_default_device()`. */
  function AreAllTheSameDevice(ts: seq<TensorInfo>, defaultDevice: Device): (r: Result<Device>)
    ensures |ts| == 0 ==> r == Ok(defaultDevice)
    ensures |ts| == 1 ==> r == Ok(ts[0].device)
    ensures |ts| > 1 ==> (r.Err? <==> exists i :: 0 <= i < |ts| && ts[i].device != ts[0].device)
    ensures r.Ok? && |ts| > 0 ==> r.value == ts[0].device
    ensures r.Err? ==> r.error == AssertionError(DeviceMismatch)
  {
    if |ts| > 1 && !AllEqual(Devices(ts), ts[0].device) then
      Err(AssertionError(DeviceMismatch))
    else
      Ok(if |ts| > 0 then ts[0].device else defaultDevice)
  }

  /** `are_all_the_same_dtype`; `defaultDType` stands for `torch.get_default_dtype()`. */
  function AreAllTheSameDType(ts: seq<TensorInfo>, defaultDType: DType): (r: Result<DType>)
    ensures |ts| == 0 ==> r == Ok(defaultDType)
    ensures |ts| == 1 ==> r == Ok(ts[0].dtype)
    ensures |ts| > 1 ==> (r.Err? <==> exists i :: 0 <= i < |ts| && ts[i].dtype != ts[0].dtype)
    ensures r.Ok? && |ts| > 0 ==> r.value == ts[0].dtype
    ensures r.Err? ==> r.error == AssertionError(DTypeMismatch)
  {
    if |ts| > 1 && !AllEqual(DTypes(ts), ts[0].dtype) then
      Err(AssertionError(DTypeMismatch))
    else
      Ok(if |ts| > 0 then ts[0].dtype else defaultDType)
  }

  /** `extract_argument_shape`: the common shape, or `Size([1])` for no arguments. */
  function ExtractArgumentShape(ts: seq<TensorInfo>): (r: Result<Shape>)
    ensures |ts| == 0 ==> r == Ok([1])
    ensures |ts| > 0 ==> (r.Ok? <==> forall i :: 0 <= i < |ts| ==> ts[i].shape == ts[0].shape)
    ensures r.Ok? && |ts| > 0 ==> r.value == ts[0].shape
    ensures r.Err? ==> r.error == AssertionError(ShapeMismatch)
  {
    if |ts| > 1 && !AllEqual(Shapes(ts), ts[0].shape) then
      Err(AssertionError(ShapeMismatch))
    else
      Ok(if |ts| > 0 then ts[0].shape else [1])
  }

  /** `[t for t in ts if t is not None]`. */
  function NotNones(ts: seq<Option<TensorInfo>>): (r: seq<TensorInfo>)
    ensures |r| <= |ts|
    ensures forall x :: x in r <==> Some(x) in ts
  {
    if |ts| == 0 then []
    else if ts[0].None? then NotNones(ts[1..])
    else [ts[0].value] + NotNones(ts[1..])
  }

  lemma {:induction false} NotNonesAppend(a: seq<Option<TensorInfo>>, b: seq<Option<TensorInfo>>)
    ensures NotNones(a + b) == NotNones(a) + NotNones(b)
  {
    if |a| > 0 {
      assert (a + b)[1..] == a[1..] + b;
      NotNonesAppend(a[1..], b);
    } else {
      assert a + b == b;
    }
  }

  /** `chosen_device`: the requested device when there is one, else the common device. */
  function ChosenDevice(notNones: seq<TensorInfo>, desired: Option<Device>, defaultDevice: Device): (r: Result<Device>)
    ensures desired.Some? ==> r == Ok(desired.value)
    ensures desired.None? ==>
      (r.Err? <==> |notNones| > 1 && exists i :: 0 <= i < |notNones| && notNones[i].device != notNones[0].device)
    ensures desired.None? && r.Ok? ==> forall i :: 0 <= i < |notNones| ==> r.value == notNones[i].device
    ensures desired.None? && |notNones| == 0 ==> r == Ok(defaultDevice)
    ensures r.Err? ==> r.error == AssertionError(DeviceMismatch)
  {
    if desired.Some? then Ok(desired.value) else AreAllTheSameDevice(notNones, defaultDevice)
  }

  /** `chosen_dtype`: the requested dtype when there is one, else the common dtype. */
  function ChosenDType(notNones: seq<TensorInfo>, desired: Option<DType>, defaultDType: DType): (r: Result<DType>)
    ensures desired.Some? ==> r == Ok(desired.value)
    ensures desired.None? ==>
      (r.Err? <==> |notNones| > 1 && exists i :: 0 <= i < |notNones| && notNones[i].dtype != notNones[0].dtype)
    ensures desired.None? && r.Ok? ==> forall i :: 0 <= i < |notNones| ==> r.value == notNones[i].dtype
    ensures desired.None? && |notNones| == 0 ==> r == Ok(defaultDType)
    ensures r.Err? ==> r.error == AssertionError(DTypeMismatch)
  {
    if desired.Some? then Ok(desired.value) else AreAllTheSameDType(notNones, defaultDType)
  }

  /** `verify_device_and_dtype`. The device is chosen first, so a device mismatch is
      the error reported when both checks would fail. */
  function VerifyDeviceAndDType(
    ts: seq<Option<TensorInfo>>, desiredDevice: Option<Device>, desiredDType: Option<DType>,
    defaultDevice: Device, defaultDType: DType): (r: Result<(Device, DType)>)
    ensures desiredDevice.Some? && desiredDType.Some? ==> r == Ok((desiredDevice.value, desiredDType.value))
    ensures r.Ok? && desiredDevice.Some? ==> r.value.0 == desiredDevice.value
    ensures r.Ok? && desiredDType.Some? ==> r.value.1 == desiredDType.value
    ensures desiredDevice.None? ==>
      (r == Err(AssertionError(DeviceMismatch)) <==>
       exists i, j :: 0 <= i < |ts| && 0 <= j < |ts| && ts[i].Some? && ts[j].Some? && ts[i].value.device != ts[j].value.device)
    ensures r.Ok? <==>
      && (desiredDevice.Some? || AllEqualOn(ts, (t: TensorInfo) => t.device))
      && (desiredDType.Some? || AllEqualOn(ts, (t: TensorInfo) => t.dtype))
    ensures r.Ok? && desiredDevice.None? ==>
      (NotNones(ts) == [] ==> r.value.0 == defaultDevice)
      && forall i :: 0 <= i < |ts| && ts[i].Some? ==> r.value.0 == ts[i].value.device
    ensures r.Ok? && desiredDType.None? ==>
      (NotNones(ts) == [] ==> r.value.1 == defaultDType)
      && forall i :: 0 <= i < |ts| && ts[i].Some? ==> r.value.1 == ts[i].value.dtype
  {
    SameAsAllEqualOn(ts, (t: TensorInfo) => t.device);
    SameAsAllEqualOn(ts, (t: TensorInfo) => t.dtype);
    PresentAreKept(ts);
    Choose(NotNones(ts), desiredDevice, desiredDType, defaultDevice, defaultDType)
  }

  /** The two choices of `verify_device_and_dtype` on the present tensors, device first. */
  function Choose(
    notNones: seq<TensorInfo>, desiredDevice: Option<Device>, desiredDType: Option<DType>,
    defaultDevice: Device, defaultDType: DType): Result<(Device, DType)>
  {
    var device := ChosenDevice(notNones, desiredDevice, defaultDevice);
    var dtype := ChosenDType(notNones, desiredDType, defaultDType);
    if device.Err? then Err(device.error)
    else if dtype.Err? then Err(dtype.error)
    else Ok((device.value, dtype.value))
  }

  /** Every present tensor of `ts` is one of `NotNones(ts)`. */
  lemma PresentAreKept(ts: seq<Option<TensorInfo>>)
    ensures forall i :: 0 <= i < |ts| && ts[i].Some? ==> ts[i].value in NotNones(ts)
  {
    forall i | 0 <= i < |ts| && ts[i].Some?
      ensures ts[i].value in NotNones(ts)
    {
      assert Some(ts[i].value) in ts;
    }
  }

  /** Every present entry of `ts` has the same value of attribute `f`. */
  ghost predicate AllEqualOn<A>(ts: seq<Option<TensorInfo>>, f: TensorInfo -> A) {
    forall i, j :: 0 <= i < |ts| && 0 <= j < |ts| && ts[i].Some? && ts[j].Some? ==> f(ts[i].value) == f(ts[j].value)
  }

  lemma SameAsAllEqualOn<A>(ts: seq<Option<TensorInfo>>, f: TensorInfo -> A)
    ensures var n := NotNones(ts);
      (forall i :: 0 <= i < |n| ==> f(n[i]) == f(n[0])) <==> AllEqualOn(ts, f)
  {
    var n := NotNones(ts);
    if forall i :: 0 <= i < |n| ==> f(n[i]) == f(n[0]) {
      forall i, j | 0 <= i < |ts| && 0 <= j < |ts| && ts[i].Some? && ts[j].Some?
        ensures f(ts[i].value) == f(ts[j].value)
      {
        assert ts[i].value in n;
        assert ts[j].value in n;
        var k :| 0 <= k < |n| && n[k] == ts[i].value;
        var l :| 0 <= l < |n| && n[l] == ts[j].value;
        assert f(n[k]) == f(n[0]) && f(n[l]) == f(n[0]);
      }
      assert AllEqualOn(ts, f);
    } else {
      var i :| 0 <= i < |n| && f(n[i]) != f(n[0]);
      assert Some(n[i]) in ts;
      assert Some(n[0]) in ts;
      var k :| 0 <= k < |ts| && ts[k] == Some(n[i]);
      var l :| 0 <= l < |ts| && ts[l] == Some(n[0]);
      assert f(ts[k].value) != f(ts[l].value);
      assert !AllEqualOn(ts, f);
    }
  }

  /** Absent (`None`) entries play no part: dropping them leaves the verdict unchanged. */
  lemma NonesIgnored(
    a: seq<Option<TensorInfo>>, b: seq<Option<TensorInfo>>, desiredDevice: Option<Device>,
    desiredDType: Option<DType>, defaultDevice: Device, defaultDType: DType)
    ensures VerifyDeviceAndDType(a + [None] + b, desiredDevice, desiredDType, defaultDevice, defaultDType)
         == VerifyDeviceAndDType(a + b, desiredDevice, desiredDType, defaultDevice, defaultDType)
  {
    var none: seq<Option<TensorInfo>> := [None];
    NotNonesAppend(a + none, b);
    NotNonesAppend(a, none);
    NotNonesAppend(a, b);
    assert NotNones(none) == [];
    assert NotNones(a + none + b) == NotNones(a + b);
  }

  /** The device check reads only the devices of the present tensors. */
  lemma DeviceFromDevices(a: seq<TensorInfo>, b: seq<TensorInfo>, defaultDevice: Device)
    requires Devices(a) == Devices(b)
    ensures AreAllTheSameDevice(a, defaultDevice) == AreAllTheSameDevice(b, defaultDevice)
  {
    if |a| > 0 {
      assert a[0].device == Devices(a)[0] == b[0].device;
    }
  }

  /** The dtype check reads only the dtypes of the present tensors. */
  lemma DTypeFromDTypes(a: seq<TensorInfo>, b: seq<TensorInfo>, defaultDType: DType)
    requires DTypes(a) == DTypes(b)
    ensures AreAllTheSameDType(a, defaultDType) == AreAllTheSameDType(b, defaultDType)
  {
    if |a| > 0 {
      assert a[0].dtype == DTypes(a)[0] == b[0].dtype;
    }
  }

  /** The device choice never looks at dtypes and the dtype choice never looks at
      devices: two argument lists whose present tensors carry the same devices get
      the same device and the same device verdict, whatever their dtypes (and
      shapes), and likewise for dtypes; agreeing on both, they get the same result. */
  lemma ChoicesIndependent(
    ts: seq<Option<TensorInfo>>, us: seq<Option<TensorInfo>>, desiredDevice: Option<Device>,
    desiredDType: Option<DType>, defaultDevice: Device, defaultDType: DType)
    ensures Devices(NotNones(ts)) == Devices(NotNones(us)) ==>
      ChosenDevice(NotNones(ts), desiredDevice, defaultDevice) == ChosenDevice(NotNones(us), desiredDevice, defaultDevice)
    ensures DTypes(NotNones(ts)) == DTypes(NotNones(us)) ==>
      ChosenDType(NotNones(ts), desiredDType, defaultDType) == ChosenDType(NotNones(us), desiredDType, defaultDType)
    ensures Devices(NotNones(ts)) == Devices(NotNones(us)) ==>
      (VerifyDeviceAndDType(ts, desiredDevice, desiredDType, defaultDevice, defaultDType) == Err(AssertionError(DeviceMismatch))
       <==> VerifyDeviceAndDType(us, desiredDevice, desiredDType, defaultDevice, defaultDType) == Err(AssertionError(DeviceMismatch)))
    ensures Devices(NotNones(ts)) == Devices(NotNones(us)) && DTypes(NotNones(ts)) == DTypes(NotNones(us)) ==>
      VerifyDeviceAndDType(ts, desiredDevice, desiredDType, defaultDevice, defaultDType)
      == VerifyDeviceAndDType(us, desiredDevice, desiredDType, defaultDevice, defaultDType)
  {
    var a, b := NotNones(ts), NotNones(us);
    assert DeviceMismatch != DTypeMismatch by {
      assert DeviceMismatch[4] != DTypeMismatch[4];
    }
    if Devices(a) == Devices(b) {
      DeviceFromDevices(a, b, defaultDevice);
    }
    if DTypes(a) == DTypes(b) {
      DTypeFromDTypes(a, b, defaultDType);
    }
  }
}

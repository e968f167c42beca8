/**
 * CameraSerialNumbers: finding a camera's USB serial number by bus and address.
 * The libusb device list is an input: `None` when listing fails, otherwise one record per device
 * holding what libusb reports about it.
 */
module CameraSerialNumbers {
  import opened Wrappers

  newtype uint8 = x: int | 0 <= x < 0x100
  newtype uint16 = x: int | 0 <= x < 0x1_0000

  /**
   * One entry of the device list: its bus number and address, the vendor id of its descriptor,
   * whether `libusb_open` succeeds on it, and the ASCII serial descriptor read from it
   * (empty when the read returns no bytes or an error).
   */
  datatype UsbDevice = UsbDevice(bus: uint8, address: uint8, idVendor: uint16, opens: bool, serialDescriptor: string)

  const SonyVendorId: uint16 := 0x054c
  const NotFound := "Serial number not found"
  const LeftCameraBus: uint8 := 2
  const LeftCameraDevice: uint8 := 3
  const RightCameraBus: uint8 := 2
  const RightCameraDevice: uint8 := 2

  /** The device sits at the requested bus and address, is a Sony device, opens and yields a serial. */
  predicate Qualifies(device: UsbDevice, bus: uint8, address: uint8)
  {
    device.bus == bus && device.address == address && device.idVendor == SonyVendorId
    && device.opens && |device.serialDescriptor| > 0
  }

  /** The position of the first qualifying device in list order. */
  function FirstQualifying(devices: seq<UsbDevice>, bus: uint8, address: uint8): (k: Option<nat>)
    ensures k.Some? ==> k.value < |devices| && Qualifies(devices[k.value], bus, address)
    ensures k.Some? ==> forall j :: 0 <= j < k.value ==> !Qualifies(devices[j], bus, address)
    ensures k.None? <==> forall j :: 0 <= j < |devices| ==> !Qualifies(devices[j], bus, address)
  {
    if devices == [] then None
    else if Qualifies(devices[0], bus, address) then Some(0)
    else
      match FirstQualifying(devices[1..], bus, address)
      case None =>
        assert forall j :: 1 <= j < |devices| ==> devices[j] == devices[1..][j - 1];
        None
      case Some(k) =>
        assert forall j :: 1 <= j < k + 1 ==> devices[j] == devices[1..][j - 1];
        Some(k + 1)
  }

  /** The serial number the search reports for a device list. */
  function SerialNumberOf(deviceList: Option<seq<UsbDevice>>, bus: uint8, address: uint8): string
  {
    if deviceList.None? then NotFound
    else
      match FirstQualifying(deviceList.value, bus, address)
      case None => NotFound
      case Some(k) => deviceList.value[k].serialDescriptor
  }

  /** `getCameraSerialNumber`: a scan of the device list that returns at the first qualifying device. */
  method GetCameraSerialNumber(deviceList: Option<seq<UsbDevice>>, busNumber: uint8, deviceAddress: uint8)
    returns (serial: string)
    ensures serial == SerialNumberOf(deviceList, busNumber, deviceAddress)
  {
    if deviceList.None? {
      return NotFound;
    }
    var devs := deviceList.value;
    var i := 0;
    while i < |devs|
      invariant 0 <= i <= |devs|
      invariant forall j :: 0 <= j < i ==> !Qualifies(devs[j], busNumber, deviceAddress)
    {
      var dev := devs[i];
      if dev.bus == busNumber && dev.address == deviceAddress {
        if dev.idVendor == SonyVendorId {
          if dev.opens {
            var bytesRead := |dev.serialDescriptor|;
            if bytesRead > 0 {
              FirstIsUnique(devs, busNumber, deviceAddress, i);
              return dev.serialDescriptor;
            }
          }
        }
      }
      i := i + 1;
    }
    return NotFound;
  }

  /** A qualifying device with no qualifying device before it is the one found. */
  lemma FirstIsUnique(devices: seq<UsbDevice>, bus: uint8, address: uint8, i: nat)
    requires i < |devices| && Qualifies(devices[i], bus, address)
    requires forall j :: 0 <= j < i ==> !Qualifies(devices[j], bus, address)
    ensures FirstQualifying(devices, bus, address) == Some(i)
  {
  }

  /** The reported serial is that of the first qualifying device in list order. */
  lemma FirstMatchSelected(devices: seq<UsbDevice>, bus: uint8, address: uint8, i: nat)
    requires i < |devices| && Qualifies(devices[i], bus, address)
    requires forall j :: 0 <= j < i ==> !Qualifies(devices[j], bus, address)
    ensures SerialNumberOf(Some(devices), bus, address) == devices[i].serialDescriptor
  {
    FirstIsUnique(devices, bus, address, i);
  }

  /**
   * A device at another bus or address, of another vendor, that fails to open or that yields
   * no bytes does not end the scan: the result is that of the rest of the list.
   */
  lemma {:induction false} NonQualifyingSkipped(device: UsbDevice, rest: seq<UsbDevice>, bus: uint8, address: uint8)
    requires device.bus != bus || device.address != address || device.idVendor != SonyVendorId
             || !device.opens || device.serialDescriptor == []
    ensures SerialNumberOf(Some([device] + rest), bus, address) == SerialNumberOf(Some(rest), bus, address)
  {
    assert ([device] + rest)[1..] == rest;
  }

  /** A device of another vendor is never the one whose serial is reported. */
  lemma WrongVendorNeverSelected(devices: seq<UsbDevice>, bus: uint8, address: uint8, i: nat)
    requires i < |devices| && devices[i].idVendor != SonyVendorId
    ensures FirstQualifying(devices, bus, address) != Some(i)
  {
  }

  /** When listing fails or no device qualifies, the result is "Serial number not found". */
  lemma NotFoundWhenNothingQualifies(deviceList: Option<seq<UsbDevice>>, bus: uint8, address: uint8)
    requires deviceList.Some? ==> forall j :: 0 <= j < |deviceList.value| ==> !Qualifies(deviceList.value[j], bus, address)
    ensures SerialNumberOf(deviceList, bus, address) == NotFound
  {
  }

  /** The two serial numbers the program keeps, filled from the USB bus on construction. */
  class CameraSerialNumberManager {
    var leftCameraSerialNumber: string
    var rightCameraSerialNumber: string

    /**
     * The constructor runs `populateCameraSerialNumbers`; each of its two searches lists the USB
     * devices afresh, so each gets its own device list.
     */
    constructor(leftScan: Option<seq<UsbDevice>>, rightScan: Option<seq<UsbDevice>>)
      ensures leftCameraSerialNumber == SerialNumberOf(leftScan, LeftCameraBus, LeftCameraDevice)
      ensures rightCameraSerialNumber == SerialNumberOf(rightScan, RightCameraBus, RightCameraDevice)
    {
      leftCameraSerialNumber := "";
      rightCameraSerialNumber := "";
      new;
      PopulateCameraSerialNumbers(leftScan, rightScan);
    }

    /** `getLeftCameraSerialNumber`: the serial number held for the left camera. */
    function GetLeftCameraSerialNumber(): (serial: string)
      reads this
      ensures serial == leftCameraSerialNumber
    {
      leftCameraSerialNumber
    }

    /** `getRightCameraSerialNumber`: the serial number held for the right camera. */
    function GetRightCameraSerialNumber(): (serial: string)
      reads this
      ensures serial == rightCameraSerialNumber
    {
      rightCameraSerialNumber
    }

    /** Sets the left serial; the getter then returns it and the right serial is unchanged. */
    method SetLeftCameraSerialNumber(serialNumber: string)
      modifies this
      ensures GetLeftCameraSerialNumber() == serialNumber
      ensures GetRightCameraSerialNumber() == old(GetRightCameraSerialNumber())
    {
      leftCameraSerialNumber := serialNumber;
    }

    /** Sets the right serial; the getter then returns it and the left serial is unchanged. */
    method SetRightCameraSerialNumber(serialNumber: string)
      modifies this
      ensures GetRightCameraSerialNumber() == serialNumber
      ensures GetLeftCameraSerialNumber() == old(GetLeftCameraSerialNumber())
    {
      rightCameraSerialNumber := serialNumber;
    }

    /** Left from bus 2, device 3; right from bus 2, device 2. */
    method PopulateCameraSerialNumbers(leftScan: Option<seq<UsbDevice>>, rightScan: Option<seq<UsbDevice>>)
      modifies this
      ensures leftCameraSerialNumber == SerialNumberOf(leftScan, LeftCameraBus, LeftCameraDevice)
      ensures rightCameraSerialNumber == SerialNumberOf(rightScan, RightCameraBus, RightCameraDevice)
    {
      leftCameraSerialNumber := GetCameraSerialNumber(leftScan, LeftCameraBus, LeftCameraDevice);
      rightCameraSerialNumber := GetCameraSerialNumber(rightScan, RightCameraBus, RightCameraDevice);
    }
  }
}

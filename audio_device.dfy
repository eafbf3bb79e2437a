/**
 * `AudioDevice` (Audio/Audio/AudioDevice.cs): the transfer object the web
 * service returns for a playback device; `AudioDeviceList` is a sequence of
 * them.
 */
module AudioDevices {
  import opened Wrappers
  import opened AudioUtilities

  class AudioDevice {
    /** `Id` and `Name` are null (`None`) until set. */
    var id: Option<string>
    var name: Option<string>
    var isCurrentDevice: bool

    /** `AudioDevice()`: nothing set. */
    constructor Empty()
      ensures id.None? && name.None? && !isCurrentDevice
    {
      id := None;
      name := None;
      isCurrentDevice := false;
    }

    /** `AudioDevice(device)`: the device's id and interface friendly name; not current. */
    constructor FromDevice(device: Win32AudioDevice)
      ensures id == Some(device.id) && name == Some(InterfaceFriendlyName(device)) && !isCurrentDevice
    {
      id := Some(device.id);
      name := Some(InterfaceFriendlyName(device));
      isCurrentDevice := false;
    }

    /** `AudioDevice(device, isCurrentDevice)`: the same, marked as given. */
    constructor FromDeviceMarked(device: Win32AudioDevice, isCurrentDevice: bool)
      ensures id == Some(device.id) && name == Some(InterfaceFriendlyName(device))
      ensures this.isCurrentDevice == isCurrentDevice
    {
      id := Some(device.id);
      name := Some(InterfaceFriendlyName(device));
      this.isCurrentDevice := isCurrentDevice;
    }

    method SetId(value: Option<string>)
      modifies this
      ensures id == value && name == old(name) && isCurrentDevice == old(isCurrentDevice)
    {
      id := value;
    }

    method SetName(value: Option<string>)
      modifies this
      ensures name == value && id == old(id) && isCurrentDevice == old(isCurrentDevice)
    {
      name := value;
    }

    method SetIsCurrentDevice(value: bool)
      modifies this
      ensures isCurrentDevice == value && id == old(id) && name == old(name)
    {
      isCurrentDevice := value;
    }
  }
}

# Bridge pattern: remote controls and devices

A model of a small C++ example of the Bridge pattern. The "implementation"
hierarchy is the device interface with two concrete devices, a TV and a radio.
Each device holds a power flag, a volume and a channel, and its getters and
setters read and write them verbatim. The "abstraction" hierarchy is a remote
control that holds a device and builds five buttons out of the device interface:
toggle power, volume down/up by ten and channel down/up by one. An advanced
remote adds a sixth button, mute. The program's entry point switches a TV on
through a basic remote and mutes a radio through an advanced remote.

Files:

- `devices.dfy` (module `Devices`): `DeviceState`, the state any device shows
  through its getters, with one function per setter. It also holds the classes
  `Tv` and `Radio`, whose fields are updated in place, and the datatype `Device`,
  which stands for the C++ abstract class. A `Device` value holds a reference to
  one concrete device and forwards each operation to it. Every operation has the
  same contract for both variants.
- `remotes.dfy` (module `Remotes`): the buttons as a datatype, `Press` (the
  state after one press, built from the device operations), `Run` (the state
  after a sequence of presses), and the classes `RemoteControl` and
  `AdvancedRemoteControl`. The volume and channel buttons read the device and
  write back a computed value, Power calls enable or disable according to the
  flag it reads, and Mute writes 0 without reading. Each method's postcondition
  spells out the changed field and also ties the new device state to `Press` of
  the old one. The `modifies` clause limits the
  change to the one device object. Lemmas about `Press` and `Run` state the
  involution, inverse and "no floor or ceiling" properties.
- `scenario.dfy` (module `Scenario`): the entry sequence, returning the final
  state of both devices.

## Model

| member | source | states |
|---|---|---|
| Devices.Tv.constructor | Bridge/Source.cpp:24-28 | a new TV is off, with volume 50 and channel 1 |
| Devices.Tv.IsEnabled | Bridge/Source.cpp:30-32 | returns the power flag and changes nothing |
| Devices.Tv.Enable | Bridge/Source.cpp:34-36 | the power flag becomes true; volume and channel are unchanged |
| Devices.Tv.Disable | Bridge/Source.cpp:38-40 | the power flag becomes false; volume and channel are unchanged |
| Devices.Tv.GetVolume | Bridge/Source.cpp:42-44 | returns the volume and changes nothing |
| Devices.Tv.SetVolume | Bridge/Source.cpp:46-48 | the volume becomes the argument exactly, unclamped; power and channel are unchanged |
| Devices.Tv.GetChannel | Bridge/Source.cpp:50-52 | returns the channel and changes nothing |
| Devices.Tv.SetChannel | Bridge/Source.cpp:54-56 | the channel becomes the argument exactly, unchecked; power and volume are unchanged |
| Devices.Radio.constructor | Bridge/Source.cpp:66-70 | a new radio is off, with volume 30 and channel 100 |
| Devices.Radio.IsEnabled | Bridge/Source.cpp:72-74 | returns the power flag and changes nothing |
| Devices.Radio.Enable | Bridge/Source.cpp:76-78 | the power flag becomes true; volume and channel are unchanged |
| Devices.Radio.Disable | Bridge/Source.cpp:80-82 | the power flag becomes false; volume and channel are unchanged |
| Devices.Radio.GetVolume | Bridge/Source.cpp:84-86 | returns the volume and changes nothing |
| Devices.Radio.SetVolume | Bridge/Source.cpp:88-90 | the volume becomes the argument exactly, unclamped; power and channel are unchanged |
| Devices.Radio.GetChannel | Bridge/Source.cpp:92-94 | returns the channel and changes nothing |
| Devices.Radio.SetChannel | Bridge/Source.cpp:96-98 | the channel becomes the argument exactly, unchecked; power and volume are unchanged |
| Devices.Device.IsEnabled | Bridge/Source.cpp:7 | the interface's getter returns the power flag of whichever device it holds |
| Devices.Device.Enable | Bridge/Source.cpp:8 | the interface's enable sets the power flag of the held device and nothing else |
| Devices.Device.Disable | Bridge/Source.cpp:9 | the interface's disable clears the power flag of the held device and nothing else |
| Devices.Device.GetVolume | Bridge/Source.cpp:10 | the interface's getter returns the held device's volume |
| Devices.Device.SetVolume | Bridge/Source.cpp:11 | the interface's setter stores the volume verbatim in the held device and nothing else |
| Devices.Device.GetChannel | Bridge/Source.cpp:12 | the interface's getter returns the held device's channel |
| Devices.Device.SetChannel | Bridge/Source.cpp:13 | the interface's setter stores the channel verbatim in the held device and nothing else |
| Devices.EnableIdempotent | Bridge/Source.cpp:34-36 | enable leaves the device on, enabling twice equals enabling once, and volume and channel are kept |
| Devices.DisableIdempotent | Bridge/Source.cpp:38-40 | disable leaves the device off, disabling twice equals disabling once, and volume and channel are kept |
| Devices.SetVolumeVerbatim | Bridge/Source.cpp:46-48 | after setVolume(v) of any integer v, the volume read back is exactly v; the other fields are kept |
| Devices.SetChannelVerbatim | Bridge/Source.cpp:54-56 | after setChannel(c) of any integer c, the channel read back is exactly c; the other fields are kept |
| Remotes.RemoteControl.constructor | Bridge/Source.cpp:108-110 | the remote is bound to the given device |
| Remotes.RemoteControl.TogglePower | Bridge/Source.cpp:112-119 | the held device's power flag is negated; volume and channel are unchanged; no other object changes |
| Remotes.RemoteControl.VolumeDown | Bridge/Source.cpp:121-123 | the held device's volume drops by exactly 10 with no floor; power and channel are unchanged |
| Remotes.RemoteControl.VolumeUp | Bridge/Source.cpp:125-127 | the held device's volume rises by exactly 10 with no ceiling; power and channel are unchanged |
| Remotes.RemoteControl.ChannelDown | Bridge/Source.cpp:129-131 | the held device's channel drops by exactly 1; power and volume are unchanged |
| Remotes.RemoteControl.ChannelUp | Bridge/Source.cpp:133-135 | the held device's channel rises by exactly 1; power and volume are unchanged |
| Remotes.AdvancedRemoteControl.constructor | Bridge/Source.cpp:141 | the advanced remote's inherited part is bound to the given device |
| Remotes.AdvancedRemoteControl.Mute | Bridge/Source.cpp:143-145 | the held device's volume becomes 0; power and channel are unchanged |
| Remotes.PowerInvolution | Bridge/Source.cpp:112-119 | a power press negates the power flag, two presses restore the original state, and volume and channel never move |
| Remotes.VolumeUpDownInverse | Bridge/Source.cpp:121-127 | volume up and down change the volume by exactly +10 and -10, each undoes the other, and power and channel are kept |
| Remotes.ChannelUpDownInverse | Bridge/Source.cpp:129-135 | channel up and down change the channel by exactly +1 and -1, each undoes the other, and power and volume are kept |
| Remotes.MuteZeroes | Bridge/Source.cpp:143-145 | mute yields volume 0 whatever the prior volume (zero or negative included), is idempotent, and keeps power and channel |
| Remotes.RunPower | Bridge/Source.cpp:112-119 | after any sequence of presses the device is on exactly when it started on and Power was pressed an even number of times, or started off and Power was pressed an odd number of times |
| Remotes.RunChannel | Bridge/Source.cpp:129-135 | after any sequence of presses the channel has moved by the number of channel-up presses minus the number of channel-down presses, with no bound |
| Remotes.RunVolume | Bridge/Source.cpp:121-127 | after any sequence of presses without mute, the volume has moved by 10 times the volume-up presses minus the volume-down presses, with no floor or ceiling |
| Remotes.MuteForgets | Bridge/Source.cpp:143-145 | after the last mute, the volume depends only on the later volume presses and not on anything before the mute |
| Scenario.EntrySequence | Bridge/Source.cpp:148-158 | the entry sequence ends with the TV on, volume 50 and channel 1, and the radio off, volume 0 and channel 100 |

## Left out

- Remotes.RemoteControl.VolumeUp: C++ `int` is 32 bits and `getVolume() + 10` overflowing is undefined behaviour. The model uses unbounded integers, so it does not capture that case.
- Remotes.RemoteControl.VolumeDown: unbounded integers; see the VolumeUp line above.
- Remotes.RemoteControl.ChannelUp: unbounded integers; see the VolumeUp line above.
- Remotes.RemoteControl.ChannelDown: unbounded integers; see the VolumeUp line above.
- Devices.Tv.SetVolume: the `int` parameter is modelled as an unbounded integer. No clamping is added, because the source has none. The same holds for the other setters.
- Virtual dispatch: the abstract class `Device` becomes the tagged datatype `Devices.Device`, whose operations match on the variant. `Tv` and `Radio` remain separate classes. Vtables and `override` are not modelled.
- Inheritance of `AdvancedRemoteControl` from `RemoteControl`: the advanced remote holds the basic remote it extends (`remote`) and reaches the inherited buttons through it. Both drive the same device.
- Pointer lifetime: the remote's non-owning pointer cannot dangle in the model, because Dafny references are never freed.
- `#include <iostream>` and the process exit status of `main` are I/O and runtime plumbing. `Scenario.EntrySequence` returns the final device states instead.
- `Remotes.Run` (a sequence of presses) is a specification aid for the lemmas. The program itself never presses more than one button per device.

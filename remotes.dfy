// The "abstraction" side of the Bridge: remote controls that hold a device
// and build their buttons out of the device interface alone.
module Remotes {
  import opened Devices

  /** The buttons of the remotes; Mute exists only on the advanced remote. */
  datatype Button = Power | VolumeDown | VolumeUp | ChannelDown | ChannelUp | Mute

  /**
   * The device state after one button press, written with the device
   * operations the remote calls. The volume and channel buttons read the
   * device and write back a computed value; Power calls enable or disable
   * according to the flag it reads; Mute writes 0 without reading.
   */
  function Press(s: DeviceState, b: Button): DeviceState {
    match b
    case Power => if s.enabled then s.Disable() else s.Enable()
    case VolumeDown => s.SetVolume(s.volume - 10)
    case VolumeUp => s.SetVolume(s.volume + 10)
    case ChannelDown => s.SetChannel(s.channel - 1)
    case ChannelUp => s.SetChannel(s.channel + 1)
    case Mute => s.SetVolume(0)
  }

  /** The device state after the presses in order, the first one first. */
  ghost function Run(s: DeviceState, presses: seq<Button>): DeviceState
    decreases |presses|
  {
    if presses == [] then s else Run(Press(s, presses[0]), presses[1..])
  }

  // Each remote method states its new device state twice: written out field
  // by field, which is its documented promise, and as `Press` of the old
  // state, which links the method to the lemmas about `Press` and `Run`.
  class RemoteControl {
    /** The device this remote drives; it is borrowed, never replaced. */
    const device: Device

    constructor (device: Device)
      ensures this.device == device
    {
      this.device := device;
    }

    method TogglePower()
      modifies device.Obj()
      ensures device.State() == Press(old(device.State()), Power)
      ensures device.State() == old(device.State()).(enabled := !old(device.State()).enabled)
    {
      var on := device.IsEnabled();
      if on {
        device.Disable();
      } else {
        device.Enable();
      }
    }

    method VolumeDown()
      modifies device.Obj()
      ensures device.State() == Press(old(device.State()), Button.VolumeDown)
      ensures device.State() == old(device.State()).(volume := old(device.State()).volume - 10)
    {
      var v := device.GetVolume();
      device.SetVolume(v - 10);
    }

    method VolumeUp()
      modifies device.Obj()
      ensures device.State() == Press(old(device.State()), Button.VolumeUp)
      ensures device.State() == old(device.State()).(volume := old(device.State()).volume + 10)
    {
      var v := device.GetVolume();
      device.SetVolume(v + 10);
    }

    method ChannelDown()
      modifies device.Obj()
      ensures device.State() == Press(old(device.State()), Button.ChannelDown)
      ensures device.State() == old(device.State()).(channel := old(device.State()).channel - 1)
    {
      var c := device.GetChannel();
      device.SetChannel(c - 1);
    }

    method ChannelUp()
      modifies device.Obj()
      ensures device.State() == Press(old(device.State()), Button.ChannelUp)
      ensures device.State() == old(device.State()).(channel := old(device.State()).channel + 1)
    {
      var c := device.GetChannel();
      device.SetChannel(c + 1);
    }
  }

  /**
   * The advanced remote: every button of the basic remote (reached through
   * `remote`, which drives the same device) plus Mute.
   */
  class AdvancedRemoteControl {
    const remote: RemoteControl

    constructor (device: Device)
      ensures remote.device == device
    {
      remote := new RemoteControl(device);
    }

    method Mute()
      modifies remote.device.Obj()
      ensures remote.device.State() == Press(old(remote.device.State()), Button.Mute)
      ensures remote.device.State() == old(remote.device.State()).(volume := 0)
    {
      remote.device.SetVolume(0);
    }
  }

  /** Pressing Power twice restores the power state, and volume and channel never move. */
  lemma PowerInvolution(s: DeviceState)
    ensures Press(s, Power).enabled == !s.enabled
    ensures Press(Press(s, Power), Power) == s
    ensures Press(s, Power).volume == s.volume && Press(s, Power).channel == s.channel
  {
  }

  /** Volume up and volume down move by exactly ten, undo each other and leave power and channel. */
  lemma VolumeUpDownInverse(s: DeviceState)
    ensures Press(s, VolumeUp).volume == s.volume + 10
    ensures Press(s, VolumeDown).volume == s.volume - 10
    ensures Press(Press(s, VolumeUp), VolumeDown) == s
    ensures Press(Press(s, VolumeDown), VolumeUp) == s
    ensures Press(s, VolumeUp).enabled == s.enabled && Press(s, VolumeUp).channel == s.channel
    ensures Press(s, VolumeDown).enabled == s.enabled && Press(s, VolumeDown).channel == s.channel
  {
  }

  /** Channel up and channel down move by exactly one, undo each other and leave power and volume. */
  lemma ChannelUpDownInverse(s: DeviceState)
    ensures Press(s, ChannelUp).channel == s.channel + 1
    ensures Press(s, ChannelDown).channel == s.channel - 1
    ensures Press(Press(s, ChannelUp), ChannelDown) == s
    ensures Press(Press(s, ChannelDown), ChannelUp) == s
    ensures Press(s, ChannelUp).enabled == s.enabled && Press(s, ChannelUp).volume == s.volume
    ensures Press(s, ChannelDown).enabled == s.enabled && Press(s, ChannelDown).volume == s.volume
  {
  }

  /** Mute gives volume 0 from any volume, is idempotent and leaves power and channel. */
  lemma MuteZeroes(s: DeviceState, v: int)
    ensures Press(s, Mute).volume == 0
    ensures Press(s.SetVolume(v), Mute) == Press(s, Mute)
    ensures Press(Press(s, Mute), Mute) == Press(s, Mute)
    ensures Press(s, Mute).enabled == s.enabled && Press(s, Mute).channel == s.channel
  {
  }

  /** Pressing a sequence of buttons and then another is pressing their concatenation. */
  lemma {:induction false} RunAppend(s: DeviceState, a: seq<Button>, b: seq<Button>)
    ensures Run(s, a + b) == Run(Run(s, a), b)
    decreases |a|
  {
    if a == [] {
      assert a + b == b;
    } else {
      assert (a + b)[0] == a[0];
      assert (a + b)[1..] == a[1..] + b;
      RunAppend(Press(s, a[0]), a[1..], b);
    }
  }

  /** After any presses the device is on exactly when it was on and Power was pressed an even number of times. */
  lemma {:induction false} RunPower(s: DeviceState, presses: seq<Button>)
    ensures Run(s, presses).enabled == (s.enabled == (multiset(presses)[Power] % 2 == 0))
    decreases |presses|
  {
    if presses != [] {
      assert presses == [presses[0]] + presses[1..];
      RunPower(Press(s, presses[0]), presses[1..]);
    }
  }

  /**
   * No button resets the channel and nothing bounds it: after any presses it has
   * moved by the Channel-Up presses minus the Channel-Down presses.
   */
  lemma {:induction false} RunChannel(s: DeviceState, presses: seq<Button>)
    ensures Run(s, presses).channel
      == s.channel + multiset(presses)[ChannelUp] - multiset(presses)[ChannelDown]
    decreases |presses|
  {
    if presses != [] {
      assert presses == [presses[0]] + presses[1..];
      RunChannel(Press(s, presses[0]), presses[1..]);
    }
  }

  /**
   * Without Mute, the volume moves by ten per Volume-Up press and minus ten per
   * Volume-Down press, with no floor and no ceiling.
   */
  lemma {:induction false} RunVolume(s: DeviceState, presses: seq<Button>)
    requires Mute !in presses
    ensures Run(s, presses).volume
      == s.volume + 10 * (multiset(presses)[VolumeUp] as int - multiset(presses)[VolumeDown])
    decreases |presses|
  {
    if presses != [] {
      assert presses == [presses[0]] + presses[1..];
      RunVolume(Press(s, presses[0]), presses[1..]);
    }
  }

  /**
   * Mute keeps no memory of the volume it replaced: after the last Mute the
   * volume is determined by the later volume presses alone.
   */
  lemma MuteForgets(s: DeviceState, before: seq<Button>, after: seq<Button>)
    requires Mute !in after
    ensures Run(s, before + [Mute] + after).volume
      == 10 * (multiset(after)[VolumeUp] as int - multiset(after)[VolumeDown])
  {
    RunAppend(s, before + [Mute], after);
    RunAppend(s, before, [Mute]);
    RunVolume(Run(s, before + [Mute]), after);
  }
}

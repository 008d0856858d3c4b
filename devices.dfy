// The "implementation" side of the Bridge: the device interface and its two
// concrete devices, a TV and a radio. Both keep a power flag, a volume and a
// channel, and read and write them verbatim: there is no clamping anywhere.
module Devices {

  /** The observable state of any device: what its three getters return. */
  datatype DeviceState = DeviceState(enabled: bool, volume: int, channel: int) {

    /** The state after `enable()`. */
    function Enable(): DeviceState {
      this.(enabled := true)
    }

    /** The state after `disable()`. */
    function Disable(): DeviceState {
      this.(enabled := false)
    }

    /** The state after `setVolume(percent)`: the argument is stored as given. */
    function SetVolume(percent: int): DeviceState {
      this.(volume := percent)
    }

    /** The state after `setChannel(channel)`: the argument is stored as given. */
    function SetChannel(channel: int): DeviceState {
      this.(channel := channel)
    }
  }

  /** Defaults a TV is constructed with. */
  const TvDefaults := DeviceState(false, 50, 1)

  /** Defaults a radio is constructed with. */
  const RadioDefaults := DeviceState(false, 30, 100)

  class Tv {
    var enabled: bool
    var volume: int
    var channel: int

    function State(): DeviceState
      reads this
    {
      DeviceState(enabled, volume, channel)
    }

    constructor ()
      ensures State() == TvDefaults
    {
      enabled := false;
      volume := 50;
      channel := 1;
    }

    method IsEnabled() returns (b: bool)
      ensures b == State().enabled
    {
      b := enabled;
    }

    method Enable()
      modifies this
      ensures State() == old(State()).Enable()
    {
      enabled := true;
    }

    method Disable()
      modifies this
      ensures State() == old(State()).Disable()
    {
      enabled := false;
    }

    method GetVolume() returns (v: int)
      ensures v == State().volume
    {
      v := volume;
    }

    method SetVolume(percent: int)
      modifies this
      ensures State() == old(State()).SetVolume(percent)
    {
      volume := percent;
    }

    method GetChannel() returns (c: int)
      ensures c == State().channel
    {
      c := channel;
    }

    method SetChannel(channel: int)
      modifies this
      ensures State() == old(State()).SetChannel(channel)
    {
      this.channel := channel;
    }
  }

  class Radio {
    var enabled: bool
    var volume: int
    var channel: int

    function State(): DeviceState
      reads this
    {
      DeviceState(enabled, volume, channel)
    }

    constructor ()
      ensures State() == RadioDefaults
    {
      enabled := false;
      volume := 30;
      channel := 100;
    }

    method IsEnabled() returns (b: bool)
      ensures b == State().enabled
    {
      b := enabled;
    }

    method Enable()
      modifies this
      ensures State() == old(State()).Enable()
    {
      enabled := true;
    }

    method Disable()
      modifies this
      ensures State() == old(State()).Disable()
    {
      enabled := false;
    }

    method GetVolume() returns (v: int)
      ensures v == State().volume
    {
      v := volume;
    }

    method SetVolume(percent: int)
      modifies this
      ensures State() == old(State()).SetVolume(percent)
    {
      volume := percent;
    }

    method GetChannel() returns (c: int)
      ensures c == State().channel
    {
      c := channel;
    }

    method SetChannel(channel: int)
      modifies this
      ensures State() == old(State()).SetChannel(channel)
    {
      this.channel := channel;
    }
  }

  /**
   * The abstract device interface: a reference to either concrete device.
   * Each operation dispatches to the variant it holds, and each promises
   * the same contract whichever variant that is.
   */
  datatype Device = TvDevice(tv: Tv) | RadioDevice(radio: Radio) {

    /** The one object an operation on this device may read or change. */
    function Obj(): object {
      match this
      case TvDevice(t) => t
      case RadioDevice(r) => r
    }

    function State(): DeviceState
      reads Obj()
    {
      match this
      case TvDevice(t) => t.State()
      case RadioDevice(r) => r.State()
    }

    method IsEnabled() returns (b: bool)
      ensures b == State().enabled
    {
      match this
      case TvDevice(t) => b := t.IsEnabled();
      case RadioDevice(r) => b := r.IsEnabled();
    }

    method Enable()
      modifies Obj()
      ensures State() == old(State()).Enable()
    {
      match this
      case TvDevice(t) => t.Enable();
      case RadioDevice(r) => r.Enable();
    }

    method Disable()
      modifies Obj()
      ensures State() == old(State()).Disable()
    {
      match this
      case TvDevice(t) => t.Disable();
      case RadioDevice(r) => r.Disable();
    }

    method GetVolume() returns (v: int)
      ensures v == State().volume
    {
      match this
      case TvDevice(t) => v := t.GetVolume();
      case RadioDevice(r) => v := r.GetVolume();
    }

    method SetVolume(percent: int)
      modifies Obj()
      ensures State() == old(State()).SetVolume(percent)
    {
      match this
      case TvDevice(t) => t.SetVolume(percent);
      case RadioDevice(r) => r.SetVolume(percent);
    }

    method GetChannel() returns (c: int)
      ensures c == State().channel
    {
      match this
      case TvDevice(t) => c := t.GetChannel();
      case RadioDevice(r) => c := r.GetChannel();
    }

    method SetChannel(channel: int)
      modifies Obj()
      ensures State() == old(State()).SetChannel(channel)
    {
      match this
      case TvDevice(t) => t.SetChannel(channel);
      case RadioDevice(r) => r.SetChannel(channel);
    }
  }

  /** `enable` switches the power on, is idempotent and touches nothing else. */
  lemma EnableIdempotent(s: DeviceState)
    ensures s.Enable().enabled
    ensures s.Enable().Enable() == s.Enable()
    ensures s.Enable().volume == s.volume && s.Enable().channel == s.channel
  {
  }

  /** `disable` switches the power off, is idempotent and touches nothing else. */
  lemma DisableIdempotent(s: DeviceState)
    ensures !s.Disable().enabled
    ensures s.Disable().Disable() == s.Disable()
    ensures s.Disable().volume == s.volume && s.Disable().channel == s.channel
  {
  }

  /**
   * `setVolume` stores any integer verbatim (negative or above 100 included),
   * so the next `getVolume` returns exactly it; power and channel are kept.
   */
  lemma SetVolumeVerbatim(s: DeviceState, percent: int)
    ensures s.SetVolume(percent).volume == percent
    ensures s.SetVolume(percent).enabled == s.enabled
    ensures s.SetVolume(percent).channel == s.channel
  {
  }

  /**
   * `setChannel` stores any integer verbatim, so the next `getChannel`
   * returns exactly it; power and volume are kept.
   */
  lemma SetChannelVerbatim(s: DeviceState, channel: int)
    ensures s.SetChannel(channel).channel == channel
    ensures s.SetChannel(channel).enabled == s.enabled
    ensures s.SetChannel(channel).volume == s.volume
  {
  }
}

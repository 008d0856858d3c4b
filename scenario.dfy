// The program's entry sequence: a TV driven by a basic remote and a radio
// driven by an advanced remote, one button each.
module Scenario {
  import opened Devices
  import opened Remotes

  /** Runs the entry sequence and returns the final state of the TV and of the radio. */
  method EntrySequence() returns (tvState: DeviceState, radioState: DeviceState)
    ensures tvState == DeviceState(true, 50, 1)
    ensures radioState == DeviceState(false, 0, 100)
  {
    var tv := new Tv();
    var remote := new RemoteControl(TvDevice(tv));
    remote.TogglePower();

    var radio := new Radio();
    var advancedRemote := new AdvancedRemoteControl(RadioDevice(radio));
    advancedRemote.Mute();

    tvState := tv.State();
    radioState := radio.State();
  }
}

/** Playback helper `SpotifyPlayer`: picks a device, starts a track, pauses it,
    and, where pausing is refused, fades the volume out instead.

    The Spotify Web API is an oracle here: the device list it reports and
    whether each request raises `SpotifyException` are parameters. Every request
    the player sends is appended to the `calls` log, so a method's effect on the
    remote player is stated as the calls it issues, in order. */
module SpotifyPlayer {
  import opened Wrappers

  /** One entry of the `devices` answer: `id`, `is_active`, `is_restricted`,
      `volume_percent`. An absent id or volume is `None`. */
  datatype Device = Device(id: Option<seq<char>>, isActive: bool, isRestricted: bool,
                           volumePercent: Option<int>)

  /** A request sent to the remote player. `device` is `None` when the request
      names no device. */
  datatype Call =
    | StartPlayback(device: Option<seq<char>>, uri: seq<char>, positionMs: Option<int>)
    | Pause(device: Option<seq<char>>)
    | SetVolume(percent: int, device: Option<seq<char>>)

  function Max(a: int, b: int): int { if a >= b then a else b }
  function Min(a: int, b: int): int { if a <= b then a else b }

  // ---------------------------------------------------------------------------
  // Device choice (`get_active_device_id`)
  // ---------------------------------------------------------------------------

  /** The index of the first device satisfying `p`, if any. */
  function FirstMatch(ds: seq<Device>, p: Device -> bool, from: nat): (r: Option<nat>)
    requires from <= |ds|
    ensures r.Some? ==> from <= r.value < |ds| && p(ds[r.value])
    ensures r.Some? ==> forall j | from <= j < r.value :: !p(ds[j])
    ensures r.None? ==> forall j | from <= j < |ds| :: !p(ds[j])
    decreases |ds| - from
  {
    if from == |ds| then None
    else if p(ds[from]) then Some(from)
    else FirstMatch(ds, p, from + 1)
  }

  predicate Preferred(d: Device) { d.isActive && !d.isRestricted }
  predicate Unrestricted(d: Device) { !d.isRestricted }

  /** The index of the device `get_active_device_id` reports. */
  function ChosenDevice(ds: seq<Device>): (r: Option<nat>)
    ensures r.Some? ==> r.value < |ds|
    ensures r.None? <==> ds == []
  {
    match FirstMatch(ds, Preferred, 0)
    case Some(i) => Some(i)
    case None =>
      match FirstMatch(ds, Unrestricted, 0)
      case Some(i) => Some(i)
      case None => if ds == [] then None else Some(0)
  }

  /** `get_active_device_id`: the id of the chosen device, `None` for no device. */
  function ActiveDeviceId(ds: seq<Device>): (id: Option<seq<char>>)
    ensures id.Some? ==> exists k | 0 <= k < |ds| :: ds[k].id == id
    ensures ds == [] ==> id.None?
  {
    match ChosenDevice(ds)
    case Some(k) => ds[k].id
    case None => None
  }

  /** The three tiers of the choice: the first active unrestricted device; else
      the first unrestricted one; else the first device. */
  lemma ActiveDeviceIdTiers(ds: seq<Device>, k: nat)
    requires k < |ds|
    ensures Preferred(ds[k]) && (forall j | 0 <= j < k :: !Preferred(ds[j])) ==>
              ActiveDeviceId(ds) == ds[k].id
    ensures (forall j | 0 <= j < |ds| :: !Preferred(ds[j])) &&
            Unrestricted(ds[k]) && (forall j | 0 <= j < k :: !Unrestricted(ds[j])) ==>
              ActiveDeviceId(ds) == ds[k].id
    ensures (forall j | 0 <= j < |ds| :: !Unrestricted(ds[j])) ==>
              ActiveDeviceId(ds) == ds[0].id
  {
    var p := FirstMatch(ds, Preferred, 0);
    var u := FirstMatch(ds, Unrestricted, 0);
    if Preferred(ds[k]) && (forall j | 0 <= j < k :: !Preferred(ds[j])) {
      assert p.Some?;
      assert p.value == k;
    }
    if (forall j | 0 <= j < |ds| :: !Preferred(ds[j])) &&
       Unrestricted(ds[k]) && (forall j | 0 <= j < k :: !Unrestricted(ds[j])) {
      assert p.None? && u.Some?;
      assert u.value == k;
    }
    if u.Some? {
      assert Unrestricted(ds[u.value]);
    }
  }

  /** A device preferred over all others is chosen whatever follows it. */
  lemma PreferredDeviceWins(ds: seq<Device>, d: Device)
    requires Preferred(d)
    ensures ActiveDeviceId([d] + ds) == d.id
  {
    ActiveDeviceIdTiers([d] + ds, 0);
  }

  // ---------------------------------------------------------------------------
  // Fade-out schedule (`_try_fade_out`)
  // ---------------------------------------------------------------------------

  /** `int(a / b)` for `b > 0`: division truncated toward zero. */
  function TruncDiv(a: int, b: int): (q: int)
    requires b > 0
    ensures a >= 0 ==> 0 <= q <= a
    ensures a < 0 ==> a <= q <= 0
    ensures b == 1 ==> q == a
  {
    if a >= 0 then
      DivAtMost(a, b);
      a / b
    else
      DivAtMost(-a, b);
      -((-a) / b)
  }

  lemma DivAtMost(a: nat, b: int)
    requires b > 0
    ensures 0 <= a / b <= a
  {
    var q, r := a / b, a % b;
    assert a == b * q + r && 0 <= r < b;
    assert q >= 0;
    MulAtLeast(b, q);
  }

  lemma MulAtLeast(b: int, q: nat)
    requires b >= 1
    ensures b * q >= q
  {
    assert b * q == (b - 1) * q + q;
  }

  /** The first listed device whose id is `device`, as the fade-out looks it up. */
  function DeviceInfo(ds: seq<Device>, device: Option<seq<char>>): (info: Option<Device>)
    ensures info.Some? ==> info.value in ds && info.value.id == device
    ensures info.None? ==> forall j | 0 <= j < |ds| :: ds[j].id != device
  {
    match FirstMatch(ds, (d: Device) => d.id == device, 0)
    case Some(k) => Some(ds[k])
    case None => None
  }

  /** The volume the fade starts from: the device's reported volume, 50 when the
      device is not listed or reports none. */
  function StartVolume(info: Option<Device>): (vol: int)
    ensures info.None? ==> vol == 50
    ensures info.Some? && info.value.volumePercent.Some? ==> vol == info.value.volumePercent.value
  {
    if info.Some? && info.value.volumePercent.Some? then info.value.volumePercent.value else 50
  }

  /** The step between volumes: `max(1, int(vol / max(1, steps)))`. */
  function FadeStep(vol: int, steps: int): (step: int)
    ensures step >= 1
    ensures vol >= 0 ==> step <= Max(1, vol)
    ensures steps <= 1 && vol >= 1 ==> step == vol
  {
    Max(1, TruncDiv(vol, Max(1, steps)))
  }

  /** The volumes `range(vol, -1, -step)` sets, from `vol` down while non-negative. */
  function FadeSchedule(vol: int, step: int): (s: seq<int>)
    requires step >= 1
    ensures vol < 0 <==> s == []
    ensures s != [] ==> s[0] == vol
    decreases if vol < 0 then 0 else vol + 1
  {
    if vol < 0 then [] else [vol] + FadeSchedule(vol - step, step)
  }

  /** The schedule steps down by exactly `step` each time, stays within
      `[0, vol]`, and ends at the last volume above `-step`, so it reaches 0 only
      when `step` divides `vol`. */
  lemma {:induction false} FadeScheduleShape(vol: int, step: int)
    requires step >= 1
    ensures var s := FadeSchedule(vol, step);
      (forall i | 0 <= i < |s| :: 0 <= s[i] <= vol) &&
      (forall i | 0 <= i < |s| - 1 :: s[i + 1] == s[i] - step) &&
      (s != [] ==> s[|s| - 1] < step)
    decreases if vol < 0 then 0 else vol + 1
  {
    if vol >= 0 {
      FadeScheduleShape(vol - step, step);
      var s := FadeSchedule(vol, step);
      var t := FadeSchedule(vol - step, step);
      assert s == [vol] + t;
      forall i | 0 <= i < |s| - 1 ensures s[i + 1] == s[i] - step {
        if i > 0 {
          assert s[i] == t[i - 1] && s[i + 1] == t[i];
        }
      }
    }
  }

  /** The schedule is strictly decreasing. */
  lemma {:induction false} FadeScheduleDecreasing(vol: int, step: int)
    requires step >= 1
    ensures var s := FadeSchedule(vol, step);
      forall i, j | 0 <= i < j < |s| :: s[i] > s[j]
    decreases if vol < 0 then 0 else vol + 1
  {
    if vol >= 0 {
      FadeScheduleDecreasing(vol - step, step);
      FadeScheduleShape(vol - step, step);
      var s := FadeSchedule(vol, step);
      var t := FadeSchedule(vol - step, step);
      assert s == [vol] + t;
      forall i, j | 0 <= i < j < |s| ensures s[i] > s[j] {
        if i > 0 {
          assert s[i] == t[i - 1] && s[j] == t[j - 1];
        } else {
          assert s[j] == t[j - 1];
        }
      }
    }
  }

  /** With the default four steps and an unknown volume, the fade never reaches 0. */
  lemma DefaultFadeStopsShortOfZero()
    ensures FadeSchedule(StartVolume(None), FadeStep(StartVolume(None), 4)) == [50, 38, 26, 14, 2]
  {
    assert FadeStep(50, 4) == 12;
    assert FadeSchedule(-10, 12) == [];
    assert FadeSchedule(2, 12) == [2];
    assert FadeSchedule(14, 12) == [14, 2];
    assert FadeSchedule(26, 12) == [26, 14, 2];
    assert FadeSchedule(38, 12) == [38, 26, 14, 2];
  }

  /** The volume set after the fade: the starting volume once the pause went
      through, otherwise at most 20. */
  function Restore(vol: int, paused: bool): (r: int)
    ensures paused ==> r == vol
    ensures !paused ==> r <= 20 && r <= vol && (r == vol || r == 20)
  {
    if paused then vol else Min(20, vol)
  }

  /** The device a pause names: none when the id is absent or empty. */
  function PauseTarget(device: Option<seq<char>>): (t: Option<seq<char>>)
    ensures t.Some? ==> t == device && t.value != []
    ensures device.Some? && device.value != [] ==> t == device
  {
    if device.Some? && device.value != [] then device else None
  }

  function VolumeCalls(levels: seq<int>, device: Option<seq<char>>): (cs: seq<Call>)
    ensures |cs| == |levels|
    ensures forall i | 0 <= i < |levels| :: cs[i] == SetVolume(levels[i], device)
  {
    seq(|levels|, i requires 0 <= i < |levels| => SetVolume(levels[i], device))
  }

  /** Every request of a fade that meets no error: the schedule, one more pause,
      then the restoring volume. */
  function FadeCalls(device: Option<seq<char>>, sched: seq<int>, vol: int, paused: bool): (cs: seq<Call>)
    ensures |cs| == |sched| + 2
    ensures cs[|sched|] == Pause(PauseTarget(device))
    ensures cs[|sched| + 1] == SetVolume(Restore(vol, paused), device)
  {
    VolumeCalls(sched, device) + [Pause(PauseTarget(device)), SetVolume(Restore(vol, paused), device)]
  }

  /** What a fade-out does against a remote whose `devices` request raises
      (`devices == None`) or whose volume request number `failAt` raises. */
  datatype FadeResult = FadeResult(issued: seq<Call>, ok: bool, pauseTried: bool)

  function FadeOutcome(device: Option<seq<char>>, steps: int, devices: Option<seq<Device>>,
                       failAt: Option<nat>, pauseOk: bool): (r: FadeResult)
    ensures devices.None? ==> r == FadeResult([], false, false)
    ensures r.ok ==> r.pauseTried
    ensures r.pauseTried ==> |r.issued| >= 2 && r.issued[|r.issued| - 2] == Pause(PauseTarget(device))
  {
    match devices
    case None => FadeResult([], false, false)
    case Some(ds) =>
      var info := DeviceInfo(ds, device);
      var vol := StartVolume(info);
      var sched := FadeSchedule(vol, FadeStep(vol, steps));
      if failAt.Some? && failAt.value < |sched| then
        FadeResult(VolumeCalls(sched, device)[..failAt.value + 1], false, false)
      else FadeResult(FadeCalls(device, sched, vol, pauseOk), !(failAt.Some? && failAt.value == |sched|), true)
  }

  /** A completed fade sends the whole schedule, then the pause, then sets the
      volume back to where it started, or to at most 20 when the pause was refused. */
  lemma FadeRestores(device: Option<seq<char>>, steps: int, ds: seq<Device>, pauseOk: bool)
    ensures var r := FadeOutcome(device, steps, Some(ds), None, pauseOk);
      var vol := StartVolume(DeviceInfo(ds, device));
      r.ok && |r.issued| >= 2 &&
      r.issued[..|r.issued| - 2] == VolumeCalls(FadeSchedule(vol, FadeStep(vol, steps)), device) &&
      r.issued[|r.issued| - 2] == Pause(PauseTarget(device)) &&
      r.issued[|r.issued| - 1] == SetVolume(Restore(vol, pauseOk), device)
  {
    var info := DeviceInfo(ds, device);
    var vol := StartVolume(info);
    var sched := FadeSchedule(vol, FadeStep(vol, steps));
    var r := FadeOutcome(device, steps, Some(ds), None, pauseOk);
    assert r.issued == FadeCalls(device, sched, vol, pauseOk);
    assert r.issued[..|r.issued| - 2] == VolumeCalls(sched, device);
  }

  /** The remote's answers during `play_track_for`: the device list of the first
      `devices` request (`None` when it raises), the start and pause answers, and
      what the fade-out meets: its own `devices` answer, the volume request that
      raises, and the second pause. */
  datatype Remote = Remote(devices: Option<seq<Device>>, startWithPositionOk: bool, startOk: bool,
                           pauseOk: bool, fadeDevices: Option<seq<Device>>,
                           volumeFailsAt: Option<nat>, retryPauseOk: bool)

  /** The playback requests `play_track_for` sends, and whether playback started. */
  datatype Start = Start(requests: seq<Call>, started: bool)

  /** The start of `play_track_for` on `device`: with an offset, a positioned
      start, retried once without the offset when refused; otherwise a plain
      start. */
  function StartCalls(device: Option<seq<char>>, uri: seq<char>, startMs: Option<int>,
                      remote: Remote): (r: Start)
    ensures 1 <= |r.requests| <= 2
    ensures forall i | 0 <= i < |r.requests| :: r.requests[i].StartPlayback? && r.requests[i].device == device
    ensures startMs.Some? ==> r.requests[0] == StartPlayback(device, uri, Some(Max(0, startMs.value)))
    ensures startMs.None? ==> r.requests == [StartPlayback(device, uri, None)]
    ensures |r.requests| == 2 <==> startMs.Some? && !remote.startWithPositionOk
    ensures |r.requests| == 2 ==> r.requests[1] == StartPlayback(device, uri, None)
    ensures r.started <==> (startMs.Some? && remote.startWithPositionOk) || remote.startOk
  {
    match startMs
    case Some(ms) =>
      var first := StartPlayback(device, uri, Some(Max(0, ms)));
      if remote.startWithPositionOk then Start([first], true)
      else Start([first, StartPlayback(device, uri, None)], remote.startOk)
    case None => Start([StartPlayback(device, uri, None)], remote.startOk)
  }

  class SpotifyPlayer {
    /** `_restriction_warned`. */
    var restrictionWarned: bool
    /** How many restriction warnings `_try_pause` has printed. */
    var pauseWarnings: nat
    /** Every request sent to the remote player, oldest first. */
    var calls: seq<Call>

    /** A warning is printed exactly when the flag is first raised. */
    predicate Valid()
      reads this
    {
      pauseWarnings == if restrictionWarned then 1 else 0
    }

    constructor ()
      ensures Valid()
      ensures !restrictionWarned && pauseWarnings == 0 && calls == []
    {
      restrictionWarned := false;
      pauseWarnings := 0;
      calls := [];
    }

    /** `_try_pause`: one pause request; a refusal prints the warning only the
        first time. */
    method TryPause(device: Option<seq<char>>, pauseOk: bool) returns (ok: bool)
      requires Valid()
      modifies this
      ensures Valid() && pauseWarnings <= 1
      ensures ok == pauseOk
      ensures calls == old(calls) + [Pause(PauseTarget(device))]
      ensures restrictionWarned == (old(restrictionWarned) || !pauseOk)
      ensures pauseWarnings == old(pauseWarnings) + (if !pauseOk && !old(restrictionWarned) then 1 else 0)
    {
      calls := calls + [Pause(PauseTarget(device))];
      if pauseOk {
        return true;
      }
      if !restrictionWarned {
        pauseWarnings := pauseWarnings + 1;
        restrictionWarned := true;
      }
      return false;
    }

    /** `_try_fade_out`: steps the volume down along the schedule, pauses, and
        restores the volume. */
    method TryFadeOut(device: Option<seq<char>>, steps: int, devices: Option<seq<Device>>,
                      failAt: Option<nat>, pauseOk: bool) returns (ok: bool)
      requires Valid()
      modifies this
      ensures Valid() && pauseWarnings <= 1
      ensures var r := FadeOutcome(device, steps, devices, failAt, pauseOk);
        ok == r.ok && calls == old(calls) + r.issued &&
        restrictionWarned == (old(restrictionWarned) || (r.pauseTried && !pauseOk)) &&
        pauseWarnings == old(pauseWarnings) +
          (if r.pauseTried && !pauseOk && !old(restrictionWarned) then 1 else 0)
    {
      if devices.None? {
        return false;
      }
      var vol := StartVolume(DeviceInfo(devices.value, device));
      var step := FadeStep(vol, steps);
      ghost var sched := FadeSchedule(vol, step);
      ghost var r := FadeOutcome(device, steps, devices, failAt, pauseOk);
      ok := StepVolumeDown(device, vol, step, failAt);
      if !ok {
        assert r.issued == VolumeCalls(sched, device)[..failAt.value + 1] && !r.pauseTried;
        return;
      }
      ghost var before := calls;
      assert before == old(calls) + VolumeCalls(sched, device);
      var paused := TryPause(device, pauseOk);
      calls := calls + [SetVolume(Restore(vol, paused), device)];
      assert calls == before + [Pause(PauseTarget(device)), SetVolume(Restore(vol, pauseOk), device)];
      assert r.issued == VolumeCalls(sched, device) + [Pause(PauseTarget(device)), SetVolume(Restore(vol, pauseOk), device)];
      ok := !(failAt == Some(|FadeSchedule(vol, step)|));
    }

    /** The volume loop of `_try_fade_out`: one request per scheduled volume,
        stopping at the request that raises. */
    method StepVolumeDown(device: Option<seq<char>>, vol: int, step: int, failAt: Option<nat>)
      returns (ok: bool)
      requires step >= 1
      modifies this
      ensures ok <==> !(failAt.Some? && failAt.value < |FadeSchedule(vol, step)|)
      ensures ok ==> calls == old(calls) + VolumeCalls(FadeSchedule(vol, step), device)
      ensures !ok ==> calls == old(calls) + VolumeCalls(FadeSchedule(vol, step), device)[..failAt.value + 1]
      ensures unchanged(`restrictionWarned) && unchanged(`pauseWarnings)
    {
      ghost var sched := FadeSchedule(vol, step);
      ghost var all := VolumeCalls(sched, device);
      var v := vol;
      var n := 0;
      while v >= 0
        invariant 0 <= n <= |sched|
        invariant FadeSchedule(v, step) == sched[n..]
        invariant calls == old(calls) + all[..n]
        invariant failAt.None? || failAt.value >= n
        invariant unchanged(`restrictionWarned) && unchanged(`pauseWarnings)
        decreases v + 1
      {
        assert sched[n..] == [v] + FadeSchedule(v - step, step);
        assert all[..n + 1] == all[..n] + [SetVolume(v, device)];
        calls := calls + [SetVolume(v, device)];
        if failAt == Some(n) {
          return false;
        }
        v := v - step;
        n := n + 1;
      }
      assert all[..n] == all;
      return true;
    }

    /** `play_track_for`: start the track on the chosen device, then pause, and
        fade out when the pause is refused. Without a usable device nothing is
        sent; when the first `devices` request raises, the error leaves the call
        (`raised`) before anything is sent. */
    method PlayTrackFor(uri: seq<char>, startMs: Option<int>, remote: Remote) returns (raised: bool)
      requires Valid()
      modifies this
      ensures Valid() && pauseWarnings <= 1
      ensures raised <==> remote.devices.None?
      ensures raised ==> calls == old(calls) && unchanged(`restrictionWarned) && unchanged(`pauseWarnings)
      ensures !raised ==>
        var device := ActiveDeviceId(remote.devices.value);
        var start := StartCalls(device, uri, startMs, remote);
        var fade := FadeOutcome(device, 4, remote.fadeDevices, remote.volumeFailsAt, remote.retryPauseOk);
        if device.None? || device.value == [] then
          calls == old(calls) && unchanged(`restrictionWarned) && unchanged(`pauseWarnings)
        else if !start.started then
          calls == old(calls) + start.requests && unchanged(`restrictionWarned) && unchanged(`pauseWarnings)
        else if remote.pauseOk then
          calls == old(calls) + start.requests + [Pause(device)] &&
          unchanged(`restrictionWarned) && unchanged(`pauseWarnings)
        else
          calls == old(calls) + start.requests + [Pause(device)] + fade.issued && restrictionWarned
    {
      if remote.devices.None? {
        return true;
      }
      raised := false;
      var device := ActiveDeviceId(remote.devices.value);
      if device.None? || device.value == [] {
        return;
      }
      var start := StartCalls(device, uri, startMs, remote);
      calls := calls + start.requests;
      if !start.started {
        return;
      }
      var paused := TryPause(device, remote.pauseOk);
      if !paused {
        var _ := TryFadeOut(device, 4, remote.fadeDevices, remote.volumeFailsAt, remote.retryPauseOk);
      }
    }
  }
}

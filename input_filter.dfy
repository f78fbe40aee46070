/** The kernel input filter that blocks the hardware button combinations
    which boot a phone into recovery (Power+VolUp), fastboot (Power+VolDown)
    or EDL (Power+VolUp+VolDown). Every key event updates a record of which
    buttons are held and since when; while power has been held for less
    than the combination window, a fresh volume press makes the event
    blocked and bumps the counter of that combination. The monotonic clock
    is the `now` argument, in nanoseconds. */
module InputFilter {
  import opened Wrappers

  const EvKey: nat := 1
  const KeyHome: nat := 102
  const KeyVolumeDown: nat := 114
  const KeyVolumeUp: nat := 115
  const KeyPower: nat := 116
  const KeyHomepage: nat := 172

  /** `COMBO_TIMEOUT_MS` */
  const ComboTimeoutMs := 2000
  const NsPerMs := 1000000
  const EInval := 22

  /** `struct button_state`; press times in nanoseconds. */
  datatype ButtonState = ButtonState(
    powerPressed: bool,
    volUpPressed: bool,
    volDownPressed: bool,
    homePressed: bool,
    powerPressTime: int,
    volUpPressTime: int,
    volDownPressTime: int,
    blockedCount: nat,
    recoveryAttempts: nat,
    fastbootAttempts: nat,
    edlAttempts: nat)

  /** The state after `memset(&g_button_state, 0, ...)`. */
  const ZeroState := ButtonState(false, false, false, false, 0, 0, 0, 0, 0, 0, 0)

  datatype Combo = NoCombo | Recovery | Fastboot | Edl

  /** `ktime_ms_delta(later, earlier)`: the nanosecond difference divided
      by a million, rounded toward zero as C's `/` on `s64`. */
  function MsDelta(later: int, earlier: int): (r: int)
    ensures later >= earlier ==> 0 <= r && r * NsPerMs <= later - earlier < (r + 1) * NsPerMs
    ensures later < earlier ==> r <= 0 && (r - 1) * NsPerMs < later - earlier <= r * NsPerMs
  {
    var d := later - earlier;
    if d >= 0 then d / NsPerMs else -((-d) / NsPerMs)
  }

  /** `is_dangerous_combination`'s decision, in its order: recovery, then
      fastboot, then EDL. */
  function Combination(s: ButtonState, now: int): Combo
  {
    if !s.powerPressed then NoCombo
    else
      var powerHeld := MsDelta(now, s.powerPressTime);
      if s.volUpPressed && powerHeld < ComboTimeoutMs && MsDelta(now, s.volUpPressTime) < ComboTimeoutMs then Recovery
      else if s.volDownPressed && powerHeld < ComboTimeoutMs && MsDelta(now, s.volDownPressTime) < ComboTimeoutMs then Fastboot
      else if s.volUpPressed && s.volDownPressed && powerHeld < ComboTimeoutMs then Edl
      else NoCombo
  }

  /** The counters after detecting `c`: its own counter and the total. */
  function Counted(s: ButtonState, c: Combo): ButtonState
  {
    match c
    case NoCombo => s
    case Recovery => s.(recoveryAttempts := s.recoveryAttempts + 1, blockedCount := s.blockedCount + 1)
    case Fastboot => s.(fastbootAttempts := s.fastbootAttempts + 1, blockedCount := s.blockedCount + 1)
    case Edl => s.(edlAttempts := s.edlAttempts + 1, blockedCount := s.blockedCount + 1)
  }

  /** The keys the filter tracks. */
  predicate Tracked(code: nat)
  {
    code == KeyPower || code == KeyVolumeUp || code == KeyVolumeDown || code == KeyHome || code == KeyHomepage
  }

  /** The `switch` of `security_input_filter` for a tracked key: a press
      (`value != 0`) sets the key's flag and press time, a release clears
      the flag only. */
  function PressKey(s: ButtonState, code: nat, value: int, now: int): ButtonState
    requires Tracked(code)
  {
    var down := value != 0;
    if code == KeyPower then
      s.(powerPressed := down, powerPressTime := if down then now else s.powerPressTime)
    else if code == KeyVolumeUp then
      s.(volUpPressed := down, volUpPressTime := if down then now else s.volUpPressTime)
    else if code == KeyVolumeDown then
      s.(volDownPressed := down, volDownPressTime := if down then now else s.volDownPressTime)
    else
      s.(homePressed := down)
  }

  /** The new state and whether the event is blocked. */
  datatype FilterResult = FilterResult(state: ButtonState, blocked: bool)

  /** `security_input_filter(handle, type, code, value)` with the filter
      switched on or off by `enabled`. */
  function FilterSpec(s: ButtonState, enabled: bool, eventType: nat, code: nat, value: int, now: int): FilterResult
  {
    if eventType != EvKey || !enabled || !Tracked(code) then FilterResult(s, false)
    else
      var pressed := PressKey(s, code, value, now);
      var c := Combination(pressed, now);
      FilterResult(Counted(pressed, c), c != NoCombo)
  }

  /** `kstrtobool` in its on/off form (without the t/f spellings of newer
      kernels), as `strtobool` uses it: the first character decides
      (`y`, `Y`, `1` or `n`, `N`, `0`), and `o` decides by the second
      (`on` or `off`, either case); anything else is rejected. */
  function StrToBool(buf: string): (r: Option<bool>)
    ensures r.Some? ==> buf != []
    ensures r == Some(true) ==> buf[0] in "yY1oO"
    ensures r == Some(false) ==> buf[0] in "nN0oO"
  {
    if buf == [] then None
    else if buf[0] in "yY1" then Some(true)
    else if buf[0] in "nN0" then Some(false)
    else if buf[0] in "oO" && |buf| >= 2 then
      if buf[1] in "nN" then Some(true)
      else if buf[1] in "fF" then Some(false)
      else None
    else None
  }

  /** The module's global state: `g_button_state` and `g_security_enabled`. */
  class InputSecurityFilter {
    var powerPressed: bool
    var volUpPressed: bool
    var volDownPressed: bool
    var homePressed: bool
    var powerPressTime: int
    var volUpPressTime: int
    var volDownPressTime: int
    var blockedCount: nat
    var recoveryAttempts: nat
    var fastbootAttempts: nat
    var edlAttempts: nat
    var enabled: bool

    /** The button record as a value. */
    function State(): ButtonState
      reads this
    {
      ButtonState(powerPressed, volUpPressed, volDownPressed, homePressed,
                  powerPressTime, volUpPressTime, volDownPressTime,
                  blockedCount, recoveryAttempts, fastbootAttempts, edlAttempts)
    }

    /** The zero-initialised globals: nothing held, nothing counted, the
        filter off. */
    constructor()
      ensures State() == ZeroState && !enabled
    {
      powerPressed, volUpPressed, volDownPressed, homePressed := false, false, false, false;
      powerPressTime, volUpPressTime, volDownPressTime := 0, 0, 0;
      blockedCount, recoveryAttempts, fastbootAttempts, edlAttempts := 0, 0, 0, 0;
      enabled := false;
    }

    /** `is_dangerous_combination()` at time `now`. */
    method IsDangerousCombination(now: int) returns (block: bool)
      modifies this
      ensures enabled == old(enabled)
      ensures block <==> Combination(old(State()), now) != NoCombo
      ensures State() == Counted(old(State()), Combination(old(State()), now))
    {
      if !powerPressed {
        return false;
      }
      var powerHeldMs := MsDelta(now, powerPressTime);
      if volUpPressed {
        var volUpDeltaMs := MsDelta(now, volUpPressTime);
        if powerHeldMs < ComboTimeoutMs && volUpDeltaMs < ComboTimeoutMs {
          recoveryAttempts := recoveryAttempts + 1;
          blockedCount := blockedCount + 1;
          return true;
        }
      }
      if volDownPressed {
        var volDownDeltaMs := MsDelta(now, volDownPressTime);
        if powerHeldMs < ComboTimeoutMs && volDownDeltaMs < ComboTimeoutMs {
          fastbootAttempts := fastbootAttempts + 1;
          blockedCount := blockedCount + 1;
          return true;
        }
      }
      if volUpPressed && volDownPressed {
        if powerHeldMs < ComboTimeoutMs {
          edlAttempts := edlAttempts + 1;
          blockedCount := blockedCount + 1;
          return true;
        }
      }
      return false;
    }

    /** `security_input_filter`: whether the event is to be swallowed. */
    method Filter(eventType: nat, code: nat, value: int, now: int) returns (block: bool)
      modifies this
      ensures enabled == old(enabled)
      ensures FilterResult(State(), block) == FilterSpec(old(State()), old(enabled), eventType, code, value, now)
    {
      if eventType != EvKey {
        return false;
      }
      if !enabled {
        return false;
      }
      if code == KeyPower {
        powerPressed := value != 0;
        if value != 0 {
          powerPressTime := now;
        }
      } else if code == KeyVolumeUp {
        volUpPressed := value != 0;
        if value != 0 {
          volUpPressTime := now;
        }
      } else if code == KeyVolumeDown {
        volDownPressed := value != 0;
        if value != 0 {
          volDownPressTime := now;
        }
      } else if code == KeyHome || code == KeyHomepage {
        homePressed := value != 0;
      } else {
        return false;
      }
      block := IsDangerousCombination(now);
    }

    /** `reset_stats_store`: the whole button record is zeroed; the
        enabled flag is not part of it. */
    method ResetStats()
      modifies this
      ensures State() == ZeroState
      ensures enabled == old(enabled)
    {
      powerPressed, volUpPressed, volDownPressed, homePressed := false, false, false, false;
      powerPressTime, volUpPressTime, volDownPressTime := 0, 0, 0;
      blockedCount, recoveryAttempts, fastbootAttempts, edlAttempts := 0, 0, 0, 0;
    }

    /** `enabled_store`: the byte count written, or `-EINVAL` for an
        unreadable value, which leaves the flag as it was. */
    method EnabledStore(buf: string) returns (r: int)
      modifies this
      ensures State() == old(State())
      ensures StrToBool(buf).None? ==> r == -EInval && enabled == old(enabled)
      ensures StrToBool(buf).Some? ==> r == |buf| && enabled == StrToBool(buf).value
    {
      var parsed := StrToBool(buf);
      if parsed.None? {
        return -EInval;
      }
      enabled := parsed.value;
      return |buf|;
    }
  }

  // ---------------------------------------------------------------------
  // Properties of the filter

  /** The total of blocked events is the sum of the three attempt counters. */
  predicate Balanced(s: ButtonState)
  {
    s.blockedCount == s.recoveryAttempts + s.fastbootAttempts + s.edlAttempts
  }

  /** One key event of a sequence fed to the filter. */
  datatype InputEvent = InputEvent(eventType: nat, code: nat, value: int, now: int)

  /** The state after feeding `events` to the filter in order. */
  function Run(s: ButtonState, enabled: bool, events: seq<InputEvent>): ButtonState
    decreases |events|
  {
    if events == [] then s
    else
      var e := events[0];
      Run(FilterSpec(s, enabled, e.eventType, e.code, e.value, e.now).state, enabled, events[1..])
  }

  /** Events that are not key events, events while the filter is off, and
      keys it does not track are passed through and change nothing. */
  lemma IgnoredEventsChangeNothing(s: ButtonState, enabled: bool, eventType: nat, code: nat, value: int, now: int)
    requires eventType != EvKey || !enabled || !Tracked(code)
    ensures FilterSpec(s, enabled, eventType, code, value, now) == FilterResult(s, false)
  {
  }

  /** A press of power or a volume key records the key as held since
      `now`; a release clears the flag and keeps the old press time. */
  lemma PressAndRelease(s: ButtonState, code: nat, value: int, now: int)
    requires Tracked(code)
    ensures var t := FilterSpec(s, true, EvKey, code, value, now).state;
      && (code == KeyPower ==>
            t.powerPressed == (value != 0)
            && t.powerPressTime == (if value != 0 then now else s.powerPressTime))
      && (code == KeyVolumeUp ==>
            t.volUpPressed == (value != 0)
            && t.volUpPressTime == (if value != 0 then now else s.volUpPressTime))
      && (code == KeyVolumeDown ==>
            t.volDownPressed == (value != 0)
            && t.volDownPressTime == (if value != 0 then now else s.volDownPressTime))
      && (code == KeyHome || code == KeyHomepage ==>
            t.homePressed == (value != 0)
            && t.powerPressed == s.powerPressed && t.volUpPressed == s.volUpPressed
            && t.volDownPressed == s.volDownPressed)
  {
  }

  /** No event is blocked unless power is held after it; releasing power
      is never blocked. */
  lemma NoBlockWithoutPower(s: ButtonState, enabled: bool, eventType: nat, code: nat, value: int, now: int)
    ensures var r := FilterSpec(s, enabled, eventType, code, value, now);
      r.blocked ==> r.state.powerPressed
    ensures code == KeyPower && value == 0 ==> !FilterSpec(s, enabled, eventType, code, value, now).blocked
  {
  }

  /** An event bumps at most one attempt counter, by one, together with
      the total; it is blocked exactly when it does. */
  lemma OneCounterPerEvent(s: ButtonState, enabled: bool, eventType: nat, code: nat, value: int, now: int)
    ensures var r := FilterSpec(s, enabled, eventType, code, value, now);
      var t := r.state;
      && t.blockedCount == s.blockedCount + (if r.blocked then 1 else 0)
      && t.recoveryAttempts + t.fastbootAttempts + t.edlAttempts
           == s.recoveryAttempts + s.fastbootAttempts + s.edlAttempts + (if r.blocked then 1 else 0)
      && s.recoveryAttempts <= t.recoveryAttempts
      && s.fastbootAttempts <= t.fastbootAttempts
      && s.edlAttempts <= t.edlAttempts
  {
  }

  /** One event keeps the total equal to the sum of the attempt counters. */
  lemma FilterKeepsBalance(s: ButtonState, enabled: bool, eventType: nat, code: nat, value: int, now: int)
    requires Balanced(s)
    ensures Balanced(FilterSpec(s, enabled, eventType, code, value, now).state)
  {
    OneCounterPerEvent(s, enabled, eventType, code, value, now);
  }

  /** From a balanced state, such as the zeroed one, the balance holds
      after any sequence of events. */
  lemma {:induction false} RunKeepsBalance(s: ButtonState, enabled: bool, events: seq<InputEvent>)
    requires Balanced(s)
    ensures Balanced(Run(s, enabled, events))
    decreases |events|
  {
    if events != [] {
      var e := events[0];
      FilterKeepsBalance(s, enabled, e.eventType, e.code, e.value, e.now);
      RunKeepsBalance(FilterSpec(s, enabled, e.eventType, e.code, e.value, e.now).state, enabled, events[1..]);
    }
  }

  /** Balance from power-on or from a reset. */
  lemma BalancedFromZero(enabled: bool, events: seq<InputEvent>)
    ensures Balanced(Run(ZeroState, enabled, events))
  {
    RunKeepsBalance(ZeroState, enabled, events);
  }

  /** A delta is under the window exactly when fewer than 2000 whole
      milliseconds, that is fewer than 2e9 nanoseconds, have passed. */
  lemma WithinWindow(later: int, earlier: int)
    requires earlier <= later
    ensures MsDelta(later, earlier) < ComboTimeoutMs <==> later - earlier < ComboTimeoutMs * NsPerMs
  {
  }

  /** EDL is counted only when both volume keys have been held for the
      whole window: a fresh volume press with power is counted as
      recovery or fastboot first. */
  lemma EdlOnlyWithStaleVolumes(s: ButtonState, now: int)
    requires Combination(s, now) == Edl
    ensures s.powerPressed && s.volUpPressed && s.volDownPressed
    ensures MsDelta(now, s.powerPressTime) < ComboTimeoutMs
    ensures MsDelta(now, s.volUpPressTime) >= ComboTimeoutMs
    ensures MsDelta(now, s.volDownPressTime) >= ComboTimeoutMs
  {
  }

  /** Power then volume up within the window: the volume press is blocked
      and counted as a recovery attempt. */
  lemma RecoveryComboBlocked(s: ButtonState, powerAt: int, now: int)
    requires s.powerPressed && s.powerPressTime == powerAt
    requires powerAt <= now < powerAt + ComboTimeoutMs * NsPerMs
    ensures FilterSpec(s, true, EvKey, KeyVolumeUp, 1, now).blocked
    ensures FilterSpec(s, true, EvKey, KeyVolumeUp, 1, now).state.recoveryAttempts == s.recoveryAttempts + 1
  {
    WithinWindow(now, powerAt);
  }

  /** Power then volume down within the window: blocked and counted as a
      fastboot attempt, unless volume up is freshly held as well (a volume
      up press two seconds old or older does not count). */
  lemma FastbootComboBlocked(s: ButtonState, powerAt: int, now: int)
    requires s.powerPressed && s.powerPressTime == powerAt
    requires powerAt <= now < powerAt + ComboTimeoutMs * NsPerMs
    requires !s.volUpPressed || MsDelta(now, s.volUpPressTime) >= ComboTimeoutMs
    ensures FilterSpec(s, true, EvKey, KeyVolumeDown, 1, now).blocked
    ensures FilterSpec(s, true, EvKey, KeyVolumeDown, 1, now).state.fastbootAttempts == s.fastbootAttempts + 1
  {
    WithinWindow(now, powerAt);
  }

  /** The Home keys are tracked but take no part in any combination. */
  lemma HomeNeverDecides(s: ButtonState, home: bool, now: int)
    ensures Combination(s.(homePressed := home), now) == Combination(s, now)
  {
  }

  /** A Home event is blocked exactly when the power and volume keys
      already held make a combination, so Power+Home, the download-mode
      combination, is never blocked. */
  lemma HomeEventsNotFiltered(s: ButtonState, code: nat, value: int, now: int)
    requires code == KeyHome || code == KeyHomepage
    ensures FilterSpec(s, true, EvKey, code, value, now).blocked <==> Combination(s, now) != NoCombo
    ensures !s.volUpPressed && !s.volDownPressed ==> !FilterSpec(s, true, EvKey, code, value, now).blocked
  {
    HomeNeverDecides(s, value != 0, now);
  }

  /** The first character decides a switch, or the first two for "on" and
      "off", whatever follows (such as the newline `echo` adds); any other
      first character is refused. */
  lemma SwitchSpellings(c: char, d: char, rest: string)
    ensures c in "yY1" ==> StrToBool([c] + rest) == Some(true)
    ensures c in "nN0" ==> StrToBool([c] + rest) == Some(false)
    ensures c in "oO" && d in "nN" ==> StrToBool([c, d] + rest) == Some(true)
    ensures c in "oO" && d in "fF" ==> StrToBool([c, d] + rest) == Some(false)
    ensures c !in "yY1nN0oO" ==> StrToBool([c] + rest) == None
  {
  }
}

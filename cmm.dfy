/**
 * `CMM`: the run/stop board for the two coordinate measuring machines. Each machine has a cycle
 * time and an elapsed time in minutes; running machines with a start time have their elapsed time
 * recomputed every minute. Times are milliseconds since the epoch, supplied by the caller.
 */
module Cmm {
  import opened Wrappers
  import opened Text

  /** `MachineStatus` of the page. */
  datatype CmmMachine = CmmMachine(id: string, name: string, isRunning: bool, cycleTime: int,
                                   elapsedTime: int, startTime: Option<int>)

  /** The machines the page starts with. */
  const InitialMachines: seq<CmmMachine> := [
    CmmMachine("crysta-apex-s", "Crysta Apex S", true, 10, 3, None),
    CmmMachine("crysta-apex-v", "Crysta Apex V", false, 22, 0, None)
  ]

  const MillisPerMinute: int := 1000 * 60

  /** Euclidean division is unique: a quotient and a remainder in `[0, b)` are `/` and `%`. */
  lemma {:induction false} UniqueRemainder(a: int, b: int, q: int, m: int)
    requires b > 0 && 0 <= m < b && a == q * b + m
    ensures a / b == q && a % b == m
  {
    var k := a / b - q;
    assert k * b == (a / b) * b - q * b;
    assert k * b == m - a % b;
    MultipleOutside(k, b);
  }

  /** A non-zero multiple of `b` lies at least `b` away from 0. */
  lemma MultipleOutside(k: int, b: int)
    requires b > 0
    ensures k >= 1 ==> k * b >= b
    ensures k <= -1 ==> k * b <= -b
  {
    if k >= 1 {
      assert k * b == (k - 1) * b + b;
    } else if k <= -1 {
      assert k * b == (k + 1) * b - b;
    }
  }

  /**
   * JavaScript's `%`: the remainder takes the sign of the dividend. For a negative dividend it is
   * the Euclidean remainder shifted down by `b`, or 0 where that remainder is 0.
   */
  function JsRemainder(a: int, b: int): (r: int)
    requires b > 0
    ensures a >= 0 ==> 0 <= r < b && r == a % b
    ensures a < 0 ==> -b < r <= 0 && r == (if a % b == 0 then 0 else a % b - b)
  {
    if a >= 0 then a % b
    else
      var q, m := (-a) / b, (-a) % b;
      if m == 0 then
        UniqueRemainder(a, b, -q, 0);
        0
      else
        UniqueRemainder(a, b, -q - 1, b - m);
        -m
  }

  /** No decimal rendering of an integer holds an `h`. */
  lemma NoHourMark(i: int)
    ensures 'h' !in IntToString(i)
  {
    var r := IntToString(i);
    forall k | 0 <= k < |r| ensures r[k] != 'h' {
      if i < 0 && k > 0 {
        assert r[k] == r[1..][k - 1];
      }
    }
  }

  /** `formatTime`: whole hours and the remaining minutes when there is at least one hour. */
  function FormatTime(minutes: int): (text: string)
    ensures |text| >= 2 && text[|text| - 1] == 'm'
    ensures 'h' in text <==> minutes >= 60
  {
    NoHourMark(minutes / 60);
    NoHourMark(JsRemainder(minutes, 60));
    var hours := minutes / 60;
    var mins := JsRemainder(minutes, 60);
    if hours > 0 then IntToString(hours) + "h " + IntToString(mins) + "m" else IntToString(mins) + "m"
  }

  /**
   * For a non-negative time the text names hours and minutes that add back up to it, the minutes
   * below 60, and the hours only when there is at least one.
   */
  lemma FormatTimeAddsUp(minutes: nat)
    ensures minutes >= 60 ==>
      exists h: nat, m: nat ::
        (h >= 1 && m < 60 && h * 60 + m == minutes && FormatTime(minutes) == NatToString(h) + "h " + NatToString(m) + "m")
    ensures minutes < 60 ==> FormatTime(minutes) == NatToString(minutes) + "m"
  {
    var h: nat, m: nat := minutes / 60, minutes % 60;
    assert h * 60 + m == minutes && m < 60;
    assert JsRemainder(minutes, 60) == m && IntToString(m) == NatToString(m);
    if minutes >= 60 {
      assert h >= 1 && IntToString(h) == NatToString(h);
      assert FormatTime(minutes) == NatToString(h) + "h " + NatToString(m) + "m";
    } else {
      assert h == 0 && m == minutes;
    }
  }

  /** 59 minutes stay minutes; 60 become one hour and no minutes. */
  lemma FormatTimeAtTheHour()
    ensures FormatTime(59) == "59m"
    ensures FormatTime(60) == "1h 0m"
  {
    assert NatToString(59) == NatToString(5) + [DigitChar(9)];
  }

  /** `getRemainingTime`: what is left of the cycle, never negative. */
  function RemainingTime(machine: CmmMachine): (left: int)
    ensures left >= 0 && left >= machine.cycleTime - machine.elapsedTime
    ensures left == 0 || left == machine.cycleTime - machine.elapsedTime
  {
    if machine.cycleTime - machine.elapsedTime > 0 then machine.cycleTime - machine.elapsedTime else 0
  }

  /** `getStatusText`. */
  function StatusText(isRunning: bool): (text: string)
    ensures text == "Aktiv" <==> isRunning
    ensures text == "Inaktiv" <==> !isRunning
  {
    if isRunning then "Aktiv" else "Inaktiv"
  }

  /** One machine after `toggleMachine(machineId)` at time `now`. */
  function Toggled(machine: CmmMachine, machineId: string, now: int): (m: CmmMachine)
    ensures m.id == machine.id && m.name == machine.name && m.cycleTime == machine.cycleTime
    ensures machine.id != machineId ==> m == machine
    ensures machine.id == machineId ==>
      && m.isRunning == !machine.isRunning
      && (m.isRunning ==> m.startTime == Some(now) && m.elapsedTime == 0)
      && (!m.isRunning ==> m.startTime == None && m.elapsedTime == machine.elapsedTime)
    ensures (!machine.isRunning ==> machine.startTime.None?) ==> (!m.isRunning ==> m.startTime.None?)
  {
    if machine.id == machineId then
      var running := !machine.isRunning;
      machine.(isRunning := running, startTime := if running then Some(now) else None,
               elapsedTime := if running then 0 else machine.elapsedTime)
    else machine
  }

  /** One machine after a tick at time `now`. */
  function Ticked(machine: CmmMachine, now: int): (m: CmmMachine)
    ensures m.id == machine.id && m.name == machine.name && m.cycleTime == machine.cycleTime
    ensures m.isRunning == machine.isRunning && m.startTime == machine.startTime
    ensures machine.isRunning && machine.startTime.Some? ==>
      m.elapsedTime * MillisPerMinute <= now - machine.startTime.value < (m.elapsedTime + 1) * MillisPerMinute
    ensures !(machine.isRunning && machine.startTime.Some?) ==> m == machine
  {
    if machine.isRunning && machine.startTime.Some? then
      machine.(elapsedTime := (now - machine.startTime.value) / MillisPerMinute)
    else machine
  }

  /** A stopped machine has no start time. */
  predicate StoppedHaveNoStart(machines: seq<CmmMachine>)
  {
    forall i :: 0 <= i < |machines| ==> !machines[i].isRunning ==> machines[i].startTime.None?
  }

  /** The initial running machine has no start time, so a tick leaves its 3 minutes alone. */
  lemma InitialTickKeepsApexS(now: int)
    ensures StoppedHaveNoStart(InitialMachines)
    ensures Ticked(InitialMachines[0], now).elapsedTime == 3
    ensures Ticked(InitialMachines[1], now) == InitialMachines[1]
  {
  }

  class CmmBoard {
    var machines: seq<CmmMachine>

    predicate Valid()
      reads this
    {
      StoppedHaveNoStart(machines)
    }

    constructor()
      ensures Valid() && machines == InitialMachines
    {
      machines := InitialMachines;
    }

    /**
     * `toggleMachine`: only the machines with that id change. Switching on starts at `now` with
     * nothing elapsed; switching off clears the start and keeps the elapsed time.
     */
    method ToggleMachine(machineId: string, now: int)
      requires Valid()
      modifies this
      ensures Valid() && |machines| == |old(machines)|
      ensures forall i :: 0 <= i < |machines| && old(machines)[i].id != machineId ==> machines[i] == old(machines)[i]
      ensures forall i :: 0 <= i < |machines| && old(machines)[i].id == machineId ==>
        var before := old(machines)[i];
        && machines[i].id == before.id && machines[i].name == before.name && machines[i].cycleTime == before.cycleTime
        && machines[i].isRunning == !before.isRunning
        && (machines[i].isRunning ==> machines[i].startTime == Some(now) && machines[i].elapsedTime == 0)
        && (!machines[i].isRunning ==> machines[i].startTime == None && machines[i].elapsedTime == before.elapsedTime)
    {
      var prev := machines;
      machines := seq(|prev|, i requires 0 <= i < |prev| => Toggled(prev[i], machineId, now));
    }

    /**
     * The minute tick: a running machine with a start time gets the whole minutes since it
     * started; every other machine is unchanged.
     */
    method Tick(now: int)
      requires Valid()
      modifies this
      ensures Valid() && |machines| == |old(machines)|
      ensures forall i :: 0 <= i < |machines| ==>
        var before := old(machines)[i];
        && (before.isRunning && before.startTime.Some? ==>
              machines[i] == before.(elapsedTime := (now - before.startTime.value) / MillisPerMinute))
        && (!(before.isRunning && before.startTime.Some?) ==> machines[i] == before)
    {
      var prev := machines;
      machines := seq(|prev|, i requires 0 <= i < |prev| => Ticked(prev[i], now));
    }
  }

  /** The tick's elapsed time is the floor of the whole minutes, as `Math.floor` gives. */
  lemma TickIsWholeMinutes(start: int, now: int)
    ensures var e := (now - start) / MillisPerMinute;
      e * MillisPerMinute <= now - start < (e + 1) * MillisPerMinute
  {
  }
}

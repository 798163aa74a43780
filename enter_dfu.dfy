/**
 * `enter_dfu_via_recovery` of common/common.c as a method that records the
 * calls it makes as a trace of events. The USB layer, the clock and the
 * operator are not modelled: what `io_open`, `read_serial_number` and
 * `io_reconnect` return is given to the method as oracle arguments, and
 * each call, each `interval(1)` wait and each progress line becomes one
 * event.
 */
module EnterDfu {
  import opened Wrappers
  import opened DeviceTable
  import opened Buttons
  import opened Progress

  /** The two USB modes the procedure asks for (`DEVICE_RECOVERY_MODE_2`, `DEVICE_DFU`). */
  datatype UsbMode = RecoveryMode2 | DfuMode
  /** The reset policy passed to `io_reconnect` (`USB_NO_RESET`). */
  datatype ResetPolicy = UsbNoReset

  datatype DevInfo = DevInfo(cpid: nat, bdid: nat)

  /** What the procedure reads of an open `io_client_t`. */
  datatype Client = Client(hasSerialStr: bool, devinfo: DevInfo)

  datatype Event =
    | Close                      // io_close(client)
    | OpenAttempt(mode: UsbMode, wait: bool)   // io_open(&client, mode, wait)
    | ReadSerial                 // read_serial_number(client)
    | Prompt                     // getchar(): the operator presses <enter>
    | TimerReset                 // cpuTime = clock(): new baseline for interval()
    | Show(line: Line)           // a countdown or progress line, or the "\n" ending a bar
    | Tick(k: nat)               // interval(1) at loop index k
    | Reboot                     // send_reboot_via_recovery(client)
    | Reconnect(attempts: nat, mode: UsbMode, reset: ResetPolicy, pair: bool, timeoutMs: nat)
    | Return(code: int)          // the function returns code

  const OpenCall := OpenAttempt(RecoveryMode2, true)
  const ReconnectCall := Reconnect(5, DfuMode, UsbNoReset, false, 10000)
  /** Seconds announced before the hold window starts. */
  const CountdownSeconds := 3

  /** Events that talk to the device. */
  predicate IsUsbTraffic(e: Event)
  {
    e.Close? || e.OpenAttempt? || e.ReadSerial? || e.Reboot? || e.Reconnect?
  }

  /** Number of `interval(1)` waits in a trace. */
  function Ticks(s: seq<Event>): nat
  {
    if |s| == 0 then 0 else Ticks(s[..|s| - 1]) + (if s[|s| - 1].Tick? then 1 else 0)
  }

  /** The calls into the USB layer in a trace, in order. */
  function UsbCalls(s: seq<Event>): seq<Event>
  {
    if |s| == 0 then []
    else UsbCalls(s[..|s| - 1]) + (if IsUsbTraffic(s[|s| - 1]) then [s[|s| - 1]] else [])
  }

  lemma {:induction false} TicksAppend(a: seq<Event>, b: seq<Event>)
    ensures Ticks(a + b) == Ticks(a) + Ticks(b)
    decreases |b|
  {
    if b == [] {
      assert a + b == a;
    } else {
      assert (a + b)[..|a + b| - 1] == a + b[..|b| - 1];
      assert (a + b)[|a + b| - 1] == b[|b| - 1];
      TicksAppend(a, b[..|b| - 1]);
    }
  }

  lemma {:induction false} UsbCallsAppend(a: seq<Event>, b: seq<Event>)
    ensures UsbCalls(a + b) == UsbCalls(a) + UsbCalls(b)
    decreases |b|
  {
    if b == [] {
      assert a + b == a;
    } else {
      assert (a + b)[..|a + b| - 1] == a + b[..|b| - 1];
      assert (a + b)[|a + b| - 1] == b[|b| - 1];
      UsbCallsAppend(a, b[..|b| - 1]);
    }
  }

  /** A bar or countdown step holds one wait. */
  lemma OneTick(line: Line, k: nat)
    ensures Ticks([Show(line), Tick(k)]) == 1
    ensures UsbCalls([Show(line), Tick(k)]) == []
  {
    var s := [Show(line), Tick(k)];
    assert s[..|s| - 1] == [Show(line)];
    assert [Show(line)][..0] == [];
    assert Ticks([Show(line)]) == 0;
    assert UsbCalls([Show(line)]) == [];
  }

  lemma {:induction false} NoTicks(s: seq<Event>)
    requires forall e :: e in s ==> !e.Tick?
    ensures Ticks(s) == 0
  {
    if s != [] {
      assert s[|s| - 1] in s;
      NoTicks(s[..|s| - 1]);
    }
  }

  lemma {:induction false} NoUsbCalls(s: seq<Event>)
    requires forall e :: e in s ==> !IsUsbTraffic(e)
    ensures UsbCalls(s) == []
  {
    if s != [] {
      assert s[|s| - 1] in s;
      NoUsbCalls(s[..|s| - 1]);
    }
  }

  lemma {:induction false} AllUsbCalls(s: seq<Event>)
    requires forall e :: e in s ==> IsUsbTraffic(e)
    ensures UsbCalls(s) == s
  {
    if s != [] {
      var init, last := s[..|s| - 1], s[|s| - 1];
      assert last in s;
      AllUsbCalls(init);
      assert UsbCalls(s) == init + [last];
      assert init + [last] == s;
    }
  }

  /** A prefix of the first piece of a trace is a prefix of the trace. */
  lemma TakeOfAppend(a: seq<Event>, b: seq<Event>, k: nat)
    requires k <= |a|
    ensures (a + b)[..k] == a[..k]
  {
  }

  /** What follows the first `k` events of the third of five pieces of a trace. */
  lemma DropInThird(a: seq<Event>, b: seq<Event>, c: seq<Event>, d: seq<Event>, e: seq<Event>, k: nat)
    requires k <= |c|
    ensures (a + b + c + d + e)[|a| + |b| + k..] == c[k..] + d + e
  {
    assert a + b + c + d + e == (a + b) + (c + d + e);
  }

  /** The last event of a trace is the last event of its last piece. */
  lemma LastOfAppend(a: seq<Event>, b: seq<Event>)
    requires |b| > 0
    ensures (a + b)[|a + b| - 1] == b[|b| - 1]
  {
  }

  /** Appending two pieces of a trace one after the other appends their concatenation. */
  lemma AppendSteps(a: seq<Event>, b: seq<Event>, c: seq<Event>)
    ensures a + b + c == a + (b + c)
  {
  }

  /** `n` copies of one event. */
  function Copies(e: Event, n: nat): (s: seq<Event>)
    ensures |s| == n
    ensures forall k :: 0 <= k < n ==> s[k] == e
  {
    if n == 0 then [] else Copies(e, n - 1) + [e]
  }

  // ---------------------------------------------------------------------
  // Waiting for a device in Recovery mode
  // ---------------------------------------------------------------------

  /** Some `io_open` attempt finds a device (otherwise the C loop spins forever). */
  ghost predicate EventuallyFound(opens: seq<Option<Client>>)
  {
    exists k :: 0 <= k < |opens| && opens[k].Some?
  }

  function FirstFoundFrom(opens: seq<Option<Client>>, i: nat): (k: nat)
    requires exists k :: i <= k < |opens| && opens[k].Some?
    ensures i <= k < |opens| && opens[k].Some?
    ensures forall m :: i <= m < k ==> opens[m].None?
    decreases |opens| - i
  {
    if opens[i].Some? then i else FirstFoundFrom(opens, i + 1)
  }

  /** The index of the `io_open` attempt that ends the wait loop. */
  function FirstFound(opens: seq<Option<Client>>): (k: nat)
    requires EventuallyFound(opens)
    ensures k < |opens| && opens[k].Some?
    ensures forall m :: 0 <= m < k ==> opens[m].None?
  {
    FirstFoundFrom(opens, 0)
  }

  /** The calls of the wait loop: a Close of the handle passed in, if any, then the open attempts. */
  function WaitTrace(held: bool, opens: seq<Option<Client>>): seq<Event>
    requires EventuallyFound(opens)
  {
    (if held then [Close] else []) + Copies(OpenCall, FirstFound(opens) + 1)
  }

  /**
   * The wait loop: before every `io_open` attempt any held handle is
   * closed and dropped, and the loop leaves only with a handle, the one
   * the first successful attempt returned.
   */
  method WaitForRecovery(client: Option<Client>, opens: seq<Option<Client>>)
    returns (found: Option<Client>, trace: seq<Event>)
    requires EventuallyFound(opens)
    ensures found.Some? && found == opens[FirstFound(opens)]
    ensures trace == WaitTrace(client.Some?, opens)
  {
    var closing := if client.Some? then [Close] else [];
    found := client;
    trace := [];
    var k := 0;
    while true
      invariant 0 <= k <= FirstFound(opens)
      invariant k == 0 ==> found == client && trace == []
      invariant k > 0 ==> found.None? && trace == closing + Copies(OpenCall, k)
      decreases FirstFound(opens) - k
    {
      if found.Some? {
        trace := trace + [Close];
        found := None;
      }
      trace := trace + [OpenCall];
      found := opens[k];
      if found.Some? {
        break;
      }
      k := k + 1;
    }
  }

  /**
   * The wait loop's traffic: one Close exactly when a handle was passed
   * in, first, then nothing but open attempts, one per failed attempt
   * plus the successful one.
   */
  lemma WaitTraceShape(held: bool, opens: seq<Option<Client>>)
    requires EventuallyFound(opens)
    ensures UsbCalls(WaitTrace(held, opens)) == WaitTrace(held, opens)
    ensures |WaitTrace(held, opens)| == (if held then 1 else 0) + FirstFound(opens) + 1
    ensures forall p :: 0 <= p < |WaitTrace(held, opens)| ==>
      (WaitTrace(held, opens)[p] == Close <==> held && p == 0)
    ensures forall p :: 0 <= p < |WaitTrace(held, opens)| ==>
      (WaitTrace(held, opens)[p] == OpenCall <==> !held || p > 0)
    ensures forall e :: e in WaitTrace(held, opens) ==> e == Close || e == OpenCall
  {
    AllUsbCalls(WaitTrace(held, opens));
  }

  // ---------------------------------------------------------------------
  // The timed windows
  // ---------------------------------------------------------------------

  /** The first `i` ticks of the countdown from `n`: announce `n - k`, then wait. */
  function CountdownUpTo(n: nat, i: nat): seq<Event>
    requires i <= n
  {
    if i == 0 then [] else CountdownUpTo(n, i - 1) + [Show(CountdownLine(n - (i - 1))), Tick(i - 1)]
  }

  /** The countdown loop before the hold window. */
  method Countdown() returns (trace: seq<Event>)
    ensures trace == CountdownUpTo(CountdownSeconds, CountdownSeconds)
  {
    trace := [];
    for i := 0 to CountdownSeconds
      invariant trace == CountdownUpTo(CountdownSeconds, i)
    {
      trace := trace + [Show(CountdownLine(CountdownSeconds - i)), Tick(i)];
    }
  }

  /** The countdown announces 3, 2 and 1, waiting one second after each. */
  lemma CountdownAnnounces()
    ensures CountdownUpTo(CountdownSeconds, CountdownSeconds)
         == [Show(CountdownLine(3)), Tick(0), Show(CountdownLine(2)), Tick(1),
             Show(CountdownLine(1)), Tick(2)]
  {
  }

  /** How many times `for (i = 0; i < sec; i++)` runs. */
  function WindowLength(sec: int): (n: nat)
    ensures n <= sec || n == 0
  {
    if sec > 0 then sec else 0
  }

  /** Tick `i` of a bar window: draw the bar, then wait a second. */
  function BarTick(sec: int, i: int): seq<Event>
    requires 0 <= i < sec
  {
    [Show(BarLine(i, sec)), Tick(i)]
  }

  lemma BarTickQuiet(sec: int, i: int)
    requires 0 <= i < sec
    ensures Ticks(BarTick(sec, i)) == 1 && UsbCalls(BarTick(sec, i)) == []
  {
    OneTick(BarLine(i, sec), i);
  }

  /** Tick `i` of the hold window; tick 1 is preceded by the reboot request. */
  function HoldStep(sec: int, i: int): seq<Event>
    requires 0 <= i < sec
  {
    (if i == 1 then [Reboot] else []) + BarTick(sec, i)
  }

  /** The first `i` ticks of the hold window. */
  function HoldUpTo(sec: int, i: nat): seq<Event>
    requires i <= WindowLength(sec)
  {
    if i == 0 then [] else HoldUpTo(sec, i - 1) + HoldStep(sec, i - 1)
  }

  /** The hold window: `sec` ticks, then the line break after the bar. */
  function HoldTrace(sec: int): seq<Event>
  {
    HoldUpTo(sec, WindowLength(sec)) + [Show(LineEnd)]
  }

  /** The hold-window loop of `enter_dfu_via_recovery`, with the bar drawn inline. */
  method HoldWindow(sec: int) returns (trace: seq<Event>)
    ensures trace == HoldTrace(sec)
  {
    trace := [];
    var i := 0;
    while i < sec
      invariant 0 <= i <= WindowLength(sec)
      invariant trace == HoldUpTo(sec, i)
    {
      if i == 1 {
        trace := trace + [Reboot];
      }
      trace := trace + [Show(BarLine(i, sec)), Tick(i)];
      i := i + 1;
    }
    trace := trace + [Show(LineEnd)];
  }

  /** The first `i` ticks of `prog`. */
  function ProgUpTo(sec: int, i: nat): seq<Event>
    requires i <= WindowLength(sec)
  {
    if i == 0 then [] else ProgUpTo(sec, i - 1) + BarTick(sec, i - 1)
  }

  /** `prog(sec)`: reset the timer baseline, `sec` ticks, then the line break. */
  function ProgTrace(sec: int): seq<Event>
  {
    [TimerReset] + ProgUpTo(sec, WindowLength(sec)) + [Show(LineEnd)]
  }

  /** `prog`, the generic countdown bar used for the release window. */
  method Prog(sec: int) returns (trace: seq<Event>)
    ensures trace == ProgTrace(sec)
  {
    trace := [TimerReset];
    var i := 0;
    while i < sec
      invariant 0 <= i <= WindowLength(sec)
      invariant trace == [TimerReset] + ProgUpTo(sec, i)
    {
      trace := trace + [Show(BarLine(i, sec)), Tick(i)];
      i := i + 1;
    }
    trace := trace + [Show(LineEnd)];
  }

  lemma {:induction false} CountdownEvents(n: nat, i: nat)
    requires i <= n
    ensures forall e :: e in CountdownUpTo(n, i) ==> e.Show? || e.Tick?
    ensures |CountdownUpTo(n, i)| == 2 * i
  {
    if i > 0 {
      CountdownEvents(n, i - 1);
    }
  }

  lemma {:induction false} CountdownTicks(n: nat, i: nat)
    requires i <= n
    ensures Ticks(CountdownUpTo(n, i)) == i
  {
    if i > 0 {
      CountdownTicks(n, i - 1);
      var step := [Show(CountdownLine(n - (i - 1))), Tick(i - 1)];
      OneTick(CountdownLine(n - (i - 1)), i - 1);
      TicksAppend(CountdownUpTo(n, i - 1), step);
    }
  }

  lemma {:induction false} ProgQuiet(sec: int, i: nat)
    requires i <= WindowLength(sec)
    ensures forall e :: e in ProgUpTo(sec, i) ==> e.Show? || e.Tick?
    ensures Ticks(ProgUpTo(sec, i)) == i
  {
    if i > 0 {
      ProgQuiet(sec, i - 1);
      OneTick(BarLine(i - 1, sec), i - 1);
      TicksAppend(ProgUpTo(sec, i - 1), BarTick(sec, i - 1));
    }
  }

  /** The release window waits once per second and makes no USB call. */
  lemma ProgWindow(sec: int)
    ensures Ticks(ProgTrace(sec)) == WindowLength(sec)
    ensures UsbCalls(ProgTrace(sec)) == []
  {
    ProgQuiet(sec, WindowLength(sec));
    NoTicks([TimerReset]);
    NoTicks([Show(LineEnd)]);
    TicksAppend([TimerReset] + ProgUpTo(sec, WindowLength(sec)), [Show(LineEnd)]);
    TicksAppend([TimerReset], ProgUpTo(sec, WindowLength(sec)));
    NoUsbCalls(ProgTrace(sec));
  }

  /** Every bar of the release window is drawn. */
  lemma ProgDrawsEveryBar(sec: int)
    ensures forall i :: 0 <= i < sec ==> Show(BarLine(i, sec)) in ProgTrace(sec)
  {
    forall i | 0 <= i < sec
      ensures Show(BarLine(i, sec)) in ProgTrace(sec)
    {
      ProgPrefix(sec, i + 1, WindowLength(sec));
    }
  }

  lemma {:induction false} ProgPrefix(sec: int, i: nat, n: nat)
    requires 0 < i <= n <= WindowLength(sec)
    ensures Show(BarLine(i - 1, sec)) in ProgUpTo(sec, n)
    decreases n
  {
    if i < n {
      ProgPrefix(sec, i, n - 1);
    }
  }

  lemma {:induction false} ProgUpToAt(sec: int, n: nat)
    requires n <= WindowLength(sec)
    ensures |ProgUpTo(sec, n)| == 2 * n
    ensures forall k :: 0 <= k < 2 * n ==>
      ProgUpTo(sec, n)[k] == if k % 2 == 0 then Show(BarLine(k / 2, sec)) else Tick(k / 2)
  {
    if n > 0 {
      ProgUpToAt(sec, n - 1);
    }
  }

  /**
   * `prog(sec)` resets the timer baseline, then draws bar 0, waits, draws
   * bar 1, waits, and so on up to bar `sec - 1`, and ends with one line
   * break.
   */
  lemma ProgLines(sec: int)
    ensures |ProgTrace(sec)| == 2 * WindowLength(sec) + 2
    ensures ProgTrace(sec)[0] == TimerReset
    ensures ProgTrace(sec)[|ProgTrace(sec)| - 1] == Show(LineEnd)
    ensures forall k :: 1 <= k <= 2 * WindowLength(sec) ==>
      ProgTrace(sec)[k] == if k % 2 == 1 then Show(BarLine(k / 2, sec)) else Tick(k / 2 - 1)
  {
    var n := WindowLength(sec);
    var body := ProgUpTo(sec, n);
    ProgUpToAt(sec, n);
    assert ProgTrace(sec) == [TimerReset] + body + [Show(LineEnd)];
    forall k | 1 <= k <= 2 * n
      ensures ProgTrace(sec)[k] == if k % 2 == 1 then Show(BarLine(k / 2, sec)) else Tick(k / 2 - 1)
    {
      assert ProgTrace(sec)[k] == body[k - 1];
    }
  }

  lemma {:induction false} HoldEvents(sec: int, i: nat)
    requires i <= WindowLength(sec)
    ensures forall e :: e in HoldUpTo(sec, i) ==> e.Show? || e.Tick? || e.Reboot?
    ensures |HoldUpTo(sec, i)| == 2 * i + (if i >= 2 then 1 else 0)
  {
    if i > 0 {
      HoldEvents(sec, i - 1);
    }
  }

  lemma HoldStepQuiet(sec: int, i: int)
    requires 0 <= i < sec
    ensures Ticks(HoldStep(sec, i)) == 1
    ensures UsbCalls(HoldStep(sec, i)) == if i == 1 then [Reboot] else []
  {
    var r: seq<Event> := if i == 1 then [Reboot] else [];
    BarTickQuiet(sec, i);
    NoTicks(r);
    AllUsbCalls(r);
    TicksAppend(r, BarTick(sec, i));
    UsbCallsAppend(r, BarTick(sec, i));
  }

  lemma {:induction false} HoldTicks(sec: int, i: nat)
    requires i <= WindowLength(sec)
    ensures Ticks(HoldUpTo(sec, i)) == i
  {
    if i > 0 {
      var init, step := HoldUpTo(sec, i - 1), HoldStep(sec, i - 1);
      assert HoldUpTo(sec, i) == init + step;
      HoldTicks(sec, i - 1);
      HoldStepQuiet(sec, i - 1);
      TicksAppend(init, step);
    }
  }

  lemma {:induction false} HoldUsbCalls(sec: int, i: nat)
    requires i <= WindowLength(sec)
    ensures UsbCalls(HoldUpTo(sec, i)) == if i >= 2 then [Reboot] else []
  {
    if i > 0 {
      HoldUsbCalls(sec, i - 1);
      HoldStepQuiet(sec, i - 1);
      UsbCallsAppend(HoldUpTo(sec, i - 1), HoldStep(sec, i - 1));
    }
  }

  lemma {:induction false} HoldHead(sec: int, i: nat)
    requires 2 <= i <= WindowLength(sec)
    ensures |HoldUpTo(sec, i)| >= 5 && HoldUpTo(sec, i)[..5] == [Show(BarLine(0, sec)), Tick(0), Reboot, Show(BarLine(1, sec)), Tick(1)]
  {
    HoldEvents(sec, i);
    if i > 2 {
      HoldHead(sec, i - 1);
      HoldEvents(sec, i - 1);
    }
  }

  /**
   * The hold window waits once per tick and makes one USB call, the reboot
   * request, and only when it lasts two ticks or more.
   */
  lemma HoldWindowReboot(sec: int)
    ensures Ticks(HoldTrace(sec)) == WindowLength(sec)
    ensures UsbCalls(HoldTrace(sec)) == if sec >= 2 then [Reboot] else []
  {
    var n := WindowLength(sec);
    HoldTicks(sec, n);
    HoldUsbCalls(sec, n);
    TicksAppend(HoldUpTo(sec, n), [Show(LineEnd)]);
    UsbCallsAppend(HoldUpTo(sec, n), [Show(LineEnd)]);
    NoUsbCalls([Show(LineEnd)]);
    NoTicks([Show(LineEnd)]);
  }

  /** The reboot request goes out between the bars of ticks 0 and 1. */
  lemma HoldWindowHead(sec: int)
    requires sec >= 2
    ensures |HoldTrace(sec)| > 5
    ensures HoldTrace(sec)[..5] == [Show(BarLine(0, sec)), Tick(0), Reboot, Show(BarLine(1, sec)), Tick(1)]
  {
    HoldHead(sec, WindowLength(sec));
  }

  /** Every line the first `i` ticks of the hold window show is a bar of that window. */
  lemma {:induction false} HoldDrawable(sec: int, i: nat)
    requires i <= WindowLength(sec)
    ensures forall e :: e in HoldUpTo(sec, i) && e.Show? ==> e.line.BarLine? && WindowLine(e.line, sec)
  {
    if i > 0 {
      HoldDrawable(sec, i - 1);
      assert HoldStep(sec, i - 1) == (if i - 1 == 1 then [Reboot] else []) + [Show(BarLine(i - 1, sec)), Tick(i - 1)];
    }
  }

  /** Every line the first `i` ticks of `prog` show is a bar of that window. */
  lemma {:induction false} ProgDrawable(sec: int, i: nat)
    requires i <= WindowLength(sec)
    ensures forall e :: e in ProgUpTo(sec, i) && e.Show? ==> e.line.BarLine? && WindowLine(e.line, sec)
  {
    if i > 0 {
      ProgDrawable(sec, i - 1);
    }
  }

  /**
   * Every line the two windows show is one of the window's own bars, for a
   * tick inside it, or the line break that ends it; so `Text` renders each.
   */
  lemma WindowsDrawable(hold: int, release: int)
    ensures forall e :: e in HoldTrace(hold) && e.Show? ==> WindowLine(e.line, hold) && Drawable(e.line)
    ensures forall e :: e in ProgTrace(release) && e.Show? ==> WindowLine(e.line, release) && Drawable(e.line)
  {
    HoldDrawable(hold, WindowLength(hold));
    ProgDrawable(release, WindowLength(release));
  }

  // ---------------------------------------------------------------------
  // The whole procedure
  // ---------------------------------------------------------------------

  /** The handle the wait loop ends with. */
  function Connected(opens: seq<Option<Client>>): Client
    requires EventuallyFound(opens)
  {
    opens[FirstFound(opens)].value
  }

  /** The identifying fields the classification reads, after `read_serial_number` if it ran. */
  function DeviceInfo(c: Client, readInfo: DevInfo): DevInfo
  {
    if c.hasSerialStr then c.devinfo else readInfo
  }

  function SerialTrace(c: Client): seq<Event>
  {
    if c.hasSerialStr then [] else [ReadSerial]
  }

  /** The type the scan gives the connected device. */
  function RunType(table: seq<Entry>, opens: seq<Option<Client>>, readInfo: DevInfo): DfuType
    requires EventuallyFound(opens)
  {
    var info := DeviceInfo(Connected(opens), readInfo);
    Classify(table, info.cpid, info.bdid)
  }

  /** STEP1 to STEP3: the prompt, the countdown, the hold window and the release window. */
  function ScriptTrace(plan: Plan): seq<Event>
  {
    [Prompt, TimerReset] + CountdownUpTo(CountdownSeconds, CountdownSeconds)
    + HoldTrace(plan.holdSeconds) + ProgTrace(plan.releaseSeconds)
  }

  /** The reconnection in DFU mode and the exit it leads to. */
  function ConfirmTrace(reconnected: Option<Client>): seq<Event>
  {
    if reconnected.Some? then [ReconnectCall, Close, Return(0)] else [ReconnectCall, Return(-1)]
  }

  function AfterConnect(kind: DfuType, reconnected: Option<Client>): seq<Event>
  {
    match SelectButton(kind)
    case None => [Return(-1)]
    case Some(plan) => ScriptTrace(plan) + ConfirmTrace(reconnected)
  }

  /** Every event of one run of `enter_dfu_via_recovery`. */
  function RunTrace(table: seq<Entry>, client: Option<Client>, opens: seq<Option<Client>>,
                    readInfo: DevInfo, reconnected: Option<Client>): seq<Event>
    requires EventuallyFound(opens)
  {
    WaitTrace(client.Some?, opens) + SerialTrace(Connected(opens))
    + AfterConnect(RunType(table, opens, readInfo), reconnected)
  }

  /** A run is the traffic up to the classification followed by what comes after it. */
  lemma RunTraceSplit(table: seq<Entry>, client: Option<Client>, opens: seq<Option<Client>>,
                      readInfo: DevInfo, reconnected: Option<Client>, after: seq<Event>)
    requires EventuallyFound(opens)
    requires after == AfterConnect(RunType(table, opens, readInfo), reconnected)
    ensures RunTrace(table, client, opens, readInfo, reconnected)
         == WaitTrace(client.Some?, opens) + SerialTrace(Connected(opens)) + after
  {
  }

  /**
   * STEP1 to STEP3 of `enter_dfu_via_recovery`: wait for <enter>, reset the
   * timer baseline, count down, run the hold window and then `prog` for the
   * release window.
   */
  method OperatorScript(plan: Plan) returns (trace: seq<Event>)
    ensures trace == ScriptTrace(plan)
  {
    trace := [Prompt, TimerReset];
    var countdown := Countdown();
    trace := trace + countdown;
    var hold := HoldWindow(plan.holdSeconds);
    trace := trace + hold;
    var release := Prog(plan.releaseSeconds);
    trace := trace + release;
  }

  /**
   * One run of `enter_dfu_via_recovery(client)` against the device table
   * `table`. `opens` are the handles successive `io_open` calls return,
   * `readInfo` what `read_serial_number` stores, `reconnected` what
   * `io_reconnect` leaves in `client`. It returns 0 only when the device
   * is supported and came back in DFU mode, and -1 otherwise.
   */
  method EnterDfuViaRecovery(table: seq<Entry>, client: Option<Client>, opens: seq<Option<Client>>,
                             readInfo: DevInfo, reconnected: Option<Client>)
    returns (code: int, trace: seq<Event>)
    requires WellFormed(table)
    requires EventuallyFound(opens)
    ensures code == 0 <==> SelectButton(RunType(table, opens, readInfo)).Some? && reconnected.Some?
    ensures code == 0 || code == -1
    ensures trace == RunTrace(table, client, opens, readInfo, reconnected)
  {
    var found, waitTrace := WaitForRecovery(client, opens);
    if found.None? {
      // "Failed to find the device in Recovery mode": the wait loop never leaves without a handle.
      assert false;
    }
    var c := found.value;
    var info := c.devinfo;
    var serial: seq<Event> := [];
    if !c.hasSerialStr {
      serial := [ReadSerial];
      info := readInfo;
    }
    var kind := ClassifyScan(table, info.cpid, info.bdid);
    // The trace is kept in three pieces: the wait loop's, the serial read's
    // and what follows the classification, where each exit of the C
    // function appends its last events.
    var after: seq<Event>;
    var plan := SelectButton(kind);
    if plan.None? {
      // "This mode is not yet supported for this device."
      code := -1;
      after := [Return(code)];
    } else {
      var script := OperatorScript(plan.value);
      var confirm: seq<Event>;
      if reconnected.None? {
        // "Failed to put the device into DFU mode"
        code := -1;
        confirm := [ReconnectCall, Return(code)];
      } else {
        code := 0;
        confirm := [ReconnectCall, Close, Return(code)];
      }
      after := script + confirm;
    }
    assert after == AfterConnect(kind, reconnected);
    assert kind == RunType(table, opens, readInfo);
    RunTraceSplit(table, client, opens, readInfo, reconnected, after);
    trace := waitTrace + serial + after;
  }

  /** A USB call in a trace is among its USB calls. */
  lemma {:induction false} InUsbCalls(s: seq<Event>, e: Event)
    requires e in s && IsUsbTraffic(e)
    ensures e in UsbCalls(s)
  {
    if s[|s| - 1] != e {
      assert e in s[..|s| - 1] by {
        var k :| 0 <= k < |s| && s[k] == e;
        assert s[..|s| - 1][k] == e;
      }
      InUsbCalls(s[..|s| - 1], e);
    }
  }

  /** The Close of the new handle, made only when the device came back. */
  function Closing(reconnected: Option<Client>): seq<Event>
  {
    if reconnected.Some? then [Close] else []
  }

  /** The reconnection makes one call, then closes the handle only when it came back. */
  lemma ConfirmShape(reconnected: Option<Client>)
    ensures Ticks(ConfirmTrace(reconnected)) == 0
    ensures UsbCalls(ConfirmTrace(reconnected)) == [ReconnectCall] + Closing(reconnected)
  {
    NoTicks(ConfirmTrace(reconnected));
    var one: seq<Event> := [ReconnectCall];
    assert one[..0] == [];
    assert UsbCalls(one) == one;
    if reconnected.Some? {
      var two: seq<Event> := [ReconnectCall, Close];
      var f: seq<Event> := [ReconnectCall, Close, Return(0)];
      assert two[..1] == one;
      assert UsbCalls(two) == two;
      assert f[..2] == two;
      assert UsbCalls(f) == two;
    } else {
      var f: seq<Event> := [ReconnectCall, Return(-1)];
      assert f[..1] == one;
      assert UsbCalls(f) == one;
    }
  }

  /** The run's last event is its return, 0 exactly when the device came back. */
  lemma ConfirmEnd(reconnected: Option<Client>)
    ensures |ConfirmTrace(reconnected)| > 0
    ensures ConfirmTrace(reconnected)[|ConfirmTrace(reconnected)| - 1]
         == Return(if reconnected.Some? then 0 else -1)
  {
  }

  /** A trace whose USB calls hold no reboot request holds none. */
  lemma NoRebootIn(s: seq<Event>)
    requires Reboot !in UsbCalls(s)
    ensures Reboot !in s
  {
    if Reboot in s {
      InUsbCalls(s, Reboot);
    }
  }

  /** A trace of closes and opens, the handle closed first if at all, then perhaps a serial read. */
  lemma OpensThenSerial(w: seq<Event>, sr: seq<Event>)
    requires forall e :: e in w ==> e == Close || e == OpenCall
    requires forall p :: 0 <= p < |w| && w[p] == Close ==> p == 0
    requires sr == [] || sr == [ReadSerial]
    ensures Ticks(w + sr) == 0
    ensures UsbCalls(w + sr) == w + sr
    ensures forall e :: e in w + sr ==> e == Close || e == OpenCall || e == ReadSerial
    ensures forall p :: 0 <= p < |w + sr| && (w + sr)[p] == Close ==> p == 0
    ensures Reboot !in UsbCalls(w + sr)
  {
    NoTicks(w + sr);
    AllUsbCalls(w + sr);
    forall p | 0 <= p < |w + sr| && (w + sr)[p] == Close
      ensures p == 0
    {
      if p < |w| {
        assert w[p] == Close;
      }
    }
  }

  /** What the wait loop and the serial read leave before the classification. */
  lemma BeforeClassify(held: bool, opens: seq<Option<Client>>, c: Client)
    requires EventuallyFound(opens)
    ensures var pre := WaitTrace(held, opens) + SerialTrace(c);
      Ticks(pre) == 0 && UsbCalls(pre) == pre
      && (forall e :: e in pre ==> e == Close || e == OpenCall || e == ReadSerial)
      && (forall p :: 0 <= p < |pre| && pre[p] == Close ==> p == 0)
      && Reboot !in UsbCalls(pre)
  {
    var w := WaitTrace(held, opens);
    WaitTraceShape(held, opens);
    assert forall p :: 0 <= p < |w| && w[p] == Close ==> p == 0;
    OpensThenSerial(w, SerialTrace(c));
  }

  /** The traffic before the classification followed by nothing but the return of -1. */
  lemma EndsAtReturn(pre: seq<Event>)
    requires Ticks(pre) == 0 && UsbCalls(pre) == pre
    requires forall e :: e in pre ==> e == Close || e == OpenCall || e == ReadSerial
    requires forall p :: 0 <= p < |pre| && pre[p] == Close ==> p == 0
    ensures var t := pre + [Return(-1)];
      UsbCalls(t) == pre && Ticks(t) == 0
      && (forall e :: e in t ==> e == Close || e == OpenCall || e == ReadSerial || e == Return(-1))
      && (forall p :: 0 <= p < |t| && t[p] == Close ==> p == 0)
  {
    NoTicks([Return(-1)]);
    TicksAppend(pre, [Return(-1)]);
    NoUsbCalls([Return(-1)]);
    UsbCallsAppend(pre, [Return(-1)]);
    var t := pre + [Return(-1)];
    forall p | 0 <= p < |t| && t[p] == Close
      ensures p == 0
    {
      if p < |pre| {
        assert pre[p] == Close;
      }
    }
  }

  /**
   * An unsupported device ends the run right after classification with
   * -1: no prompt, no countdown, no window, no reboot request and no
   * reconnection. The handle the wait loop opened is left open: the only
   * possible Close is the one of the handle passed in, before any open.
   */
  lemma RunUnsupported(table: seq<Entry>, client: Option<Client>, opens: seq<Option<Client>>,
                       readInfo: DevInfo, reconnected: Option<Client>)
    requires EventuallyFound(opens)
    requires SelectButton(RunType(table, opens, readInfo)).None?
    ensures var t := RunTrace(table, client, opens, readInfo, reconnected);
      var pre := WaitTrace(client.Some?, opens) + SerialTrace(Connected(opens));
      t == pre + [Return(-1)] && UsbCalls(t) == pre && Ticks(t) == 0
      && (forall e :: e in t ==> e == Close || e == OpenCall || e == ReadSerial || e == Return(-1))
      && (forall p :: 0 <= p < |t| && t[p] == Close ==> p == 0)
  {
    var pre := WaitTrace(client.Some?, opens) + SerialTrace(Connected(opens));
    RunTraceSplit(table, client, opens, readInfo, reconnected, [Return(-1)]);
    BeforeClassify(client.Some?, opens, Connected(opens));
    EndsAtReturn(pre);
  }

  /** The countdown of the operator script: six events, three waits, no USB call. */
  lemma CountdownTotals()
    ensures |CountdownUpTo(CountdownSeconds, CountdownSeconds)| == 6
    ensures Ticks(CountdownUpTo(CountdownSeconds, CountdownSeconds)) == 3
    ensures UsbCalls(CountdownUpTo(CountdownSeconds, CountdownSeconds)) == []
  {
    CountdownEvents(CountdownSeconds, CountdownSeconds);
    CountdownTicks(CountdownSeconds, CountdownSeconds);
    NoUsbCalls(CountdownUpTo(CountdownSeconds, CountdownSeconds));
  }

  /** Waits add up over five consecutive pieces of a trace. */
  lemma FiveTicks(a: seq<Event>, b: seq<Event>, c: seq<Event>, d: seq<Event>, e: seq<Event>)
    ensures Ticks(a + b + c + d + e) == Ticks(a) + Ticks(b) + Ticks(c) + Ticks(d) + Ticks(e)
  {
    TicksAppend(a, b);
    TicksAppend(a + b, c);
    TicksAppend(a + b + c, d);
    TicksAppend(a + b + c + d, e);
  }

  /** Five consecutive pieces of a trace of which only the third and the last hold USB calls. */
  lemma FiveUsbCalls(a: seq<Event>, b: seq<Event>, c: seq<Event>, d: seq<Event>, e: seq<Event>)
    requires UsbCalls(a) == [] && UsbCalls(b) == [] && UsbCalls(d) == []
    ensures UsbCalls(a + b + c + d + e) == UsbCalls(c) + UsbCalls(e)
  {
    UsbCallsAppend(a, b);
    UsbCallsAppend(a + b, c);
    UsbCallsAppend(a + b + c, d);
    UsbCallsAppend(a + b + c + d, e);
  }

  /** The waits of the operator script and the reconnection: the countdown's and both windows'. */
  lemma AfterTicks(plan: Plan, reconnected: Option<Client>)
    ensures Ticks(ScriptTrace(plan) + ConfirmTrace(reconnected))
         == CountdownSeconds + WindowLength(plan.holdSeconds) + WindowLength(plan.releaseSeconds)
  {
    var pt: seq<Event> := [Prompt, TimerReset];
    var cd := CountdownUpTo(CountdownSeconds, CountdownSeconds);
    NoTicks(pt);
    CountdownTotals();
    HoldWindowReboot(plan.holdSeconds);
    ProgWindow(plan.releaseSeconds);
    ConfirmShape(reconnected);
    FiveTicks(pt, cd, HoldTrace(plan.holdSeconds), ProgTrace(plan.releaseSeconds), ConfirmTrace(reconnected));
  }

  /** For a hold of two seconds or more, the operator script's only USB call is the reboot request. */
  lemma AfterUsbCalls(plan: Plan, reconnected: Option<Client>)
    requires plan.holdSeconds >= 2
    ensures UsbCalls(ScriptTrace(plan) + ConfirmTrace(reconnected))
         == [Reboot] + UsbCalls(ConfirmTrace(reconnected))
  {
    var pt: seq<Event> := [Prompt, TimerReset];
    var cd := CountdownUpTo(CountdownSeconds, CountdownSeconds);
    NoUsbCalls(pt);
    CountdownTotals();
    HoldWindowReboot(plan.holdSeconds);
    ProgWindow(plan.releaseSeconds);
    FiveUsbCalls(pt, cd, HoldTrace(plan.holdSeconds), ProgTrace(plan.releaseSeconds), ConfirmTrace(reconnected));
  }

  /**
   * For a hold of two seconds or more the reboot request is event 10 of
   * the script: after the prompt, the countdown's three waits and hold
   * tick 0.
   */
  lemma ScriptRebootAt(plan: Plan, reconnected: Option<Client>)
    requires plan.holdSeconds >= 2
    ensures var s := ScriptTrace(plan) + ConfirmTrace(reconnected);
      10 < |s| && s[10] == Reboot && Prompt in s[..10] && Ticks(s[..10]) == 4
      && UsbCalls(s[..10]) == []
  {
    var pt: seq<Event> := [Prompt, TimerReset];
    var cd := CountdownUpTo(CountdownSeconds, CountdownSeconds);
    var h := HoldTrace(plan.holdSeconds);
    var h2 := h[..2];
    CountdownTotals();
    HoldWindowHead(plan.holdSeconds);
    assert h2 == [Show(BarLine(0, plan.holdSeconds)), Tick(0)];
    assert ScriptTrace(plan)[..10] == pt + cd + h2 by {
      assert ScriptTrace(plan) == pt + cd + h + ProgTrace(plan.releaseSeconds);
    }
    TakeOfAppend(ScriptTrace(plan), ConfirmTrace(reconnected), 10);
    assert Ticks(pt + cd + h2) == 4 by {
      NoTicks(pt);
      CountdownTotals();
      OneTick(BarLine(0, plan.holdSeconds), 0);
      TicksAppend(pt, cd);
      TicksAppend(pt + cd, h2);
    }
    assert UsbCalls(pt + cd + h2) == [] by {
      NoUsbCalls(pt);
      OneTick(BarLine(0, plan.holdSeconds), 0);
      UsbCallsAppend(pt, cd);
      UsbCallsAppend(pt + cd, h2);
    }
  }

  /** What follows the first `k` events of a trace's first piece. */
  lemma DropOfAppend(a: seq<Event>, b: seq<Event>, k: nat)
    requires k <= |a|
    ensures (a + b)[k..] == a[k..] + b
  {
  }

  /** From tick 1's bar on, the first `i` ticks of the hold window make no USB call. */
  lemma {:induction false} HoldQuietAfterReboot(sec: int, i: nat)
    requires 2 <= i <= WindowLength(sec)
    ensures |HoldUpTo(sec, i)| >= 3 && UsbCalls(HoldUpTo(sec, i)[3..]) == []
  {
    var init, step := HoldUpTo(sec, i - 1), HoldStep(sec, i - 1);
    assert HoldUpTo(sec, i) == init + step;
    if i == 2 {
      assert init == [Show(BarLine(0, sec)), Tick(0)] by {
        assert HoldUpTo(sec, 0) == [];
      }
      assert (init + step)[3..] == BarTick(sec, 1);
      BarTickQuiet(sec, 1);
    } else {
      HoldQuietAfterReboot(sec, i - 1);
      DropOfAppend(init, step, 3);
      HoldStepQuiet(sec, i - 1);
      UsbCallsAppend(init[3..], step);
    }
  }

  /** After the reboot request the hold window makes no USB call. */
  lemma HoldAfterReboot(sec: int)
    requires sec >= 2
    ensures |HoldTrace(sec)| > 5 && UsbCalls(HoldTrace(sec)[3..]) == []
  {
    var body := HoldUpTo(sec, WindowLength(sec));
    var end: seq<Event> := [Show(LineEnd)];
    HoldWindowHead(sec);
    HoldQuietAfterReboot(sec, WindowLength(sec));
    DropOfAppend(body, end, 3);
    NoUsbCalls(end);
    UsbCallsAppend(body[3..], end);
  }

  /** Of three pieces of a trace, only the last holds USB calls. */
  lemma CallsOfLast(a: seq<Event>, b: seq<Event>, c: seq<Event>)
    requires UsbCalls(a) == [] && UsbCalls(b) == []
    ensures UsbCalls(a + b + c) == UsbCalls(c)
  {
    UsbCallsAppend(a, b);
    UsbCallsAppend(a + b, c);
  }

  /** After event 10 of the script, the only USB calls are the reconnection's. */
  lemma AfterRebootNone(plan: Plan, reconnected: Option<Client>)
    requires plan.holdSeconds >= 2
    ensures var s := ScriptTrace(plan) + ConfirmTrace(reconnected);
      10 < |s| && UsbCalls(s[11..]) == UsbCalls(ConfirmTrace(reconnected))
  {
    var h := HoldTrace(plan.holdSeconds);
    var r := ProgTrace(plan.releaseSeconds);
    var f := ConfirmTrace(reconnected);
    HoldAfterReboot(plan.holdSeconds);
    ProgWindow(plan.releaseSeconds);
    CountdownTotals();
    DropInThird([Prompt, TimerReset], CountdownUpTo(CountdownSeconds, CountdownSeconds), h, r, f, 3);
    CallsOfLast(h[3..], r, f);
  }

  /** The reconnection makes no reboot request. */
  lemma ConfirmNoReboot(reconnected: Option<Client>)
    ensures Reboot !in UsbCalls(ConfirmTrace(reconnected))
  {
    ConfirmShape(reconnected);
  }

  /** Placing the traffic before the classification in front of the rest shifts the reboot request. */
  lemma Prefixed(pre: seq<Event>, s: seq<Event>, q: nat)
    requires Ticks(pre) == 0 && Reboot !in UsbCalls(pre)
    requires q < |s| && s[q] == Reboot && Prompt in s[..q] && Ticks(s[..q]) == 4
    requires Reboot !in UsbCalls(s[..q]) && Reboot !in UsbCalls(s[q + 1..])
    ensures var t := pre + s;
      exists p :: 0 <= p < |t| && t[p] == Reboot && Reboot !in t[..p] && Reboot !in t[p + 1..]
        && Prompt in t[..p] && Ticks(t[..p]) == 4
  {
    var t := pre + s;
    var p := |pre| + q;
    assert t[..p] == pre + s[..q];
    assert t[p + 1..] == s[q + 1..];
    TicksAppend(pre, s[..q]);
    UsbCallsAppend(pre, s[..q]);
    NoRebootIn(t[..p]);
    NoRebootIn(t[p + 1..]);
    assert t[p] == Reboot && Reboot !in t[..p] && Reboot !in t[p + 1..]
      && Prompt in t[..p] && Ticks(t[..p]) == 4;
  }

  /** A supported run is the traffic before the classification, the operator script and the reconnection. */
  lemma SupportedRun(table: seq<Entry>, client: Option<Client>, opens: seq<Option<Client>>,
                     readInfo: DevInfo, reconnected: Option<Client>) returns (plan: Plan)
    requires EventuallyFound(opens)
    requires SelectButton(RunType(table, opens, readInfo)).Some?
    ensures plan.holdSeconds >= 2
    ensures CountdownSeconds + WindowLength(plan.holdSeconds) + WindowLength(plan.releaseSeconds) == 17
    ensures RunTrace(table, client, opens, readInfo, reconnected)
         == WaitTrace(client.Some?, opens) + SerialTrace(Connected(opens))
            + (ScriptTrace(plan) + ConfirmTrace(reconnected))
  {
    plan := SelectButton(RunType(table, opens, readInfo)).value;
    RunTraceSplit(table, client, opens, readInfo, reconnected, ScriptTrace(plan) + ConfirmTrace(reconnected));
  }

  /** Waits and USB calls of a supported run, from those of its two parts. */
  lemma SupportedTraffic(pre: seq<Event>, after: seq<Event>, n: nat, tail: seq<Event>)
    requires Ticks(pre) == 0 && UsbCalls(pre) == pre
    requires Ticks(after) == n && UsbCalls(after) == [Reboot] + ([ReconnectCall] + tail)
    ensures Ticks(pre + after) == n && UsbCalls(pre + after) == pre + [Reboot, ReconnectCall] + tail
  {
    TicksAppend(pre, after);
    UsbCallsAppend(pre, after);
  }

  /**
   * A supported device: 17 one-second waits (the countdown's 3, the hold
   * window's 4 and the release window's 10); the USB calls are the wait
   * loop's, the serial read if any, one reboot request, the reconnection,
   * and the final Close when the device came back.
   */
  lemma RunSupportedTraffic(table: seq<Entry>, client: Option<Client>, opens: seq<Option<Client>>,
                            readInfo: DevInfo, reconnected: Option<Client>)
    requires EventuallyFound(opens)
    requires SelectButton(RunType(table, opens, readInfo)).Some?
    ensures Ticks(RunTrace(table, client, opens, readInfo, reconnected)) == 17
    ensures UsbCalls(RunTrace(table, client, opens, readInfo, reconnected))
         == WaitTrace(client.Some?, opens) + SerialTrace(Connected(opens))
            + [Reboot, ReconnectCall] + Closing(reconnected)
  {
    var plan := SupportedRun(table, client, opens, readInfo, reconnected);
    var pre := WaitTrace(client.Some?, opens) + SerialTrace(Connected(opens));
    var after := ScriptTrace(plan) + ConfirmTrace(reconnected);
    BeforeClassify(client.Some?, opens, Connected(opens));
    AfterTicks(plan, reconnected);
    AfterUsbCalls(plan, reconnected);
    ConfirmShape(reconnected);
    SupportedTraffic(pre, after, 17, Closing(reconnected));
  }

  /**
   * In a supported run the reboot request is made once, after the prompt
   * and after exactly four waits: the countdown's three and hold tick 0.
   */
  lemma RunSupportedReboot(table: seq<Entry>, client: Option<Client>, opens: seq<Option<Client>>,
                           readInfo: DevInfo, reconnected: Option<Client>)
    requires EventuallyFound(opens)
    requires SelectButton(RunType(table, opens, readInfo)).Some?
    ensures var t := RunTrace(table, client, opens, readInfo, reconnected);
      exists p :: 0 <= p < |t| && t[p] == Reboot && Reboot !in t[..p] && Reboot !in t[p + 1..]
        && Prompt in t[..p] && Ticks(t[..p]) == 4
  {
    var plan := SupportedRun(table, client, opens, readInfo, reconnected);
    var pre := WaitTrace(client.Some?, opens) + SerialTrace(Connected(opens));
    var after := ScriptTrace(plan) + ConfirmTrace(reconnected);
    BeforeClassify(client.Some?, opens, Connected(opens));
    ScriptRebootAt(plan, reconnected);
    AfterRebootNone(plan, reconnected);
    ConfirmNoReboot(reconnected);
    Prefixed(pre, after, 10);
  }

  /** A supported run returns 0 exactly when the device came back in DFU mode, and -1 otherwise. */
  lemma RunSupportedResult(table: seq<Entry>, client: Option<Client>, opens: seq<Option<Client>>,
                           readInfo: DevInfo, reconnected: Option<Client>)
    requires EventuallyFound(opens)
    requires SelectButton(RunType(table, opens, readInfo)).Some?
    ensures var t := RunTrace(table, client, opens, readInfo, reconnected);
      |t| > 0 && t[|t| - 1] == Return(if reconnected.Some? then 0 else -1)
  {
    var plan := SupportedRun(table, client, opens, readInfo, reconnected);
    var pre := WaitTrace(client.Some?, opens) + SerialTrace(Connected(opens));
    var f := ConfirmTrace(reconnected);
    ConfirmEnd(reconnected);
    LastOfAppend(ScriptTrace(plan), f);
    LastOfAppend(pre, ScriptTrace(plan) + f);
  }

  /**
   * With the shipped table a CPID 0x8015 device goes through the whole
   * script, and any other device is turned away right after classification.
   */
  lemma DevlistsRun(opens: seq<Option<Client>>, readInfo: DevInfo)
    requires EventuallyFound(opens)
    ensures SelectButton(RunType(Devlists, opens, readInfo)).Some?
        <==> DeviceInfo(Connected(opens), readInfo).cpid == 0x8015
  {
    var info := DeviceInfo(Connected(opens), readInfo);
    DevlistsPlan(info.cpid, info.bdid);
  }
}

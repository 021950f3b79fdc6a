/**
 * The hello protection domain's notification handler: one UART interrupt
 * at a time, a one-character command, and the platform calls it makes.
 *
 * Everything the handler does that leaves the domain is an Event, appended
 * to a trace in the order the C code performs it: characters given to the
 * debug console, words stored to the UART's data and interrupt clear
 * registers, and the seL4 and Microkit calls.
 */
module Hello {
  import opened CTypes
  import opened Decimal
  import opened Pl011
  import opened Psci

  /** The channel of the UART's interrupt. */
  const UART_IRQ_CH: Channel := 1
  /** The channel to the second protection domain. */
  const PD_2_CH: Channel := 2

  /** The initial value of `target_cpu`. */
  const INITIAL_TARGET_CPU: nat := 1

  const CMD_MIGRATE: int := 'm' as int
  const CMD_POWER_OFF: int := 'd' as int
  const CMD_VERSION: int := 'p' as int
  const CMD_NOTIFY: int := 'n' as int
  const CMD_CPU_ON: int := 'r' as int
  const CMD_SCHED_DUMP: int := 's' as int

  // The fixed console messages of the command handler.
  /** Printed before the new CPU index by `m`. */
  const MSG_MIGRATING: string := "migrating to CPU "
  /** Printed by `d` before it powers the CPU off. */
  const MSG_SUICIDE: string := "PD 1 now suiciding\n"
  /** Printed by `p` before the version fields. */
  const MSG_VERSION: string := "PSCI version: "
  /** Separates the version fields. */
  const MSG_DOT: string := "."
  /** Printed by `n` before it notifies the second domain. */
  const MSG_NOTIFYING: string := "notifying PD 2\n"
  /** Printed by `r` before the firmware's reply. */
  const MSG_RESPONSE: string := "response: "
  /** Ends the lines of `m`, `p` and `r`. */
  const MSG_NEWLINE: string := "\n"

  predicate IsCommand(c: int) {
    c in {CMD_MIGRATE, CMD_POWER_OFF, CMD_VERSION, CMD_NOTIFY, CMD_CPU_ON, CMD_SCHED_DUMP}
  }

  datatype Event =
      /**
       * Text given to the debug console: one `microkit_dbg_puts`, or the
       * `microkit_dbg_putc` calls of one print_num.
       */
    | DbgOut(text: string)
      /** A store to the UART data register. */
    | UartTx(word: bv32)
      /** A store to the UART interrupt clear register. */
    | UartIcr(word: bv32)
      /**
       * `seL4_SchedControl_ConfigureFlags` on capability `BASE_SCHED_CONTROL_CAP + control`,
       * for this domain's own scheduling context and budget.
       */
    | SchedConfigure(control: nat)
      /** `microkit_arm_smc_call` with these argument registers. */
    | SmcCall(args: SmcContext)
      /** `microkit_notify`. */
    | Notify(channel: Channel)
      /** `seL4_DebugDumpScheduler`. */
    | DumpScheduler
      /** `microkit_irq_ack`. */
    | IrqAck(channel: Channel)
  {
    /** A call into the kernel or the firmware other than the interrupt acknowledgement. */
    predicate IsPlatformCall() {
      SchedConfigure? || SmcCall? || Notify? || DumpScheduler?
    }
  }

  /** The events of storing the words `w` to the UART data register, in order. */
  function Tx(w: seq<bv32>): seq<Event> {
    seq(|w|, i requires 0 <= i < |w| => UartTx(w[i]))
  }

  /** The debug console text of one event. */
  function TextOf(e: Event): string {
    if e.DbgOut? then e.text else []
  }

  /** The words one event stores to the UART data register. */
  function WordsOf(e: Event): seq<bv32> {
    if e.UartTx? then [e.word] else []
  }

  /** One event as a platform call, if it is one. */
  function CallOf(e: Event): seq<Event> {
    if e.IsPlatformCall() then [e] else []
  }

  /** The text a trace shows on the debug console. */
  function Console(t: seq<Event>): string {
    if t == [] then [] else TextOf(t[0]) + Console(t[1..])
  }

  /** The words a trace stores to the UART data register, in order. */
  function Wire(t: seq<Event>): seq<bv32> {
    if t == [] then [] else WordsOf(t[0]) + Wire(t[1..])
  }

  /** The platform calls of a trace, in order. */
  function Calls(t: seq<Event>): seq<Event> {
    if t == [] then [] else CallOf(t[0]) + Calls(t[1..])
  }

  lemma ViewsCons(e: Event, t: seq<Event>)
    ensures Console([e] + t) == TextOf(e) + Console(t)
    ensures Wire([e] + t) == WordsOf(e) + Wire(t)
    ensures Calls([e] + t) == CallOf(e) + Calls(t)
  {
    assert ([e] + t)[1..] == t;
  }

  lemma {:induction false} ConsoleAppend(a: seq<Event>, b: seq<Event>)
    ensures Console(a + b) == Console(a) + Console(b)
  {
    if a == [] {
      assert a + b == b;
    } else {
      assert (a + b)[1..] == a[1..] + b;
      ConsoleAppend(a[1..], b);
    }
  }

  lemma {:induction false} WireAppend(a: seq<Event>, b: seq<Event>)
    ensures Wire(a + b) == Wire(a) + Wire(b)
  {
    if a == [] {
      assert a + b == b;
    } else {
      assert (a + b)[1..] == a[1..] + b;
      WireAppend(a[1..], b);
    }
  }

  lemma {:induction false} CallsAppend(a: seq<Event>, b: seq<Event>)
    ensures Calls(a + b) == Calls(a) + Calls(b)
  {
    if a == [] {
      assert a + b == b;
    } else {
      assert (a + b)[1..] == a[1..] + b;
      CallsAppend(a[1..], b);
    }
  }

  /** The three views of a trace split over concatenation. */
  lemma ViewsAppend(a: seq<Event>, b: seq<Event>)
    ensures Console(a + b) == Console(a) + Console(b)
    ensures Wire(a + b) == Wire(a) + Wire(b)
    ensures Calls(a + b) == Calls(a) + Calls(b)
  {
    ConsoleAppend(a, b);
    WireAppend(a, b);
    CallsAppend(a, b);
  }

  /** The three views of one event alone. */
  lemma ViewsSingle(e: Event)
    ensures Console([e]) == TextOf(e) && Wire([e]) == WordsOf(e) && Calls([e]) == CallOf(e)
  {
    assert [e][1..] == [];
  }

  /** The three views of a trace extended by one event. */
  lemma ViewsSnoc(t: seq<Event>, e: Event)
    ensures Console(t + [e]) == Console(t) + TextOf(e)
    ensures Wire(t + [e]) == Wire(t) + WordsOf(e)
    ensures Calls(t + [e]) == Calls(t) + CallOf(e)
  {
    ViewsSingle(e);
    ConsoleAppend(t, [e]);
    WireAppend(t, [e]);
    CallsAppend(t, [e]);
  }

  /** The views of a two-event trace. */
  lemma ViewsOfTwo(e1: Event, e2: Event)
    ensures Console([e1, e2]) == TextOf(e1) + TextOf(e2)
    ensures Wire([e1, e2]) == WordsOf(e1) + WordsOf(e2)
    ensures Calls([e1, e2]) == CallOf(e1) + CallOf(e2)
  {
    ViewsSingle(e1);
    assert [e1, e2] == [e1] + [e2];
    ViewsSnoc([e1], e2);
  }

  /** The views of a four-event trace. */
  lemma ViewsOfFour(e1: Event, e2: Event, e3: Event, e4: Event)
    ensures Console([e1, e2, e3, e4]) == TextOf(e1) + TextOf(e2) + TextOf(e3) + TextOf(e4)
    ensures Wire([e1, e2, e3, e4]) == WordsOf(e1) + WordsOf(e2) + WordsOf(e3) + WordsOf(e4)
    ensures Calls([e1, e2, e3, e4]) == CallOf(e1) + CallOf(e2) + CallOf(e3) + CallOf(e4)
  {
    ViewsOfTwo(e1, e2);
    assert [e1, e2, e3] == [e1, e2] + [e3];
    ViewsSnoc([e1, e2], e3);
    assert [e1, e2, e3, e4] == [e1, e2, e3] + [e4];
    ViewsSnoc([e1, e2, e3], e4);
  }

  /** The views of a six-event trace. */
  lemma ViewsOfSix(e1: Event, e2: Event, e3: Event, e4: Event, e5: Event, e6: Event)
    ensures Console([e1, e2, e3, e4, e5, e6])
         == TextOf(e1) + TextOf(e2) + TextOf(e3) + TextOf(e4) + TextOf(e5) + TextOf(e6)
    ensures Calls([e1, e2, e3, e4, e5, e6])
         == CallOf(e1) + CallOf(e2) + CallOf(e3) + CallOf(e4) + CallOf(e5) + CallOf(e6)
    ensures Wire([e1, e2, e3, e4, e5, e6])
         == WordsOf(e1) + WordsOf(e2) + WordsOf(e3) + WordsOf(e4) + WordsOf(e5) + WordsOf(e6)
  {
    ViewsOfFour(e1, e2, e3, e4);
    assert [e1, e2, e3, e4, e5] == [e1, e2, e3, e4] + [e5];
    ViewsSnoc([e1, e2, e3, e4], e5);
    assert [e1, e2, e3, e4, e5, e6] == [e1, e2, e3, e4, e5] + [e6];
    ViewsSnoc([e1, e2, e3, e4, e5], e6);
  }

  /** A console line followed by one platform call. */
  lemma LineThenCall(a: string, e: Event)
    requires e.IsPlatformCall()
    ensures Console([DbgOut(a), e]) == a && Wire([DbgOut(a), e]) == [] && Calls([DbgOut(a), e]) == [e]
  {
    ViewsOfTwo(DbgOut(a), e);
  }

  /** Three console lines followed by one platform call. */
  lemma LinesThenCall(a: string, b: string, c: string, e: Event)
    requires e.IsPlatformCall()
    ensures Console([DbgOut(a), DbgOut(b), DbgOut(c), e]) == a + b + c
    ensures Wire([DbgOut(a), DbgOut(b), DbgOut(c), e]) == []
    ensures Calls([DbgOut(a), DbgOut(b), DbgOut(c), e]) == [e]
  {
    ViewsOfFour(DbgOut(a), DbgOut(b), DbgOut(c), e);
  }

  /** One platform call followed by three console lines. */
  lemma CallThenLines(e: Event, a: string, b: string, c: string)
    requires e.IsPlatformCall()
    ensures Console([e, DbgOut(a), DbgOut(b), DbgOut(c)]) == a + b + c
    ensures Calls([e, DbgOut(a), DbgOut(b), DbgOut(c)]) == [e]
    ensures Wire([e, DbgOut(a), DbgOut(b), DbgOut(c)]) == []
  {
    ViewsOfFour(e, DbgOut(a), DbgOut(b), DbgOut(c));
    assert TextOf(e) + a == a;
  }

  /** One platform call followed by five console lines. */
  lemma CallThenFiveLines(e: Event, a: string, b: string, c: string, d: string, f: string)
    requires e.IsPlatformCall()
    ensures Console([e, DbgOut(a), DbgOut(b), DbgOut(c), DbgOut(d), DbgOut(f)]) == a + b + c + d + f
    ensures Calls([e, DbgOut(a), DbgOut(b), DbgOut(c), DbgOut(d), DbgOut(f)]) == [e]
    ensures Wire([e, DbgOut(a), DbgOut(b), DbgOut(c), DbgOut(d), DbgOut(f)]) == []
  {
    ViewsOfSix(e, DbgOut(a), DbgOut(b), DbgOut(c), DbgOut(d), DbgOut(f));
    assert TextOf(e) + a == a;
  }

  /** UART output carries exactly its words and nothing else. */
  lemma {:induction false} ViewsOfTx(w: seq<bv32>)
    ensures Console(Tx(w)) == [] && Wire(Tx(w)) == w && Calls(Tx(w)) == []
  {
    if w != [] {
      assert Tx(w) == [UartTx(w[0])] + Tx(w[1..]);
      ViewsCons(UartTx(w[0]), Tx(w[1..]));
      ViewsOfTx(w[1..]);
    }
  }

  lemma TxAppend(a: seq<bv32>, b: seq<bv32>)
    ensures Tx(a + b) == Tx(a) + Tx(b)
  {
    assert forall i :: 0 <= i < |a| + |b| ==> Tx(a + b)[i] == (Tx(a) + Tx(b))[i];
  }

  /** One more character of a string adds its uart_put_char words to the UART output. */
  lemma PutStrStep(s: string, k: nat, before: seq<Event>)
    requires k < |s|
    ensures before + Tx(StrWords(s[..k])) + Tx(PutCharWords(s[k] as int)) == before + Tx(StrWords(s[..k + 1]))
  {
    var done, next := StrWords(s[..k]), PutCharWords(s[k] as int);
    assert s[..k + 1][..k] == s[..k];
    assert StrWords(s[..k + 1]) == done + next;
    TxAppend(done, next);
  }

  /** The line `m` prints when the counter is `cpu`: the CPU index one ahead, modulo 4. */
  function MigrationText(cpu: nat): string {
    MSG_MIGRATING + NumText((cpu + 1) % 4) + MSG_NEWLINE
  }

  /** The line `p` prints for the firmware's reply `x0`: the major field, a dot, the minor field. */
  function VersionText(x0: U64): string {
    MSG_VERSION + NumText(VersionMajor(x0)) + MSG_DOT + NumText(VersionMinor(x0)) + MSG_NEWLINE
  }

  /** `m`: announce the next CPU index, then reconfigure scheduling control `cpu` mod 4. */
  function MigrateEvents(cpu: nat): seq<Event> {
    [DbgOut(MSG_MIGRATING), DbgOut(NumText((cpu + 1) % 4)), DbgOut(MSG_NEWLINE), SchedConfigure(cpu % 4)]
  }

  /** `d`: the farewell line, then PSCI CPU_OFF. */
  const POWER_OFF_EVENTS: seq<Event> := [DbgOut(MSG_SUICIDE), SmcCall(CPU_OFF_ARGS)]

  /** `p`: PSCI_VERSION, then the two version fields of the reply `x0`. */
  function VersionEvents(x0: U64): seq<Event> {
    [SmcCall(VERSION_ARGS), DbgOut(MSG_VERSION), DbgOut(NumText(VersionMajor(x0))),
     DbgOut(MSG_DOT), DbgOut(NumText(VersionMinor(x0))), DbgOut(MSG_NEWLINE)]
  }

  /** `n`: the console line, then a notification of the second domain. */
  const NOTIFY_EVENTS: seq<Event> := [DbgOut(MSG_NOTIFYING), Notify(PD_2_CH)]

  /** `r`: PSCI CPU_ON, then the reply `x0` in decimal. */
  function CpuOnEvents(x0: U64): seq<Event> {
    [SmcCall(CPU_ON_ARGS), DbgOut(MSG_RESPONSE), DbgOut(NumText(x0)), DbgOut(MSG_NEWLINE)]
  }

  /** What one command character makes the handler do before it acknowledges the interrupt. */
  function CommandEvents(c: int, cpu: nat, firmware: SmcContext): seq<Event>
  {
    if c == CMD_MIGRATE then MigrateEvents(cpu)
    else if c == CMD_POWER_OFF then POWER_OFF_EVENTS
    else if c == CMD_VERSION then VersionEvents(firmware.x0)
    else if c == CMD_NOTIFY then NOTIFY_EVENTS
    else if c == CMD_CPU_ON then CpuOnEvents(firmware.x0)
    else if c == CMD_SCHED_DUMP then [DumpScheduler]
    else Tx(PutCharWords(c))
  }

  /**
   * The events of `notified(ch)` when the character read is `c`, the
   * counter is `cpu` and the firmware's reply registers are `firmware`.
   * On the UART channel the interrupt clear store and then the interrupt
   * acknowledgement close every path, and neither happens anywhere else;
   * any other channel does nothing.
   */
  function Reaction(ch: Channel, c: int, cpu: nat, firmware: SmcContext): (t: seq<Event>)
    ensures ch != UART_IRQ_CH ==> t == []
    ensures ch == UART_IRQ_CH ==> |t| >= 2 && t[|t| - 2] == UartIcr(ICR_ALL) && t[|t| - 1] == IrqAck(ch)
  {
    if ch != UART_IRQ_CH then []
    else CommandEvents(c, cpu, firmware) + [UartIcr(ICR_ALL), IrqAck(ch)]
  }

  /** An interrupt clear store or an interrupt acknowledgement. */
  predicate IsClosing(e: Event) {
    e.UartIcr? || e.IrqAck?
  }

  /** No command stores to the interrupt clear register or acknowledges the interrupt. */
  lemma CommandNeverCloses(c: int, cpu: nat, firmware: SmcContext)
    ensures forall e :: e in CommandEvents(c, cpu, firmware) ==> !IsClosing(e)
  {
    var t := CommandEvents(c, cpu, firmware);
    if c == CMD_MIGRATE {
      assert t == MigrateEvents(cpu);
    } else if c == CMD_VERSION {
      assert t == VersionEvents(firmware.x0);
    } else if c == CMD_CPU_ON {
      assert t == CpuOnEvents(firmware.x0);
    } else if !IsCommand(c) {
      assert t == Tx(PutCharWords(c));
      TxNeverCloses(PutCharWords(c));
    }
  }

  /** UART output stores only to the data register. */
  lemma TxNeverCloses(w: seq<bv32>)
    ensures forall e :: e in Tx(w) ==> !IsClosing(e)
  {
    forall e | e in Tx(w)
      ensures !IsClosing(e)
    {
      var i :| 0 <= i < |Tx(w)| && Tx(w)[i] == e;
    }
  }

  /**
   * On the UART channel the clear and the acknowledgement are the last two
   * events and occur nowhere before them.
   */
  lemma ClosingOnlyAtEnd(c: int, cpu: nat, firmware: SmcContext)
    ensures forall i :: 0 <= i < |Reaction(UART_IRQ_CH, c, cpu, firmware)| - 2
              ==> !IsClosing(Reaction(UART_IRQ_CH, c, cpu, firmware)[i])
  {
    var t := CommandEvents(c, cpu, firmware);
    CommandNeverCloses(c, cpu, firmware);
    var r := Reaction(UART_IRQ_CH, c, cpu, firmware);
    assert r == t + [UartIcr(ICR_ALL), IrqAck(UART_IRQ_CH)];
    forall i | 0 <= i < |r| - 2
      ensures !IsClosing(r[i])
    {
      assert r[i] == t[i];
      assert t[i] in t;
    }
  }

  /** The counter after `notified(ch)` reads `c`. */
  function NextTargetCpu(cpu: nat, ch: Channel, c: int): nat {
    if ch == UART_IRQ_CH && c == CMD_MIGRATE then cpu + 1 else cpu
  }

  /** Closing a command with the interrupt clear and the acknowledgement adds nothing to any view. */
  lemma ClosingViews(cmd: seq<Event>)
    ensures Console(cmd + [UartIcr(ICR_ALL), IrqAck(UART_IRQ_CH)]) == Console(cmd)
    ensures Wire(cmd + [UartIcr(ICR_ALL), IrqAck(UART_IRQ_CH)]) == Wire(cmd)
    ensures Calls(cmd + [UartIcr(ICR_ALL), IrqAck(UART_IRQ_CH)]) == Calls(cmd)
  {
    var ack := [IrqAck(UART_IRQ_CH)];
    var tail := [UartIcr(ICR_ALL)] + ack;
    assert tail == [UartIcr(ICR_ALL), IrqAck(UART_IRQ_CH)];
    ViewsCons(IrqAck(UART_IRQ_CH), []);
    ViewsCons(UartIcr(ICR_ALL), ack);
    ViewsAppend(cmd, tail);
  }

  /** The views of a UART-channel reaction: the command's views, then only the clear and the ack. */
  lemma ReactionViews(c: int, cpu: nat, firmware: SmcContext)
    ensures Console(Reaction(UART_IRQ_CH, c, cpu, firmware)) == Console(CommandEvents(c, cpu, firmware))
    ensures Wire(Reaction(UART_IRQ_CH, c, cpu, firmware)) == Wire(CommandEvents(c, cpu, firmware))
    ensures Calls(Reaction(UART_IRQ_CH, c, cpu, firmware)) == Calls(CommandEvents(c, cpu, firmware))
  {
    ClosingViews(CommandEvents(c, cpu, firmware));
  }

  /**
   * An unrecognised character, 0 for an empty receive FIFO included, is
   * echoed through uart_put_char and causes no console text, no platform
   * call and no change of the counter.
   */
  lemma EchoUnrecognised(c: int, cpu: nat, firmware: SmcContext)
    requires !IsCommand(c)
    ensures Reaction(UART_IRQ_CH, c, cpu, firmware)
         == Tx(PutCharWords(c)) + [UartIcr(ICR_ALL), IrqAck(UART_IRQ_CH)]
    ensures Wire(Reaction(UART_IRQ_CH, c, cpu, firmware)) == PutCharWords(c)
    ensures Console(Reaction(UART_IRQ_CH, c, cpu, firmware)) == []
    ensures Calls(Reaction(UART_IRQ_CH, c, cpu, firmware)) == []
    ensures NextTargetCpu(cpu, UART_IRQ_CH, c) == cpu
  {
    ReactionViews(c, cpu, firmware);
    ViewsOfTx(PutCharWords(c));
  }

  /**
   * `m`: the console shows MSG_MIGRATING and (cpu + 1) mod 4, the one
   * platform call reconfigures scheduling control cpu mod 4 (never the
   * index shown), and the counter goes up by one.
   */
  lemma Migrate(cpu: nat, firmware: SmcContext)
    ensures Console(Reaction(UART_IRQ_CH, CMD_MIGRATE, cpu, firmware)) == MigrationText(cpu)
    ensures Calls(Reaction(UART_IRQ_CH, CMD_MIGRATE, cpu, firmware)) == [SchedConfigure(cpu % 4)]
    ensures Wire(Reaction(UART_IRQ_CH, CMD_MIGRATE, cpu, firmware)) == []
    ensures NextTargetCpu(cpu, UART_IRQ_CH, CMD_MIGRATE) == cpu + 1
  {
    var r, v := Reaction(UART_IRQ_CH, CMD_MIGRATE, cpu, firmware), MigrateEvents(cpu);
    assert Console(r) == Console(v) && Wire(r) == Wire(v) && Calls(r) == Calls(v) by {
      ReactionViews(CMD_MIGRATE, cpu, firmware);
      assert CommandEvents(CMD_MIGRATE, cpu, firmware) == v;
    }
    LinesThenCall(MSG_MIGRATING, NumText((cpu + 1) % 4), MSG_NEWLINE, SchedConfigure(cpu % 4));
  }

  /**
   * The CPU index `m` prints is one ahead, modulo 4, of the scheduling
   * control it configures, so the two never agree.
   */
  lemma MigrateShowsNext(cpu: nat, firmware: SmcContext)
    ensures Console(Reaction(UART_IRQ_CH, CMD_MIGRATE, cpu, firmware))
         == MSG_MIGRATING + NumText((cpu % 4 + 1) % 4) + MSG_NEWLINE
    ensures Calls(Reaction(UART_IRQ_CH, CMD_MIGRATE, cpu, firmware)) == [SchedConfigure(cpu % 4)]
    ensures (cpu % 4 + 1) % 4 != cpu % 4
  {
    Migrate(cpu, firmware);
    NextIndex(cpu);
  }

  /** One ahead modulo 4 depends only on the index modulo 4, and is never that index. */
  lemma NextIndex(cpu: nat)
    ensures (cpu + 1) % 4 == (cpu % 4 + 1) % 4 && (cpu % 4 + 1) % 4 != cpu % 4
  {
  }

  /**
   * Every fourth `m` (counter 3 mod 4) shows index 0, and print_num(0)
   * brings its own newline: the line is followed by an empty one.
   */
  lemma MigrationToZero(cpu: nat)
    requires cpu % 4 == 3
    ensures MigrationText(cpu) == "migrating to CPU 0\n\n"
  {
    assert (cpu + 1) % 4 == 0;
  }

  /** `d`: one CPU_OFF call with every other argument register zero, after the farewell line. */
  lemma PowerOff(cpu: nat, firmware: SmcContext)
    ensures Calls(Reaction(UART_IRQ_CH, CMD_POWER_OFF, cpu, firmware)) == [SmcCall(CPU_OFF_ARGS)]
    ensures Console(Reaction(UART_IRQ_CH, CMD_POWER_OFF, cpu, firmware)) == MSG_SUICIDE
    ensures Wire(Reaction(UART_IRQ_CH, CMD_POWER_OFF, cpu, firmware)) == []
    ensures FunctionOf(CPU_OFF_ARGS.x0) == Some(CpuOff)
    ensures CPU_OFF_ARGS.(x0 := 0) == ZERO_CONTEXT
    ensures NextTargetCpu(cpu, UART_IRQ_CH, CMD_POWER_OFF) == cpu
  {
    var r := Reaction(UART_IRQ_CH, CMD_POWER_OFF, cpu, firmware);
    assert Console(r) == Console(POWER_OFF_EVENTS) && Calls(r) == Calls(POWER_OFF_EVENTS)
        && Wire(r) == Wire(POWER_OFF_EVENTS) by {
      ReactionViews(CMD_POWER_OFF, cpu, firmware);
    }
    LineThenCall(MSG_SUICIDE, SmcCall(CPU_OFF_ARGS));
  }

  /**
   * `p`: one PSCI_VERSION call with every other argument register zero,
   * issued before anything is printed; then MSG_VERSION, the major
   * field, MSG_DOT, the minor field and a newline.
   */
  lemma VersionQuery(cpu: nat, firmware: SmcContext)
    ensures Reaction(UART_IRQ_CH, CMD_VERSION, cpu, firmware)[0] == SmcCall(VERSION_ARGS)
    ensures Calls(Reaction(UART_IRQ_CH, CMD_VERSION, cpu, firmware)) == [SmcCall(VERSION_ARGS)]
    ensures Console(Reaction(UART_IRQ_CH, CMD_VERSION, cpu, firmware)) == VersionText(firmware.x0)
    ensures Wire(Reaction(UART_IRQ_CH, CMD_VERSION, cpu, firmware)) == []
    ensures FunctionOf(VERSION_ARGS.x0) == Some(Version)
    ensures VERSION_ARGS.(x0 := 0) == ZERO_CONTEXT
  {
    var r, v := Reaction(UART_IRQ_CH, CMD_VERSION, cpu, firmware), VersionEvents(firmware.x0);
    assert Console(r) == Console(v) && Calls(r) == Calls(v) && Wire(r) == Wire(v) && r[0] == v[0] by {
      ReactionViews(CMD_VERSION, cpu, firmware);
      assert CommandEvents(CMD_VERSION, cpu, firmware) == v;
    }
    VersionEventsViews(firmware.x0);
  }

  /** The views of the `p` events. */
  lemma VersionEventsViews(x0: U64)
    ensures VersionEvents(x0)[0] == SmcCall(VERSION_ARGS)
    ensures Calls(VersionEvents(x0)) == [SmcCall(VERSION_ARGS)]
    ensures Console(VersionEvents(x0)) == VersionText(x0)
    ensures Wire(VersionEvents(x0)) == []
  {
    CallThenFiveLines(SmcCall(VERSION_ARGS), MSG_VERSION, NumText(VersionMajor(x0)),
                      MSG_DOT, NumText(VersionMinor(x0)), MSG_NEWLINE);
  }

  /** Version 2.3 (x0 = 0x00020003) reads "PSCI version: 2.3" and a newline. */
  lemma VersionTwoThree()
    ensures VersionText(0x0002_0003) == "PSCI version: 2.3\n"
  {
    assert VersionMajor(0x0002_0003) == 2 && VersionMinor(0x0002_0003) == 3 by {
      VersionRoundTrip(2, 3);
    }
    assert NumText(2) == "2" && NumText(3) == "3";
  }

  /**
   * Version 1.0 (x0 = 0x00010000): print_num(0) adds its own newline, so
   * the line is followed by an empty one.
   */
  lemma VersionOneZero()
    ensures VersionText(0x0001_0000) == "PSCI version: 1.0\n\n"
  {
    assert VersionMajor(0x0001_0000) == 1 && VersionMinor(0x0001_0000) == 0 by {
      VersionRoundTrip(1, 0);
    }
    assert NumText(1) == "1";
  }

  /** `n`: one notification of the second domain, after its console line. */
  lemma NotifyPeer(cpu: nat, firmware: SmcContext)
    ensures Calls(Reaction(UART_IRQ_CH, CMD_NOTIFY, cpu, firmware)) == [Notify(PD_2_CH)]
    ensures Console(Reaction(UART_IRQ_CH, CMD_NOTIFY, cpu, firmware)) == MSG_NOTIFYING
    ensures Wire(Reaction(UART_IRQ_CH, CMD_NOTIFY, cpu, firmware)) == []
  {
    var r := Reaction(UART_IRQ_CH, CMD_NOTIFY, cpu, firmware);
    assert Console(r) == Console(NOTIFY_EVENTS) && Calls(r) == Calls(NOTIFY_EVENTS)
        && Wire(r) == Wire(NOTIFY_EVENTS) by {
      ReactionViews(CMD_NOTIFY, cpu, firmware);
    }
    LineThenCall(MSG_NOTIFYING, Notify(PD_2_CH));
  }

  /**
   * `r`: one CPU_ON call for core 3 at the fixed entry point with context 0
   * and every other register zero; then the reply's x0 in decimal.
   */
  lemma CpuOnAttempt(cpu: nat, firmware: SmcContext)
    ensures Reaction(UART_IRQ_CH, CMD_CPU_ON, cpu, firmware)[0] == SmcCall(CPU_ON_ARGS)
    ensures Calls(Reaction(UART_IRQ_CH, CMD_CPU_ON, cpu, firmware)) == [SmcCall(CPU_ON_ARGS)]
    ensures Console(Reaction(UART_IRQ_CH, CMD_CPU_ON, cpu, firmware))
         == MSG_RESPONSE + NumText(firmware.x0) + MSG_NEWLINE
    ensures Wire(Reaction(UART_IRQ_CH, CMD_CPU_ON, cpu, firmware)) == []
  {
    var r, v := Reaction(UART_IRQ_CH, CMD_CPU_ON, cpu, firmware), CpuOnEvents(firmware.x0);
    assert Console(r) == Console(v) && Calls(r) == Calls(v) && Wire(r) == Wire(v) && r[0] == v[0] by {
      ReactionViews(CMD_CPU_ON, cpu, firmware);
      assert CommandEvents(CMD_CPU_ON, cpu, firmware) == v;
    }
    CpuOnEventsViews(firmware.x0);
  }

  /** The views of the `r` events. */
  lemma CpuOnEventsViews(x0: U64)
    ensures CpuOnEvents(x0)[0] == SmcCall(CPU_ON_ARGS)
    ensures Wire(CpuOnEvents(x0)) == []
    ensures Calls(CpuOnEvents(x0)) == [SmcCall(CPU_ON_ARGS)]
    ensures Console(CpuOnEvents(x0)) == MSG_RESPONSE + NumText(x0) + MSG_NEWLINE
  {
    CallThenLines(SmcCall(CPU_ON_ARGS), MSG_RESPONSE, NumText(x0), MSG_NEWLINE);
  }

  /** A CPU_ON reply of 0 (PSCI SUCCESS) prints "response: 0" and an empty line after it. */
  lemma CpuOnSuccessText()
    ensures MSG_RESPONSE + NumText(0) + MSG_NEWLINE == "response: 0\n\n"
  {
  }

  /** A major version of 0 prints "0", a newline, then the dot and the minor field. */
  lemma VersionMajorZero(minor: nat)
    requires 0 < minor < 0x1_0000
    ensures VersionText(EncodeVersion(0, minor)) == "PSCI version: 0\n." + NumText(minor) + "\n"
  {
    VersionRoundTrip(0, minor);
  }

  /** `s`: one scheduler dump and nothing printed. */
  lemma SchedulerDump(cpu: nat, firmware: SmcContext)
    ensures Calls(Reaction(UART_IRQ_CH, CMD_SCHED_DUMP, cpu, firmware)) == [DumpScheduler]
    ensures Console(Reaction(UART_IRQ_CH, CMD_SCHED_DUMP, cpu, firmware)) == []
    ensures Wire(Reaction(UART_IRQ_CH, CMD_SCHED_DUMP, cpu, firmware)) == []
  {
    ReactionViews(CMD_SCHED_DUMP, cpu, firmware);
    assert CommandEvents(CMD_SCHED_DUMP, cpu, firmware) == [DumpScheduler] + [];
    ViewsCons(DumpScheduler, []);
  }

  /**
   * One notification as the handler sees it: its channel, the character
   * uart_get_char returns for it (`GetChar` of the UART registers) and the
   * firmware's reply registers.
   */
  datatype Notification = Notification(ch: Channel, c: int, firmware: SmcContext)

  predicate IsMigration(n: Notification) {
    n.ch == UART_IRQ_CH && n.c == CMD_MIGRATE
  }

  /** The counter after handling `ns` in order, starting from `cpu`. */
  function CpuAfter(cpu: nat, ns: seq<Notification>): nat {
    if ns == [] then cpu
    else
      var n := ns[|ns| - 1];
      NextTargetCpu(CpuAfter(cpu, ns[..|ns| - 1]), n.ch, n.c)
  }

  function MigrationCount(ns: seq<Notification>): nat {
    if ns == [] then 0 else MigrationCount(ns[..|ns| - 1]) + (if IsMigration(ns[|ns| - 1]) then 1 else 0)
  }

  /** The counter grows by exactly the number of `m` commands and by nothing else. */
  lemma {:induction false} CounterCountsMigrations(cpu: nat, ns: seq<Notification>)
    ensures CpuAfter(cpu, ns) == cpu + MigrationCount(ns)
  {
    if ns != [] {
      CounterCountsMigrations(cpu, ns[..|ns| - 1]);
    }
  }

  /** Successive `m` commands from boot configure scheduling controls 1, 2, 3, 0, 1, ... in turn. */
  lemma ControlsCycle(ns: seq<Notification>)
    ensures CpuAfter(INITIAL_TARGET_CPU, ns) % 4 == (1 + MigrationCount(ns)) % 4
  {
    CounterCountsMigrations(INITIAL_TARGET_CPU, ns);
  }

  /** The first `m` after boot shows "migrating to CPU 2" and configures scheduling control 1. */
  lemma FirstMigration()
    ensures MigrationText(INITIAL_TARGET_CPU) == "migrating to CPU 2\n"
    ensures INITIAL_TARGET_CPU % 4 == 1
  {
    assert NumText(2) == "2";
  }

  /** The hello protection domain: its one persistent counter and everything it has done. */
  class HelloPd {
    /** `target_cpu`: which scheduling control the next `m` command configures. */
    var targetCpu: nat
    var trace: seq<Event>

    constructor ()
      ensures targetCpu == INITIAL_TARGET_CPU && trace == []
    {
      targetCpu := INITIAL_TARGET_CPU;
      trace := [];
    }

    /** `microkit_dbg_puts`. */
    method DbgPuts(s: string)
      modifies this`trace
      ensures trace == old(trace) + [DbgOut(s)]
    {
      trace := trace + [DbgOut(s)];
    }

    /** print_num, with its characters going to the debug console. */
    method PrintNum(num: U64)
      modifies this`trace
      ensures trace == old(trace) + [DbgOut(NumText(num))]
    {
      var out := Decimal.PrintNum(num);
      trace := trace + [DbgOut(out)];
    }

    /** uart_put_char, assuming the transmit FIFO is not full. */
    method UartPutChar(ch: int)
      modifies this`trace
      decreases if ch == CR then 1 else 0
      ensures trace == old(trace) + Tx(PutCharWords(ch))
    {
      trace := trace + [UartTx(ToWord(ch))];
      if ch == CR {
        UartPutChar(LF);
      }
    }

    /** uart_put_str: each character before the first NUL, in order. */
    method UartPutStr(s: string)
      requires NUL in s
      modifies this`trace
      ensures trace == old(trace) + Tx(StrWords(s[..CStrLen(s)]))
    {
      var k := 0;
      while s[k] != NUL
        decreases CStrLen(s) - k
        invariant 0 <= k <= CStrLen(s)
        invariant trace == old(trace) + Tx(StrWords(s[..k]))
      {
        UartPutChar(s[k] as int);
        PutStrStep(s, k, old(trace));
        k := k + 1;
      }
    }

    /** uart_handle_irq: clear every UART interrupt cause. */
    method UartHandleIrq()
      modifies this`trace
      ensures trace == old(trace) + [UartIcr(ICR_ALL)]
    {
      trace := trace + [UartIcr(ICR_ALL)];
    }

    /** `microkit_arm_smc_call`: the firmware's reply is an input. */
    method ArmSmcCall(args: SmcContext, firmware: SmcContext) returns (response: SmcContext)
      modifies this`trace
      ensures response == firmware
      ensures trace == old(trace) + [SmcCall(args)]
    {
      trace := trace + [SmcCall(args)];
      response := firmware;
    }

    /** `m`: announce the next CPU, reconfigure scheduling control target_cpu mod 4, then count up. */
    method HandleMigrate(ghost firmware: SmcContext)
      modifies this
      ensures targetCpu == old(targetCpu) + 1
      ensures trace == old(trace) + CommandEvents(CMD_MIGRATE, old(targetCpu), firmware)
    {
      DbgPuts(MSG_MIGRATING);
      PrintNum((targetCpu + 1) % 4);
      DbgPuts(MSG_NEWLINE);
      trace := trace + [SchedConfigure(targetCpu % 4)];
      targetCpu := targetCpu + 1;
    }

    /** `d`: say farewell and ask the firmware to power this CPU off. */
    method HandlePowerOff(firmware: SmcContext)
      modifies this`trace
      ensures trace == old(trace) + CommandEvents(CMD_POWER_OFF, targetCpu, firmware)
    {
      DbgPuts(MSG_SUICIDE);
      var args := ZERO_CONTEXT;
      args := args.(x0 := PSCI_CPU_OFF);
      var response := ArmSmcCall(args, firmware);
    }

    /** `p`: ask the firmware for its PSCI version and print its two fields. */
    method HandleVersion(firmware: SmcContext)
      modifies this`trace
      ensures trace == old(trace) + CommandEvents(CMD_VERSION, targetCpu, firmware)
    {
      var args := ZERO_CONTEXT;
      args := args.(x0 := PSCI_VERSION_FID);
      var resp := ArmSmcCall(args, firmware);
      DbgPuts(MSG_VERSION);
      PrintNum(VersionMajor(resp.x0));
      DbgPuts(MSG_DOT);
      PrintNum(VersionMinor(resp.x0));
      DbgPuts(MSG_NEWLINE);
    }

    /** `n`: notify the second protection domain. */
    method HandleNotify(ghost firmware: SmcContext)
      modifies this`trace
      ensures trace == old(trace) + CommandEvents(CMD_NOTIFY, targetCpu, firmware)
    {
      DbgPuts(MSG_NOTIFYING);
      trace := trace + [Notify(PD_2_CH)];
    }

    /** `r`: ask the firmware to start core 3 at the fixed entry point and print its reply. */
    method HandleCpuOn(firmware: SmcContext)
      modifies this`trace
      ensures trace == old(trace) + CommandEvents(CMD_CPU_ON, targetCpu, firmware)
    {
      var args := ZERO_CONTEXT;
      args := args.(x0 := PSCI_CPU_ON, x1 := CPU_ON_TARGET, x2 := CPU_ON_ENTRY, x3 := 0);
      var response := ArmSmcCall(args, firmware);
      DbgPuts(MSG_RESPONSE);
      PrintNum(response.x0);
      DbgPuts(MSG_NEWLINE);
    }

    /** The command chain of notified: act on the character `c` read from the UART. */
    method Dispatch(c: int, firmware: SmcContext)
      modifies this
      ensures targetCpu == NextTargetCpu(old(targetCpu), UART_IRQ_CH, c)
      ensures trace == old(trace) + CommandEvents(c, old(targetCpu), firmware)
    {
      if c == CMD_MIGRATE {
        HandleMigrate(firmware);
      } else if c == CMD_POWER_OFF {
        HandlePowerOff(firmware);
      } else if c == CMD_VERSION {
        HandleVersion(firmware);
      } else if c == CMD_NOTIFY {
        HandleNotify(firmware);
      } else if c == CMD_CPU_ON {
        HandleCpuOn(firmware);
      } else if c == CMD_SCHED_DUMP {
        trace := trace + [DumpScheduler];
      } else {
        UartPutChar(c);
      }
    }

    /**
     * notified: handle one notification on channel `ch`. `fr` and `dr` are
     * the UART flag and data registers as the read finds them, `firmware`
     * the reply registers of the secure monitor call, if one is made.
     */
    method Notified(ch: Channel, fr: bv32, dr: bv32, firmware: SmcContext)
      modifies this
      ensures targetCpu == NextTargetCpu(old(targetCpu), ch, GetChar(fr, dr))
      ensures trace == old(trace) + Reaction(ch, GetChar(fr, dr), old(targetCpu), firmware)
    {
      if ch == UART_IRQ_CH {
        var c := GetChar(fr, dr);
        Dispatch(c, firmware);
        UartHandleIrq();
        trace := trace + [IrqAck(ch)];
      }
    }
  }
}

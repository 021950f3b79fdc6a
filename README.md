# The Microkit "hello" protection domain, modelled in Dafny

The hello example of seL4 Microkit runs one protection domain that owns a
PL011 UART. Each UART interrupt arrives as a notification. The handler
reads one character and treats it as a one-letter command:

- `m` asks the kernel to move the domain's scheduling context to another
  core.
- `d` powers the CPU off through the PSCI firmware interface.
- `p` prints the firmware's PSCI version.
- `n` notifies a second domain.
- `r` tries to power on core 3.
- `s` dumps the scheduler.
- Any other character is echoed.

Every path then clears the UART's interrupts and acknowledges the IRQ.

The model has five modules:

- `CTypes` holds the machine types: `uint64_t` and the channel identifier.
- `Decimal` holds `print_num`. The digits of a number are defined by
  recursion (`Digits`) with a reference reading back (`Value`). The
  method `PrintNum` keeps the C code's two loops and its 21-character
  array, and is proved to produce `NumText`.
- `Pl011` holds the UART driver on register words. `GetChar` is
  `uart_get_char` given the flag and data registers. `PutCharWords`
  gives the words `uart_put_char` stores. C strings are covered by
  `CStrLen` and `StrWords`.
- `Psci` holds the SMC register record, the three PSCI function
  identifiers, the argument records of the three calls, and the split of
  a version reply into its major and minor fields.
- `Hello` holds the handler. Everything that leaves the domain is an
  `Event`: text to the debug console, stores to the UART data and
  interrupt clear registers, scheduling reconfiguration, SMC calls,
  notifications, the scheduler dump and the IRQ acknowledgement.
  - The class `HelloPd` holds `target_cpu` and the trace of events so
    far. Its methods follow the C functions statement by statement.
  - The function `Reaction` says which events one notification
    produces. The lemmas read it through three views of a trace: the
    console text, the UART words and the platform calls.

Two behaviours of the code are modelled as written:

- `print_num(0)` prints `"0\n"`, a digit and a newline. Every other
  number prints its digits with no newline. Wherever the handler prints
  a value that can be 0, a stray newline follows:
  - every fourth `m` (counter 3 mod 4) prints "migrating to CPU 0" and
    an empty line (`MigrationToZero`);
  - a PSCI version with minor field 0 prints an empty line after it
    (`VersionOneZero`);
  - a major field of 0 breaks the version line before the dot
    (`VersionMajorZero`);
  - a CPU_ON reply of 0, PSCI SUCCESS, prints "response: 0" and an
    empty line (`CpuOnSuccessText`).
- When the receive FIFO is empty, `uart_get_char` returns 0. The handler
  then echoes that 0: it stores the word 0 to the data register.

## Model

| member | source | states |
|---|---|---|
| Decimal.Digits | example/qemu_virt_aarch64/hello/hello.c:73-76 | the digits of n are all decimal digits, are empty exactly for 0, and never start with '0' |
| Decimal.ValueOfDigits | example/qemu_virt_aarch64/hello/hello.c:73-79 | reading the digits of n back as a decimal number gives n |
| Decimal.DigitsOfValue | example/qemu_virt_aarch64/hello/hello.c:73-79 | every digit string without a leading zero is the digits of its own value, so the digits are the only such representation |
| Decimal.DigitsLength | example/qemu_virt_aarch64/hello/hello.c:65 | a number below 10^k has at most k digits |
| Decimal.U64Digits | example/qemu_virt_aarch64/hello/hello.c:65 | a uint64 has at most 20 digits, so the 21-character buffer is never overrun |
| Decimal.NumTextShape | example/qemu_virt_aarch64/hello/hello.c:63-81 | print_num emits "0\n" for 0; otherwise digits without a leading zero that read back as num, with no newline |
| Decimal.FillDigits | example/qemu_virt_aarch64/hello/hello.c:65-76 | the first loop writes the digits of num least significant first into buffer[0..i), with i at most 20, into a 21-slot buffer |
| Decimal.PrintNum | example/qemu_virt_aarch64/hello/hello.c:63-81 | the characters emitted are exactly NumText(num): "0\n" for 0, the most-significant-first digits otherwise |
| Pl011.Normalise | example/qemu_virt_aarch64/hello/hello.c:33-40 | LF becomes CR, BS becomes DEL, anything else is unchanged; the result is never LF or BS |
| Pl011.NormaliseIdempotent | example/qemu_virt_aarch64/hello/hello.c:33-40 | applying the switch twice is the same as once |
| Pl011.GetChar | example/qemu_virt_aarch64/hello/hello.c:28-42 | the result is in 0..511 and is never LF or BS; it is 0 when the receive FIFO is empty; otherwise a masked LF becomes CR, a masked BS becomes DEL, and any other masked data is returned unchanged |
| Pl011.GetCharOfByte | example/qemu_virt_aarch64/hello/hello.c:28-42 | for a plain byte received, the result is CR exactly for CR or LF, DEL exactly for BS or DEL, and otherwise the byte itself |
| Pl011.GetCharZero | example/qemu_virt_aarch64/hello/hello.c:29-32 | the result is 0 exactly when the FIFO is empty or the masked data is 0 |
| Pl011.PutCharWords | example/qemu_virt_aarch64/hello/hello.c:44-50 | one word is stored, the character itself; a second word, LF, follows exactly when the character is CR |
| Pl011.PutCharCrLf | example/qemu_virt_aarch64/hello/hello.c:44-50 | CR goes out as the words 13, 10; any other character below 512 goes out once as itself |
| Pl011.CStrLen | example/qemu_virt_aarch64/hello/hello.c:56-61 | the length is the index of the first NUL: that character is NUL and none before it is |
| Pl011.StrWordsNoCr | example/qemu_virt_aarch64/hello/hello.c:56-61 | for a string without CR, uart_put_str stores each character exactly once, in order |
| Pl011.StrWordsLength | example/qemu_virt_aarch64/hello/hello.c:56-61 | uart_put_str stores one word per character plus one LF per CR |
| Psci.FunctionId | example/qemu_virt_aarch64/hello/hello.c:21-22 | the identifiers of PSCI_VERSION and CPU_OFF (0x84000000, 0x84000002) and CPU_ON (0xC4000003, defined at line 151) are distinct: each decodes back to its own function; the three argument records are built from them |
| Psci.VersionMajor | example/qemu_virt_aarch64/hello/hello.c:139 | the major field of a version reply is below 2^16 |
| Psci.VersionMinor | example/qemu_virt_aarch64/hello/hello.c:141 | the minor field of a version reply is below 2^16 |
| Psci.EncodeVersion | example/qemu_virt_aarch64/hello/hello.c:139-141 | the PSCI version encoding, major in bits 31..16 and minor in bits 15..0, fits in 32 bits |
| Psci.VersionRoundTrip | example/qemu_virt_aarch64/hello/hello.c:139-141 | splitting an encoded version gives back its major and minor fields |
| Psci.VersionFieldsCoverLowWord | example/qemu_virt_aarch64/hello/hello.c:139-141 | the two fields together are exactly the low 32 bits of x0; the upper half is ignored |
| Hello.Reaction | example/qemu_virt_aarch64/hello/hello.c:105-180 | a channel other than the UART's produces nothing; on the UART channel the last two events are the ICR store of 0x7F0 and then the IRQ ack |
| Hello.CommandNeverCloses | example/qemu_virt_aarch64/hello/hello.c:109-175 | no command branch stores to the interrupt clear register or acknowledges the IRQ |
| Hello.ClosingOnlyAtEnd | example/qemu_virt_aarch64/hello/hello.c:177-178 | on the UART channel neither the ICR store nor the ack occurs anywhere before the last two events |
| Hello.ClosingViews | example/qemu_virt_aarch64/hello/hello.c:177-178 | the ICR store and the ack add no console text, no data-register word and no platform call |
| Hello.ReactionViews | example/qemu_virt_aarch64/hello/hello.c:107-179 | on the UART channel the console text, UART words and platform calls of a notification are those of the command branch taken |
| Hello.EchoUnrecognised | example/qemu_virt_aarch64/hello/hello.c:173-175 | any other character, 0 included, is echoed through uart_put_char (CR as CR LF), with no console text, no platform call and the counter unchanged |
| Hello.Migrate | example/qemu_virt_aarch64/hello/hello.c:109-122 | `m` prints "migrating to CPU " with (target_cpu + 1) mod 4 and a newline, reconfigures scheduling control target_cpu mod 4, writes nothing to the UART, and increments the counter |
| Hello.MigrateShowsNext | example/qemu_virt_aarch64/hello/hello.c:111-115 | the `m` line shows index (cpu mod 4 + 1) mod 4 while the one platform call configures control cpu mod 4, and the two indices never coincide |
| Hello.MigrationToZero | example/qemu_virt_aarch64/hello/hello.c:110-112 | when the counter is 3 mod 4 the `m` line is "migrating to CPU 0" followed by an empty line, from print_num(0)'s own newline |
| Hello.PowerOff | example/qemu_virt_aarch64/hello/hello.c:123-130 | `d` prints "PD 1 now suiciding" and makes exactly one SMC: CPU_OFF with every other register 0; nothing is written to the UART and the counter is unchanged |
| Hello.VersionQuery | example/qemu_virt_aarch64/hello/hello.c:131-142 | `p` first makes one SMC, PSCI_VERSION with every other register 0, and then prints "PSCI version: ", the major field, ".", the minor field and a newline; nothing is written to the UART |
| Hello.VersionEventsViews | example/qemu_virt_aarch64/hello/hello.c:132-142 | the `p` events begin with the version SMC, make no other platform call, write nothing to the UART, and show VersionText of the reply |
| Hello.VersionTwoThree | example/qemu_virt_aarch64/hello/hello.c:138-142 | a reply of 0x00020003 prints "PSCI version: 2.3\n" |
| Hello.VersionOneZero | example/qemu_virt_aarch64/hello/hello.c:138-142 | a reply of 0x00010000 prints "PSCI version: 1.0\n\n": print_num(0) adds its own newline |
| Hello.VersionMajorZero | example/qemu_virt_aarch64/hello/hello.c:138-142 | a reply with major field 0 and minor field m > 0 prints "PSCI version: 0\n." and then m and a newline |
| Hello.NotifyPeer | example/qemu_virt_aarch64/hello/hello.c:143-145 | `n` prints "notifying PD 2" and notifies channel 2 once, with no other platform call and nothing written to the UART |
| Hello.CpuOnAttempt | example/qemu_virt_aarch64/hello/hello.c:146-165 | `r` first makes one SMC, CPU_ON with x1 = 3, x2 = 0x700022f0, x3 = 0 and the rest 0, as the first event; then prints "response: ", the reply's x0 in decimal and a newline; nothing is written to the UART |
| Hello.CpuOnEventsViews | example/qemu_virt_aarch64/hello/hello.c:152-165 | the `r` events begin with the CPU_ON call, make no other platform call, write nothing to the UART and show "response: ", the reply's x0 and a newline |
| Hello.CpuOnSuccessText | example/qemu_virt_aarch64/hello/hello.c:163-165 | a CPU_ON reply of 0 prints "response: 0" followed by an empty line |
| Hello.SchedulerDump | example/qemu_virt_aarch64/hello/hello.c:171-172 | `s` dumps the scheduler once and prints and writes nothing |
| Hello.CounterCountsMigrations | example/qemu_virt_aarch64/hello/hello.c:115 | over any sequence of notifications the counter grows by exactly the number of `m` commands on the UART channel |
| Hello.ControlsCycle | example/qemu_virt_aarch64/hello/hello.c:97-115 | from boot, after k migrations the next `m` configures control (1 + k) mod 4: the controls cycle 1, 2, 3, 0 |
| Hello.FirstMigration | example/qemu_virt_aarch64/hello/hello.c:97-111 | the counter starts at 1, so the first `m` prints "migrating to CPU 2" and configures control 1 |
| Hello.HelloPd.constructor | example/qemu_virt_aarch64/hello/hello.c:97 | target_cpu starts at 1, with nothing done yet |
| Hello.HelloPd.DbgPuts | example/qemu_virt_aarch64/hello/hello.c:110 | one microkit_dbg_puts appends its text to the console |
| Hello.HelloPd.PrintNum | example/qemu_virt_aarch64/hello/hello.c:63-81 | print_num appends exactly NumText(num) to the console |
| Hello.HelloPd.UartPutChar | example/qemu_virt_aarch64/hello/hello.c:44-50 | uart_put_char appends exactly the stores of PutCharWords, CR followed by LF |
| Hello.HelloPd.UartPutStr | example/qemu_virt_aarch64/hello/hello.c:56-61 | uart_put_str appends the uart_put_char stores of every character before the first NUL, in order |
| Hello.HelloPd.UartHandleIrq | example/qemu_virt_aarch64/hello/hello.c:52-54 | uart_handle_irq stores 0x7F0 to the interrupt clear register |
| Hello.HelloPd.ArmSmcCall | example/qemu_virt_aarch64/hello/hello.c:130 | an SMC records its argument registers and returns the firmware's reply |
| Hello.HelloPd.HandleMigrate | example/qemu_virt_aarch64/hello/hello.c:109-122 | the `m` branch appends the `m` events for the old counter and increments the counter |
| Hello.HelloPd.HandlePowerOff | example/qemu_virt_aarch64/hello/hello.c:123-130 | the `d` branch appends the farewell line and the CPU_OFF call |
| Hello.HelloPd.HandleVersion | example/qemu_virt_aarch64/hello/hello.c:131-142 | the `p` branch appends the version call and the version line built from the reply |
| Hello.HelloPd.HandleNotify | example/qemu_virt_aarch64/hello/hello.c:143-145 | the `n` branch appends its line and the notification of channel 2 |
| Hello.HelloPd.HandleCpuOn | example/qemu_virt_aarch64/hello/hello.c:146-165 | the `r` branch appends the CPU_ON call and the response line built from the reply |
| Hello.HelloPd.Dispatch | example/qemu_virt_aarch64/hello/hello.c:109-175 | the command chain appends CommandEvents for the character and moves the counter only for `m` |
| Hello.HelloPd.Notified | example/qemu_virt_aarch64/hello/hello.c:105-180 | notified appends exactly Reaction(ch, GetChar(registers), old counter, reply) and leaves the counter as NextTargetCpu says |

## Left out

- `uart_init`, `init`, `secondary_cpu_entry`, `cpu_on_entry` and `cpu_trampoline` are not modelled. They run outside the command handler: start-up, and entry points only reached from assembly or another core.
- Hello.HelloPd.UartPutChar: the busy-wait on the transmit-FIFO-full flag is not modelled. The model assumes the FIFO always has room, so it does not capture a hang when the UART never drains.
- The bodies of the kernel and firmware calls are not modelled. `microkit_dbg_puts`/`putc`, `seL4_SchedControl_ConfigureFlags`, `microkit_arm_smc_call`, `microkit_notify`, `seL4_DebugDumpScheduler` and `microkit_irq_ack` are foreign code, recorded only as trace events. The firmware's reply registers are a parameter.
- The scheduling context capability (`BASE_SCHED_CONTEXT_CAP`) and the period, budget, extra refills, badge and flags arguments of `seL4_SchedControl_ConfigureFlags` are not recorded. They are fixed build-time values; only the scheduling control index is modelled.
- Hello.HelloPd.HandleMigrate: `target_cpu` is an unbounded natural number. The C `int` would overflow after 2^31 - 1 migrations, which is undefined behaviour, and the model does not capture it.
- Hello.HelloPd.PrintNum: the `microkit_dbg_putc` calls of one print_num are recorded as a single console event carrying all its characters.
- The MMIO registers are not modelled as volatile memory. The flag and data registers are the inputs of one read, and stores are trace events. The UART base address, register offsets and the interrupt mask set by `uart_init` are not modelled.
- Psci.VersionMajor: `>> 16` and `& 0xFFFF` are written as division and remainder by 2^16 on the 32-bit truncation of x0. These agree on unsigned values.
- Pl011.CStrLen: strings are Dafny strings, not bytes. A character is passed to uart_put_char as its code point; the model does not restrict strings to 8-bit characters as a C `char` would, and the C strings the domain prints are all ASCII.
- Hello.CpuAfter: the session lemmas take the character each notification read, the `GetChar` result, rather than the UART registers.
- Each trace is what the code does if every foreign call returns. A successful PSCI CPU_OFF (`d`) does not return, so on real hardware the trace of `d` ends at the SMC and the interrupt is never cleared or acknowledged; the model does not capture that.
- The second protection domain (`pd2.c`) is not part of this model.

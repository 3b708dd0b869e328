# serial2amqp in Dafny

serial2amqp reads lines from a serial port and publishes each one, with a
timestamp in front, to an AMQP broker. This project models the program's one
C file, `serial2amqp.c`, and proves properties of that model:

- **configuration** (`Configuration.dfy`). The globals start with
  compiled-in defaults. The `getenv` block overrides them, and then the
  `getopt_long` loop does. Every string goes through the truncating `strlcpy`
  macro (`snprintf(dst, size, "%s", src)`) into its fixed buffer. `-d` maps a
  level outside 0..9 to 1; `-q` sets the level to -1. A port outside
  0..65535 leads to `bomb(1, "Bad port")`. The globals are a class, `Config`,
  with one `array<char>` per buffer. Its methods are proved against the value
  functions `ApplyEnvironment`, `ApplyOptions` and `StartupFrom`.
- **logging** (`Logging.dfy`). `debug_print` always logs to syslog at
  min(level + 4, 7). It echoes to stderr only when the message level is within
  the configured verbosity and the process has not daemonized. `bomb` formats
  `"ERROR: "` + the message into a 255-byte buffer: at most 254 characters and a NUL.
- **publishing** (`Amqp.dfy`). The outcome of one `amqpsend` call is one of:
  - it returns 1 when the TCP socket cannot be created or opened;
  - it ends the process with status 1 through `die_on_amqp_error` or
    `die_on_error` (the model assumes `exit(1)` is reached; see
    `Amqp.DieOnError` under "Left out");
  - it returns 0 after the publish and the connection teardown.
  The rabbitmq-c calls are replaced by a `Session`: the values those calls
  return during one attempt.
- **serving** (`Bridge.dfy`). Each pass of the loop does this:
  1. it reads up to 512 characters;
  2. it overwrites the last character read with NUL;
  3. it skips a read of one character;
  4. it appends the line to the timestamp, which ends in `,`, in the
     1024-byte `publish_buffer`;
  5. it calls `amqpsend` until a call returns 0, with `sleep(2)` after every
     call.

  `Serve` is the imperative loop over real arrays. It is proved equal to the
  function `RunSpec`. Lemmas about `RunSpec` say that:
  - the broker receives the non-blank lines in order, each exactly once;
  - two seconds of sleep follow every call that returned;
  - the process exits only with status 1.

Shared C-string pieces (`CStrings.dfy`) are: the text up to the first NUL,
the `snprintf`-based copy, `strncat`, and `atoi`. `Util.dfy` holds `Option`,
`Min` and `Repeat`.

One Dafny `char` stands for one C byte (a `char` of the source). Every bound
counted in characters here, such as "size-1 characters" for a buffer of
`size` bytes or the 254 characters that fit the 255-byte format buffer, is
the source's byte bound.

The model takes some points from the code:

- The defaults of the user name and password buffers are swapped in the
  source: `amqp_username` starts from `AMQP_PASSWORD` and `amqp_password` from
  `AMQP_USERNAME`. The model keeps the swap. Both constants are `"guest"`, so
  it cannot be observed.
- The program is single-threaded: one loop reads, publishes and retries, and
  `STOP` (line 92) is never set, so the loop never ends.
- When a read fills all 512 bytes of the buffer, the NUL overwrites the last
  character read, so that character is lost. `Bridge.FullReadLosesLastCharacter`
  states this.
- A read of one character is skipped whatever that character is. It need not
  be a newline: in canonical mode with `VEOF` set to Ctrl-D (lines 464 and
  475), a character followed by Ctrl-D comes back as a read of that one
  character, which line 539 overwrites and line 542 skips, so it is lost.
  `Bridge.BlankIsSingleCharacter` states when a read is skipped.

## Model

| member | source | states |
|---|---|---|
| CStrings.CString | serial2amqp.c:564-566 | The text a character buffer holds as a C string: the longest prefix without NUL, which ends at the first NUL when one exists. |
| CStrings.Copied | serial2amqp.c:85-87 | The `strlcpy` macro's copy: a NUL-free prefix of the source, shorter than the buffer, cut only at the buffer's end or at a NUL in the source. |
| CStrings.CopiedKeepsPrefix | serial2amqp.c:85-87 | A NUL-free source is kept up to size-1 characters. |
| CStrings.CopiedWhenFits | serial2amqp.c:85-87 | A NUL-free source shorter than the buffer is copied whole. |
| CStrings.CopiedIdempotent | serial2amqp.c:85-87 | Copying an already copied text into a buffer of the same size changes nothing. |
| CStrings.Strlcpy | serial2amqp.c:85-87 | Writing into an array: the array's C string becomes `Copied(src, size)`, with a NUL after it and the rest of the array unchanged. |
| CStrings.Strncat | serial2amqp.c:565-566 | `strncat(dst, src, n)`: the C string of `dst` becomes the old one followed by at most `n` characters of the C string of `src`, when they fit. |
| CStrings.Atoi | serial2amqp.c:343-404 | `atoi`: leading white space is skipped, then an optional sign, then the digits up to the first non-digit; no digits give 0. `AtoiSkipsSpace`, `AtoiOfDigits`, `AtoiOfPlus`, `AtoiOfNegative` and `AtoiWithoutDigits` state each of these. |
| CStrings.DigitsValueReads | serial2amqp.c:343-404 | Reading digits one at a time onto the value already read gives the decimal value of all the digits, wherever they stop. |
| CStrings.AtoiOfDigits | serial2amqp.c:343 | `atoi` of a digit string, followed by anything that does not start with a digit, is the digits' decimal value. |
| CStrings.AtoiOfNegative | serial2amqp.c:343 | A leading `-` negates the value of the digits after it. |
| CStrings.AtoiOfPlus | serial2amqp.c:385 | A leading `+` gives the value of the digits after it. |
| CStrings.AtoiSkipsSpace | serial2amqp.c:343 | White space in front of the text does not change what `atoi` reads, so " 5672" reads as 5672. |
| CStrings.AtoiReadsIntToString | serial2amqp.c:385 | `atoi` reads back any integer printed in decimal, whatever non-digit follows it. |
| CStrings.AtoiWithoutDigits | serial2amqp.c:404 | Text that, after white space, starts with neither a digit nor a sign gives 0. |
| Logging.SyslogLevel | serial2amqp.c:180-182 | The syslog priority is the message level plus 4, capped at 7 (LOG_DEBUG). |
| Logging.DebugPrint | serial2amqp.c:171-196 | Syslog always gets the message at `SyslogLevel`. The stderr echo happens exactly when the message level is at most the verbosity and the process has not daemonized. The echo is `"DEBUG<n>: "` + the message, truncated to the 254 characters that fit the 255-byte buffer, then a newline. |
| Logging.QuietSilencesStderr | serial2amqp.c:187-190 | At verbosity -1 (`-q`) no message of level 0 or more reaches stderr, and syslog still gets it. |
| Logging.EchoFitsFormatBuffer | serial2amqp.c:191-193 | The echoed line is at most 255 characters: 254 of text and the newline. |
| Logging.Bomb | serial2amqp.c:154-167 | `bomb` exits with the given code. It logs `"ERROR: " + msg`, truncated to the 254 characters that fit the 255-byte buffer, at LOG_NOTICE, and echoes that text to stderr exactly when the process has not daemonized. |
| Amqp.DieOnError | serial2amqp.c:204-211 | A negative status ends the process with status 1 and that status's error string, on the assumption under "Left out" that the `free` at line 208 returns; any other status lets `amqpsend` go on. |
| Amqp.DieOnAmqpError | serial2amqp.c:215-254 | Only a normal reply lets `amqpsend` go on. Every other reply ends the process with status 1. A server exception reports a connection error exactly for connection.close and a channel error exactly for channel.close. |
| Amqp.AmqpSend | serial2amqp.c:258-328 | A call returns only 0 or 1. It returns 1 exactly when the socket could not be created or opened. It returns 0 exactly when the login and the channel open replied normally and neither the publish status nor the teardown status is negative. Otherwise the process ends with status 1. |
| Amqp.PublicationOf | serial2amqp.c:297-314 | The publish goes to the configured exchange and routing key with the message as body. It is persistent (delivery mode 2), typed text/plain, and neither mandatory nor immediate. |
| Configuration.DefaultTextFits | serial2amqp.c:94-106 | Each compiled-in default fits its buffer with its terminator and holds no NUL. |
| Configuration.DefaultsFitBuffers | serial2amqp.c:94-106 | The initial globals have every string within its buffer. |
| Configuration.LoadText | serial2amqp.c:341-348 | One string line of the `getenv` block: when the variable is set, its buffer holds the value truncated to the buffer; otherwise nothing changes. The verbosity, the foreground flag and the port never change. |
| Configuration.LoadPort | serial2amqp.c:343 | The `AMQP_PORT` line: the port becomes `atoi` of the variable when it is set, and no other setting changes. |
| Configuration.ApplyEnvironment | serial2amqp.c:341-348 | The whole `getenv` block leaves the verbosity and the foreground flag alone, and the port too when `AMQP_PORT` is unset. |
| Configuration.LoadTextEffect | serial2amqp.c:341-348 | One `getenv` line sets its buffer to the truncated value when the variable is set, and changes no other setting. |
| Configuration.LoadPortEffect | serial2amqp.c:343 | The `AMQP_PORT` line sets the port to `atoi` of the variable when it is set, and changes nothing else. |
| Configuration.EnvironmentChain | serial2amqp.c:341-348 | Taken line by line, the `getenv` block lets each setting be decided by the one line that names it. |
| Configuration.ApplyEnvironmentEffect | serial2amqp.c:341-348 | After the `getenv` block, a setting with a variable that is set holds that variable's value, truncated or read by `atoi`. Every other setting is unchanged. |
| Configuration.TextKeyOf | serial2amqp.c:378-401 | It maps the option characters D, H, U, P, E, K and V to their buffers, and to no buffer otherwise. |
| Configuration.NormaliseDebugLevel | serial2amqp.c:403-407 | A `-d` level in 0..9 is kept, and any other becomes the default 1. The result is always in 0..9. |
| Configuration.ApplyOption | serial2amqp.c:375-418 | One pass of the option `switch` never clears the foreground flag (only `-f` touches it, and sets it). |
| Configuration.ApplyOptions | serial2amqp.c:351-419 | The whole option loop never clears the foreground flag. |
| Configuration.WrittenCodesAreHandled | serial2amqp.c:375-418 | Every option that sets a setting is one the `switch` handles, so none of them prints the help. |
| Configuration.ApplyOptionEffect | serial2amqp.c:375-418 | One option sets the setting it names to its value and leaves every other setting alone. |
| Configuration.UnwrittenFieldKept | serial2amqp.c:351-419 | A setting that no option names keeps its value through the option loop. |
| Configuration.LastOptionWins | serial2amqp.c:351-419 | Among repeated options the last one wins, provided no earlier option ended the process. |
| Configuration.DebugLevelStaysInRange | serial2amqp.c:403-413 | The verbosity stays within -1..9 through the option loop. |
| Configuration.OptionsFitBuffers | serial2amqp.c:378-401 | Every string the option loop copies fits its buffer. |
| Configuration.DebugOptionValue | serial2amqp.c:403-407 | `-d N` gives the level N when N is in 0..9, and 1 otherwise. |
| Configuration.ValidatePort | serial2amqp.c:422-423 | The port passes exactly when it lies in 0..65535. Otherwise `bomb` ends the process with code 1 and logs "ERROR: Bad port". |
| Configuration.StartupFrom | serial2amqp.c:340-423 | The configuration phase ends with the help exactly when some option asks for it, and then with exit status 1. When it ends ready, the port lies in 0..65535. |
| Configuration.Resolve | serial2amqp.c:340-423 | From the defaults, the phase can abort only with exit code 1 and the syslog text "ERROR: Bad port". |
| Configuration.OptionOverridesEnvironment | serial2amqp.c:341-419 | A command-line option overrides both the environment and the default. |
| Configuration.EnvironmentOverridesDefault | serial2amqp.c:341-419 | Without an option for it, a setting comes from its variable when that is set, else from its default. |
| Configuration.ReadyIsWellFormed | serial2amqp.c:341-423 | The configuration `main` goes on with has its port in 0..65535, its verbosity in -1..9 and every string within its buffer. |
| Configuration.BadPortIff | serial2amqp.c:414-423 | `main` takes the "Bad port" path exactly when no option asks for the help and the resolved port is outside 0..65535. |
| Configuration.NewBuffer | serial2amqp.c:94-106 | A freshly initialised buffer has its declared size and holds its default as a C string. |
| Configuration.Config.constructor | serial2amqp.c:94-106 | The globals start out holding `Defaults`, with seven distinct buffers of their declared sizes. |
| Configuration.Config.SetText | serial2amqp.c:341-401 | A `strlcpy` into one buffer sets that setting to the truncated copy, and no other setting changes. |
| Configuration.Config.LoadVariable | serial2amqp.c:341-348 | One `getenv` line on the globals, equal to `LoadText`. |
| Configuration.Config.LoadEnvironment | serial2amqp.c:341-348 | The `getenv` block on the globals, equal to `ApplyEnvironment` of the old settings. |
| Configuration.Config.ParseOptions | serial2amqp.c:351-419 | The option loop asks for the help exactly when some option is not handled. The globals end as `ApplyOptions` of the old settings. |
| Configuration.Config.ApplySwitch | serial2amqp.c:375-413 | One pass of the `switch` on the globals, equal to `ApplyOption`. |
| Configuration.Config.SetOption | serial2amqp.c:378-401 | A string option's `case`, equal to `ApplyOption`. |
| Configuration.Config.SetNumber | serial2amqp.c:384-413 | A numeric or flag option's `case` (`-p`, `-d`, `-f`, `-q`) on the globals, equal to `ApplyOption`. |
| Configuration.Config.Configure | serial2amqp.c:340-423 | The whole configuration phase ends as `StartupFrom` the old settings: help, "Bad port", or ready with the resolved settings. |
| Bridge.IsBlank | serial2amqp.c:542 | `res-1 < 1`: the read is skipped. `BlankIsSingleCharacter` states what that means. |
| Bridge.BlankIsSingleCharacter | serial2amqp.c:542-544 | A read is skipped exactly when it is one character long. |
| Bridge.LineContent | serial2amqp.c:536-539 | The line after the terminator write is the text read before the last character, stopping at a NUL. It is shorter than the read and holds no NUL. |
| Bridge.LineContentDropsLastCharacter | serial2amqp.c:539 | A read without NUL loses exactly its last character. |
| Bridge.FullReadLosesLastCharacter | serial2amqp.c:530-539 | A read that fills all 512 bytes loses its last character, which belongs to the line. |
| Bridge.Message | serial2amqp.c:564-566 | The message is the timestamp followed by the line. It fits `publish_buffer` with its terminator and holds no NUL. |
| Bridge.MessageSplits | serial2amqp.c:561-566 | The first comma of a message ends the timestamp, whatever commas the line holds. Splitting there gives back the timestamp and the line. |
| Bridge.RefusedIsNonZeroReturn | serial2amqp.c:574-579 | A session is one the loop retries after exactly when `amqpsend` returns, and not 0. |
| Bridge.Retry | serial2amqp.c:574-579 | The retry loop takes the sessions in order; every call before the last returned non-zero. The last call returned 0 (delivered) or ended the process. The loop stalls only when the sessions run out. |
| Bridge.RetryStopsAtFirstSuccess | serial2amqp.c:574-579 | A message is delivered on the first session that accepts it, after as many calls as that takes. |
| Bridge.PublishUntilAccepted | serial2amqp.c:574-579 | The imperative `while (res != 0)` loop makes exactly the calls `Retry` describes, with two seconds of sleep after each call that returned. |
| Bridge.RunFrom | serial2amqp.c:529-580 | The serving loop from a given read and broker session on: blank reads are skipped, every other read's message goes through `Retry`; it goes on after a delivery and stops when the process exits or the sessions run out. The properties are the `RunFrom` lemmas below. |
| Bridge.RunSpec | serial2amqp.c:529-580 | The serving loop from the first read and session, with nothing sent yet. `PublishesInOrder`, `SleepsAfterEveryReturn` and `RunFromExitsWithOne` state its properties. |
| Bridge.RunFromPublishesInOrder | serial2amqp.c:529-580 | From any point, the publications sent are a prefix of the non-blank lines still to come, in read order. They are all of them when the run ends waiting for input. |
| Bridge.PublishesInOrder | serial2amqp.c:529-580 | The broker accepts the non-blank lines in read order, each once, with nothing in between. A run that ends waiting for input has delivered every one. |
| Bridge.RunFromSleeps | serial2amqp.c:574-579 | From any point, a run keeps two seconds of sleep per `amqpsend` call, except for a call that ended the process. |
| Bridge.SleepsAfterEveryReturn | serial2amqp.c:574-579 | Over a whole run, the total sleep is two seconds per call that returned. |
| Bridge.RunFromExitsWithOne | serial2amqp.c:529-580 | A run ends by exiting the process only with status 1 (given that `die_on_error` reaches its `exit(1)`, as under "Left out"). |
| Bridge.ReadInto | serial2amqp.c:536 | The characters read land at the start of `buf`, and the rest of `buf` is unchanged. |
| Bridge.BufferHoldsLine | serial2amqp.c:539 | After the terminator write, `buf` holds `LineContent` of the read as a C string. |
| Bridge.ReadLine | serial2amqp.c:536-539 | The read and the terminator write: `res` is the length read, and `buf` holds the line. |
| Bridge.Assemble | serial2amqp.c:564-566 | After the reset and the two `strncat` calls, `publish_buffer` holds the timestamp followed by the line, with no overflow. |
| Bridge.HandleRead | serial2amqp.c:536-579 | One pass of the loop body tells blank reads apart. For any other read it builds `Message` and makes the calls `Retry` describes, sleeping accordingly. |
| Bridge.Serve | serial2amqp.c:524-580 | The imperative serving loop over real buffers produces exactly `RunSpec`: the messages offered, the messages accepted, the sleep, and how the run ends. |
| Bridge.Run | serial2amqp.c:335-580 | `main` after its initialisers ends its configuration phase as `StartupFrom` the initial settings, and it serves exactly when that phase ends ready. It then serves with the resolved exchange and routing key. |

## Left out

- Amqp.DieOnError: assumes `exit(1)` at serial2amqp.c:209 is reached. Line 206 takes the error text from `amqp_error_string2`, which returns a static string, and line 208 passes it to `free`. That is undefined behaviour, and glibc usually aborts there ("free(): invalid pointer"), so the process would die by SIGABRT after the diagnostic, not with status 1. This affects every failed publish (line 306) and failed teardown (line 323), and `Bridge.RunFromExitsWithOne` rests on the same assumption.
- Bridge.HandleRead: its contract does not state what `buf` and `publishBuffer` hold afterwards; the methods it calls, `ReadLine` and `Assemble`, state those contents, and `msg` is read from `publishBuffer`. The two equations are left out of its own contract to keep the proof of `Serve` within its resource budget, and the next pass overwrites both buffers before reading them.
- Signal handling, `termios` setup and restore, `open` of the serial device, `fork`, `setsid`, `umask` and `chdir`: these are operating-system effects with no data logic. Because of them, `daemonized` is a parameter of `DebugPrint` and `Bomb`.
- `print_help` and the text it prints: the model records only that the help path exits with status 1.
- `getopt_long` itself: the options arrive as the (character, argument) pairs it returns. Long option names map to the same characters.
- syslog, stderr and stdout output are not performed. `DebugPrint` and `Bomb` return what would be emitted. The `debug_print` calls in `main` and `amqpsend` and the `printf` of each message are not traced.
- The `msglog.txt` block (serial2amqp.c:547-553) is not modelled. It calls
  `fclose(logfile)` and then `free(logfile)` (line 553), a double free whose
  behaviour is undefined and which glibc usually answers by aborting before
  the publish at line 577. The debug message built at line 569 holds the
  serial data and reaches `syslog` as a format string through `debug_print`
  (line 570), so a `%` in the data is undefined behaviour too. The model
  assumes that neither affects the run: every pass reaches the retry loop.
- The clock, `localtime` and `strftime`: each read comes with the timestamp text, which the model assumes is NUL-free, shorter than 80 characters and has its only comma at the end.
- `read` returning 0 or -1: the model takes reads of 1 to 512 characters. The code would write `buf[-1]` or `buf[-2]` in those cases.
- Uninitialised stack buffers: `buf` and `publish_buffer` start NUL-filled in the model.
- The serving loop never ends in the code. The model runs a finite script of reads and broker sessions and stops waiting for input (`Waiting`) or with the sessions used up (`Retrying`).
- The broker: a `Session` records the results one attempt's library calls return. Host name, port, virtual host and credentials are not part of it, so they do not influence the outcome.
- A publish that the library reports as failed (a negative status) may already have reached the broker. The model records only publications from calls that returned 0.
- The connection `amqpsend` opens is never closed when a socket cannot be opened. That leak is not modelled.
- CStrings.Atoi: does not model C `int` overflow; out-of-range values are undefined behaviour in C, and the model returns the exact value.
- Logging.DebugPrint: treats the message as plain text. The source passes it as a `printf`/`syslog` format string, so a `%` in the message is undefined behaviour there.
- Logging.Bomb: does not model the process exit itself. It returns the exit code.

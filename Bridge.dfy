/**
 * The serving part of `main` in serial2amqp.c: read a line from the serial
 * port, drop its terminator, prefix a timestamp, and hand the result to
 * `amqpsend` until it returns 0, sleeping two seconds after every call.
 *
 * The serial port, the clock and the broker are parameters: a script of
 * reads (each with the timestamp `strftime` would give at that moment) and
 * a script of broker sessions, one consumed by each `amqpsend` call.
 */
module Bridge {
  import opened Util
  import opened CStrings
  import opened Amqp
  import Configuration

  /** `char buf[512]`, the read buffer. */
  const ReadSize: nat := 512
  /** `char tz[80]`, the timestamp buffer. */
  const StampSize: nat := 80
  /** `char publish_buffer[1024]`. */
  const PublishSize: nat := 1024
  /** `sleep(2)` after every `amqpsend`. */
  const RetryDelay: nat := 2

  // ---------------------------------------------------------------- one line

  /** What one successful `read(fd, buf, sizeof(buf))` can return: 1 to 512 characters. */
  predicate ValidRead(chunk: seq<char>)
  {
    1 <= |chunk| <= ReadSize
  }

  /**
   * What `strftime(tz, sizeof(tz), "%Y-%m-%d %H:%M:%S%z,", &ts)` leaves in
   * `tz`: fewer than 80 characters, no NUL, and a single comma, at the end.
   */
  predicate ValidStamp(s: string)
  {
    && 0 < |s| < StampSize
    && NUL !in s
    && s[|s| - 1] == ','
    && forall j :: 0 <= j < |s| - 1 ==> s[j] != ','
  }

  /** One pass of the serving loop's input: the characters read, and the time it was read at. */
  datatype Input = Input(chunk: seq<char>, stamp: string)

  predicate ValidInputs(inputs: seq<Input>)
  {
    forall i :: 0 <= i < |inputs| ==> ValidRead(inputs[i].chunk) && ValidStamp(inputs[i].stamp)
  }

  /** `res-1 < 1`: a read of a single character is skipped; that character is overwritten and lost. */
  predicate IsBlank(chunk: seq<char>)
    requires ValidRead(chunk)
  {
    |chunk| - 1 < 1
  }

  /** A read is blank exactly when it is one character long, whatever that character is. */
  lemma BlankIsSingleCharacter(chunk: seq<char>)
    requires ValidRead(chunk)
    ensures IsBlank(chunk) <==> |chunk| == 1
  {
  }

  /**
   * The text `buf` holds as a C string once `buf[res-1] = '\0'` has
   * overwritten the last character read: what was read before it, up to
   * the first NUL.
   */
  function LineContent(chunk: seq<char>): (r: string)
    requires ValidRead(chunk)
    ensures r <= chunk && |r| < |chunk| && |r| < ReadSize
    ensures NUL !in r
    ensures |r| < |chunk| - 1 ==> chunk[|r|] == NUL
  {
    CString(chunk[..|chunk| - 1])
  }

  /** A read without NUL characters loses exactly its last character. */
  lemma LineContentDropsLastCharacter(chunk: seq<char>)
    requires ValidRead(chunk) && NUL !in chunk
    ensures LineContent(chunk) == chunk[..|chunk| - 1]
  {
    var line := chunk[..|chunk| - 1];
    forall j | 0 <= j < |line| ensures line[j] != NUL {
      assert line[j] == chunk[j];
    }
    CStringOfNulFree(line);
  }

  /**
   * A read that fills the whole buffer may end inside a longer line; the
   * character overwritten by the terminator is its last character, whether
   * or not it ends the line, and it is lost.
   */
  lemma FullReadLosesLastCharacter(chunk: seq<char>)
    requires |chunk| == ReadSize && NUL !in chunk
    ensures LineContent(chunk) + [chunk[ReadSize - 1]] == chunk
  {
    LineContentDropsLastCharacter(chunk);
    assert chunk[..ReadSize - 1] + [chunk[ReadSize - 1]] == chunk;
  }

  /** The text in `publish_buffer` after `publish_buffer[0] = '\0'` and the two `strncat` calls. */
  function Message(stamp: string, chunk: seq<char>): (m: string)
    requires ValidStamp(stamp) && ValidRead(chunk)
    ensures |m| < PublishSize && NUL !in m
  {
    stamp + LineContent(chunk)
  }

  /** The position of the first comma, or the length when there is none. */
  function FirstComma(m: string): (i: nat)
    ensures i <= |m|
    ensures forall j :: 0 <= j < i ==> m[j] != ','
    ensures i < |m| ==> m[i] == ','
  {
    if |m| == 0 then 0
    else if m[0] == ',' then 0
    else 1 + FirstComma(m[1..])
  }

  /**
   * The comma that ends the timestamp is the first in the message, so the
   * message splits back into its timestamp and the line read, whatever
   * commas the line itself holds.
   */
  lemma MessageSplits(stamp: string, chunk: seq<char>)
    requires ValidStamp(stamp) && ValidRead(chunk)
    ensures var m := Message(stamp, chunk);
      var i := FirstComma(m);
      i < |m| && m[..i + 1] == stamp && m[i + 1..] == LineContent(chunk)
  {
    var m := Message(stamp, chunk);
    var k := |stamp| - 1;
    forall j | 0 <= j < k ensures m[j] != ',' {
      assert m[j] == stamp[j];
    }
    assert m[k] == ',';
    var i := FirstComma(m);
    assert i <= k;
    assert m[i] == ',';
    assert m[..i + 1] == stamp;
    assert m[i + 1..] == LineContent(chunk);
  }

  // ---------------------------------------------------------------- retrying

  /**
   * An `amqpsend` call that returns but not 0, so that the loop tries again;
   * by the contract of `AmqpSend` that is exactly a session that never connected.
   */
  predicate Refused(s: Session)
  {
    !Connected(s)
  }

  lemma RefusedIsNonZeroReturn(s: Session)
    ensures Refused(s) <==> AmqpSend(s).Returned? && AmqpSend(s).code != 0
  {
  }

  /** How the retry loop for one message ends; `Stalled` is where the broker script runs out. */
  datatype Delivery = Delivered | Died(status: int, why: Diagnostic) | Stalled
  datatype RetryResult = RetryResult(calls: nat, delivery: Delivery)

  /**
   * `while (res != 0) { res = amqpsend(publish_buffer); sleep(2); }` on the
   * broker sessions from `from` on: every call before the last is refused,
   * and the last one either succeeds or ends the process.
   */
  function Retry(sessions: seq<Session>, from: nat): (r: RetryResult)
    requires from <= |sessions|
    ensures from + r.calls <= |sessions|
    ensures r.delivery.Stalled? ==> from + r.calls == |sessions|
    ensures forall j :: from <= j < from + r.calls && (j < from + r.calls - 1 || r.delivery.Stalled?) ==>
      Refused(sessions[j])
    ensures r.delivery.Delivered? ==> r.calls > 0 && AmqpSend(sessions[from + r.calls - 1]) == Returned(0)
    ensures r.delivery.Died? ==>
      r.calls > 0 && AmqpSend(sessions[from + r.calls - 1]) == Terminated(r.delivery.status, r.delivery.why)
    decreases |sessions| - from
  {
    if from == |sessions| then RetryResult(0, Stalled)
    else match AmqpSend(sessions[from])
      case Terminated(status, why) => RetryResult(1, Died(status, why))
      case Returned(code) =>
        if code == 0 then RetryResult(1, Delivered)
        else
          var rest := Retry(sessions, from + 1);
          RetryResult(rest.calls + 1, rest.delivery)
  }

  /** The calls that came back to the loop, each followed by a sleep: all but one that ended the process. */
  function Returns(r: RetryResult): (n: nat)
    ensures n <= r.calls
  {
    if r.delivery.Died? && r.calls > 0 then r.calls - 1 else r.calls
  }

  /** A message is delivered on the first session that accepts it, after every earlier one refused. */
  lemma {:induction false} RetryStopsAtFirstSuccess(sessions: seq<Session>, from: nat, k: nat)
    requires from <= k < |sessions|
    requires forall j :: from <= j < k ==> Refused(sessions[j])
    requires AmqpSend(sessions[k]) == Returned(0)
    ensures Retry(sessions, from) == RetryResult(k - from + 1, Delivered)
    decreases k - from
  {
    if from < k {
      assert Refused(sessions[from]);
      RetryStopsAtFirstSuccess(sessions, from + 1, k);
    }
  }

  /** The retry loop: exactly the calls `Retry` describes, and a sleep after each call that returned. */
  method PublishUntilAccepted(sessions: seq<Session>, from: nat) returns (r: RetryResult, slept: nat)
    requires from <= |sessions|
    ensures r == Retry(sessions, from)
    ensures slept == RetryDelay * Returns(r)
  {
    var calls := 0;
    slept := 0;
    var res := -1;
    while res != 0
      invariant from + calls <= |sessions|
      invariant slept == RetryDelay * calls
      invariant res == 0 ==> calls > 0 && Retry(sessions, from) == RetryResult(calls, Delivered)
      invariant res != 0 ==>
        (var rest := Retry(sessions, from + calls); Retry(sessions, from) == RetryResult(calls + rest.calls, rest.delivery))
      decreases |sessions| - (from + calls), if res == 0 then 0 else 1
    {
      if from + calls == |sessions| {
        return RetryResult(calls, Stalled), slept;
      }
      var outcome := AmqpSend(sessions[from + calls]);
      if outcome.Terminated? {
        return RetryResult(calls + 1, Died(outcome.status, outcome.why)), slept;
      }
      res := outcome.code;
      calls := calls + 1;
      slept := slept + RetryDelay;
    }
    r := RetryResult(calls, Delivered);
  }

  // ---------------------------------------------------------------- the serving loop

  /**
   * Where a run of the model stops: `Waiting` when the reads run out (the
   * process blocks in `read`), `Retrying` when the broker sessions run out
   * (the process keeps retrying), `Exited` when `amqpsend` ends the process.
   * `Running` marks a trace still being built.
   */
  datatype Ending = Running | Waiting | Retrying | Exited(status: int, why: Diagnostic)

  /** What the serving loop did: the messages the broker accepted, every message offered, and the seconds slept. */
  datatype Trace = Trace(published: seq<Publication>, attempts: seq<string>, slept: nat, ending: Ending)

  const Start: Trace := Trace([], [], 0, Running)

  /** `acc` after the retry loop offered `m` in the calls `r` counts. */
  function Offered(acc: Trace, m: string, r: RetryResult): (t: Trace)
  {
    acc.(attempts := acc.attempts + Repeat(m, r.calls), slept := acc.slept + RetryDelay * Returns(r))
  }

  /** The serving loop from the `i`-th read and the `from`-th broker session on, after `acc`. */
  function RunFrom(exchange: string, routingKey: string, inputs: seq<Input>, sessions: seq<Session>,
                   i: nat, from: nat, acc: Trace): (t: Trace)
    requires ValidInputs(inputs) && i <= |inputs| && from <= |sessions|
    decreases |inputs| - i
  {
    if i == |inputs| then acc.(ending := Waiting)
    else if IsBlank(inputs[i].chunk) then RunFrom(exchange, routingKey, inputs, sessions, i + 1, from, acc)
    else
      var m := Message(inputs[i].stamp, inputs[i].chunk);
      var r := Retry(sessions, from);
      var tried := Offered(acc, m, r);
      match r.delivery
      case Delivered =>
        RunFrom(exchange, routingKey, inputs, sessions, i + 1, from + r.calls,
                tried.(published := acc.published + [PublicationOf(exchange, routingKey, m)]))
      case Died(status, why) => tried.(ending := Exited(status, why))
      case Stalled => tried.(ending := Retrying)
  }

  /** A non-blank read whose message the broker accepted: record it and go on with the next read. */
  lemma RunFromDelivered(exchange: string, routingKey: string, inputs: seq<Input>, sessions: seq<Session>,
                         i: nat, from: nat, acc: Trace, m: string, r: RetryResult)
    requires ValidInputs(inputs) && i < |inputs| && from <= |sessions| && !IsBlank(inputs[i].chunk)
    requires m == Message(inputs[i].stamp, inputs[i].chunk) && r == Retry(sessions, from) && r.delivery.Delivered?
    ensures RunFrom(exchange, routingKey, inputs, sessions, i, from, acc) ==
            RunFrom(exchange, routingKey, inputs, sessions, i + 1, from + r.calls,
                    Offered(acc, m, r).(published := acc.published + [PublicationOf(exchange, routingKey, m)]))
  {
  }

  /** A non-blank read whose retry loop ended without acceptance: the run stops there. */
  lemma RunFromStops(exchange: string, routingKey: string, inputs: seq<Input>, sessions: seq<Session>,
                     i: nat, from: nat, acc: Trace, m: string, r: RetryResult)
    requires ValidInputs(inputs) && i < |inputs| && from <= |sessions| && !IsBlank(inputs[i].chunk)
    requires m == Message(inputs[i].stamp, inputs[i].chunk) && r == Retry(sessions, from) && !r.delivery.Delivered?
    ensures RunFrom(exchange, routingKey, inputs, sessions, i, from, acc) ==
            Offered(acc, m, r).(ending := if r.delivery.Died? then Exited(r.delivery.status, r.delivery.why) else Retrying)
  {
  }

  function RunSpec(exchange: string, routingKey: string, inputs: seq<Input>, sessions: seq<Session>): (t: Trace)
    requires ValidInputs(inputs)
  {
    RunFrom(exchange, routingKey, inputs, sessions, 0, 0, Start)
  }

  /** The publications a reliable broker would receive: one per non-blank read, in order. */
  function Expected(exchange: string, routingKey: string, inputs: seq<Input>, i: nat): (ps: seq<Publication>)
    requires ValidInputs(inputs) && i <= |inputs|
    decreases |inputs| - i
  {
    if i == |inputs| then []
    else if IsBlank(inputs[i].chunk) then Expected(exchange, routingKey, inputs, i + 1)
    else [PublicationOf(exchange, routingKey, Message(inputs[i].stamp, inputs[i].chunk))]
         + Expected(exchange, routingKey, inputs, i + 1)
  }

  lemma {:induction false} RunFromPublishesInOrder(exchange: string, routingKey: string, inputs: seq<Input>,
                                                   sessions: seq<Session>, i: nat, from: nat, acc: Trace)
    requires ValidInputs(inputs) && i <= |inputs| && from <= |sessions|
    ensures var t := RunFrom(exchange, routingKey, inputs, sessions, i, from, acc);
      && acc.published <= t.published
      && t.published <= acc.published + Expected(exchange, routingKey, inputs, i)
      && (t.ending == Waiting ==> t.published == acc.published + Expected(exchange, routingKey, inputs, i))
    decreases |inputs| - i
  {
    if i == |inputs| {
      assert acc.published + [] == acc.published;
    } else if IsBlank(inputs[i].chunk) {
      RunFromPublishesInOrder(exchange, routingKey, inputs, sessions, i + 1, from, acc);
    } else {
      var m := Message(inputs[i].stamp, inputs[i].chunk);
      var p := PublicationOf(exchange, routingKey, m);
      var r := Retry(sessions, from);
      var rest := Expected(exchange, routingKey, inputs, i + 1);
      assert Expected(exchange, routingKey, inputs, i) == [p] + rest;
      assert acc.published + ([p] + rest) == (acc.published + [p]) + rest;
      if r.delivery.Delivered? {
        var tried := Offered(acc, m, r);
        RunFromPublishesInOrder(exchange, routingKey, inputs, sessions, i + 1, from + r.calls,
                                tried.(published := acc.published + [p]));
      }
    }
  }

  /**
   * The broker receives the non-blank lines, each once and in the order
   * read, with nothing in between; when the run ends waiting for input it
   * has received all of them.
   */
  lemma PublishesInOrder(exchange: string, routingKey: string, inputs: seq<Input>, sessions: seq<Session>)
    requires ValidInputs(inputs)
    ensures var t := RunSpec(exchange, routingKey, inputs, sessions);
      && t.published <= Expected(exchange, routingKey, inputs, 0)
      && (t.ending == Waiting ==> t.published == Expected(exchange, routingKey, inputs, 0))
  {
    RunFromPublishesInOrder(exchange, routingKey, inputs, sessions, 0, 0, Start);
    assert Start.published + Expected(exchange, routingKey, inputs, 0) == Expected(exchange, routingKey, inputs, 0);
  }

  lemma {:induction false} RunFromSleeps(exchange: string, routingKey: string, inputs: seq<Input>,
                                         sessions: seq<Session>, i: nat, from: nat, acc: Trace)
    requires ValidInputs(inputs) && i <= |inputs| && from <= |sessions|
    requires acc.ending == Running && acc.slept == RetryDelay * |acc.attempts|
    ensures var t := RunFrom(exchange, routingKey, inputs, sessions, i, from, acc);
      t.ending != Running && t.slept == RetryDelay * (|t.attempts| - if t.ending.Exited? then 1 else 0)
    decreases |inputs| - i
  {
    if i < |inputs| {
      if IsBlank(inputs[i].chunk) {
        RunFromSleeps(exchange, routingKey, inputs, sessions, i + 1, from, acc);
      } else {
        var m := Message(inputs[i].stamp, inputs[i].chunk);
        var r := Retry(sessions, from);
        var tried := Offered(acc, m, r);
        if r.delivery.Delivered? {
          RunFromSleeps(exchange, routingKey, inputs, sessions, i + 1, from + r.calls,
                        tried.(published := acc.published + [PublicationOf(exchange, routingKey, m)]));
        }
      }
    }
  }

  /** Two seconds of sleep follow every `amqpsend` call except one that ended the process. */
  lemma SleepsAfterEveryReturn(exchange: string, routingKey: string, inputs: seq<Input>, sessions: seq<Session>)
    requires ValidInputs(inputs)
    ensures var t := RunSpec(exchange, routingKey, inputs, sessions);
      t.slept == RetryDelay * (|t.attempts| - if t.ending.Exited? then 1 else 0)
  {
    RunFromSleeps(exchange, routingKey, inputs, sessions, 0, 0, Start);
  }

  /** A run ends by process exit only with status 1, the status `die_on_error` and `die_on_amqp_error` use. */
  lemma {:induction false} RunFromExitsWithOne(exchange: string, routingKey: string, inputs: seq<Input>,
                                               sessions: seq<Session>, i: nat, from: nat, acc: Trace)
    requires ValidInputs(inputs) && i <= |inputs| && from <= |sessions|
    requires !acc.ending.Exited?
    ensures var t := RunFrom(exchange, routingKey, inputs, sessions, i, from, acc);
      t.ending.Exited? ==> t.ending.status == 1
    decreases |inputs| - i
  {
    if i < |inputs| {
      if IsBlank(inputs[i].chunk) {
        RunFromExitsWithOne(exchange, routingKey, inputs, sessions, i + 1, from, acc);
      } else {
        var m := Message(inputs[i].stamp, inputs[i].chunk);
        var r := Retry(sessions, from);
        var tried := Offered(acc, m, r);
        if r.delivery.Delivered? {
          RunFromExitsWithOne(exchange, routingKey, inputs, sessions, i + 1, from + r.calls,
                              tried.(published := acc.published + [PublicationOf(exchange, routingKey, m)]));
        }
      }
    }
  }

  // ---------------------------------------------------------------- the imperative loop

  /** `read(fd, buf, sizeof(buf))` returning `|chunk|`: the characters land at the start of `buf`. */
  method ReadInto(buf: array<char>, chunk: seq<char>)
    requires |chunk| <= buf.Length
    modifies buf
    ensures buf[..|chunk|] == chunk
    ensures buf[|chunk|..] == old(buf[|chunk|..])
  {
    var j := 0;
    while j < |chunk|
      invariant 0 <= j <= |chunk|
      invariant buf[..j] == chunk[..j]
      invariant buf[|chunk|..] == old(buf[|chunk|..])
    {
      buf[j] := chunk[j];
      j := j + 1;
    }
  }

  /** The C string `buf` holds after the read and the terminator write. */
  lemma BufferHoldsLine(buf: seq<char>, chunk: seq<char>)
    requires ValidRead(chunk) && |chunk| <= |buf|
    requires buf[..|chunk| - 1] == chunk[..|chunk| - 1] && buf[|chunk| - 1] == NUL
    ensures CString(buf) == LineContent(chunk)
  {
    CStringAtNul(buf, |chunk| - 1);
  }

  /** `res = read(fd, buf, sizeof(buf)); buf[res-1] = '\0';` */
  method ReadLine(buf: array<char>, chunk: seq<char>) returns (res: int)
    requires buf.Length == ReadSize && ValidRead(chunk)
    modifies buf
    ensures res == |chunk|
    ensures CString(buf[..]) == LineContent(chunk)
  {
    ReadInto(buf, chunk);
    res := |chunk|;
    buf[res - 1] := NUL;
    assert buf[..res - 1] == chunk[..res - 1];
    BufferHoldsLine(buf[..], chunk);
  }

  /** `publish_buffer[0] = '\0'; strncat(publish_buffer, tz, ...); strncat(publish_buffer, buf, ...);` */
  method Assemble(publishBuffer: array<char>, tz: string, buf: seq<char>)
    requires publishBuffer.Length == PublishSize
    requires ValidStamp(tz) && |CString(buf)| < ReadSize
    modifies publishBuffer
    ensures CString(publishBuffer[..]) == tz + CString(buf)
  {
    publishBuffer[0] := NUL;
    assert CString(publishBuffer[..]) == [];
    CStringOfNulFree(tz);
    assert CString(tz)[..Min(PublishSize, |CString(tz)|)] == tz;
    Strncat(publishBuffer, tz, PublishSize);
    assert CString(buf)[..Min(PublishSize, |CString(buf)|)] == CString(buf);
    Strncat(publishBuffer, buf, PublishSize);
  }

  /**
   * One pass of the serving loop up to the retry loop's end: read, frame,
   * skip a blank line, assemble the message and offer it until accepted.
   */
  method HandleRead(buf: array<char>, publishBuffer: array<char>, input: Input, sessions: seq<Session>, from: nat)
    returns (blank: bool, msg: string, r: RetryResult, slept: nat)
    requires buf.Length == ReadSize && publishBuffer.Length == PublishSize && buf != publishBuffer
    requires ValidRead(input.chunk) && ValidStamp(input.stamp) && from <= |sessions|
    modifies buf, publishBuffer
    ensures blank == IsBlank(input.chunk)
    ensures !blank ==> msg == Message(input.stamp, input.chunk) && r == Retry(sessions, from)
    ensures !blank ==> slept == RetryDelay * Returns(r)
  {
    var res := ReadLine(buf, input.chunk);
    if res - 1 < 1 {
      return true, [], RetryResult(0, Stalled), 0;
    }
    Assemble(publishBuffer, input.stamp, buf[..]);
    msg := CString(publishBuffer[..]);
    r, slept := PublishUntilAccepted(sessions, from);
    blank := false;
  }

  /** A blank read adds nothing to the trace. */
  lemma RunFromBlank(exchange: string, routingKey: string, inputs: seq<Input>, sessions: seq<Session>,
                     i: nat, from: nat, acc: Trace)
    requires ValidInputs(inputs) && i < |inputs| && from <= |sessions| && IsBlank(inputs[i].chunk)
    ensures RunFrom(exchange, routingKey, inputs, sessions, i, from, acc) ==
            RunFrom(exchange, routingKey, inputs, sessions, i + 1, from, acc)
  {
  }

  /**
   * The `while (STOP == FALSE)` loop of `main`, over the given reads and
   * broker sessions, with the configured exchange and routing key.
   */
  method Serve(exchange: string, routingKey: string, inputs: seq<Input>, sessions: seq<Session>) returns (t: Trace)
    requires ValidInputs(inputs)
    ensures t == RunSpec(exchange, routingKey, inputs, sessions)
  {
    var buf := new char[ReadSize](_ => NUL);
    var publishBuffer := new char[PublishSize](_ => NUL);
    var i: nat := 0;
    var from: nat := 0;
    t := Start;
    while i < |inputs|
      invariant i <= |inputs| && from <= |sessions|
      invariant buf.Length == ReadSize && publishBuffer.Length == PublishSize
      invariant RunFrom(exchange, routingKey, inputs, sessions, i, from, t) == RunSpec(exchange, routingKey, inputs, sessions)
    {
      var blank, msg, r, slept := HandleRead(buf, publishBuffer, inputs[i], sessions, from);
      if blank {
        RunFromBlank(exchange, routingKey, inputs, sessions, i, from, t);
        i := i + 1;
        continue;
      }
      assert t.(attempts := t.attempts + Repeat(msg, r.calls), slept := t.slept + slept) == Offered(t, msg, r);
      if !r.delivery.Delivered? {
        RunFromStops(exchange, routingKey, inputs, sessions, i, from, t, msg, r);
        return Offered(t, msg, r).(ending := if r.delivery.Died? then Exited(r.delivery.status, r.delivery.why) else Retrying);
      }
      RunFromDelivered(exchange, routingKey, inputs, sessions, i, from, t, msg, r);
      t, i, from := Offered(t, msg, r).(published := t.published + [PublicationOf(exchange, routingKey, msg)]), i + 1, from + r.calls;
    }
    t := t.(ending := Waiting);
  }

  // ---------------------------------------------------------------- main

  /** How `main` ends: the configuration phase, and the serving loop when it is reached. */
  datatype Outcome = Outcome(startup: Configuration.Startup, trace: Option<Trace>)

  /**
   * `main` after its globals are initialised: resolve the configuration,
   * then serve with the exchange and routing key it settled on.
   */
  method Run(config: Configuration.Config, env: Configuration.Environment, opts: seq<Configuration.Opt>,
              inputs: seq<Input>, sessions: seq<Session>) returns (outcome: Outcome)
    requires config.Valid() && ValidInputs(inputs)
    modifies config.Repr()
    ensures outcome.startup == Configuration.StartupFrom(old(config.Current()), env, opts)
    ensures outcome.trace.Some? <==> outcome.startup.Ready?
    ensures outcome.startup.Ready? ==>
      outcome.trace.value == RunSpec(outcome.startup.settings.exchange, outcome.startup.settings.routingKey, inputs, sessions)
  {
    var startup := config.Configure(env, opts);
    if !startup.Ready? {
      return Outcome(startup, None);
    }
    var t := Serve(CString(config.amqpExchange[..]), CString(config.amqpRoutingKey[..]), inputs, sessions);
    return Outcome(startup, Some(t));
  }
}

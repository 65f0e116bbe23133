/** The data pump (pd_job_impl_data_io_cb): one buffer of 1024 bytes alternates between a read
    watch on the last filter's output and a write watch on the backend's input. */
module DataPump {
  import opened Bytes

  const BUFFER_SIZE: nat := 1024

  /** The pump as a value.
      - `readArmed`, `writeArmed`: the two data watches; `outputOpen`, `inputOpen`: the filter's
        output channel and the backend's input channel are still there.
      - history: `source` is what the filter has yet to produce before it closes its output,
        `taken` what was read, `delivered` what the backend's channel accepted, `ended` that the
        "End of input" branch closed the backend's input. */
  datatype Pump = Pump(
    buffer: seq<Byte>,
    buflen: nat,
    bufsent: nat,
    readArmed: bool,
    writeArmed: bool,
    outputOpen: bool,
    inputOpen: bool,
    source: seq<Byte>,
    taken: seq<Byte>,
    delivered: seq<Byte>,
    ended: bool)

  /** What the read or write comes to. `stops`: the abort it triggers shuts the backend's input
      (pd_job_impl_do_cancel_with_reason does so unless the job is already stopping). */
  datatype Callback =
    | ReadNormal(data: seq<Byte>)
    | ReadEof
    | ReadAgain
    | ReadError(stops: bool)
    | WriteNormal(wrote: nat)
    | WriteAgain(wrote: nat)
    | WriteEof(wrote: nat, stops: bool)
    | WriteError(stops: bool)
    | StopSending
  {
    predicate Read() {
      ReadNormal? || ReadEof? || ReadAgain? || ReadError?
    }

    predicate Write() {
      WriteNormal? || WriteAgain? || WriteEof? || WriteError?
    }
  }

  predicate Indexed(p: Pump) {
    p.bufsent <= p.buflen <= |p.buffer| == BUFFER_SIZE
  }

  function Unsent(p: Pump): seq<Byte>
    requires Indexed(p)
  {
    p.buffer[p.bufsent..p.buflen]
  }

  /** A pump as start_sending leaves it, for a filter that will produce `output`. */
  ghost predicate Started(p: Pump, output: seq<Byte>) {
    && |p.buffer| == BUFFER_SIZE && p.buflen == 0 && p.bufsent == 0
    && p.readArmed && !p.writeArmed && p.outputOpen && p.inputOpen
    && p.source == output && p.taken == [] && p.delivered == [] && !p.ended
  }

  /** Which callbacks can come: watches fire only when armed, a read returns 1 to 1024 of the
      bytes to come and end of file only after all of them, a write accepts what it was offered
      or less. StopSending is a cancel, or the backend exiting. */
  predicate Possible(p: Pump, c: Callback) {
    && Indexed(p)
    && (c.Read() ==> p.readArmed)
    && (c.Write() ==> p.writeArmed)
    && (c.ReadNormal? ==> 0 < |c.data| <= BUFFER_SIZE && c.data <= p.source)
    && (c.ReadEof? ==> p.source == [])
    && (c.WriteNormal? || c.WriteAgain? || c.WriteEof? ==> c.wrote <= p.buflen - p.bufsent)
  }

  function Stopped(p: Pump): Pump {
    p.(inputOpen := false, writeArmed := false)
  }

  function OnRead(p: Pump, c: Callback): Pump
    requires Possible(p, c) && c.Read()
  {
    if c.ReadNormal? then
      p.(buffer := c.data + p.buffer[|c.data|..], buflen := |c.data|, bufsent := 0,
         readArmed := false, writeArmed := p.writeArmed || p.inputOpen,
         source := p.source[|c.data|..], taken := p.taken + c.data)
    else if c.ReadEof? then
      p.(readArmed := false, outputOpen := false, writeArmed := p.writeArmed || p.inputOpen)
    else if c.ReadError? then
      (if c.stops then Stopped(p) else p).(readArmed := false)
    else
      p
  }

  /** The write callback with an empty buffer: "End of input". */
  function End(p: Pump): Pump {
    p.(inputOpen := false, writeArmed := false, ended := true)
  }

  function Advance(p: Pump, wrote: nat): Pump
    requires Indexed(p) && wrote <= p.buflen - p.bufsent
  {
    var q := p.(bufsent := p.bufsent + wrote, delivered := p.delivered + p.buffer[p.bufsent..p.bufsent + wrote]);
    if q.bufsent == q.buflen then q.(writeArmed := false, readArmed := p.readArmed || p.outputOpen) else q
  }

  function OnWrite(p: Pump, c: Callback): Pump
    requires Possible(p, c) && c.Write()
  {
    if p.buflen - p.bufsent == 0 then End(p)
    else if c.WriteError? then if c.stops then Stopped(p) else p
    else Advance(if c.WriteEof? && c.stops then Stopped(p) else p, c.wrote)
  }

  function Next(p: Pump, c: Callback): Pump
    requires Possible(p, c)
  {
    if c.Read() then OnRead(p, c) else if c.Write() then OnWrite(p, c) else Stopped(p)
  }

  // What every callback keeps

  /** The pump's discipline. */
  ghost predicate Disciplined(p: Pump) {
    && Indexed(p)
    && !(p.readArmed && p.writeArmed)
    && (p.readArmed ==> p.outputOpen && p.bufsent == p.buflen)
    && (p.writeArmed ==> p.inputOpen)
    && (p.writeArmed && p.bufsent == p.buflen ==> !p.outputOpen)
    && (!p.outputOpen ==> p.bufsent == p.buflen)
  }

  /** It copies: what was accepted and what is still in the buffer is what was read, and that is
      a prefix of the whole output. */
  ghost predicate Copying(p: Pump, output: seq<Byte>)
    requires Indexed(p)
  {
    && p.delivered + Unsent(p) == p.taken
    && p.taken + p.source == output
    && (!p.outputOpen ==> p.source == [])
    && (p.ended ==> p.source == [] && Unsent(p) == [])
  }

  ghost predicate Good(p: Pump, output: seq<Byte>) {
    Disciplined(p) && Copying(p, output)
  }

  lemma StartedIsGood(p: Pump, output: seq<Byte>)
    requires Started(p, output)
    ensures Good(p, output)
  {
    assert Unsent(p) == [];
  }

  lemma AdvanceKeeps(p: Pump, wrote: nat, output: seq<Byte>)
    requires Indexed(p) && Copying(p, output) && wrote <= p.buflen - p.bufsent
    requires !p.readArmed && p.outputOpen && p.bufsent < p.buflen
    requires p.writeArmed ==> p.inputOpen
    ensures Good(Advance(p, wrote), output)
  {
    var q := Advance(p, wrote);
    assert Unsent(p) == p.buffer[p.bufsent..p.bufsent + wrote] + Unsent(q);
  }

  lemma NextKeeps(p: Pump, c: Callback, output: seq<Byte>)
    requires Good(p, output) && Possible(p, c)
    ensures Good(Next(p, c), output)
  {
    if c.ReadNormal? {
      var q := Next(p, c);
      assert Unsent(p) == [] && Unsent(q) == c.data;
      assert p.source == c.data + q.source;
    } else if c.Write() && p.bufsent < p.buflen && !c.WriteError? {
      var s := if c.WriteEof? && c.stops then Stopped(p) else p;
      assert Unsent(s) == Unsent(p);
      AdvanceKeeps(s, c.wrote, output);
    } else {
      assert Unsent(Next(p, c)) == Unsent(p);
    }
  }

  // Runs

  ghost predicate Run(p: Pump, cs: seq<Callback>, q: Pump)
    decreases |cs|
  {
    if cs == [] then p == q else Possible(p, cs[0]) && Run(Next(p, cs[0]), cs[1..], q)
  }

  lemma {:induction false} RunKeeps(p: Pump, cs: seq<Callback>, q: Pump, output: seq<Byte>)
    requires Good(p, output) && Run(p, cs, q)
    ensures Good(q, output)
    decreases |cs|
  {
    if cs != [] {
      NextKeeps(p, cs[0], output);
      RunKeeps(Next(p, cs[0]), cs[1..], q, output);
    }
  }

  /** Refinement of stream copy, for all short writes, retries, failures and stops: what the
      backend got is at every moment a prefix of the filter's output; what was read and not yet
      delivered is in the buffer; and when the pump itself ends the input, the backend has got
      the whole output, in order and once. */
  lemma PumpCopiesTheStream(p: Pump, cs: seq<Callback>, q: Pump, output: seq<Byte>)
    requires Started(p, output) && Run(p, cs, q)
    ensures Indexed(q) && q.delivered + Unsent(q) == q.taken
    ensures q.delivered <= q.taken <= output
    ensures q.ended ==> q.delivered == output
  {
    StartedIsGood(p, output);
    RunKeeps(p, cs, q, output);
  }

  lemma PumpIsDisciplined(p: Pump, cs: seq<Callback>, q: Pump, output: seq<Byte>)
    requires Started(p, output) && Run(p, cs, q)
    ensures 0 <= q.bufsent <= q.buflen <= 1024 == |q.buffer|
    ensures !(q.readArmed && q.writeArmed)
    ensures q.readArmed ==> Unsent(q) == []
    ensures q.writeArmed && Unsent(q) == [] ==> !q.outputOpen && q.taken == output
  {
    StartedIsGood(p, output);
    RunKeeps(p, cs, q, output);
  }

  // Progress

  /** A callback that moves something on: data, end of file, or at least one byte written. */
  predicate Progresses(p: Pump, c: Callback) {
    || c.ReadNormal?
    || c.ReadEof?
    || ((c.WriteNormal? || c.WriteAgain?) && (p.bufsent < p.buflen ==> 0 < c.wrote))
  }

  /** A callback without a failure or a stop. */
  predicate Clean(c: Callback) {
    !c.ReadError? && !c.WriteError? && !c.WriteEof? && !c.StopSending?
  }

  function Work(p: Pump): nat
    requires Indexed(p)
  {
    2 * |p.source| + (p.buflen - p.bufsent) + (if p.outputOpen then 1 else 0) + (if p.inputOpen then 1 else 0)
  }

  lemma ProgressLowersWork(p: Pump, c: Callback, output: seq<Byte>)
    requires Good(p, output) && Possible(p, c) && Progresses(p, c)
    ensures Indexed(Next(p, c)) && Work(Next(p, c)) < Work(p)
  {
    NextKeeps(p, c, output);
  }

  ghost predicate Steady(p: Pump, cs: seq<Callback>)
    decreases |cs|
  {
    cs == [] || (Possible(p, cs[0]) && Progresses(p, cs[0]) && Steady(Next(p, cs[0]), cs[1..]))
  }

  /** With progressing callbacks only, the pump is done after at most 2n + 2 of them. */
  lemma {:induction false} SteadyRunsAreShort(p: Pump, cs: seq<Callback>, output: seq<Byte>)
    requires Good(p, output) && Steady(p, cs)
    ensures |cs| <= Work(p)
    decreases |cs|
  {
    if cs != [] {
      NextKeeps(p, cs[0], output);
      ProgressLowersWork(p, cs[0], output);
      SteadyRunsAreShort(Next(p, cs[0]), cs[1..], output);
    }
  }

  /** Without a failure or a stop, some watch is armed until the input has been ended. */
  ghost predicate Awake(p: Pump) {
    p.ended || (p.inputOpen && (p.readArmed || p.writeArmed))
  }

  lemma {:induction false} CleanRunsStayAwake(p: Pump, cs: seq<Callback>, q: Pump, output: seq<Byte>)
    requires Good(p, output) && Awake(p) && Run(p, cs, q)
    requires forall k :: 0 <= k < |cs| ==> Clean(cs[k])
    ensures Awake(q)
    decreases |cs|
  {
    if cs != [] {
      assert Clean(cs[0]);
      NextKeeps(p, cs[0], output);
      CleanRunsStayAwake(Next(p, cs[0]), cs[1..], q, output);
    }
  }

  /** So a clean run with no watch left armed has delivered everything. */
  lemma CleanRunsDeliver(p: Pump, cs: seq<Callback>, q: Pump, output: seq<Byte>)
    requires Started(p, output) && Run(p, cs, q)
    requires forall k :: 0 <= k < |cs| ==> Clean(cs[k])
    requires !q.readArmed && !q.writeArmed
    ensures q.ended && q.delivered == output
  {
    StartedIsGood(p, output);
    CleanRunsStayAwake(p, cs, q, output);
    PumpCopiesTheStream(p, cs, q, output);
  }

  // Failures and stops

  /** What each of them leaves: a failed read is not tried again, nothing is lost from the buffer, and
      the backend's input goes exactly when the failure stops the job. */
  lemma FailureLeaves(p: Pump, c: Callback, output: seq<Byte>)
    requires Good(p, output) && Possible(p, c) && !Clean(c)
    ensures var q := Next(p, c);
            && q.taken == p.taken && q.outputOpen == p.outputOpen
            && match c
               case ReadError(stops) =>
                 && !q.readArmed && q.writeArmed == p.writeArmed && q.delivered == p.delivered
                 && q.inputOpen == (p.inputOpen && !stops)
               case WriteError(stops) =>
                 if Unsent(p) == [] then q.ended && !q.inputOpen && q.delivered == p.delivered
                 else
                   && q.delivered == p.delivered && Unsent(q) == Unsent(p) && q.readArmed == p.readArmed
                   && q.inputOpen == !stops && q.writeArmed == !stops
               case WriteEof(wrote, stops) =>
                 if Unsent(p) == [] then q.ended && !q.inputOpen && q.delivered == p.delivered
                 else
                   && q.delivered == p.delivered + Unsent(p)[..wrote] && q.inputOpen == !stops
                   && q.writeArmed == (!stops && wrote < |Unsent(p)|)
               case StopSending =>
                 && !q.inputOpen && !q.writeArmed && q.readArmed == p.readArmed
                 && q.delivered == p.delivered && Unsent(q) == Unsent(p) && q.ended == p.ended
               case _ => true
  {
  }

  /** Once the backend's input is gone nothing reaches it, whatever is still read. */
  lemma {:induction false} NothingAfterStop(p: Pump, cs: seq<Callback>, q: Pump, output: seq<Byte>)
    requires Good(p, output) && !p.inputOpen && Run(p, cs, q)
    ensures q.delivered == p.delivered && !q.inputOpen && q.ended == p.ended
    decreases |cs|
  {
    if cs != [] {
      NextKeeps(p, cs[0], output);
      NothingAfterStop(Next(p, cs[0]), cs[1..], q, output);
    }
  }

  // The object

  /** The part of PdJobImpl and its processes that the callback works on. */
  class JobData {
    const buffer: array<Byte>
    var buflen: nat
    var bufsent: nat
    var readArmed: bool
    var writeArmed: bool
    var outputOpen: bool
    var inputOpen: bool
    ghost var source: seq<Byte>
    ghost var taken: seq<Byte>
    ghost var delivered: seq<Byte>
    ghost var ended: bool

    ghost function Value(): Pump
      reads this, buffer
    {
      Pump(buffer[..], buflen, bufsent, readArmed, writeArmed, outputOpen, inputOpen, source, taken, delivered, ended)
    }

    /** The end of start_sending: watch the last filter's output. */
    constructor (ghost output: seq<Byte>)
      ensures Started(Value(), output)
    {
      buffer := new Byte[BUFFER_SIZE];
      buflen, bufsent := 0, 0;
      readArmed, writeArmed, outputOpen, inputOpen := true, false, true, true;
      source, taken, delivered, ended := output, [], [], false;
    }

    method StopSendingData()
      modifies this
      ensures Value() == Stopped(old(Value()))
    {
      inputOpen, writeArmed := false, false;
    }

    /** g_io_channel_read_chars into the buffer. */
    method FillBuffer(data: seq<Byte>)
      requires |data| <= buffer.Length && data <= source
      modifies this`buflen, this`bufsent, this`source, this`taken, buffer
      ensures buffer[..] == data + old(buffer[..])[|data|..]
      ensures buflen == |data| && bufsent == 0
      ensures source == old(source)[|data|..] && taken == old(taken) + data
    {
      for k := 0 to |data|
        modifies buffer
        invariant forall m :: 0 <= m < k ==> buffer[m] == data[m]
        invariant forall m :: k <= m < buffer.Length ==> buffer[m] == old(buffer[m])
      {
        buffer[k] := data[k];
      }
      assert buffer[..] == data + old(buffer[..])[|data|..];
      buflen, bufsent := |data|, 0;
      source, taken := source[|data|..], taken + data;
    }

    /** The callback's G_IO_IN | G_IO_HUP half. Returns whether to keep the source. */
    method OnReadable(c: Callback) returns (keepSource: bool)
      requires Possible(Value(), c) && c.Read()
      modifies this, buffer
      ensures Value() == OnRead(old(Value()), c)
      ensures keepSource == readArmed
    {
      keepSource := true;
      if c.ReadNormal? {
        FillBuffer(c.data);
        if inputOpen {
          writeArmed := true;
        }
        keepSource := false;
      } else if c.ReadEof? {
        outputOpen := false;
        if inputOpen {
          writeArmed := true;
        }
        keepSource := false;
      } else if c.ReadError? {
        if c.stops {
          StopSendingData();
        }
        keepSource := false;
      }
      if !keepSource {
        readArmed := false;
      }
    }

    /** Its G_IO_OUT half. */
    method OnWritable(c: Callback)
      requires Possible(Value(), c) && c.Write()
      modifies this
      ensures Value() == OnWrite(old(Value()), c)
    {
      if buflen - bufsent == 0 {
        inputOpen, writeArmed, ended := false, false, true;
        return;
      }
      if c.WriteError? {
        if c.stops {
          StopSendingData();
        }
        return;
      }
      if c.WriteEof? && c.stops {
        StopSendingData();
      }
      Wrote(c.wrote);
    }

    /** The end of that half: count what was written, and turn to reading when all is. */
    method Wrote(wrote: nat)
      requires Indexed(Value()) && wrote <= buflen - bufsent
      modifies this
      ensures Value() == Advance(old(Value()), wrote)
    {
      delivered := delivered + buffer[bufsent..bufsent + wrote];
      bufsent := bufsent + wrote;
      if buflen - bufsent == 0 {
        writeArmed := false;
        if outputOpen {
          readArmed := true;
        }
      }
    }
  }
}

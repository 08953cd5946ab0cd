/**
  The web console (internal/server/console.go): one goroutine pumps the PTY's output into a
  WebSocket, one pumps frames back, and the handler waits for the first of them to stop and
  then cleans up.  A run is any interleaving of their atomic steps, every read, write and
  send of which may fail.
 */
module Console {
  import opened Outcomes

  const BUFFER := 32 * 1024

  type Byte = x: int | 0 <= x < 256
  type Bytes = seq<Byte>
  type u16 = x: int | 0 <= x < 65536

  // ---------------------------------------------------------------- window sizes

  datatype Size = Size(cols: u16, rows: u16)

  /** clampUint16. */
  function Clamp(n: int, def: u16): u16 {
    if n < 1 then def else if n > 65535 then 65535 else n
  }

  /** ptySize: 80 by 24 unless the request says otherwise. */
  function PtySize(cols: Option<int>, rows: Option<int>): Size {
    Size(if cols.Some? then Clamp(cols.value, 80) else 80, if rows.Some? then Clamp(rows.value, 24) else 24)
  }

  /** What JSON decoding finds in a resize frame. */
  datatype ResizeFrame = ResizeFrame(kind: string, cols: u16, rows: u16)

  /** JSON decoding itself is any total function. */
  type Decoder = Bytes -> Option<ResizeFrame>

  /** parseResize. */
  function ParseResize(decode: Decoder, data: Bytes): Option<Size> {
    match decode(data)
    case None => None
    case Some(f) => if f.kind != "resize" || f.cols == 0 || f.rows == 0 then None else Some(Size(f.cols, f.rows))
  }

  predicate Proper(size: Size) {
    1 <= size.cols && 1 <= size.rows
  }

  /**
    No window has a zero side; a request is met as closely as 16 bits allow, a missing or absurd
    one by default.  A frame asks for a size exactly when it decodes as a resize to that size
    and neither side is zero.
   */
  lemma SizesAreProper(decode: Decoder, data: Bytes, cols: Option<int>, rows: Option<int>)
    ensures Proper(PtySize(cols, rows))
    ensures forall size :: ParseResize(decode, data) == Some(size) <==>
      decode(data) == Some(ResizeFrame("resize", size.cols, size.rows)) && size.cols > 0 && size.rows > 0
    ensures var got := PtySize(cols, rows);
      && (cols.Some? && cols.value >= 1 ==> got.cols <= cols.value && (got.cols == cols.value || got.cols == 65535))
      && (rows.Some? && rows.value >= 1 ==> got.rows <= rows.value && (got.rows == rows.value || got.rows == 65535))
      && (cols.None? || cols.value < 1 ==> got.cols == 80) && (rows.None? || rows.value < 1 ==> got.rows == 24)
  {
  }

  // ---------------------------------------------------------------- states

  datatype Frame = Text(data: Bytes) | Binary(data: Bytes)

  /** Sending holds what was read; last says that the read also reported an error. */
  datatype OutPump = OutReading | Sending(data: Bytes, last: bool) | OutStopping | OutDone

  datatype InPump = InReading | Handling(frame: Frame) | InStopping | InDone

  /** The handler: waiting, then its deferred calls in order. */
  datatype Handler = Waiting | ClosingPty | Killing | Reaping | ClosingConn | Finished

  /** From the shell to the client. */
  datatype Downstream = Downstream(
    produced: Bytes,        // what the shell has written to the PTY
    taken: nat,             // how much of it was read
    sent: seq<Bytes>,       // binary frames delivered to the client
    dropped: Bytes)         // the frame whose delivery failed

  /** A frame, and whether the Setsize or Write that it led to succeeded. */
  datatype Handled = Handled(frame: Frame, took: bool)

  /** From the client to the shell. */
  datatype Upstream = Upstream(
    received: seq<Frame>,   // client frames, as they were read
    handled: seq<Handled>,  // client frames dealt with while the PTY was open
    typed: Bytes,           // what was written to the PTY
    short: Bytes,           // what got through of the write that failed
    size: Size)             // the window

  datatype State = State(
    outp: OutPump,
    inp: InPump,
    handler: Handler,
    process: bool,          // the command was started and can be killed
    killed: bool,
    reaped: bool,
    closes: nat,            // how often the done channel was closed
    once: bool,
    down: Downstream,
    up: Upstream)

  function Initial(process: bool, size: Size): State {
    State(OutReading, InReading, Waiting, process, false, false, 0, false,
          Downstream([], 0, [], []), Upstream([], [], [], [], size))
  }

  predicate PtyClosed(s: State) {
    s.handler in {Killing, Reaping, ClosingConn, Finished}
  }

  predicate ConnClosed(s: State) {
    s.handler == Finished
  }

  // ---------------------------------------------------------------- steps

  datatype Move =
    | Produce(data: Bytes)              // the shell writes
    | OutRead(n: nat, error: bool)      // Read returns n bytes and perhaps an error
    | OutSend(ok: bool)
    | OutStop
    | InRead(frame: Option<Frame>)      // None: ReadMessage fails
    | InHandle(n: nat, ok: bool)        // Setsize, or Write of n bytes
    | InStop
    | Wake | ClosePty | Kill | Reap | CloseConn

  predicate OutMove(m: Move) {
    m.OutRead? || m.OutSend? || m.OutStop?
  }

  predicate InMove(m: Move) {
    m.InRead? || m.InHandle? || m.InStop?
  }

  /** A text frame that resizes the window; everything else is input for the shell. */
  function Resizing(decode: Decoder, f: Frame): Option<Size> {
    if f.Text? then ParseResize(decode, f.data) else None
  }

  /** When a step can happen; a closed PTY or socket fails every operation on it. */
  predicate Enabled(decode: Decoder, s: State, m: Move) {
    match m
    case Produce(data) => true
    case OutRead(n, error) =>
      && s.outp.OutReading?
      && (if PtyClosed(s) then n == 0 && error
          else n <= BUFFER && s.down.taken + n <= |s.down.produced|)
    case OutSend(ok) => s.outp.Sending? && (ok ==> !ConnClosed(s))
    case OutStop => s.outp.OutStopping?
    case InRead(frame) => s.inp.InReading? && (frame.Some? ==> !ConnClosed(s))
    case InHandle(n, ok) =>
      && s.inp.Handling?
      && (Resizing(decode, s.inp.frame).None? ==>
          n <= |s.inp.frame.data| && (ok ==> n == |s.inp.frame.data|) && (PtyClosed(s) ==> !ok && n == 0))
    case InStop => s.inp.InStopping?
    case Wake => s.handler.Waiting? && s.closes > 0
    case ClosePty => s.handler.ClosingPty?
    case Kill => s.handler.Killing?
    case Reap => s.handler.Reaping?
    case CloseConn => s.handler.ClosingConn?
  }

  /** once.Do(close(done)). */
  function Stop(s: State): State {
    if s.once then s else s.(once := true, closes := s.closes + 1)
  }

  function Apply(decode: Decoder, s: State, m: Move): State
    requires Enabled(decode, s, m)
  {
    match m
    case Produce(data) => s.(down := s.down.(produced := s.down.produced + data))
    case OutRead(n, error) =>
      if n > 0 then
        var read := s.down.produced[s.down.taken..s.down.taken + n];
        s.(outp := Sending(read, error), down := s.down.(taken := s.down.taken + n))
      else if error then s.(outp := OutStopping)
      else s
    case OutSend(ok) =>
      if !ok then s.(outp := OutStopping, down := s.down.(dropped := s.outp.data))
      else s.(outp := if s.outp.last then OutStopping else OutReading,
              down := s.down.(sent := s.down.sent + [s.outp.data]))
    case OutStop => Stop(s.(outp := OutDone))
    case InRead(frame) =>
      if frame.None? then s.(inp := InStopping)
      else s.(inp := Handling(frame.value), up := s.up.(received := s.up.received + [frame.value]))
    case InHandle(n, ok) =>
      var f := s.inp.frame;
      var resize := Resizing(decode, f);
      if resize.Some? then
        if PtyClosed(s) then s.(inp := InReading)
        else
          var size := if ok then resize.value else s.up.size;
          s.(inp := InReading, up := s.up.(size := size, handled := s.up.handled + [Handled(f, ok)]))
      else if ok then
        s.(inp := InReading, up := s.up.(typed := s.up.typed + f.data, handled := s.up.handled + [Handled(f, true)]))
      else s.(inp := InStopping, up := s.up.(typed := s.up.typed + f.data[..n], short := f.data[..n]))
    case InStop => Stop(s.(inp := InDone))
    case Wake => s.(handler := ClosingPty)
    case ClosePty => s.(handler := if s.process then Killing else ClosingConn)
    case Kill => s.(handler := Reaping, killed := true)
    case Reap => s.(handler := ClosingConn, reaped := true)
    case CloseConn => s.(handler := Finished)
  }

  /** Every step of a run is enabled where it happens. */
  ghost predicate Possible(decode: Decoder, s: State, run: seq<Move>)
    decreases |run|
  {
    run != [] ==> Enabled(decode, s, run[0]) && Possible(decode, Apply(decode, s, run[0]), run[1..])
  }

  function After(decode: Decoder, s: State, run: seq<Move>): State
    requires Possible(decode, s, run)
    decreases |run|
  {
    if run == [] then s else After(decode, Apply(decode, s, run[0]), run[1..])
  }

  // ---------------------------------------------------------------- what the streams should be

  function Concat(frames: seq<Bytes>): Bytes {
    if frames == [] then [] else Concat(frames[..|frames| - 1]) + frames[|frames| - 1]
  }

  function FramesOf(handled: seq<Handled>): seq<Frame> {
    seq(|handled|, i requires 0 <= i < |handled| => handled[i].frame)
  }

  /** A text frame that decodes as a resize to a window with two sides. */
  predicate AsksSize(decode: Decoder, f: Frame) {
    f.Text? && match decode(f.data) {
      case None => false
      case Some(asked) => asked.kind == "resize" && asked.cols > 0 && asked.rows > 0
    }
  }

  /** The shell's input: all frames in order, except those that resize. */
  function Input(decode: Decoder, handled: seq<Handled>): Bytes {
    if handled == [] then [] else
    var f := handled[|handled| - 1].frame;
    Input(decode, handled[..|handled| - 1]) + if AsksSize(decode, f) then [] else f.data
  }

  /** The window: the last resize that Setsize carried out, else the initial size. */
  function Window(decode: Decoder, initial: Size, handled: seq<Handled>): Size {
    if handled == [] then initial else
    var last := handled[|handled| - 1];
    if AsksSize(decode, last.frame) && last.took then
      var asked := decode(last.frame.data).value;
      Size(cols := asked.cols, rows := asked.rows)
    else Window(decode, initial, handled[..|handled| - 1])
  }

  lemma ResizingIs(decode: Decoder, f: Frame)
    ensures Resizing(decode, f).Some? <==> AsksSize(decode, f)
    ensures AsksSize(decode, f) ==>
      var asked, size := decode(f.data).value, Resizing(decode, f).value;
      size.cols == asked.cols && size.rows == asked.rows
  {
  }

  lemma Appended<T>(s: seq<T>, x: T)
    ensures (s + [x])[..|s + [x]| - 1] == s && (s + [x])[|s + [x]| - 1] == x
  {
  }

  /** Read but not delivered yet, or never. */
  function Pending(s: State): Bytes {
    if s.outp.Sending? then s.outp.data else s.down.dropped
  }

  ghost predicate Output(s: State) {
    && s.down.taken <= |s.down.produced| && Concat(s.down.sent) + Pending(s) == s.down.produced[..s.down.taken]
    && (forall i :: 0 <= i < |s.down.sent| ==> 0 < |s.down.sent[i]| <= BUFFER)
    && (s.outp.Sending? ==> 0 < |s.outp.data| <= BUFFER)
    && (s.outp.OutReading? || s.outp.Sending? ==> s.down.dropped == [])
  }

  ghost predicate Typing(decode: Decoder, initial: Size, s: State) {
    && s.up.typed == Input(decode, s.up.handled) + s.up.short
    && s.up.size == Window(decode, initial, s.up.handled)
    && (s.inp.InReading? || s.inp.Handling? ==> s.up.short == [])
    && FramesOf(s.up.handled) <= s.up.received
    && (s.inp.InReading? && !PtyClosed(s) ==> s.up.received == FramesOf(s.up.handled))
    && (s.inp.Handling? && !PtyClosed(s) ==> s.up.received == FramesOf(s.up.handled) + [s.inp.frame])
  }

  ghost predicate Control(s: State) {
    && (s.once <==> s.closes == 1) && s.closes <= 1
    && (s.once <==> s.outp.OutDone? || s.inp.InDone?)
    && (!s.handler.Waiting? ==> s.once)
    && (s.handler in {Killing, Reaping} ==> s.process)
    && (s.killed <==> s.process && s.handler in {Reaping, ClosingConn, Finished})
    && (s.reaped <==> s.process && s.handler in {ClosingConn, Finished})
  }

  ghost predicate Inv(decode: Decoder, initial: Size, s: State) {
    Control(s) && Output(s) && Typing(decode, initial, s)
  }

  lemma ReadKeepsOutput(decode: Decoder, s: State, n: nat, error: bool)
    requires Enabled(decode, s, OutRead(n, error)) && Output(s)
    ensures Output(Apply(decode, s, OutRead(n, error)))
  {
    hide Resizing;
    if n > 0 {
      hide Concat;
      var all, taken := s.down.produced, s.down.taken;
      assert all[..taken + n] == all[..taken] + all[taken..taken + n];
      assert Concat(s.down.sent) + [] == Concat(s.down.sent);
    }
  }

  lemma SendKeepsOutput(decode: Decoder, s: State, ok: bool)
    requires Enabled(decode, s, OutSend(ok)) && Output(s)
    ensures Output(Apply(decode, s, OutSend(ok)))
  {
    var t := Apply(decode, s, OutSend(ok));
    if ok {
      ConcatMore(s.down.sent, s.outp.data);
      hide Concat, Resizing;
      assert t.down.sent == s.down.sent + [s.outp.data] && Pending(t) == [];
      assert Concat(t.down.sent) + [] == Concat(t.down.sent);
    } else {
      hide Concat, Resizing;
      assert t.down.sent == s.down.sent && Pending(t) == s.outp.data;
    }
  }

  lemma ConcatMore(frames: seq<Bytes>, data: Bytes)
    ensures Concat(frames + [data]) == Concat(frames) + data
  {
    Appended(frames, data);
  }

  lemma StepKeepsOutput(decode: Decoder, s: State, m: Move)
    requires Enabled(decode, s, m) && Output(s)
    ensures Output(Apply(decode, s, m))
  {
    match m
    case Produce(data) =>
      hide Concat;
      assert (s.down.produced + data)[..s.down.taken] == s.down.produced[..s.down.taken];
    case OutRead(n, error) =>
      ReadKeepsOutput(decode, s, n, error);
    case OutSend(ok) =>
      SendKeepsOutput(decode, s, ok);
    case OutStop =>
      hide Concat;
    case _ =>
      hide Concat, Resizing, Output;
      SameOutput(s, Apply(decode, s, m));
  }

  lemma SameOutput(s: State, t: State)
    requires Output(s) && s.outp == t.outp && s.down == t.down
    ensures Output(t)
  {
  }

  lemma ResizeKeepsTyping(decode: Decoder, initial: Size, s: State, n: nat, ok: bool)
    requires Enabled(decode, s, InHandle(n, ok)) && Typing(decode, initial, s)
    requires Resizing(decode, s.inp.frame).Some?
    ensures Typing(decode, initial, Apply(decode, s, InHandle(n, ok)))
  {
    InputMore(decode, initial, s.up.handled, Handled(s.inp.frame, ok));
    hide Input, Window, Resizing, FramesOf;
    assert Input(decode, s.up.handled) + [] == Input(decode, s.up.handled);
  }

  lemma WriteKeepsTyping(decode: Decoder, initial: Size, s: State, n: nat, ok: bool)
    requires Enabled(decode, s, InHandle(n, ok)) && Typing(decode, initial, s)
    requires Resizing(decode, s.inp.frame).None?
    ensures Typing(decode, initial, Apply(decode, s, InHandle(n, ok)))
  {
    InputMore(decode, initial, s.up.handled, Handled(s.inp.frame, true));
    hide Input, Window, Resizing, FramesOf;
    var before := Input(decode, s.up.handled);
    assert before + [] == before;
    if ok {
      assert before + s.inp.frame.data + [] == before + s.inp.frame.data;
    }
  }

  lemma InputMore(decode: Decoder, initial: Size, handled: seq<Handled>, h: Handled)
    ensures FramesOf(handled + [h]) == FramesOf(handled) + [h.frame]
    ensures Input(decode, handled + [h]) ==
      Input(decode, handled) + if Resizing(decode, h.frame).Some? then [] else h.frame.data
    ensures Window(decode, initial, handled + [h]) ==
      if Resizing(decode, h.frame).Some? && h.took then Resizing(decode, h.frame).value
      else Window(decode, initial, handled)
  {
    ResizingIs(decode, h.frame);
    hide Resizing, AsksSize;
    Appended(handled, h);
  }

  lemma StepKeepsTyping(decode: Decoder, initial: Size, s: State, m: Move)
    requires Enabled(decode, s, m) && Typing(decode, initial, s)
    ensures Typing(decode, initial, Apply(decode, s, m))
  {
    hide Input, Window, Resizing, FramesOf;
    if m.InHandle? {
      if Resizing(decode, s.inp.frame).Some? {
        ResizeKeepsTyping(decode, initial, s, m.n, m.ok);
      } else {
        WriteKeepsTyping(decode, initial, s, m.n, m.ok);
      }
    }
  }

  lemma StepKeepsControl(decode: Decoder, s: State, m: Move)
    requires Enabled(decode, s, m) && Control(s)
    ensures Control(Apply(decode, s, m))
  {
    hide Resizing;
  }

  lemma {:induction false} RunKeepsInv(decode: Decoder, initial: Size, s: State, run: seq<Move>)
    requires Possible(decode, s, run) && Inv(decode, initial, s)
    ensures Inv(decode, initial, After(decode, s, run))
    decreases |run|
  {
    hide Control, Output, Typing, Enabled, Apply;
    if run != [] {
      StepKeepsControl(decode, s, run[0]);
      StepKeepsOutput(decode, s, run[0]);
      StepKeepsTyping(decode, initial, s, run[0]);
      RunKeepsInv(decode, initial, Apply(decode, s, run[0]), run[1..]);
    }
  }

  lemma StepKeepsProcess(decode: Decoder, s: State, m: Move)
    requires Enabled(decode, s, m)
    ensures Apply(decode, s, m).process == s.process
  {
    hide Resizing;
  }

  lemma {:induction false} SameProcess(decode: Decoder, s: State, run: seq<Move>)
    requires Possible(decode, s, run)
    ensures After(decode, s, run).process == s.process
    decreases |run|
  {
    hide Enabled, Apply;
    if run != [] {
      StepKeepsProcess(decode, s, run[0]);
      SameProcess(decode, Apply(decode, s, run[0]), run[1..]);
    }
  }

  // ---------------------------------------------------------------- the theorems

  /**
    Safety, under every interleaving and whatever fails: the channel is closed at most once,
    the handler starts to clean up only after a pump has stopped, and when it has finished the
    process, if there is one, was killed and then reaped, with the PTY closed before.
   */
  lemma ChannelClosedOnce(decode: Decoder, process: bool, initial: Size, run: seq<Move>)
    requires Possible(decode, Initial(process, initial), run)
    ensures var s := After(decode, Initial(process, initial), run);
      && s.closes <= 1
      && (!s.handler.Waiting? ==> s.outp.OutDone? || s.inp.InDone?)
      && (s.handler == Finished ==> s.killed == s.reaped == process)
      && (s.reaped ==> s.killed) && (s.killed ==> PtyClosed(s))
  {
    SameProcess(decode, Initial(process, initial), run);
    hide After, Possible;
    RunKeepsInv(decode, initial, Initial(process, initial), run);
  }

  /**
    Stream fidelity, under every interleaving: what the client got is a prefix of what the
    shell wrote, in non-empty frames of at most 32768 bytes, and all that was read unless a
    delivery failed; what the shell got is the client's non-resizing frames in order, and
    perhaps part of the one whose write failed; the window is the last resize carried out.
   */
  lemma StreamsAreFaithful(decode: Decoder, process: bool, initial: Size, run: seq<Move>)
    requires Possible(decode, Initial(process, initial), run)
    ensures var s := After(decode, Initial(process, initial), run);
      && Concat(s.down.sent) <= s.down.produced
      && (forall i :: 0 <= i < |s.down.sent| ==> 0 < |s.down.sent[i]| <= 32768)
      && s.down.taken <= |s.down.produced|
      && (!s.outp.Sending? && s.down.dropped == [] ==> Concat(s.down.sent) == s.down.produced[..s.down.taken])
      && s.up.typed == Input(decode, s.up.handled) + s.up.short
      && (s.inp.InReading? || s.inp.Handling? ==> s.up.short == [])
      && FramesOf(s.up.handled) <= s.up.received
      && (s.inp.InReading? && !PtyClosed(s) ==> FramesOf(s.up.handled) == s.up.received)
      && s.up.size == Window(decode, initial, s.up.handled)
  {
    hide After, Possible;
    RunKeepsInv(decode, initial, Initial(process, initial), run);
    var s := After(decode, Initial(process, initial), run);
    assert Concat(s.down.sent) == s.down.produced[..|Concat(s.down.sent)|];
  }

  /**
    What becomes of one frame, from the decoder alone.  A text frame that decodes as a resize
    with two sides types nothing and, if Setsize takes, makes the window that wide and that
    high; every other text frame (no JSON, another kind, a zero side) and every binary frame is
    typed, whole unless the write fails, and leaves the window.
   */
  lemma FrameIsHandled(decode: Decoder, s: State, n: nat, ok: bool, c: u16, r: u16)
    requires Enabled(decode, s, InHandle(n, ok))
    ensures var t, f := Apply(decode, s, InHandle(n, ok)), s.inp.frame;
      if f.Text? && decode(f.data) == Some(ResizeFrame("resize", c, r)) && c > 0 && r > 0 then
        && t.up.typed == s.up.typed && t.inp == InReading
        && (if ok && !PtyClosed(s) then t.up.size.cols == c && t.up.size.rows == r else t.up.size == s.up.size)
      else f.Binary? || decode(f.data).None? || decode(f.data).value.kind != "resize"
           || decode(f.data).value.cols == 0 || decode(f.data).value.rows == 0 ==>
        && t.up.size == s.up.size && n <= |f.data| && t.up.typed == s.up.typed + f.data[..n]
        && (ok ==> n == |f.data| && t.inp == InReading) && (!ok ==> t.inp == InStopping)
  {
  }

  /**
    An error ends its pump, and nothing else does: the output pump stops once a read has failed
    and what came with it is delivered, or once a delivery has failed; the input pump once a
    read or a write has failed, but not for a resize that Setsize refuses.
   */
  lemma ErrorsEndPumps(decode: Decoder, s: State, m: Move)
    requires Enabled(decode, s, m)
    ensures var t := Apply(decode, s, m);
      && (m.OutRead? ==>
           if m.n > 0 then t.outp.Sending? && |t.outp.data| == m.n && t.outp.last == m.error
           else t.outp == if m.error then OutStopping else OutReading)
      && (m.OutSend? ==> t.outp == if !m.ok || s.outp.last then OutStopping else OutReading)
      && (m.InRead? ==> if m.frame.None? then t.inp == InStopping else t.inp == Handling(m.frame.value))
      && (m.InHandle? ==> t.inp == if !m.ok && !AsksSize(decode, s.inp.frame) then InStopping else InReading)
      && (m.OutStop? ==> t.outp == OutDone && t.once) && (m.InStop? ==> t.inp == InDone && t.once)
      && (!OutMove(m) ==> t.outp == s.outp) && (!InMove(m) ==> t.inp == s.inp)
  {
    if m.InHandle? {
      ResizingIs(decode, s.inp.frame);
    }
  }

  /** Every window is proper if the first is. */
  lemma {:induction false} WindowsAreProper(decode: Decoder, initial: Size, handled: seq<Handled>)
    requires Proper(initial)
    ensures Proper(Window(decode, initial, handled))
  {
    if handled != [] {
      WindowsAreProper(decode, initial, handled[..|handled| - 1]);
    }
  }

  // ---------------------------------------------------------------- no pump outlives the console for long

  function OutRank(p: OutPump): nat {
    match p
    case OutReading => 2
    case Sending(_, _) => 2
    case OutStopping => 1
    case OutDone => 0
  }

  function InRank(p: InPump): nat {
    match p
    case Handling(_) => 3
    case InReading => 2
    case InStopping => 1
    case InDone => 0
  }

  function CountOut(run: seq<Move>): nat {
    if run == [] then 0 else (if OutMove(run[0]) then 1 else 0) + CountOut(run[1..])
  }

  function CountIn(run: seq<Move>): nat {
    if run == [] then 0 else (if InMove(run[0]) then 1 else 0) + CountIn(run[1..])
  }

  /** Once PTY and socket are closed, every own step brings a pump closer to its end. */
  lemma StepLowersRank(decode: Decoder, s: State, m: Move)
    requires Enabled(decode, s, m) && s.handler == Finished
    ensures var t := Apply(decode, s, m);
      && t.handler == Finished
      && OutRank(t.outp) == (if OutMove(m) then OutRank(s.outp) - 1 else OutRank(s.outp))
      && (if InMove(m) then InRank(t.inp) < InRank(s.inp) else InRank(t.inp) == InRank(s.inp))
  {
  }

  /** And a pump that has not ended can always take a step. */
  lemma PumpsAreNeverStuck(decode: Decoder, s: State)
    requires s.handler == Finished
    ensures s.outp != OutDone ==> exists m :: OutMove(m) && Enabled(decode, s, m)
    ensures s.inp != InDone ==> exists m :: InMove(m) && Enabled(decode, s, m)
  {
    match s.outp {
      case OutReading => assert OutMove(OutRead(0, true)) && Enabled(decode, s, OutRead(0, true));
      case Sending(_, _) => assert OutMove(OutSend(false)) && Enabled(decode, s, OutSend(false));
      case OutStopping => assert OutMove(OutStop) && Enabled(decode, s, OutStop);
      case OutDone =>
    }
    match s.inp {
      case InReading => assert InMove(InRead(None)) && Enabled(decode, s, InRead(None));
      case Handling(f) => assert InMove(InHandle(0, false)) && Enabled(decode, s, InHandle(0, false));
      case InStopping => assert InMove(InStop) && Enabled(decode, s, InStop);
      case InDone =>
    }
  }

  /**
    After the handler has returned, in every continuation, the output pump takes at most two
    more steps and the input pump at most three.
   */
  lemma {:induction false} PumpsExit(decode: Decoder, s: State, run: seq<Move>)
    requires s.handler == Finished && Possible(decode, s, run)
    ensures CountOut(run) <= OutRank(s.outp) <= 2 && CountIn(run) <= InRank(s.inp) <= 3
    ensures CountOut(run) == OutRank(s.outp) ==> After(decode, s, run).outp == OutDone
    decreases |run|
  {
    hide Enabled, Apply;
    if run != [] {
      StepLowersRank(decode, s, run[0]);
      PumpsExit(decode, Apply(decode, s, run[0]), run[1..]);
    }
  }

  /** The handler is never stuck either: once a pump has stopped it can go on until it has finished. */
  lemma HandlerIsNeverStuck(decode: Decoder, process: bool, initial: Size, run: seq<Move>)
    requires Possible(decode, Initial(process, initial), run)
    ensures var s := After(decode, Initial(process, initial), run);
      (s.outp.OutDone? || s.inp.InDone?) && s.handler != Finished ==>
        exists m: Move :: HandlerMove(m) && Enabled(decode, s, m)
  {
    hide After, Possible;
    RunKeepsInv(decode, initial, Initial(process, initial), run);
    var s := After(decode, Initial(process, initial), run);
    if s.once && s.handler != Finished {
      var m := match s.handler
        case Waiting => Wake
        case ClosingPty => ClosePty
        case Killing => Kill
        case Reaping => Reap
        case _ => CloseConn;
      assert Enabled(decode, s, m);
    }
  }

  predicate HandlerMove(m: Move) {
    m.Wake? || m.ClosePty? || m.Kill? || m.Reap? || m.CloseConn?
  }

  function HandlerRank(h: Handler): nat {
    match h
    case Waiting => 5
    case ClosingPty => 4
    case Killing => 3
    case Reaping => 2
    case ClosingConn => 1
    case Finished => 0
  }

  function CountHandler(run: seq<Move>): nat {
    if run == [] then 0 else (if HandlerMove(run[0]) then 1 else 0) + CountHandler(run[1..])
  }

  lemma HandlerAdvances(decode: Decoder, s: State, m: Move)
    requires Enabled(decode, s, m)
    ensures var t := Apply(decode, s, m);
      if HandlerMove(m) then HandlerRank(t.handler) < HandlerRank(s.handler) else t.handler == s.handler
  {
    hide Resizing;
  }

  /** The handler's own part is five steps at most, however the pumps behave. */
  lemma {:induction false} HandlerIsShort(decode: Decoder, s: State, run: seq<Move>)
    requires Possible(decode, s, run)
    ensures CountHandler(run) <= HandlerRank(s.handler) <= 5
    decreases |run|
  {
    hide Enabled, Apply;
    if run != [] {
      HandlerAdvances(decode, s, run[0]);
      HandlerIsShort(decode, Apply(decode, s, run[0]), run[1..]);
    }
  }
}

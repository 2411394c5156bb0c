/** The shared output buffer: a worker fills it, announces the size, and waits for an acknowledgement;
    a consumer copies it, byte by byte, while the worker may go on to run. */
module Handshake {
  import opened Common
  import opened Packing
  import opened Connection

  /** Where the worker is. `Filling(i)`: the first `i` pending bytes are in the buffer. */
  datatype Worker = Running | Filling(i: nat) | Awaiting

  /** Where the consumer is. `Copying(n, i)`: it has copied `i` of the `n` bytes announced. */
  datatype Consumer = Listening | Copying(n: nat, i: nat)

  /** What travels to the consumer. */
  datatype Word = FrameSize(n: nat) | EndSignal

  datatype State = State(
    worker: Worker,
    todo: seq<Bytes>,      // the messages not written yet
    out: Bytes,            // the pending bytes
    ended: nat,            // how often the end signal was sent
    buffer: seq<Byte>,     // the shared buffer
    wire: seq<Word>,       // sent to the consumer and not received
    acks: nat,             // sent to the worker and not received
    consumer: Consumer,
    sent: seq<Bytes>,      // the frames announced
    received: Bytes,       // everything the consumer has copied
    endsSeen: nat)

  /** A run with messages that fit into the buffer. */
  ghost predicate Initial(s: State, ms: seq<Bytes>) {
    && s.worker == Running && s.todo == ms && s.out == [] && s.ended == 0
    && s.wire == [] && s.acks == 0 && s.consumer == Listening && s.endsSeen == 0
    && s.sent == [] && s.received == []
    && (forall m :: m in ms ==> |m| <= |s.buffer|)
  }

  // ---------------------------------------------------------------------------------------------
  // Steps
  // ---------------------------------------------------------------------------------------------

  /** The next message fits and is added to the pending ones. */
  ghost predicate Write(s: State, s': State) {
    && s.worker == Running && s.ended == 0 && s.todo != [] && |s.out| + |s.todo[0]| <= |s.buffer|
    && s' == s.(out := s.out + s.todo[0], todo := s.todo[1..])
  }

  /** The next message does not fit, or there is none: the pending bytes go out. */
  ghost predicate StartFlush(s: State, s': State) {
    && s.worker == Running && s.ended == 0
    && (if s.todo == [] then s.out != [] else |s.out| + |s.todo[0]| > |s.buffer|)
    && s' == s.(worker := Filling(0))
  }

  ghost predicate FillByte(s: State, s': State) {
    && s.worker.Filling? && s.worker.i < |s.out| && s.worker.i < |s.buffer|
    && s' == s.(worker := Filling(s.worker.i + 1), buffer := s.buffer[s.worker.i := s.out[s.worker.i]])
  }

  ghost predicate SendSize(s: State, s': State) {
    && s.worker == Filling(|s.out|)
    && s' == s.(worker := Awaiting, wire := s.wire + [FrameSize(|s.out|)], sent := s.sent + [s.out], out := [])
  }

  ghost predicate ReceiveAck(s: State, s': State) {
    && s.worker == Awaiting && s.acks > 0
    && s' == s.(worker := Running, acks := s.acks - 1)
  }

  /** The end signal, which the run and then the environment send. */
  ghost predicate SendEnd(s: State, s': State) {
    && s.worker == Running && s.todo == [] && s.out == [] && s.ended < 2
    && s' == s.(wire := s.wire + [EndSignal], ended := s.ended + 1)
  }

  ghost predicate ReceiveSize(s: State, s': State) {
    && s.consumer == Listening && s.wire != [] && s.wire[0].FrameSize?
    && s' == s.(consumer := Copying(s.wire[0].n, 0), wire := s.wire[1..])
  }

  ghost predicate ReceiveEnd(s: State, s': State) {
    && s.consumer == Listening && s.wire != [] && s.wire[0].EndSignal?
    && s' == s.(wire := s.wire[1..], endsSeen := s.endsSeen + 1)
  }

  ghost predicate CopyByte(s: State, s': State) {
    && s.consumer.Copying? && s.consumer.i < s.consumer.n && s.consumer.i < |s.buffer|
    && s' == s.(consumer := Copying(s.consumer.n, s.consumer.i + 1), received := s.received + [s.buffer[s.consumer.i]])
  }

  ghost predicate SendAck(s: State, s': State) {
    && s.consumer.Copying? && s.consumer.i == s.consumer.n
    && s' == s.(consumer := Listening, acks := s.acks + 1)
  }

  ghost predicate WorkerStep(s: State, s': State) {
    Write(s, s') || StartFlush(s, s') || FillByte(s, s') || SendSize(s, s') || ReceiveAck(s, s') || SendEnd(s, s')
  }

  ghost predicate ConsumerStep(s: State, s': State) {
    ReceiveSize(s, s') || ReceiveEnd(s, s') || CopyByte(s, s') || SendAck(s, s')
  }

  ghost predicate Step(s: State, s': State) {
    WorkerStep(s, s') || ConsumerStep(s, s')
  }

  /** A run: any interleaving of the steps of both sides. */
  ghost predicate Run(states: seq<State>, ms: seq<Bytes>) {
    && states != [] && Initial(states[0], ms)
    && forall i :: 0 <= i < |states| - 1 ==> StepAt(states, i)
  }

  ghost predicate StepAt(states: seq<State>, i: nat)
    requires i + 1 < |states|
  {
    Step(states[i], states[i + 1])
  }

  // ---------------------------------------------------------------------------------------------
  // The invariant
  // ---------------------------------------------------------------------------------------------

  /** A frame is in the consumer's hands: its size was sent and it was not acknowledged. */
  ghost predicate InHand(s: State) {
    s.consumer.Copying? || exists w :: w in s.wire && w.FrameSize?
  }

  /** The bytes of the buffer that the consumer has still to copy. */
  ghost function ToCopy(s: State): Bytes {
    if s.consumer.Copying? && s.consumer.i <= s.consumer.n <= |s.buffer| then s.buffer[s.consumer.i..s.consumer.n]
    else if s.wire != [] && s.wire[0].FrameSize? && s.wire[0].n <= |s.buffer| then s.buffer[..s.wire[0].n]
    else []
  }

  ghost predicate Ends(ws: seq<Word>) {
    forall w :: w in ws ==> w == EndSignal
  }

  ghost predicate Inv(s: State, ms: seq<Bytes>) {
    InvBody(s, ms) == true
  }

  ghost predicate InvBody(s: State, ms: seq<Bytes>) {
    // nothing is lost: received, in the buffer, pending, and not written yet
    && s.received + ToCopy(s) + s.out + Join(s.todo) == Join(ms)
    && |s.out| <= |s.buffer| && (forall m :: m in s.todo ==> |m| <= |s.buffer|)
    && (match s.worker
        case Running => s.acks == 0 && s.consumer == Listening && Ends(s.wire)
        case Filling(i) =>
          && s.acks == 0 && s.consumer == Listening && s.wire == [] && s.ended == 0
          && 0 < |s.out| && i <= |s.out| && s.buffer[..i] == s.out[..i]
        case Awaiting =>
          && s.out == [] && s.ended == 0
          && match s.consumer
             case Copying(n, i) => s.wire == [] && s.acks == 0 && i <= n <= |s.buffer|
             case Listening =>
               || (s.acks == 1 && s.wire == [])
               || (s.acks == 0 && |s.wire| == 1 && s.wire[0].FrameSize? && 0 < s.wire[0].n <= |s.buffer|))
    && (s.ended > 0 ==> s.worker == Running && s.todo == [] && s.out == [])
    && s.ended <= 2
    && (s.worker == Running ==> s.endsSeen + |s.wire| == s.ended)
    && (s.ended == 0 ==> s.endsSeen == 0)
  }

  lemma InitialInv(s: State, ms: seq<Bytes>)
    requires Initial(s, ms)
    ensures Inv(s, ms)
  {
  }

  lemma WriteKeepsInv(s: State, s': State, ms: seq<Bytes>)
    requires Inv(s, ms) && Write(s, s')
    ensures Inv(s', ms)
  {
    assert s.wire == [];
    assert s.todo[0] in s.todo;
    Associate(s.out, s.todo[0], Join(s.todo[1..]));
    Associate(s.received + ToCopy(s), s.out, Join(s.todo));
    Associate(s.received + ToCopy(s), s'.out, Join(s'.todo));
  }

  lemma FillKeepsInv(s: State, s': State, ms: seq<Bytes>)
    requires Inv(s, ms) && (StartFlush(s, s') || FillByte(s, s') || SendSize(s, s'))
    ensures Inv(s', ms)
  {
    if StartFlush(s, s') {
      assert s.todo != [] ==> s.todo[0] in s.todo;
    } else if FillByte(s, s') {
    } else {
      assert ToCopy(s') == s.out;
      assert s.received + [] == s.received;
      assert s'.received + ToCopy(s') + [] == s.received + s.out;
    }
  }

  lemma CopyKeepsInv(s: State, s': State, ms: seq<Bytes>)
    requires Inv(s, ms) && CopyByte(s, s')
    ensures Inv(s', ms)
  {
    assert s.received + ToCopy(s) == s'.received + ToCopy(s');
  }

  lemma ReceiveSizeKeepsInv(s: State, s': State, ms: seq<Bytes>)
    requires Inv(s, ms) && ReceiveSize(s, s')
    ensures Inv(s', ms)
  {
    assert s.wire[0] in s.wire;
    assert ToCopy(s') == s.buffer[0..s.wire[0].n] == s.buffer[..s.wire[0].n] == ToCopy(s);
  }

  lemma AckKeepsInv(s: State, s': State, ms: seq<Bytes>)
    requires Inv(s, ms) && (SendAck(s, s') || ReceiveAck(s, s'))
    ensures Inv(s', ms)
  {
    assert ToCopy(s) == [] == ToCopy(s');
  }

  lemma EndKeepsInv(s: State, s': State, ms: seq<Bytes>)
    requires Inv(s, ms) && SendEnd(s, s')
    ensures Inv(s', ms)
  {
    assert ToCopy(s) == [] == ToCopy(s') by {
      assert s.wire != [] ==> s.wire[0] in s.wire;
    }
    assert s'.wire == s.wire + [EndSignal];
  }

  lemma ReceiveEndKeepsInv(s: State, s': State, ms: seq<Bytes>)
    requires Inv(s, ms) && ReceiveEnd(s, s')
    ensures Inv(s', ms)
  {
    assert s.wire[0] in s.wire;
    assert forall w :: w in s'.wire ==> w in s.wire;
    assert Ends(s'.wire);
    assert ToCopy(s) == [] == ToCopy(s') by {
      assert s'.wire != [] ==> s'.wire[0] in s'.wire;
    }
  }

  lemma StepKeepsInv(s: State, s': State, ms: seq<Bytes>)
    requires Inv(s, ms) && Step(s, s')
    ensures Inv(s', ms)
  {
    if Write(s, s') {
      WriteKeepsInv(s, s', ms);
    } else if StartFlush(s, s') || FillByte(s, s') || SendSize(s, s') {
      FillKeepsInv(s, s', ms);
    } else if CopyByte(s, s') {
      CopyKeepsInv(s, s', ms);
    } else if ReceiveSize(s, s') {
      ReceiveSizeKeepsInv(s, s', ms);
    } else if SendAck(s, s') || ReceiveAck(s, s') {
      AckKeepsInv(s, s', ms);
    } else if ReceiveEnd(s, s') {
      ReceiveEndKeepsInv(s, s', ms);
    } else {
      EndKeepsInv(s, s', ms);
    }
  }

  lemma {:induction false} RunKeepsInv(states: seq<State>, ms: seq<Bytes>, i: nat)
    requires Run(states, ms) && i < |states|
    ensures Inv(states[i], ms)
  {
    if i == 0 {
      InitialInv(states[0], ms);
    } else {
      RunKeepsInv(states, ms, i - 1);
      assert StepAt(states, i - 1);
      StepKeepsInv(states[i - 1], states[i], ms);
    }
  }

  // ---------------------------------------------------------------------------------------------
  // Safety
  // ---------------------------------------------------------------------------------------------

  lemma InvGivesPrefix(s: State, ms: seq<Bytes>)
    requires Inv(s, ms)
    ensures s.received <= Join(ms)
    ensures s.endsSeen > 0 ==> s.received == Join(ms)
  {
    Associate(s.received, ToCopy(s), s.out);
    Associate(s.received, ToCopy(s) + s.out, Join(s.todo));
    if s.endsSeen > 0 {
      assert s.wire != [] ==> s.wire[0] in s.wire;
      assert ToCopy(s) == [] && s.out == [] && s.todo == [];
      assert s.received + [] + [] + [] == s.received;
    }
  }

  /** MAIN: in every reachable state of every run, what the consumer has is a prefix of what was
      written; once it has seen an end signal it has everything. */
  lemma ReceivedIsPrefix(states: seq<State>, ms: seq<Bytes>, i: nat)
    requires Run(states, ms) && i < |states|
    ensures states[i].received <= Join(ms)
    ensures states[i].endsSeen > 0 ==> states[i].received == Join(ms)
  {
    RunKeepsInv(states, ms, i);
    InvGivesPrefix(states[i], ms);
  }

  /** MAIN: the buffer never changes between the announcement of a frame and the end of its copying. */
  lemma BufferIsStable(states: seq<State>, ms: seq<Bytes>, i: nat)
    requires Run(states, ms) && i + 1 < |states| && InHand(states[i])
    ensures states[i + 1].buffer == states[i].buffer
  {
    RunKeepsInv(states, ms, i);
    assert StepAt(states, i);
  }

  lemma {:induction false} EndsAccumulate(states: seq<State>, ms: seq<Bytes>, i: nat, j: nat)
    requires Run(states, ms) && i <= j < |states|
    ensures states[i].ended <= states[j].ended && states[i].endsSeen <= states[j].endsSeen
    decreases j - i
  {
    if i < j {
      assert StepAt(states, i);
      EndsAccumulate(states, ms, i + 1, j);
    }
  }

  /** MAIN: after the first end signal was sent no frame is announced, and nothing more is received once
      it has arrived. */
  lemma NothingAfterEnd(states: seq<State>, ms: seq<Bytes>, i: nat, j: nat)
    requires Run(states, ms) && i <= j < |states|
    ensures states[i].ended > 0 ==> !InHand(states[j])
    ensures states[i].endsSeen > 0 ==> states[j].received == states[i].received
  {
    EndsAccumulate(states, ms, i, j);
    RunKeepsInv(states, ms, j);
    ReceivedIsPrefix(states, ms, i);
    ReceivedIsPrefix(states, ms, j);
  }

  // ---------------------------------------------------------------------------------------------
  // Framing
  // ---------------------------------------------------------------------------------------------

  /** The frames to come. */
  ghost function Coming(s: State): seq<Bytes> {
    if s.worker.Filling? then [s.out] + Packets([], s.todo, |s.buffer|) else Packets(s.out, s.todo, |s.buffer|)
  }

  ghost predicate Framing(s: State, ms: seq<Bytes>) {
    (s.sent + Coming(s) == Packets([], ms, |s.buffer|)) == true
  }

  lemma FlushKeepsFraming(s: State, s': State, ms: seq<Bytes>)
    requires Inv(s, ms) && Framing(s, ms) && StartFlush(s, s')
    ensures Framing(s', ms)
  {
    if s.todo == [] {
      assert Packets(s.out, s.todo, |s.buffer|) == [s.out];
      assert [s.out] + [] == [s.out];
    } else {
      assert s.todo[0] in s.todo && [] + s.todo[0] == s.todo[0];
      assert Packets([], s.todo, |s.buffer|) == Packets(s.todo[0], s.todo[1..], |s.buffer|);
    }
    assert Coming(s') == Coming(s);
  }

  lemma SizeKeepsFraming(s: State, s': State, ms: seq<Bytes>)
    requires Framing(s, ms) && SendSize(s, s')
    ensures Framing(s', ms)
  {
    Shift(s.sent, s.out, Packets([], s.todo, |s.buffer|));
  }

  lemma WriteKeepsFraming(s: State, s': State, ms: seq<Bytes>)
    requires Framing(s, ms) && Write(s, s')
    ensures Framing(s', ms)
  {
    assert Coming(s') == Coming(s);
  }

  /** Steps that leave the frames to come alone. */
  lemma OtherwiseFraming(s: State, s': State, ms: seq<Bytes>)
    requires Framing(s, ms) && Step(s, s') && !Write(s, s') && !StartFlush(s, s') && !SendSize(s, s')
    ensures Framing(s', ms)
  {
    assert s'.sent == s.sent && s'.out == s.out && s'.todo == s.todo && |s'.buffer| == |s.buffer|;
    assert s'.worker.Filling? == s.worker.Filling?;
  }

  lemma StepKeepsFraming(s: State, s': State, ms: seq<Bytes>)
    requires Inv(s, ms) && Framing(s, ms) && Step(s, s')
    ensures Framing(s', ms)
  {
    if Write(s, s') {
      WriteKeepsFraming(s, s', ms);
    } else if StartFlush(s, s') {
      FlushKeepsFraming(s, s', ms);
    } else if SendSize(s, s') {
      SizeKeepsFraming(s, s', ms);
    } else {
      OtherwiseFraming(s, s', ms);
    }
  }

  lemma InitialFraming(s: State, ms: seq<Bytes>)
    requires Initial(s, ms)
    ensures Framing(s, ms)
  {
    assert [] + Packets([], ms, |s.buffer|) == Packets([], ms, |s.buffer|);
  }

  lemma FramingNext(states: seq<State>, ms: seq<Bytes>, i: nat, s: State, s': State)
    requires Run(states, ms) && 0 < i < |states| && s == states[i - 1] && s' == states[i] && Framing(s, ms)
    ensures Framing(s', ms)
  {
    RunKeepsInv(states, ms, i - 1);
    assert StepAt(states, i - 1);
    StepKeepsFraming(s, s', ms);
  }

  lemma {:induction false} RunKeepsFraming(states: seq<State>, ms: seq<Bytes>, i: nat, s: State)
    requires Run(states, ms) && i < |states| && s == states[i]
    ensures Framing(s, ms)
  {
    if i == 0 {
      InitialFraming(s, ms);
    } else {
      RunKeepsFraming(states, ms, i - 1, states[i - 1]);
      FramingNext(states, ms, i, states[i - 1], s);
    }
  }

  /** MAIN: under every interleaving the frames announced are, byte for byte, the first frames that the
      buffered writer sends for these messages, and all of them once an end signal was sent. */
  lemma FramesAreTheWriters(states: seq<State>, ms: seq<Bytes>, i: nat)
    requires Run(states, ms) && i < |states|
    ensures var frames := Packets([], ms, |states[i].buffer|);
            states[i].sent <= frames && (states[i].ended > 0 ==> states[i].sent == frames)
  {
    RunKeepsFraming(states, ms, i, states[i]);
    RunKeepsInv(states, ms, i);
    if states[i].ended > 0 {
      assert states[i].sent + [] == states[i].sent;
    }
  }

  // ---------------------------------------------------------------------------------------------
  // Progress
  // ---------------------------------------------------------------------------------------------

  ghost predicate Done(s: State) {
    s.todo == [] && s.out == [] && s.ended == 2 && s.endsSeen == 2
  }

  /** An upper bound on the number of steps that can follow. */
  ghost function Work(s: State): int {
    |s.todo| + 10 * |Join(s.todo)| + 2 * (2 - s.ended)
    + (match s.worker
       case Running => 10 * |s.out| + |s.wire|
       case Filling(i) => 10 * |s.out| - 1 - i
       case Awaiting =>
         match s.consumer
         case Copying(n, i) => 3 + n - i
         case Listening =>
           if s.acks > 0 then 1 else if s.wire != [] && s.wire[0].FrameSize? then 4 + s.wire[0].n else 0)
  }

  lemma WorkIsNatural(s: State, ms: seq<Bytes>)
    requires Inv(s, ms)
    ensures Work(s) >= 0
  {
  }

  lemma WriteDecreasesWork(s: State, s': State)
    requires Write(s, s')
    ensures Work(s') < Work(s)
  {
  }

  lemma WorkerStepDecreasesWork(s: State, s': State, ms: seq<Bytes>)
    requires Inv(s, ms) && WorkerStep(s, s') && !Write(s, s')
    ensures Work(s') < Work(s)
  {
  }

  lemma ConsumerStepDecreasesWork(s: State, s': State, ms: seq<Bytes>)
    requires Inv(s, ms) && ConsumerStep(s, s')
    ensures Work(s') < Work(s)
  {
  }

  /** Each step uses up work, and some work is left for it. */
  lemma StepDecreasesWork(s: State, s': State, ms: seq<Bytes>)
    requires Inv(s, ms) && Step(s, s')
    ensures Work(s') < Work(s)
  {
    if Write(s, s') {
      WriteDecreasesWork(s, s');
    } else if WorkerStep(s, s') {
      WorkerStepDecreasesWork(s, s', ms);
    } else {
      ConsumerStepDecreasesWork(s, s', ms);
    }
  }

  lemma InitialWork(s: State, ms: seq<Bytes>)
    requires Initial(s, ms)
    ensures Work(s) == |ms| + 10 * |Join(ms)| + 4
  {
  }

  lemma WorkDecreasesAt(states: seq<State>, ms: seq<Bytes>, i: nat)
    requires Run(states, ms) && i + 1 < |states|
    ensures Work(states[i + 1]) < Work(states[i])
  {
    RunKeepsInv(states, ms, i);
    assert StepAt(states, i);
    StepDecreasesWork(states[i], states[i + 1], ms);
  }

  lemma {:induction false} StepsSoFar(states: seq<State>, ms: seq<Bytes>, i: nat)
    requires Run(states, ms) && i < |states|
    ensures i + Work(states[i]) <= |ms| + 10 * |Join(ms)| + 4
  {
    if i == 0 {
      InitialWork(states[0], ms);
    } else {
      StepsSoFar(states, ms, i - 1);
      WorkDecreasesAt(states, ms, i - 1);
    }
  }

  /** MAIN: every run is finite; its length is bounded by the amount of data. */
  lemma RunsAreFinite(states: seq<State>, ms: seq<Bytes>)
    requires Run(states, ms)
    ensures |states| <= |ms| + 10 * |Join(ms)| + 5
  {
    StepsSoFar(states, ms, |states| - 1);
    RunKeepsInv(states, ms, |states| - 1);
    WorkIsNatural(states[|states| - 1], ms);
  }

  lemma RunningCanStep(s: State, ms: seq<Bytes>) returns (s': State)
    requires Inv(s, ms) && s.worker == Running && s.ended < 2
    ensures Write(s, s') || StartFlush(s, s') || SendEnd(s, s')
  {
    if s.todo != [] && |s.out| + |s.todo[0]| <= |s.buffer| {
      s' := s.(out := s.out + s.todo[0], todo := s.todo[1..]);
    } else if s.todo != [] || s.out != [] {
      s' := s.(worker := Filling(0));
    } else {
      s' := s.(wire := s.wire + [EndSignal], ended := s.ended + 1);
    }
  }

  lemma FillingCanStep(s: State, ms: seq<Bytes>) returns (s': State)
    requires Inv(s, ms) && s.worker.Filling?
    ensures FillByte(s, s') || SendSize(s, s')
  {
    var i := s.worker.i;
    if i < |s.out| {
      s' := s.(worker := Filling(i + 1), buffer := s.buffer[i := s.out[i]]);
    } else {
      s' := s.(worker := Awaiting, wire := s.wire + [FrameSize(|s.out|)], sent := s.sent + [s.out], out := []);
    }
  }

  lemma WorkerCanStep(s: State, ms: seq<Bytes>) returns (s': State)
    requires Inv(s, ms) && s.worker != Awaiting && (s.worker == Running ==> s.ended < 2)
    ensures WorkerStep(s, s')
  {
    if s.worker == Running {
      s' := RunningCanStep(s, ms);
    } else {
      s' := FillingCanStep(s, ms);
    }
  }

  lemma ConsumerCanStep(s: State, ms: seq<Bytes>)
    requires Inv(s, ms) && (s.consumer.Copying? || s.wire != [])
    ensures exists s' :: ConsumerStep(s, s')
  {
    match s.consumer
    case Copying(n, i) =>
      if i < n {
        assert ConsumerStep(s, s.(consumer := Copying(n, i + 1), received := s.received + [s.buffer[i]]));
      } else {
        assert ConsumerStep(s, s.(consumer := Listening, acks := s.acks + 1));
      }
    case Listening =>
      if s.wire[0].FrameSize? {
        assert ConsumerStep(s, s.(consumer := Copying(s.wire[0].n, 0), wire := s.wire[1..]));
      } else {
        assert ConsumerStep(s, s.(wire := s.wire[1..], endsSeen := s.endsSeen + 1));
      }
  }

  /** MAIN: there is no deadlock: a reachable state that is not done has a step. */
  lemma NoDeadlock(s: State, ms: seq<Bytes>)
    requires Inv(s, ms) && !Done(s)
    ensures exists s' :: Step(s, s')
  {
    if s.consumer.Copying? || s.wire != [] {
      ConsumerCanStep(s, ms);
      var s' :| ConsumerStep(s, s');
      assert Step(s, s');
    } else if s.worker == Awaiting {
      assert WorkerStep(s, s.(worker := Running, acks := s.acks - 1));
      assert Step(s, s.(worker := Running, acks := s.acks - 1));
    } else {
      var s' := WorkerCanStep(s, ms);
      assert Step(s, s');
    }
  }

  ghost predicate Stuck(s: State) {
    forall s' :: !Step(s, s')
  }

  /** MAIN: a run that cannot be continued has delivered everything and both end signals. As runs are
      bounded, every run reaches such an end. */
  lemma CompleteRunDelivers(states: seq<State>, ms: seq<Bytes>)
    requires Run(states, ms) && Stuck(states[|states| - 1])
    ensures states[|states| - 1].received == Join(ms) && states[|states| - 1].endsSeen == 2
  {
    RunKeepsInv(states, ms, |states| - 1);
    StuckHasDelivered(states[|states| - 1], ms);
  }

  lemma StuckHasDelivered(s: State, ms: seq<Bytes>)
    requires Inv(s, ms) && Stuck(s)
    ensures s.received == Join(ms) && s.endsSeen == 2
  {
    if !Done(s) {
      NoDeadlock(s, ms);
    }
    InvGivesPrefix(s, ms);
  }
}

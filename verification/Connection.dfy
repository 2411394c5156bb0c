/** Sending records through a shared buffer: batching messages into frames, and the control words. */
module Connection {
  import opened Common
  import opened Packing

  type Bytes = seq<Byte>

  function Join(ms: seq<Bytes>): Bytes {
    if ms == [] then [] else ms[0] + Join(ms[1..])
  }

  lemma {:induction false} JoinConcat(a: seq<Bytes>, b: seq<Bytes>)
    ensures Join(a + b) == Join(a) + Join(b)
  {
    if a == [] {
      assert a + b == b;
    } else {
      JoinConcat(a[1..], b);
      assert (a + b)[1..] == a[1..] + b;
      Associate(a[0], Join(a[1..]), Join(b));
    }
  }

  lemma JoinOne(ms: seq<Bytes>, m: Bytes)
    ensures Join(ms + [m]) == Join(ms) + m
  {
    JoinConcat(ms, [m]);
    assert Join([m]) == m + Join([]);
  }

  // ---------------------------------------------------------------------------------------------
  // Frames
  // ---------------------------------------------------------------------------------------------

  /** The messages of all frames, in order. */
  function Messages(frames: seq<seq<Bytes>>): seq<Bytes> {
    if frames == [] then [] else frames[0] + Messages(frames[1..])
  }

  lemma {:induction false} MessagesOne(frames: seq<seq<Bytes>>, frame: seq<Bytes>)
    ensures Messages(frames + [frame]) == Messages(frames) + frame
  {
    if frames == [] {
      assert frames + [frame] == [frame];
      assert Messages([frame]) == frame + Messages([]);
    } else {
      MessagesOne(frames[1..], frame);
      assert (frames + [frame])[1..] == frames[1..] + [frame];
    }
  }

  function Size(frame: seq<Bytes>): nat {
    |Join(frame)|
  }

  /** No frame is empty or larger than the buffer. */
  ghost predicate Bounded(frames: seq<seq<Bytes>>, capacity: nat) {
    forall i :: 0 <= i < |frames| ==> 1 <= Size(frames[i]) <= capacity
  }

  /** A frame is only closed because the next message does not fit, so neighbours exceed the buffer. */
  ghost predicate Packed(frames: seq<seq<Bytes>>, capacity: nat) {
    forall i :: 0 <= i < |frames| - 1 ==> Size(frames[i]) + Size(frames[i + 1]) > capacity
  }

  function TotalSize(frames: seq<seq<Bytes>>): nat {
    if frames == [] then 0 else TotalSize(frames[..|frames| - 1]) + Size(frames[|frames| - 1])
  }

  /** MAIN: k frames with T bytes in all satisfy (k - 1) * capacity < 2 * T. */
  lemma {:induction false} FewFrames(frames: seq<seq<Bytes>>, capacity: nat)
    requires Bounded(frames, capacity) && Packed(frames, capacity) && frames != []
    ensures (|frames| - 1) * capacity + Size(frames[|frames| - 1]) <= 2 * TotalSize(frames) - Size(frames[0])
    ensures (|frames| - 1) * capacity < 2 * TotalSize(frames)
  {
    var k := |frames|;
    if k == 1 {
      assert TotalSize(frames) == TotalSize([]) + Size(frames[0]) by {
        assert frames[..0] == [];
      }
    } else {
      var shorter := frames[..k - 1];
      assert shorter[k - 2] == frames[k - 2] && shorter[0] == frames[0];
      FewFrames(shorter, capacity);
      assert Size(frames[k - 2]) + Size(frames[k - 2 + 1]) > capacity;
      OneMoreFrame(k - 2, capacity, Size(frames[k - 2]), Size(frames[k - 1]), TotalSize(shorter), Size(frames[0]));
    }
  }

  lemma OneMoreFrame(k: nat, capacity: nat, last: nat, next: nat, total: nat, first: nat)
    requires last + next > capacity && k * capacity + last <= 2 * total - first
    ensures (k + 1) * capacity + next <= 2 * (total + next) - first
  {
    assert (k + 1) * capacity == k * capacity + capacity;
  }

  lemma {:induction false} TotalIsLength(frames: seq<seq<Bytes>>)
    ensures TotalSize(frames) == |Join(Messages(frames))|
  {
    if frames != [] {
      var n := |frames| - 1;
      TotalIsLength(frames[..n]);
      assert frames == frames[..n] + [frames[n]];
      MessagesOne(frames[..n], frames[n]);
      JoinConcat(Messages(frames[..n]), frames[n]);
    }
  }

  /** What goes over the socket: the size of a frame in the buffer, or the end signal. */
  datatype Signal = Frame(messages: seq<Bytes>) | Finished

  function Frames(log: seq<Signal>): seq<seq<Bytes>> {
    if log == [] then []
    else if log[0].Frame? then [log[0].messages] + Frames(log[1..])
    else Frames(log[1..])
  }

  lemma {:induction false} FramesOne(log: seq<Signal>, s: Signal)
    ensures Frames(log + [s]) == Frames(log) + if s.Frame? then [s.messages] else []
  {
    if log == [] {
      assert log + [s] == [s];
      assert Frames([s][1..]) == [];
    } else {
      FramesOne(log[1..], s);
      assert (log + [s])[1..] == log[1..] + [s];
    }
  }

  /** The frames, byte for byte, that messages make up when `pending` is already waiting: a frame is closed
      only when the next message does not fit, or at the end. */
  function Packets(pending: Bytes, ms: seq<Bytes>, capacity: nat): seq<Bytes>
    decreases |ms|
  {
    if ms == [] then (if pending == [] then [] else [pending])
    else if |pending| + |ms[0]| > capacity then [pending] + Packets(ms[0], ms[1..], capacity)
    else Packets(pending + ms[0], ms[1..], capacity)
  }

  function Contents(frames: seq<seq<Bytes>>): seq<Bytes> {
    seq(|frames|, i requires 0 <= i < |frames| => Join(frames[i]))
  }

  /** The frames sent, and those that are to come, are those of the whole run. */
  ghost predicate SentSoFar(frames: seq<seq<Bytes>>, out: seq<Bytes>, todo: seq<Bytes>, ms: seq<Bytes>,
                            capacity: nat) {
    (Contents(frames) + Packets(Join(out), todo, capacity) == Packets([], ms, capacity)) == true
  }

  lemma NothingSent(ms: seq<Bytes>, capacity: nat)
    ensures SentSoFar([], [], ms, ms, capacity)
  {
    assert Contents([]) + Packets([], ms, capacity) == Packets([], ms, capacity);
  }

  /** One more message is written. */
  lemma OneSent(frames: seq<seq<Bytes>>, out: seq<Bytes>, todo: seq<Bytes>, ms: seq<Bytes>, capacity: nat)
    requires SentSoFar(frames, out, todo, ms, capacity) && todo != []
    ensures if Size(out) + |todo[0]| > capacity then SentSoFar(frames + [out], [todo[0]], todo[1..], ms, capacity)
            else SentSoFar(frames, out + [todo[0]], todo[1..], ms, capacity)
  {
    JoinOne(out, todo[0]);
    JoinOne([], todo[0]);
    assert [] + [todo[0]] == [todo[0]] && [] + todo[0] == todo[0];
    if Size(out) + |todo[0]| > capacity {
      assert Contents(frames + [out]) == Contents(frames) + [Join(out)];
      Associate(Contents(frames), [Join(out)], Packets(todo[0], todo[1..], capacity));
    }
  }

  /** The rest is sent. */
  lemma AllSent(frames: seq<seq<Bytes>>, out: seq<Bytes>, ms: seq<Bytes>, capacity: nat)
    requires SentSoFar(frames, out, [], ms, capacity)
    ensures Contents(if Size(out) == 0 then frames else frames + [out]) == Packets([], ms, capacity)
  {
    if Size(out) == 0 {
      assert Join(out) == [];
      assert Contents(frames) + [] == Contents(frames);
    } else {
      assert Contents(frames + [out]) == Contents(frames) + [Join(out)];
    }
  }

  // ---------------------------------------------------------------------------------------------
  // The sending side
  // ---------------------------------------------------------------------------------------------

  class BufferedWriter {
    const capacity: nat     // the size of the shared buffer
    var out: seq<Bytes>
    var outSize: nat
    var buffer: Bytes       // what the shared buffer holds
    var log: seq<Signal>    // what was sent

    constructor (capacity: nat)
      ensures this.capacity == capacity && Valid() && out == [] && log == []
    {
      this.capacity := capacity;
      out, outSize, buffer, log := [], 0, [], [];
    }

    /** The pending size is right and within the buffer, and the frames sent are bounded. */
    ghost predicate Valid()
      reads this
    {
      outSize == Size(out) <= capacity && Bounded(Frames(log), capacity)
    }

    /** The frames sent are packed, and the first of `pending` did not fit into the last of them. */
    ghost predicate PackedBefore(pending: seq<Bytes>)
      reads this
    {
      && Packed(Frames(log), capacity)
      && (Frames(log) != [] ==> pending != [] && Size(Last(Frames(log))) + |pending[0]| > capacity)
    }

    /** All messages accepted so far. */
    ghost function Accepted(): seq<Bytes>
      reads this
    {
      Messages(Frames(log)) + out
    }

    /** Sends the pending messages as one frame. The receiver's acknowledgement is awaited before this
        returns. */
    method WriteBuffer()
      requires Valid() && outSize > 0
      modifies this
      ensures Valid() && out == [] && outSize == 0
      ensures log == old(log) + [Frame(old(out))] && buffer == Join(old(out))
      ensures Accepted() == old(Accepted())
      ensures Frames(log) == old(Frames(log)) + [old(out)]
      ensures old(PackedBefore(out)) ==> Packed(Frames(log), capacity)
    {
      SizeOfFirst(out);
      FramesOne(log, Frame(out));
      MessagesOne(Frames(log), out);
      ghost var frames := Frames(log);
      assert forall i :: 0 <= i < |frames| ==> (frames + [out])[i] == frames[i];
      buffer := Join(out);
      log := log + [Frame(out)];
      out := [];
      outSize := 0;
    }

    /** Adds a message, which is refused if it is larger than the buffer. */
    method Write(msg: Bytes) returns (ok: bool)
      requires Valid()
      modifies this
      ensures Valid() && (ok <==> |msg| <= capacity)
      ensures !ok ==> log == old(log) && out == old(out)
      ensures ok ==> Accepted() == old(Accepted()) + [msg]
      ensures ok && old(outSize) + |msg| <= capacity ==> log == old(log) && out == old(out) + [msg]
      ensures ok && old(outSize) + |msg| > capacity ==> log == old(log) + [Frame(old(out))] && out == [msg]
      ensures ok && old(PackedBefore(out + [msg])) ==> PackedBefore(out)
      decreases outSize
    {
      if |msg| > capacity {
        return false;
      }
      var tmp := outSize + |msg|;
      if tmp > capacity {
        WriteBuffer();
        LastOf(old(Frames(log)), old(out));
        assert [] + [msg] == [msg];
        ok := Write(msg);
      } else {
        JoinOne(out, msg);
        Associate(Messages(Frames(log)), out, [msg]);
        out := out + [msg];
        outSize := tmp;
        return true;
      }
    }

    /** Sends what is pending and the end signal. */
    method SendEndSignal()
      requires Valid()
      modifies this
      ensures Valid() && outSize == 0
      ensures old(outSize) > 0 ==> log == old(log) + [Frame(old(out)), Finished]
      ensures old(outSize) > 0 ==> Frames(log) == old(Frames(log)) + [old(out)]
      ensures old(outSize) == 0 ==> log == old(log) + [Finished] && Frames(log) == old(Frames(log))
      ensures Join(Messages(Frames(log))) == Join(old(Accepted())) && Messages(Frames(log)) <= old(Accepted())
      ensures old(PackedBefore(out)) ==> Packed(Frames(log), capacity)
    {
      JoinConcat(Messages(Frames(log)), out);
      if outSize > 0 {
        WriteBuffer();
        assert Messages(Frames(log)) + [] == Messages(Frames(log));
      } else {
        assert Join(Messages(Frames(log))) + [] == Join(Messages(Frames(log)));
      }
      FramesOne(log, Finished);
      log := log + [Finished];
    }

    /** Only frames have been sent so far, for the first messages of `ms`. */
    ghost predicate Sending(ms: seq<Bytes>, i: nat)
      reads this
    {
      (&& i <= |ms| && Valid() && PackedBefore(out) && Accepted() == ms[..i] && |log| == |Frames(log)|
       && SentSoFar(Frames(log), out, ms[i..], ms, capacity)) == true
    }

    method WriteNext(ms: seq<Bytes>, i: nat)
      requires Sending(ms, i) && i < |ms| && |ms[i]| <= capacity
      modifies this
      ensures Sending(ms, i + 1)
    {
      FramesOne(log, Frame(out));
      assert out != [] ==> (out + [ms[i]])[0] == out[0];
      assert ms[..i + 1] == ms[..i] + [ms[i]];
      OneSent(Frames(log), out, ms[i..], ms, capacity);
      assert ms[i..][0] == ms[i] && ms[i..][1..] == ms[i + 1..];
      var _ := Write(ms[i]);
    }

    /** MAIN: a whole run, whose end signal is sent twice. All bytes are sent in order, no message is
        split, no frame is empty or too large, there are less than 2T / capacity + 1 frames for T bytes,
        and no frame follows the first end signal. */
    method SendAll(ms: seq<Bytes>)
      requires Valid() && log == [] && out == [] && forall m :: m in ms ==> |m| <= capacity
      modifies this
      ensures Valid() && Bounded(Frames(log), capacity)
      ensures Join(Messages(Frames(log))) == Join(ms)
      ensures Messages(Frames(log)) <= ms
      ensures Frames(log) != [] ==> (|Frames(log)| - 1) * capacity < 2 * |Join(ms)|
      ensures |log| == |Frames(log)| + 2 && log[|log| - 2..] == [Finished, Finished]
      ensures Contents(Frames(log)) == Packets([], ms, capacity)
    {
      var i := 0;
      NothingSent(ms, capacity);
      assert ms[0..] == ms;
      while i < |ms|
        invariant i <= |ms| && Sending(ms, i)
      {
        assert ms[i] in ms;
        WriteNext(ms, i);
        i := i + 1;
      }
      EndFirst(ms);
      EndAgain(ms, 1);
      FewFramesFor(Frames(log), capacity, ms);
    }

    /** Everything is sent, and `k` end signals after it. */
    ghost predicate Ended(ms: seq<Bytes>, k: nat)
      reads this
    {
      (&& Valid() && Packed(Frames(log), capacity) && outSize == 0
       && Join(Messages(Frames(log))) == Join(ms) && Messages(Frames(log)) <= ms
       && Contents(Frames(log)) == Packets([], ms, capacity)
       && |log| == |Frames(log)| + k && forall i :: |Frames(log)| <= i < |log| ==> log[i] == Finished) == true
    }

    method EndFirst(ms: seq<Bytes>)
      requires Sending(ms, |ms|)
      modifies this
      ensures Ended(ms, 1)
    {
      assert ms[..|ms|] == ms && ms[|ms|..] == [];
      AllSent(Frames(log), out, ms, capacity);
      SendEndSignal();
    }

    method EndAgain(ms: seq<Bytes>, k: nat)
      requires Ended(ms, k)
      modifies this
      ensures Ended(ms, k + 1)
    {
      SendEndSignal();
    }
  }

  lemma FewFramesFor(frames: seq<seq<Bytes>>, capacity: nat, ms: seq<Bytes>)
    requires Bounded(frames, capacity) && Packed(frames, capacity) && Join(Messages(frames)) == Join(ms)
    ensures frames != [] ==> (|frames| - 1) * capacity < 2 * |Join(ms)|
  {
    if frames != [] {
      FewFrames(frames, capacity);
      TotalIsLength(frames);
    }
  }

  function Last<T>(s: seq<T>): T
    requires s != []
  {
    s[|s| - 1]
  }

  lemma LastOf<T>(s: seq<T>, x: T)
    ensures Last(s + [x]) == x
  {
  }

  lemma SizeOfFirst(ms: seq<Bytes>)
    requires Size(ms) > 0
    ensures ms != [] && |ms[0]| <= Size(ms)
  {
  }

  // ---------------------------------------------------------------------------------------------
  // Control words
  // ---------------------------------------------------------------------------------------------

  const SIGNAL_REQUEST_BUFFER: Bytes := [0x00, 0x00, 0x00, 0x00]
  const SIGNAL_REQUEST_BUFFER_G0: Bytes := [0xFF, 0xFF, 0xFF, 0xFD]
  const SIGNAL_REQUEST_BUFFER_G1: Bytes := [0xFF, 0xFF, 0xFF, 0xFC]
  const SIGNAL_FINISHED: Bytes := [0xFF, 0xFF, 0xFF, 0xFF]

  /** With a buffer below 2^31 bytes, the size word of a frame is no control word, and the receiver
      reads the size back from it. */
  lemma SizeWordsAreDistinct(frames: seq<seq<Bytes>>, capacity: nat, i: nat)
    requires Bounded(frames, capacity) && i < |frames| && 2 * capacity < Power(4)
    ensures PackSigned(Size(frames[i]), 4).Some?
    ensures var word := PackSigned(Size(frames[i]), 4).value;
            && UnpackSigned(word) == Size(frames[i])
            && word != SIGNAL_REQUEST_BUFFER && word != SIGNAL_FINISHED
            && word != SIGNAL_REQUEST_BUFFER_G0 && word != SIGNAL_REQUEST_BUFFER_G1
  {
    SignedRoundTrip(Size(frames[i]), 4);
    PowerValues();
    ControlWords();
  }

  lemma ControlWords()
    ensures UnpackSigned(SIGNAL_REQUEST_BUFFER) == 0 && UnpackSigned(SIGNAL_FINISHED) == -1
    ensures UnpackSigned(SIGNAL_REQUEST_BUFFER_G0) == -3 && UnpackSigned(SIGNAL_REQUEST_BUFFER_G1) == -4
  {
    PowerValues();
    MostSignificantFirst(0, 0, 0, 0);
    MostSignificantFirst(0xFF, 0xFF, 0xFF, 0xFF);
    MostSignificantFirst(0xFF, 0xFF, 0xFF, 0xFD);
    MostSignificantFirst(0xFF, 0xFF, 0xFF, 0xFC);
  }

  // ---------------------------------------------------------------------------------------------
  // Receiving
  // ---------------------------------------------------------------------------------------------

  /** A socket with bytes to be received. */
  class Socket {
    var incoming: Bytes

    constructor (incoming: Bytes)
      ensures this.incoming == incoming
    {
      this.incoming := incoming;
    }

    /** Takes between one byte and `n` bytes, as many as happen to be there. */
    method Recv(n: nat) returns (bs: Bytes)
      requires n <= |incoming|
      modifies this
      ensures |bs| <= n && (n > 0 ==> bs != []) && old(incoming) == bs + incoming
    {
      var arrived: nat := *;
      var k := if n == 0 || 1 <= arrived <= n then if n == 0 then 0 else arrived else n;
      bs := incoming[..k];
      incoming := incoming[k..];
    }

    /** MAIN: however the bytes arrive, exactly the next `n` bytes are returned and no more are taken. */
    method RecvAll(n: nat) returns (bs: Bytes)
      requires n <= |incoming|
      modifies this
      ensures |bs| == n && old(incoming) == bs + incoming
    {
      var initial := Recv(n);
      if |initial| == n {
        return initial;
      }
      var bits := [initial];
      assert Join(bits) == initial + Join([]) == initial;
      var toread := n - |initial|;
      while toread > 0
        invariant |Join(bits)| + toread == n && 0 <= toread <= |incoming|
        invariant old(incoming) == Join(bits) + incoming
      {
        ghost var before := Join(bits);
        var bit := Recv(toread);
        JoinOne(bits, bit);
        bits := bits + [bit];
        Associate(before, bit, incoming);
        toread := toread - |bit|;
      }
      return Join(bits);
    }
  }
}

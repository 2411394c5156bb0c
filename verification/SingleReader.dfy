/** Reading a single input through the shared buffer; unlike the reader of two groups, it notices a read
    past the end of the buffer. */
module SingleReader {
  import opened Common
  import opened Packing
  import opened Connection
  import opened TwinReader

  class BufferReader {
    const peer: Peer
    var input: Bytes
    var inputOffset: nat
    var inputSize: nat
    var wasLast: bool

    constructor (peer: Peer)
      requires |peer.queues| > 0 && peer.queues[0] != [] && NoneEmpty(peer.queues[0])
      ensures this.peer == peer && Valid() && Remaining() == peer.queues[0]
    {
      this.peer := peer;
      input, inputOffset, inputSize, wasLast := [], 0, 0, false;
    }

    ghost predicate Valid()
      reads this, peer
    {
      && |peer.queues| > 0 && NoneEmpty(peer.queues[0])
      && inputOffset <= inputSize == |input| && (wasLast <==> peer.queues[0] == [])
    }

    /** The unread buffers; the first one may have been read in part. */
    ghost function Remaining(): seq<Bytes>
      requires Valid()
      reads this, peer
    {
      (if inputOffset < inputSize then [input[inputOffset..]] else []) + peer.queues[0]
    }

    method HasNext() returns (r: bool)
      requires Valid()
      ensures r <==> Remaining() != []
    {
      r := !wasLast || inputSize != inputOffset;
    }

    method ReadBuffer()
      requires Valid() && inputOffset == inputSize && peer.queues[0] != []
      modifies this, peer
      ensures Valid() && inputOffset < inputSize && Remaining() == old(Remaining())
    {
      NoneEmptyTail(peer.queues[0]);
      inputOffset := 0;
      inputSize, wasLast := peer.Refill(0);
      input := peer.file[..inputSize];
      assert input[0..] == input;
    }

    /** MAIN: a read returns the next bytes of the stream if and only if they all lie in the buffer at
        which the reader stands, and is an error otherwise. */
    method Read(n: nat) returns (r: Option<Bytes>)
      requires Valid() && n > 0 && Remaining() != []
      modifies this, peer
      ensures r.Some? <==> n <= |old(Remaining())[0]|
      ensures r.Some? ==> r.value == old(Remaining())[0][..n]
      ensures r.Some? ==> Valid() && Remaining() == Advance(old(Remaining()), n)
    {
      if inputSize == inputOffset {
        ReadBuffer();
      }
      ghost var before := Remaining();
      var oldOffset := inputOffset;
      inputOffset := inputOffset + n;
      if inputOffset > inputSize {
        return None;
      }
      assert n < |before[0]| ==> before[0][n..] == input[oldOffset + n..];
      return Some(input[oldOffset..inputOffset]);
    }
  }
}

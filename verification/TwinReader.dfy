/** Reading two input groups that share one buffer. */
module TwinReader {
  import opened Common
  import opened Packing
  import opened Connection

  /** The sending side, as far as the reader sees it: two queues of buffers, one per group. On request it
      puts the next buffer of a group into the shared file and announces its size, and whether it is the
      last of the group. */
  class Peer {
    var queues: seq<seq<Bytes>>
    var file: Bytes

    constructor (group0: seq<Bytes>, group1: seq<Bytes>)
      ensures queues == [group0, group1]
    {
      queues, file := [group0, group1], [];
    }

    method Refill(group: nat) returns (size: nat, last: bool)
      requires group < |queues| && queues[group] != []
      modifies this
      ensures queues == old(queues)[group := old(queues)[group][1..]]
      ensures size == |old(queues)[group][0]| <= |file| && file[..size] == old(queues)[group][0]
      ensures last <==> queues[group] == []
    {
      var next := queues[group][0];
      size := |next|;
      file := next + if |next| < |file| then file[|next|..] else [];  // what was there before stays behind it
      queues := queues[group := queues[group][1..]];
      last := queues[group] == [];
    }
  }

  /** Taking `n` bytes off the first of some buffers. */
  function Advance(bufs: seq<Bytes>, n: nat): seq<Bytes>
    requires bufs != [] && n <= |bufs[0]|
  {
    if n == |bufs[0]| then bufs[1..] else [bufs[0][n..]] + bufs[1..]
  }

  lemma AdvanceTakes(bufs: seq<Bytes>, n: nat)
    requires bufs != [] && n <= |bufs[0]|
    ensures Join(bufs) == bufs[0][..n] + Join(Advance(bufs, n))
  {
    assert bufs[0] == bufs[0][..n] + bufs[0][n..];
    Associate(bufs[0][..n], bufs[0][n..], Join(bufs[1..]));
    if n < |bufs[0]| {
      assert Advance(bufs, n)[1..] == bufs[1..];
    } else {
      assert bufs[0][n..] + Join(bufs[1..]) == Join(bufs[1..]);
    }
  }

  ghost predicate NoneEmpty(bufs: seq<Bytes>) {
    forall b :: b in bufs ==> b != []
  }

  lemma NoneEmptyTail(bufs: seq<Bytes>)
    requires NoneEmpty(bufs) && bufs != []
    ensures bufs[0] != [] && NoneEmpty(bufs[1..])
  {
    assert bufs[0] in bufs;
    assert forall b :: b in bufs[1..] ==> b in bufs;
  }

  class Reader {
    const peer: Peer
    var input: seq<Bytes>
    var inputOffset: seq<nat>
    var inputSize: seq<nat>
    var wasLast: seq<bool>

    constructor (peer: Peer)
      requires |peer.queues| == 2 && peer.queues[0] != [] && peer.queues[1] != []
      requires NoneEmpty(peer.queues[0]) && NoneEmpty(peer.queues[1])
      ensures this.peer == peer && Valid() && Remaining(0) == peer.queues[0] && Remaining(1) == peer.queues[1]
    {
      this.peer := peer;
      input, inputOffset, inputSize, wasLast := [[], []], [0, 0], [0, 0], [false, false];
    }

    ghost predicate Valid()
      reads this, peer
    {
      && |peer.queues| == |input| == |inputOffset| == |inputSize| == |wasLast| == 2
      && GroupOk(0) && GroupOk(1)
    }

    ghost predicate GroupOk(group: nat)
      requires |peer.queues| == |input| == |inputOffset| == |inputSize| == |wasLast| == 2 && group < 2
      reads this, peer
    {
      && inputOffset[group] <= inputSize[group] == |input[group]|
      && (wasLast[group] <==> peer.queues[group] == [])
      && NoneEmpty(peer.queues[group])
    }

    /** The unread buffers of a group; the first one may have been read in part. */
    ghost function Remaining(group: nat): seq<Bytes>
      requires Valid() && group < 2
      reads this, peer
    {
      (if inputOffset[group] < inputSize[group] then [input[group][inputOffset[group]..]] else []) + peer.queues[group]
    }

    method HasNext(group: nat) returns (r: bool)
      requires Valid() && group < 2
      ensures r <==> Remaining(group) != []
    {
      r := !wasLast[group] || inputSize[group] != inputOffset[group];
    }

    method ReadBuffer(group: nat)
      requires Valid() && group < 2 && inputOffset[group] == inputSize[group] && peer.queues[group] != []
      modifies this, peer
      ensures Valid() && inputOffset[group] < inputSize[group]
      ensures Remaining(group) == old(Remaining(group)) && Remaining(1 - group) == old(Remaining(1 - group))
    {
      NoneEmptyTail(peer.queues[group]);
      inputOffset := inputOffset[group := 0];
      var size, last := peer.Refill(group);
      inputSize := inputSize[group := size];
      wasLast := wasLast[group := last];
      input := input[group := peer.file[..size]];
      assert input[group][0..] == input[group];
    }

    /** MAIN: a read returns the next bytes of its own group and leaves the other group alone, whatever
        was read before. A refill is requested only while the group has buffers left. Nothing guards the end of
        the buffer: a read returns the full count exactly if it stays inside it. */
    method Read(n: nat, group: nat) returns (bs: Bytes)
      requires Valid() && group < 2 && n > 0 && Remaining(group) != []
      modifies this, peer
      ensures |bs| == n <==> n <= |old(Remaining(group))[0]|
      ensures |bs| == n ==> bs == old(Remaining(group))[0][..n]
      ensures |bs| != n ==> bs == old(Remaining(group))[0]
      ensures |bs| == n ==> Valid() && Remaining(group) == Advance(old(Remaining(group)), n)
      ensures |bs| == n ==> Remaining(1 - group) == old(Remaining(1 - group))
    {
      if inputSize[group] == inputOffset[group] {
        ReadBuffer(group);
      }
      bs := Take(n, group);
    }

    method Take(n: nat, group: nat) returns (bs: Bytes)
      requires Valid() && group < 2 && n > 0 && inputOffset[group] < inputSize[group]
      modifies this`inputOffset
      ensures |bs| == n <==> n <= |old(Remaining(group))[0]|
      ensures |bs| == n ==> bs == old(Remaining(group))[0][..n]
      ensures |bs| != n ==> bs == old(Remaining(group))[0]
      ensures |bs| == n ==> Valid() && Remaining(group) == Advance(old(Remaining(group)), n)
      ensures |bs| == n ==> Remaining(1 - group) == old(Remaining(1 - group))
    {
      var oldOffset := inputOffset[group];
      ghost var before := Remaining(group);
      inputOffset := inputOffset[group := oldOffset + n];
      bs := Slice(input[group], oldOffset, oldOffset + n);
      assert n < |before[0]| ==> before[0][n..] == input[group][oldOffset + n..];
    }
  }

  /** A slice as in Python: cut off at the end. */
  function Slice(s: Bytes, from: nat, to: nat): Bytes
    requires from <= to && from <= |s|
  {
    if to <= |s| then s[from..to] else s[from..]
  }

  // ---------------------------------------------------------------------------------------------
  // Any interleaving
  // ---------------------------------------------------------------------------------------------

  /** A read of a number of bytes from a group. */
  datatype Request = Request(group: nat, n: nat)

  /** Every read is of at least one byte and stays inside the buffer at which its group stands. */
  ghost predicate Legal(bufs0: seq<Bytes>, bufs1: seq<Bytes>, rs: seq<Request>)
    decreases rs
  {
    rs != [] ==>
      && rs[0].group < 2 && rs[0].n > 0
      && var bufs := if rs[0].group == 0 then bufs0 else bufs1;
      && bufs != [] && rs[0].n <= |bufs[0]|
      && var next := Advance(bufs, rs[0].n);
      && (if rs[0].group == 0 then Legal(next, bufs1, rs[1..]) else Legal(bufs0, next, rs[1..]))
  }

  /** What was read of a stream, and the buffers that are left of it. */
  ghost predicate Streamed(read: Bytes, bufs: seq<Bytes>, all: Bytes) {
    (read + Join(bufs) == all) == true
  }

  lemma StreamedNext(read: Bytes, bufs: seq<Bytes>, n: nat, all: Bytes)
    requires Streamed(read, bufs, all) && bufs != [] && 0 < n <= |bufs[0]|
    ensures Streamed(read + bufs[0][..n], Advance(bufs, n), all)
  {
    AdvanceTakes(bufs, n);
    Associate(read, bufs[0][..n], Join(Advance(bufs, n)));
  }

  /** Where a run stands: what was read of either group, and the reads still to come. */
  ghost predicate Serving(reader: Reader, rs: seq<Request>, read0: Bytes, read1: Bytes, all0: Bytes, all1: Bytes)
    reads reader, reader.peer
  {
    (&& reader.Valid() && Legal(reader.Remaining(0), reader.Remaining(1), rs)
     && Streamed(read0, reader.Remaining(0), all0) && Streamed(read1, reader.Remaining(1), all1)) == true
  }

  method ServeOne(reader: Reader, rs: seq<Request>, read0: Bytes, read1: Bytes, ghost all0: Bytes, ghost all1: Bytes)
    returns (next0: Bytes, next1: Bytes)
    requires rs != [] && Serving(reader, rs, read0, read1, all0, all1)
    modifies reader, reader.peer
    ensures Serving(reader, rs[1..], next0, next1, all0, all1)
  {
    var r := rs[0];
    if r.group == 0 {
      StreamedNext(read0, reader.Remaining(0), r.n, all0);
      var bs := reader.Read(r.n, 0);
      next0, next1 := read0 + bs, read1;
    } else {
      StreamedNext(read1, reader.Remaining(1), r.n, all1);
      var bs := reader.Read(r.n, 1);
      next0, next1 := read0, read1 + bs;
    }
  }

  /** MAIN: for any interleaving of reads of both groups, the bytes returned for a group, followed by its
      unread buffers, are exactly the stream of the group. */
  method Serve(reader: Reader, rs: seq<Request>) returns (read0: Bytes, read1: Bytes)
    requires reader.Valid() && Legal(reader.Remaining(0), reader.Remaining(1), rs)
    modifies reader, reader.peer
    ensures reader.Valid()
    ensures read0 + Join(reader.Remaining(0)) == old(Join(reader.Remaining(0)))
    ensures read1 + Join(reader.Remaining(1)) == old(Join(reader.Remaining(1)))
  {
    read0, read1 := [], [];
    ghost var all0, all1 := Join(reader.Remaining(0)), Join(reader.Remaining(1));
    var i := 0;
    assert rs[0..] == rs;
    while i < |rs|
      invariant i <= |rs| && Serving(reader, rs[i..], read0, read1, all0, all1)
    {
      read0, read1 := ServeOne(reader, rs[i..], read0, read1, all0, all1);
      assert rs[i..][1..] == rs[i + 1..];
      i := i + 1;
    }
  }
}

// Pipes (kernel/pipe.c): the ring buffer, what the code inside the pipe lock
// does to it, and the counters' wrap-around.
module Pipe {
  const PIPESIZE: nat := 512
  const WRAP: nat := 0x1_0000_0000

  newtype byte = x: int | 0 <= x < 256

  datatype Outcome = Finished | Full | Refused

  // nread and nwrite are 32-bit unsigned; both sums below wrap.
  function Add(a: nat, b: nat): nat {
    (a + b) % WRAP
  }

  // The ring's slot for the k-th byte is the same whether k has wrapped or not.
  lemma {:induction false} SlotOf(k: nat)
    ensures (k % WRAP) % PIPESIZE == k % PIPESIZE
  {
    assert k == PIPESIZE * (8388608 * (k / WRAP) + k % WRAP / PIPESIZE) + k % WRAP % PIPESIZE;
  }

  // Within one buffer of each other, wrapped counters compare as the counts do.
  lemma {:induction false} Compare(r: nat, w: nat)
    requires r <= w <= r + PIPESIZE
    ensures r % WRAP == w % WRAP <==> r == w
    ensures w % WRAP == Add(r % WRAP, PIPESIZE) <==> w == r + PIPESIZE
    ensures Add(w % WRAP, 1) == (w + 1) % WRAP
  {
  }

  // Two pending bytes never share a slot.
  lemma {:induction false} Apart(j: nat, k: nat)
    requires j < k < j + PIPESIZE
    ensures j % PIPESIZE != k % PIPESIZE
  {
  }

  class Pipe {
    const data: array<byte>
    var nread: nat
    var nwrite: nat
    var readopen: bool
    var writeopen: bool

    // Every byte ever put in, and how many were taken out.
    ghost var inserted: seq<byte>
    ghost var removed: nat

    ghost predicate Valid()
      reads this, data
    {
      && data.Length == PIPESIZE
      && removed <= |inserted| <= removed + PIPESIZE
      && nread == removed % WRAP && nwrite == |inserted| % WRAP
      && forall k :: removed <= k < |inserted| ==> data[k % PIPESIZE] == inserted[k]
    }

    constructor ()
      ensures Valid() && fresh(data)
      ensures inserted == [] && removed == 0 && readopen && writeopen
    {
      data := new byte[PIPESIZE];
      nread, nwrite := 0, 0;
      readopen, writeopen := true, true;
      inserted, removed := [], 0;
    }

    // One stretch of pipewrite's loop under the lock, from byte i of the
    // caller's n bytes to the next sleep or the return. The process is killed
    // when it has reached byte killedAt, and copyin fails at byte bad.
    method WriteStretch(src: seq<byte>, i: nat, bad: nat, killedAt: nat) returns (next: nat, out: Outcome)
      requires Valid() && i <= |src|
      modifies this`nwrite, this`inserted, data
      ensures Valid()
      ensures i <= next <= |src| && inserted == old(inserted) + src[i..next]
      ensures out == Refused <==> next < |src| && (!readopen || killedAt <= next)
      ensures out == Full <==> next < |src| && readopen && next < killedAt && |inserted| == removed + PIPESIZE
      ensures out == Finished ==> next == |src| || next == bad
      ensures i < next ==> readopen && next <= killedAt && (i <= bad ==> next <= bad)
    {
      next := i;
      while next < |src|
        invariant Valid() && i <= next <= |src|
        invariant inserted == old(inserted) + src[i..next]
        invariant i < next ==> readopen && next <= killedAt && (i <= bad ==> next <= bad)
      {
        if !readopen || killedAt <= next {
          return next, Refused;
        }
        Compare(removed, |inserted|);
        if nwrite == Add(nread, PIPESIZE) {
          return next, Full;
        }
        if next == bad {
          return next, Finished;
        }
        Put(src[next]);
        next := next + 1;
        assert src[i..next] == src[i..next - 1] + [src[next - 1]];
      }
      out := Finished;
    }

    method Put(b: byte)
      requires Valid() && |inserted| < removed + PIPESIZE
      modifies this`nwrite, this`inserted, data
      ensures Valid() && inserted == old(inserted) + [b]
    {
      ghost var n := |inserted|;
      SlotOf(n);
      data[nwrite % PIPESIZE] := b;
      Compare(removed, n);
      forall k | removed <= k < n ensures k % PIPESIZE != n % PIPESIZE { Apart(k, n); }
      nwrite := Add(nwrite, 1);
      inserted := inserted + [b];
    }

    // piperead's copy loop, once there is something to read or no writer left.
    // The copy to the user fails at byte bad: that byte has left the pipe.
    method ReadStretch(n: nat, bad: nat) returns (got: seq<byte>)
      requires Valid()
      modifies this`nread, this`removed
      ensures Valid()
      ensures old(removed) + |got| <= removed <= old(removed) + |got| + 1
      ensures got == inserted[old(removed)..old(removed) + |got|]
      ensures |got| <= n && |got| <= bad
      ensures removed == old(removed) + |got| ==> |got| == n || removed == |inserted|
      ensures removed != old(removed) + |got| ==> |got| == bad < n
    {
      got := [];
      while |got| < n
        invariant Valid() && removed == old(removed) + |got| && |got| <= n && |got| <= bad
        invariant got == inserted[old(removed)..removed]
        decreases n - |got|
      {
        Compare(removed, |inserted|);
        if nread == nwrite {
          return;
        }
        SlotOf(removed);
        var ch := data[nread % PIPESIZE];
        Compare(removed, removed);
        nread := Add(nread, 1);
        removed := removed + 1;
        if |got| == bad {
          return;
        }
        got := got + [ch];
      }
    }

    method Close(writable: bool)
      requires Valid()
      modifies this`readopen, this`writeopen
      ensures Valid()
      ensures writable ==> !writeopen && readopen == old(readopen)
      ensures !writable ==> !readopen && writeopen == old(writeopen)
    {
      if writable {
        writeopen := false;
      } else {
        readopen := false;
      }
    }
  }
}

/** `netBuffer`: a byte array with a read and a write index that compacts
    before it doubles, proved to be a plain byte queue with room to spare. */
module NetBuffer {

  function Max(a: nat, b: nat): nat {
    if a < b then b else a
  }

  // ---------------------------------------------------------------- doubling

  /** The doubling loop of `expansion`, from capacity `alloc`, for `need` bytes. */
  function Grow(alloc: nat, need: nat): (a: nat)
    requires 0 < alloc
    ensures need < a && alloc <= a
    ensures a == alloc || a <= 2 * need
    decreases need + 1 - alloc
  {
    if need < alloc then alloc else Grow(2 * alloc, need)
  }

  /** The capacity after `n` rounds of the loop. */
  function Doubled(alloc: nat, n: nat): nat {
    if n == 0 then alloc else 2 * Doubled(alloc, n - 1)
  }

  lemma {:induction false} DoubledZero(n: nat)
    ensures Doubled(0, n) == 0
  {
    if n > 0 {
      DoubledZero(n - 1);
    }
  }

  lemma {:induction false} DoubledGrows(alloc: nat, n: nat)
    requires 0 < alloc
    ensures n < Doubled(alloc, n)
  {
    if n > 0 {
      DoubledGrows(alloc, n - 1);
    }
  }

  /** The loop ends exactly for a positive capacity. */
  lemma ExpansionEndsIff(alloc: nat, need: nat)
    ensures (exists n :: need < Doubled(alloc, n)) <==> 0 < alloc
  {
    if 0 < alloc {
      DoubledGrows(alloc, need);
    } else {
      forall n ensures Doubled(alloc, n) == 0 {
        DoubledZero(n);
      }
    }
  }

  // ---------------------------------------------------------------- the socket side

  /** What successive `read` calls on the socket find. A chunk longer than the
      space offered is delivered in part and the rest stays for the next call. */
  datatype Arrival = Data(bytes: string) | Interrupted | WouldBlock | Broken | PeerClosed

  datatype ReadEnd = Again | Error | Closed

  /** What does not end `readFd`'s loop: bytes, and a signal. */
  predicate GoesOn(a: Arrival) {
    a.Data? || a.Interrupted?
  }

  /** The first arrival that ends the loop, or the end of the list, where the
      socket has nothing more to give. */
  function Stop(s: seq<Arrival>): (k: nat)
    ensures k <= |s| && (k < |s| ==> !GoesOn(s[k]))
    ensures forall i :: 0 <= i < k ==> GoesOn(s[i])
  {
    if s == [] || !GoesOn(s[0]) then 0 else 1 + Stop(s[1..])
  }

  /** The bytes of arrivals, in order. */
  function Bytes(s: seq<Arrival>): string {
    if s == [] then "" else (if s[0].Data? then s[0].bytes else "") + Bytes(s[1..])
  }

  /** The bytes in front of the arrival that ends the loop. */
  function Delivered(s: seq<Arrival>): string {
    if s == [] then ""
    else match s[0]
         case Data(d) => d + Delivered(s[1..])
         case Interrupted => Delivered(s[1..])
         case _ => ""
  }

  function EndOf(s: seq<Arrival>): ReadEnd {
    if s == [] then Again
    else match s[0]
         case Data(_) => EndOf(s[1..])
         case Interrupted => EndOf(s[1..])
         case WouldBlock => Again
         case Broken => Error
         case PeerClosed => Closed
  }

  /** How `readFd` ends, by the arrival that ends it. */
  predicate EndsAs(s: seq<Arrival>, end: ReadEnd) {
    var k := Stop(s);
    && (end == Again <==> k == |s| || s[k].WouldBlock?)
    && (end == Error <==> k < |s| && s[k].Broken?)
    && (end == Closed <==> k < |s| && s[k].PeerClosed?)
  }

  /** The way the loop ends and the bytes it delivers, by the first arrival that
      is neither bytes nor a signal. */
  lemma {:induction false} ScriptMeans(s: seq<Arrival>)
    ensures EndsAs(s, EndOf(s)) && Delivered(s) == Bytes(s[..Stop(s)])
    decreases |s|
  {
    if s != [] && GoesOn(s[0]) {
      ScriptMeans(s[1..]);
      var k := Stop(s[1..]);
      assert Stop(s) == k + 1;
      assert s[..k + 1][1..] == s[1..][..k] && (k < |s[1..]| ==> s[k + 1] == s[1..][k]);
    }
  }

  function Weight(s: seq<Arrival>): nat {
    if s == [] then 0 else (if s[0].Data? then |s[0].bytes| else 0) + 1 + Weight(s[1..])
  }

  // ---------------------------------------------------------------- the buffer

  /** The operations of a buffer, for statements about any run of them. */
  datatype Op = Append(data: string) | Retrieve(n: nat) | RetrieveAll | ReadFd(script: seq<Arrival>)

  /** What an operation does to a plain byte queue. */
  function QueueStep(q: string, op: Op): string {
    match op
    case Append(d) => q + d
    case Retrieve(n) => if n <= |q| then q[n..] else q
    case RetrieveAll => ""
    case ReadFd(s) => q + Delivered(s)
  }

  function QueueRun(q: string, ops: seq<Op>): string
    decreases |ops|
  {
    if ops == [] then q else QueueStep(QueueRun(q, ops[..|ops| - 1]), ops[|ops| - 1])
  }

  /** The room an operation asks for, on top of what is queued. */
  function Demand(q: string, op: Op): nat {
    match op
    case Append(d) => |q| + |d|
    case ReadFd(s) => |q| + |Delivered(s)| + 4096
    case _ => 0
  }

  /** The largest demand of a run. */
  function PeakDemand(q: string, ops: seq<Op>): nat
    decreases |ops|
  {
    if ops == [] then 0
    else
      var before := ops[..|ops| - 1];
      Max(PeakDemand(q, before), Demand(QueueRun(q, before), ops[|ops| - 1]))
  }

  class Buffer {
    const initSize: nat
    var buf: array<char>
    var r: nat
    var w: nat
    var alloc: nat
    /** The largest (readable + requested) of any capacity check so far. */
    ghost var peak: nat

    /** The indices are in order; the buffer may be full. */
    ghost predicate Sound()
      reads this
    {
      && buf.Length == alloc
      && r <= w <= alloc
      && 0 < alloc <= Max(initSize, 2 * peak)
    }

    /** Between operations free space is never zero, so that a `read` into the
        buffer never asks for zero bytes, which `readFd` would take for the
        peer's close. */
    ghost predicate Valid()
      reads this
    {
      Sound() && w < alloc
    }

    ghost function Contents(): (s: string)
      requires Sound()
      reads this, buf
      ensures |s| == w - r
    {
      buf[r..w]
    }

    function Readable(): int
      reads this
    {
      w as int - r
    }

    function Writeable(): int
      reads this
    {
      alloc - w
    }

    constructor (size: nat)
      requires 0 < size
      ensures Valid() && fresh(buf) && initSize == size && alloc == size && peak == 0
      ensures Contents() == ""
    {
      initSize, alloc, r, w, peak := size, size, 0, 0, 0;
      buf := new char[size];
    }

    /** Moves the readable bytes to the front. */
    method MoveToLeft()
      requires Sound()
      modifies this`r, this`w, buf
      ensures Sound() && r == 0
      ensures Contents() == old(Contents())
    {
      ghost var q := Contents();
      forall i | 0 <= i < w - r {
        buf[i] := buf[r + i];
      }
      w := w - r;
      r := 0;
      assert forall i :: 0 <= i < w ==> buf[i] == q[i];
    }

    method Expansion(len: nat)
      requires r <= w <= alloc == buf.Length && 0 < alloc
      modifies this`buf, this`alloc
      ensures fresh(buf) && buf.Length == alloc == Grow(old(alloc), w + len)
      ensures buf[r..w] == old(buf[r..w])
    {
      while Writeable() <= len
        invariant 0 < alloc && old(alloc) <= alloc && buf == old(buf)
        invariant Grow(alloc, w + len) == Grow(old(alloc), w + len)
        decreases w + len - alloc
      {
        alloc := alloc * 2;
      }
      var bigger := new char[alloc];
      forall i | 0 <= i < buf.Length {
        bigger[i] := buf[i];
      }
      buf := bigger;
    }

    /** Room for `len` bytes and one more. Capacity grows only when the readable
        bytes already start at the front, and then to at most twice what is asked. */
    method CheckCapacity(len: nat)
      requires Sound()
      modifies this`buf, this`r, this`w, this`alloc, this`peak, buf
      ensures Valid() && (buf == old(buf) || fresh(buf))
      ensures Contents() == old(Contents()) && len < Writeable()
      ensures alloc != old(alloc) ==> r == 0 && old(alloc) < alloc <= 2 * (w + len)
      ensures alloc == old(alloc) <==> |old(Contents())| + len < old(alloc)
      ensures len < old(Writeable()) ==> buf == old(buf) && r == old(r) && w == old(w)
      ensures peak == Max(old(peak), |old(Contents())| + len)
    {
      peak := Max(peak, Readable() + len);
      if Writeable() <= len {
        if r > 0 {
          MoveToLeft();
        }
        if Writeable() <= len {
          Expansion(len);
        }
      }
    }

    method Append(data: string)
      requires Valid()
      modifies this`buf, this`r, this`w, this`alloc, this`peak, buf
      ensures Valid() && (buf == old(buf) || fresh(buf))
      ensures Contents() == old(Contents()) + data
      ensures alloc <= Max(old(alloc), 2 * (|old(Contents())| + |data|))
      ensures peak == Max(old(peak), |old(Contents())| + |data|)
    {
      CheckCapacity(|data|);
      Write(data);
    }

    /** The byte-copying loop. */
    method Write(data: string)
      requires Valid() && |data| < Writeable()
      modifies this`w, buf
      ensures Valid()
      ensures w == old(w) + |data| && Contents() == old(Contents()) + data
    {
      ghost var q := Contents();
      var i := 0;
      while i != |data|
        invariant i <= |data| && w == old(w) + i && w < alloc
        invariant buf[r..w] == q + data[..i]
      {
        buf[w] := data[i];
        w := w + 1;
        i := i + 1;
        assert data[..i] == data[..i - 1] + [data[i - 1]];
        assert buf[r..w] == buf[r..w - 1] + [data[i - 1]];
      }
      assert data[..i] == data;
    }

    /** The source asserts `len <= readable()`. */
    method Retrieve(len: nat)
      requires Valid() && len <= Readable()
      modifies this`r
      ensures Valid() && Contents() == old(Contents())[len..]
    {
      r := r + len;
    }

    method RetrieveAll()
      requires Valid()
      modifies this`r, this`w
      ensures Valid() && Contents() == ""
    {
      r, w := 0, 0;
    }

    /** A kernel `read` into the free space: as much of `d` as fits. The
        invariant makes that at least one byte, though it may fill the buffer. */
    method ReadSome(d: string) returns (n: nat)
      requires Valid() && d != ""
      modifies this`w, buf
      ensures Sound()
      ensures 0 < n <= |d| && w == old(w) + n && Contents() == old(Contents()) + d[..n]
      ensures n == |d| || n == old(Writeable())
    {
      ghost var q := Contents();
      n := if |d| <= Writeable() then |d| else Writeable();
      forall i | 0 <= i < n {
        buf[w + i] := d[i];
      }
      w := w + n;
      assert buf[r..old(w)] == q;
      assert buf[old(w)..w] == d[..n];
      assert buf[r..w] == buf[r..old(w)] + buf[old(w)..w];
    }

    /** One successful `read` and, when at most a fifth of the capacity is left
        (0.2 * alloc_ in the source), a check for room for 4096 bytes. */
    method ReadChunk(d: string) returns (n: nat)
      requires Valid() && d != ""
      modifies this`buf, this`r, this`w, this`alloc, this`peak, buf
      ensures Valid() && (buf == old(buf) || fresh(buf))
      ensures 0 < n <= |d| && Contents() == old(Contents()) + d[..n]
      ensures n == |d| || n == old(Writeable())
      ensures alloc < 5 * Writeable() || 4096 < Writeable()
      ensures alloc != old(alloc) ==> 5 * (old(Writeable()) - n) <= old(alloc)
      ensures peak <= Max(old(peak), |Contents()| + 4096)
    {
      n := ReadSome(d);
      if 5 * Writeable() <= alloc {
        CheckCapacity(4096);
      }
    }

    /** `readFd` on a socket: everything up to the first arrival that ends the
        loop is appended, however little room there was for it, and the way the
        loop ends is the way the socket ended: no close is made up. */
    method ReadFd(script: seq<Arrival>) returns (n: int, end: ReadEnd)
      requires Valid()
      modifies this`buf, this`r, this`w, this`alloc, this`peak, buf
      ensures Valid() && (buf == old(buf) || fresh(buf))
      ensures Contents() == old(Contents()) + Bytes(script[..Stop(script)]) && EndsAs(script, end)
      ensures n == match end case Again => |Bytes(script[..Stop(script)])| case Error => -1 case Closed => 0
      ensures Delivered(script) == Bytes(script[..Stop(script)]) && end == EndOf(script)
      ensures peak <= Max(old(peak), |Contents()| + 4096)
    {
      ScriptMeans(script);
      hide EndsAs, Bytes, Stop;
      var todo := script;
      var all := 0;
      ghost var q := Contents();
      assert q + Delivered(script) == Contents() + Delivered(todo);
      while true
        invariant Valid() && (buf == old(buf) || fresh(buf))
        invariant q + Delivered(script) == Contents() + Delivered(todo)
        invariant EndOf(todo) == EndOf(script)
        invariant all + |Delivered(todo)| == |Delivered(script)|
        invariant peak <= Max(old(peak), |q + Delivered(script)| + 4096)
        decreases Weight(todo)
      {
        if todo == [] || todo[0].WouldBlock? {
          assert Delivered(todo) == "";
          return all, Again;
        } else if todo[0].Broken? {
          return -1, Error;
        } else if todo[0].PeerClosed? {
          return 0, Closed;
        } else if todo[0].Interrupted? || todo[0].bytes == "" {
          todo := todo[1..];
        } else {
          var d := todo[0].bytes;
          ghost var have := Contents();
          var got := ReadChunk(d);
          ghost var before := todo;
          todo := if got == |d| then todo[1..] else [Data(d[got..])] + todo[1..];
          SplitChunk(before, got, todo);
          all := all + got;
          Regroup(have, d[..got], Delivered(todo));
        }
      }
    }

    method Step(op: Op)
      requires Valid() && (op.Retrieve? ==> op.n <= |Contents()|)
      modifies this`buf, this`r, this`w, this`alloc, this`peak, buf
      ensures Valid() && (buf == old(buf) || fresh(buf))
      ensures Contents() == QueueStep(old(Contents()), op)
      ensures peak <= Max(old(peak), Demand(old(Contents()), op))
    {
      match op {
        case Append(d) => Append(d);
        case Retrieve(n) => Retrieve(n);
        case RetrieveAll => RetrieveAll();
        case ReadFd(s) => var n, end := ReadFd(s);
      }
    }

    /** Any run of operations (a retrieval never past the end, as the source
        asserts) is the same run on a plain byte queue, and leaves the capacity
        bounded by the first size and twice the peak demand. */
    method AnyRun(ops: seq<Op>)
      requires Valid()
      requires forall i :: 0 <= i < |ops| && ops[i].Retrieve? ==> ops[i].n <= |QueueRun(Contents(), ops[..i])|
      modifies this`buf, this`r, this`w, this`alloc, this`peak, buf
      ensures Valid() && Contents() == QueueRun(old(Contents()), ops)
      ensures alloc <= Max(initSize, 2 * Max(old(peak), PeakDemand(old(Contents()), ops)))
    {
      hide Demand, QueueStep;
      ghost var q := Contents();
      var i := 0;
      assert ops[..0] == [];
      while i < |ops|
        invariant i <= |ops| && Valid() && (buf == old(buf) || fresh(buf))
        invariant Contents() == QueueRun(q, ops[..i])
        invariant peak <= Max(old(peak), PeakDemand(q, ops[..i]))
      {
        assert ops[..i + 1][..i] == ops[..i];
        Step(ops[i]);
        i := i + 1;
      }
      assert ops[..i] == ops;
    }
  }

  /** Reading part of the first chunk takes just that part off the stream. */
  lemma SplitChunk(s: seq<Arrival>, n: nat, t: seq<Arrival>)
    requires s != [] && s[0].Data? && 0 < n <= |s[0].bytes|
    requires t == if n == |s[0].bytes| then s[1..] else [Data(s[0].bytes[n..])] + s[1..]
    ensures Delivered(s) == s[0].bytes[..n] + Delivered(t)
    ensures EndOf(t) == EndOf(s) && Weight(t) < Weight(s)
  {
    var d := s[0].bytes;
    if n < |d| {
      assert t[1..] == s[1..];
      assert d == d[..n] + d[n..];
    }
  }

  lemma Regroup(a: string, b: string, c: string)
    ensures a + (b + c) == (a + b) + c
  {
  }

  /** A new buffer after any run: the run on an empty queue, and a capacity that
      fits the source's `int` when every demand of the run is below 2^30. */
  method FreshRun(size: nat, ops: seq<Op>) returns (b: Buffer)
    requires 0 < size
    requires forall i :: 0 <= i < |ops| && ops[i].Retrieve? ==> ops[i].n <= |QueueRun("", ops[..i])|
    ensures b.Valid() && b.Contents() == QueueRun("", ops)
    ensures b.alloc <= Max(size, 2 * PeakDemand("", ops))
    ensures size < 0x8000_0000 && PeakDemand("", ops) < 0x4000_0000 ==> b.alloc < 0x8000_0000
  {
    b := new Buffer(size);
    b.AnyRun(ops);
  }
}

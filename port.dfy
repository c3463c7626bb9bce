/**
 * Little-endian multi-byte port I/O built from single-byte accesses (io/port.c).
 *
 * The I/O port space is 65536 byte-wide ports.  The model treats every port
 * as plain storage: `inb` returns the byte last given to `outb`.  Port numbers
 * are `uint16_t` values that the source increments with `port++`, so the
 * model wraps them explicitly modulo 2^16.
 */
module Port {

  const PortCount: int := 0x1_0000

  /** A `uint16_t` port number. */
  newtype PortNo = x: int | 0 <= x < 0x1_0000

  /** `port++` on a `uint16_t`. */
  function Next(p: PortNo): (q: PortNo)
    ensures q as int == (p as int + 1) % PortCount
  {
    if p == 0xFFFF then 0 else p + 1
  }

  /** How far port `q` lies after port `p`, counting with wrap-around. */
  function Offset(p: PortNo, q: PortNo): (d: nat)
    ensures d < PortCount
    ensures (p as int + d) % PortCount == q as int
  {
    (q as int - p as int) % PortCount
  }

  // ---------------------------------------------------------------------------
  // Byte order of the three widths
  // ---------------------------------------------------------------------------

  /** The bytes `outw` sends, in the order it sends them. */
  function WordBytes(v: bv16): seq<bv8>
  {
    [(v & 0xFF) as bv8, ((v >> 8) & 0xFF) as bv8]
  }

  /** The value `inw` assembles from the bytes it reads, in order. */
  function WordValue(bs: seq<bv8>): bv16
    requires |bs| == 2
  {
    (bs[0] as bv16) | (bs[1] as bv16 << 8)
  }

  /** The bytes `outd` sends, in the order it sends them. */
  function DwordBytes(v: bv32): seq<bv8>
  {
    [(v & 0xFF) as bv8, ((v >> 8) & 0xFF) as bv8, ((v >> 16) & 0xFF) as bv8, ((v >> 24) & 0xFF) as bv8]
  }

  /** The value `ind` assembles from the bytes it reads, in order. */
  function DwordValue(bs: seq<bv8>): bv32
    requires |bs| == 4
  {
    (bs[0] as bv32) | (bs[1] as bv32 << 8) | (bs[2] as bv32 << 16) | (bs[3] as bv32 << 24)
  }

  /** The bytes `outq` sends, in the order it sends them. */
  function QwordBytes(v: bv64): seq<bv8>
  {
    [(v & 0xFF) as bv8, ((v >> 8) & 0xFF) as bv8, ((v >> 16) & 0xFF) as bv8, ((v >> 24) & 0xFF) as bv8,
     ((v >> 32) & 0xFF) as bv8, ((v >> 40) & 0xFF) as bv8, ((v >> 48) & 0xFF) as bv8, ((v >> 56) & 0xFF) as bv8]
  }

  /** The value `inq` assembles from the bytes it reads, in order. */
  function QwordValue(bs: seq<bv8>): bv64
    requires |bs| == 8
  {
    (bs[0] as bv64) | (bs[1] as bv64 << 8) | (bs[2] as bv64 << 16) | (bs[3] as bv64 << 24)
    | (bs[4] as bv64 << 32) | (bs[5] as bv64 << 40) | (bs[6] as bv64 << 48) | (bs[7] as bv64 << 56)
  }

  /** Splitting a word into bytes and assembling it again are inverse, both ways round. */
  lemma WordRoundTrip(v: bv16, bs: seq<bv8>)
    requires |bs| == 2
    ensures WordValue(WordBytes(v)) == v
    ensures WordBytes(WordValue(bs)) == bs
  {
  }

  /** Splitting a double word into bytes and assembling it again are inverse, both ways round. */
  lemma DwordRoundTrip(v: bv32, bs: seq<bv8>)
    requires |bs| == 4
    ensures DwordValue(DwordBytes(v)) == v
    ensures DwordBytes(DwordValue(bs)) == bs
  {
  }

  /** Splitting a quad word into bytes and assembling it again give back the value. */
  lemma QwordRoundTrip(v: bv64)
    ensures QwordValue(QwordBytes(v)) == v
  {
  }

  /** Assembling eight bytes into a quad word and splitting it again give back the bytes. */
  lemma QwordBytesRoundTrip(bs: seq<bv8>)
    requires |bs| == 8
    ensures QwordBytes(QwordValue(bs)) == bs
  {
  }

  /** OR-ing the bytes of `bs` in at their shifts, starting from zero, gives `WordValue(bs)`. */
  lemma WordAssembly(bs: seq<bv8>, b0: bv8, b1: bv8)
    requires |bs| == 2 && bs[0] == b0 && bs[1] == b1
    ensures WordValue(bs) == 0 | (b0 as bv16 << 0) | (b1 as bv16 << 8)
  {
  }

  /** OR-ing the bytes of `bs` in at their shifts, starting from zero, gives `DwordValue(bs)`. */
  lemma DwordAssembly(bs: seq<bv8>, b0: bv8, b1: bv8, b2: bv8, b3: bv8)
    requires |bs| == 4 && bs[0] == b0 && bs[1] == b1 && bs[2] == b2 && bs[3] == b3
    ensures DwordValue(bs) == 0 | (b0 as bv32 << 0) | (b1 as bv32 << 8) | (b2 as bv32 << 16) | (b3 as bv32 << 24)
  {
  }

  /** OR-ing the bytes of `bs` in at their shifts, starting from zero, gives `QwordValue(bs)`. */
  lemma QwordAssembly(bs: seq<bv8>, b0: bv8, b1: bv8, b2: bv8, b3: bv8, b4: bv8, b5: bv8, b6: bv8, b7: bv8)
    requires |bs| == 8 && bs[0] == b0 && bs[1] == b1 && bs[2] == b2 && bs[3] == b3 && bs[4] == b4 && bs[5] == b5 && bs[6] == b6 && bs[7] == b7
    ensures QwordValue(bs) == 0 | (b0 as bv64 << 0) | (b1 as bv64 << 8) | (b2 as bv64 << 16) | (b3 as bv64 << 24) | (b4 as bv64 << 32) | (b5 as bv64 << 40) | (b6 as bv64 << 48) | (b7 as bv64 << 56)
  {
  }

  // ---------------------------------------------------------------------------
  // Runs of consecutive ports
  // ---------------------------------------------------------------------------

  /** The port space after `bs` is written to ports p, p+1, ... one byte at a time. */
  function Store(ps: seq<bv8>, p: PortNo, bs: seq<bv8>): (r: seq<bv8>)
    requires |ps| == PortCount
    ensures |r| == PortCount
    decreases |bs|
  {
    if bs == [] then ps else Store(ps[p as int := bs[0]], Next(p), bs[1..])
  }

  /** The `n` bytes read from ports p, p+1, ... one byte at a time. */
  function Load(ps: seq<bv8>, p: PortNo, n: nat): (r: seq<bv8>)
    requires |ps| == PortCount
    ensures |r| == n
    decreases n
  {
    if n == 0 then [] else [ps[p as int]] + Load(ps, Next(p), n - 1)
  }

  /** One byte of a run: `Store` writes the first byte, then the rest from the next port. */
  lemma StoreStep(ps: seq<bv8>, p: PortNo, bs: seq<bv8>)
    requires |ps| == PortCount && bs != []
    ensures Store(ps, p, bs) == Store(ps[p as int := bs[0]], Next(p), bs[1..])
  {
  }

  /** The `k`-th port of a run from `port`: its byte is the run's `k`-th, and the next port is the run's `k+1`-th. */
  lemma ReadAt(ps: seq<bv8>, port: PortNo, n: nat, k: nat, p: PortNo)
    requires |ps| == PortCount && k < n
    requires p as int == (port as int + k) % PortCount
    ensures Load(ps, port, n)[k] == ps[p as int]
    ensures Next(p) as int == (port as int + k + 1) % PortCount
  {
    LoadAt(ps, port, n, k, p);
  }

  /** Port `q` holds the byte written at its offset if it lies in the run, and its old byte otherwise. */
  lemma {:induction false} StoreAt(ps: seq<bv8>, p: PortNo, bs: seq<bv8>, q: PortNo)
    requires |ps| == PortCount && |bs| <= PortCount
    ensures Store(ps, p, bs)[q as int] ==
            if Offset(p, q) < |bs| then bs[Offset(p, q)] else ps[q as int]
    decreases |bs|
  {
    if bs != [] {
      StoreAt(ps[p as int := bs[0]], Next(p), bs[1..], q);
      if q != p {
        assert Offset(Next(p), q) == Offset(p, q) - 1;
      } else {
        assert Offset(Next(p), q) == PortCount - 1;
      }
    }
  }

  /** The `k`-th byte of a run read from port `p` is the byte at offset `k` after `p`. */
  lemma {:induction false} LoadAt(ps: seq<bv8>, p: PortNo, n: nat, k: nat, q: PortNo)
    requires |ps| == PortCount && k < n
    requires q as int == (p as int + k) % PortCount
    ensures Load(ps, p, n)[k] == ps[q as int]
    decreases k
  {
    if k > 0 {
      LoadAt(ps, Next(p), n - 1, k - 1, q);
    }
  }

  /** Reading back a run of at most 2^16 bytes just written at the same port gives those bytes. */
  lemma LoadStore(ps: seq<bv8>, p: PortNo, bs: seq<bv8>)
    requires |ps| == PortCount && |bs| <= PortCount
    ensures Load(Store(ps, p, bs), p, |bs|) == bs
  {
    var r := Load(Store(ps, p, bs), p, |bs|);
    forall k | 0 <= k < |bs|
      ensures r[k] == bs[k]
    {
      var q := ((p as int + k) % PortCount) as PortNo;
      LoadAt(Store(ps, p, bs), p, |bs|, k, q);
      StoreAt(ps, p, bs, q);
      assert Offset(p, q) == k;
    }
  }

  /** A run of writes leaves every port outside the run as it was. */
  lemma StoreFrame(ps: seq<bv8>, p: PortNo, bs: seq<bv8>, q: PortNo)
    requires |ps| == PortCount && |bs| <= PortCount
    requires Offset(p, q) >= |bs|
    ensures Store(ps, p, bs)[q as int] == ps[q as int]
  {
    StoreAt(ps, p, bs, q);
  }

  class PortSpace {
    /** The byte held by each port, indexed by port number. */
    var ports: seq<bv8>

    ghost predicate Valid()
      reads this
    {
      |ports| == PortCount
    }

    constructor ()
      ensures Valid() && forall p :: 0 <= p < PortCount ==> ports[p] == 0
    {
      ports := seq(PortCount, _ => 0);
    }

    /** `outb`: the hardware byte write the wider accesses are built from. */
    method Outb(p: PortNo, v: bv8)
      requires Valid()
      modifies this
      ensures Valid() && ports == old(ports)[p as int := v]
    {
      ports := ports[p as int := v];
    }

    /** `inb`: the hardware byte read. */
    method Inb(p: PortNo) returns (v: bv8)
      requires Valid()
      ensures v == ports[p as int]
    {
      v := ports[p as int];
    }

    method Outw(port: PortNo, value: bv16)
      requires Valid()
      modifies this
      ensures Valid() && ports == Store(old(ports), port, WordBytes(value))
    {
      ghost var bs := WordBytes(value);
      var p := port;
      StoreStep(ports, p, bs[0..]);
      Outb(p, ((value >> 0) & 0xFF) as bv8);
      assert Store(old(ports), port, bs) == Store(ports, Next(p), bs[1..]);
      p := Next(p);
      StoreStep(ports, p, bs[1..]);
      Outb(p, ((value >> 8) & 0xFF) as bv8);
      assert Store(old(ports), port, bs) == Store(ports, Next(p), bs[2..]);
    }

    method Inw(port: PortNo) returns (res: bv16)
      requires Valid()
      ensures res == WordValue(Load(ports, port, 2))
    {
      var p := port;
      res := 0;
      ReadAt(ports, port, 2, 0, p);
      var b0 := Inb(p);
      res := res | (b0 as bv16 << 0);
      p := Next(p);
      ReadAt(ports, port, 2, 1, p);
      var b1 := Inb(p);
      res := res | (b1 as bv16 << 8);
      WordAssembly(Load(ports, port, 2), b0, b1);
    }

    method Outd(port: PortNo, value: bv32)
      requires Valid()
      modifies this
      ensures Valid() && ports == Store(old(ports), port, DwordBytes(value))
    {
      ghost var bs := DwordBytes(value);
      var p := port;
      StoreStep(ports, p, bs[0..]);
      Outb(p, ((value >> 0) & 0xFF) as bv8);
      assert Store(old(ports), port, bs) == Store(ports, Next(p), bs[1..]);
      p := Next(p);
      StoreStep(ports, p, bs[1..]);
      Outb(p, ((value >> 8) & 0xFF) as bv8);
      assert Store(old(ports), port, bs) == Store(ports, Next(p), bs[2..]);
      p := Next(p);
      StoreStep(ports, p, bs[2..]);
      Outb(p, ((value >> 16) & 0xFF) as bv8);
      assert Store(old(ports), port, bs) == Store(ports, Next(p), bs[3..]);
      p := Next(p);
      StoreStep(ports, p, bs[3..]);
      Outb(p, ((value >> 24) & 0xFF) as bv8);
      assert Store(old(ports), port, bs) == Store(ports, Next(p), bs[4..]);
    }

    method Ind(port: PortNo) returns (res: bv32)
      requires Valid()
      ensures res == DwordValue(Load(ports, port, 4))
    {
      var p := port;
      res := 0;
      ReadAt(ports, port, 4, 0, p);
      var b0 := Inb(p);
      res := res | (b0 as bv32 << 0);
      p := Next(p);
      ReadAt(ports, port, 4, 1, p);
      var b1 := Inb(p);
      res := res | (b1 as bv32 << 8);
      p := Next(p);
      ReadAt(ports, port, 4, 2, p);
      var b2 := Inb(p);
      res := res | (b2 as bv32 << 16);
      p := Next(p);
      ReadAt(ports, port, 4, 3, p);
      var b3 := Inb(p);
      res := res | (b3 as bv32 << 24);
      DwordAssembly(Load(ports, port, 4), b0, b1, b2, b3);
    }

    method Outq(port: PortNo, value: bv64)
      requires Valid()
      modifies this
      ensures Valid() && ports == Store(old(ports), port, QwordBytes(value))
    {
      ghost var bs := QwordBytes(value);
      var p := port;
      StoreStep(ports, p, bs[0..]);
      Outb(p, ((value >> 0) & 0xFF) as bv8);
      assert Store(old(ports), port, bs) == Store(ports, Next(p), bs[1..]);
      p := Next(p);
      StoreStep(ports, p, bs[1..]);
      Outb(p, ((value >> 8) & 0xFF) as bv8);
      assert Store(old(ports), port, bs) == Store(ports, Next(p), bs[2..]);
      p := Next(p);
      StoreStep(ports, p, bs[2..]);
      Outb(p, ((value >> 16) & 0xFF) as bv8);
      assert Store(old(ports), port, bs) == Store(ports, Next(p), bs[3..]);
      p := Next(p);
      StoreStep(ports, p, bs[3..]);
      Outb(p, ((value >> 24) & 0xFF) as bv8);
      assert Store(old(ports), port, bs) == Store(ports, Next(p), bs[4..]);
      p := Next(p);
      StoreStep(ports, p, bs[4..]);
      Outb(p, ((value >> 32) & 0xFF) as bv8);
      assert Store(old(ports), port, bs) == Store(ports, Next(p), bs[5..]);
      p := Next(p);
      StoreStep(ports, p, bs[5..]);
      Outb(p, ((value >> 40) & 0xFF) as bv8);
      assert Store(old(ports), port, bs) == Store(ports, Next(p), bs[6..]);
      p := Next(p);
      StoreStep(ports, p, bs[6..]);
      Outb(p, ((value >> 48) & 0xFF) as bv8);
      assert Store(old(ports), port, bs) == Store(ports, Next(p), bs[7..]);
      p := Next(p);
      StoreStep(ports, p, bs[7..]);
      Outb(p, ((value >> 56) & 0xFF) as bv8);
      assert Store(old(ports), port, bs) == Store(ports, Next(p), bs[8..]);
    }

    method Inq(port: PortNo) returns (res: bv64)
      requires Valid()
      ensures res == QwordValue(Load(ports, port, 8))
    {
      var p := port;
      res := 0;
      ReadAt(ports, port, 8, 0, p);
      var b0 := Inb(p);
      res := res | (b0 as bv64 << 0);
      p := Next(p);
      ReadAt(ports, port, 8, 1, p);
      var b1 := Inb(p);
      res := res | (b1 as bv64 << 8);
      p := Next(p);
      ReadAt(ports, port, 8, 2, p);
      var b2 := Inb(p);
      res := res | (b2 as bv64 << 16);
      p := Next(p);
      ReadAt(ports, port, 8, 3, p);
      var b3 := Inb(p);
      res := res | (b3 as bv64 << 24);
      p := Next(p);
      ReadAt(ports, port, 8, 4, p);
      var b4 := Inb(p);
      res := res | (b4 as bv64 << 32);
      p := Next(p);
      ReadAt(ports, port, 8, 5, p);
      var b5 := Inb(p);
      res := res | (b5 as bv64 << 40);
      p := Next(p);
      ReadAt(ports, port, 8, 6, p);
      var b6 := Inb(p);
      res := res | (b6 as bv64 << 48);
      p := Next(p);
      ReadAt(ports, port, 8, 7, p);
      var b7 := Inb(p);
      res := res | (b7 as bv64 << 56);
      QwordAssembly(Load(ports, port, 8), b0, b1, b2, b3, b4, b5, b6, b7);
    }
  }

  /** `inq` right after `outq` to the same port returns the value written; so do the narrower pairs. */
  lemma WriteThenRead(ps: seq<bv8>, p: PortNo, w: bv16, d: bv32, q: bv64)
    requires |ps| == PortCount
    ensures WordValue(Load(Store(ps, p, WordBytes(w)), p, 2)) == w
    ensures DwordValue(Load(Store(ps, p, DwordBytes(d)), p, 4)) == d
    ensures QwordValue(Load(Store(ps, p, QwordBytes(q)), p, 8)) == q
  {
    LoadStore(ps, p, WordBytes(w));
    WordRoundTrip(w, WordBytes(w));
    LoadStore(ps, p, DwordBytes(d));
    DwordRoundTrip(d, DwordBytes(d));
    LoadStore(ps, p, QwordBytes(q));
    QwordRoundTrip(q);
  }
}

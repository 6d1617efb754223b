// The file system image of kernel/fs.c as a value: blocks of bytes, the free
// bitmap inside them, inodes with direct and indirect block addresses, and what
// the bytes of a file are.
module FsImage {
  const BSIZE: nat := 1024
  const NDIRECT: nat := 12
  const NINDIRECT: nat := 256
  const MAXFILE: nat := NDIRECT + NINDIRECT
  const BPB: nat := BSIZE * 8
  // Places in an inode that can name a block: the NDIRECT + 1 words of addrs,
  // then the words of the indirect block.
  const NSLOT: nat := NDIRECT + 1 + NINDIRECT

  type Block = seq<int>

  datatype Inode = Inode(addrs: seq<nat>, size: nat)

  // The parts of struct superblock that the layers above the log use; data is
  // the first block past the bitmap.
  datatype Super = Super(size: nat, inodestart: nat, bmapstart: nat, data: nat)

  // owner is bookkeeping that the original does not store: for every block that
  // an inode names, the inode and the place in it.
  datatype Fs = Fs(sb: Super, blocks: seq<Block>, inodes: seq<Inode>, owner: map<nat, (nat, nat)>)

  // ---- bits and words in a block ----

  predicate IsBlock(b: Block) {
    |b| == BSIZE && Bytes(b)
  }

  predicate Bytes(s: seq<int>) {
    forall i :: 0 <= i < |s| ==> 0 <= s[i] < 256
  }

  function Zeros(): (b: Block)
    ensures IsBlock(b) && forall i :: 0 <= i < BSIZE ==> b[i] == 0
  {
    seq(BSIZE, _ => 0)
  }

  // Binary digit k of x: x & (1 << k).
  predicate Digit(x: nat, k: nat) {
    if k == 0 then x % 2 == 1 else Digit(x / 2, k - 1)
  }

  // x with digit k set (x | 1 << k) or cleared (x & ~(1 << k)).
  function WithDigit(x: nat, k: nat, on: bool): nat {
    if k == 0 then x / 2 * 2 + (if on then 1 else 0) else WithDigit(x / 2, k - 1, on) * 2 + x % 2
  }

  lemma {:induction false} WithDigitAt(x: nat, k: nat, on: bool, j: nat)
    ensures Digit(WithDigit(x, k, on), j) == if j == k then on else Digit(x, j)
  {
    if k > 0 && j > 0 { WithDigitAt(x / 2, k - 1, on, j - 1); }
  }

  function Pow2(n: nat): nat {
    if n == 0 then 1 else 2 * Pow2(n - 1)
  }

  lemma {:induction false} WithDigitBound(x: nat, k: nat, on: bool, n: nat)
    requires x < Pow2(n) && k < n
    ensures WithDigit(x, k, on) < Pow2(n)
  {
    if k > 0 { WithDigitBound(x / 2, k - 1, on, n - 1); }
  }

  // data[bi/8] & (1 << bi%8)
  predicate Bit(b: Block, bi: nat)
    requires IsBlock(b) && bi < BPB
  {
    Digit(b[bi / 8], bi % 8)
  }

  // data[bi/8] |= m and data[bi/8] &= ~m
  function PutBit(b: Block, bi: nat, on: bool): (r: Block)
    requires IsBlock(b) && bi < BPB
    ensures IsBlock(r)
  {
    assert Pow2(8) == 256;
    WithDigitBound(b[bi / 8], bi % 8, on, 8);
    b[bi / 8 := WithDigit(b[bi / 8], bi % 8, on)]
  }

  lemma {:induction false} PutBitAt(b: Block, bi: nat, on: bool, ci: nat)
    requires IsBlock(b) && bi < BPB && ci < BPB
    ensures Bit(PutBit(b, bi, on), ci) == if ci == bi then on else Bit(b, ci)
  {
    WithDigitAt(b[bi / 8], bi % 8, on, ci % 8);
  }

  // (uint*)data, little-endian
  function Word(b: Block, i: nat): (w: nat)
    requires IsBlock(b) && i < NINDIRECT
  {
    b[4 * i] + 0x100 * b[4 * i + 1] + 0x10000 * b[4 * i + 2] + 0x1000000 * b[4 * i + 3]
  }

  function PutWord(b: Block, i: nat, w: nat): (r: Block)
    requires IsBlock(b) && i < NINDIRECT && w < 0x1_0000_0000
    ensures IsBlock(r)
  {
    b[4 * i := w % 0x100][4 * i + 1 := w / 0x100 % 0x100]
     [4 * i + 2 := w / 0x10000 % 0x100][4 * i + 3 := w / 0x1000000]
  }

  lemma {:induction false} WordRoundTrip(b: Block, i: nat, w: nat, j: nat)
    requires IsBlock(b) && i < NINDIRECT && j < NINDIRECT && w < 0x1_0000_0000
    ensures Word(PutWord(b, i, w), j) == if j == i then w else Word(b, j)
  {
    var r := PutWord(b, i, w);
    if j == i {
      FourBytes(w);
      assert r[4 * i] == w % 0x100 && r[4 * i + 1] == w / 0x100 % 0x100;
      assert r[4 * i + 2] == w / 0x10000 % 0x100 && r[4 * i + 3] == w / 0x1000000;
    } else {
      assert r[4 * j] == b[4 * j] && r[4 * j + 1] == b[4 * j + 1];
      assert r[4 * j + 2] == b[4 * j + 2] && r[4 * j + 3] == b[4 * j + 3];
    }
  }

  lemma {:induction false} FourBytes(w: nat)
    ensures w == w % 0x100 + 0x100 * (w / 0x100 % 0x100) + 0x10000 * (w / 0x10000 % 0x100) + 0x1000000 * (w / 0x1000000)
  {
    var a, b := w / 0x100, w / 0x10000;
    assert w == 0x100 * a + w % 0x100;
    assert b == a / 0x100 && a == 0x100 * b + a % 0x100;
    assert w / 0x1000000 == b / 0x100 && b == 0x100 * (b / 0x100) + b % 0x100;
  }

  // ---- the bitmap ----

  predicate Shape(fs: Fs) {
    && |fs.blocks| == fs.sb.size < 0x1_0000_0000
    && 0 < fs.sb.inodestart < fs.sb.bmapstart
    && fs.sb.bmapstart + (fs.sb.size + BPB - 1) / BPB <= fs.sb.data <= fs.sb.size
    && fs.sb.inodestart + |fs.inodes| / 16 < fs.sb.bmapstart
    && (forall b :: 0 <= b < |fs.blocks| ==> IsBlock(fs.blocks[b]))
    && (forall i :: 0 <= i < |fs.inodes| ==> |fs.inodes[i].addrs| == NDIRECT + 1)
  }

  // BBLOCK(b, sb)
  function Bblock(sb: Super, b: nat): nat {
    b / BPB + sb.bmapstart
  }

  // IBLOCK(i, sb); a dinode takes 64 bytes.
  function Iblock(sb: Super, inum: nat): nat {
    inum / 16 + sb.inodestart
  }

  lemma {:induction false} BitmapBelowData(fs: Fs, b: nat)
    requires Shape(fs) && b < fs.sb.size
    ensures fs.sb.bmapstart <= Bblock(fs.sb, b) < fs.sb.data
  {
    hide IsBlock;
  }

  predicate Used(fs: Fs, b: nat)
    requires Shape(fs) && b < fs.sb.size
  {
    Bit(fs.blocks[Bblock(fs.sb, b)], b % BPB)
  }

  function Mark(fs: Fs, b: nat, on: bool): (r: Fs)
    requires Shape(fs) && b < fs.sb.size
    ensures Shape(r) && r.sb == fs.sb && r.inodes == fs.inodes
    ensures forall c :: 0 <= c < fs.sb.size && c != Bblock(fs.sb, b) ==> r.blocks[c] == fs.blocks[c]
  {
    var m := Bblock(fs.sb, b);
    fs.(blocks := fs.blocks[m := PutBit(fs.blocks[m], b % BPB, on)])
  }

  lemma {:induction false} MarkAt(fs: Fs, b: nat, on: bool, c: nat)
    requires Shape(fs) && b < fs.sb.size && c < fs.sb.size
    ensures Used(Mark(fs, b, on), c) == if c == b then on else Used(fs, c)
  {
    hide Bit, PutBit, IsBlock;
    if c / BPB == b / BPB {
      assert c == b <==> c % BPB == b % BPB;
      PutBitAt(fs.blocks[Bblock(fs.sb, b)], b % BPB, on, c % BPB);
    }
  }

  function WriteBlock(fs: Fs, b: nat, data: Block): (r: Fs)
    requires Shape(fs) && b < fs.sb.size && IsBlock(data)
    ensures Shape(r)
  {
    fs.(blocks := fs.blocks[b := data])
  }

  // ---- which blocks an inode names ----

  // The block named by place k of inode i, or 0.
  function Slot(fs: Fs, i: nat, k: nat): nat
    requires Shape(fs) && i < |fs.inodes| && k < NSLOT
  {
    var a := fs.inodes[i].addrs;
    if k <= NDIRECT then a[k]
    else if a[NDIRECT] == 0 || a[NDIRECT] >= fs.sb.size then 0
    else Word(fs.blocks[a[NDIRECT]], k - NDIRECT - 1)
  }

  // The place that names block bn of the file.
  function Place(bn: nat): nat {
    if bn < NDIRECT then bn else bn + 1
  }

  // Every named block has its one owner.
  predicate SlotsOwned(fs: Fs)
    requires Shape(fs)
  {
    forall i, k :: 0 <= i < |fs.inodes| && 0 <= k < NSLOT && Slot(fs, i, k) != 0 ==>
      Slot(fs, i, k) in fs.owner && fs.owner[Slot(fs, i, k)] == (i, k)
  }

  // Every owner names its block, a data block.
  predicate OwnersName(fs: Fs, extra: set<nat>)
    requires Shape(fs)
  {
    forall b :: b in fs.owner ==>
      && fs.sb.data <= b < fs.sb.size && b !in extra
      && fs.owner[b].0 < |fs.inodes| && fs.owner[b].1 < NSLOT
      && Slot(fs, fs.owner[b].0, fs.owner[b].1) == b
  }

  // A data block is marked exactly when it has an owner or is in extra.
  predicate MarksMatch(fs: Fs, extra: set<nat>)
    requires Shape(fs)
  {
    && (forall b :: fs.sb.data <= b < fs.sb.size ==> (Used(fs, b) <==> b in fs.owner || b in extra))
    && (forall b :: 0 <= b < fs.sb.data ==> Used(fs, b))
  }

  predicate Named(fs: Fs, extra: set<nat>)
    requires Shape(fs)
  {
    SlotsOwned(fs) && OwnersName(fs, extra) && MarksMatch(fs, extra)
  }

  // Blocks below the end of the file are all there.
  predicate NoHoles(fs: Fs, i: nat)
    requires Shape(fs) && i < |fs.inodes|
  {
    && fs.inodes[i].size <= MAXFILE * BSIZE
    && forall bn :: 0 <= bn < MAXFILE && bn * BSIZE < fs.inodes[i].size ==> Slot(fs, i, Place(bn)) != 0
  }

  predicate Inv(fs: Fs, extra: set<nat>) {
    Shape(fs) && Named(fs, extra) && forall i :: 0 <= i < |fs.inodes| ==> NoHoles(fs, i)
  }

  // ---- files ----

  function ByteAt(fs: Fs, i: nat, off: nat): int
    requires Shape(fs) && i < |fs.inodes| && off < MAXFILE * BSIZE
  {
    var b := Slot(fs, i, Place(off / BSIZE));
    if b < fs.sb.size then fs.blocks[b][off % BSIZE] else 0
  }

  // The file: a sequence of bytes.
  function Content(fs: Fs, i: nat): (s: seq<int>)
    requires Shape(fs) && i < |fs.inodes| && fs.inodes[i].size <= MAXFILE * BSIZE
    ensures |s| == fs.inodes[i].size
    ensures forall off :: 0 <= off < |s| ==> s[off] == ByteAt(fs, i, off)
  {
    seq(fs.inodes[i].size, off requires 0 <= off < fs.inodes[i].size => ByteAt(fs, i, off))
  }

  predicate SameSlots(fs: Fs, g: Fs)
    requires Shape(fs) && Shape(g)
  {
    && |fs.inodes| == |g.inodes|
    && forall i, k :: 0 <= i < |fs.inodes| && 0 <= k < NSLOT ==> Slot(fs, i, k) == Slot(g, i, k)
  }

  // File i has the same bytes in g.
  predicate SameFile(fs: Fs, g: Fs, i: nat)
    requires Shape(fs) && Shape(g) && i < |fs.inodes| && i < |g.inodes|
  {
    && fs.inodes[i].size == g.inodes[i].size
    && (fs.inodes[i].size <= MAXFILE * BSIZE ==> Content(fs, i) == Content(g, i))
  }

  // Bytes in blocks that fs names read the same in g, whatever the file sizes.
  predicate KeepsBytes(fs: Fs, g: Fs)
    requires Shape(fs) && Shape(g) && |fs.inodes| == |g.inodes|
  {
    forall j, o :: 0 <= j < |fs.inodes| && 0 <= o < MAXFILE * BSIZE && Slot(fs, j, Place(o / BSIZE)) != 0 ==>
      ByteAt(fs, j, o) == ByteAt(g, j, o)
  }

  // g is fs with blocks added to empty places of inode i, and no other change.
  predicate Grown(fs: Fs, g: Fs, i: nat) {
    && Shape(fs) && Shape(g) && g.sb == fs.sb && |g.inodes| == |fs.inodes|
    && (forall j :: 0 <= j < |fs.inodes| ==> g.inodes[j].size == fs.inodes[j].size)
    && (forall j, k :: 0 <= j < |fs.inodes| && 0 <= k < NSLOT && (j != i || Slot(fs, j, k) != 0) ==>
          Slot(g, j, k) == Slot(fs, j, k))
    && KeepsBytes(fs, g)
  }

  lemma {:induction false} GrownAgain(f: Fs, g: Fs, h: Fs, i: nat)
    requires Grown(f, g, i) && Grown(g, h, i)
    ensures Grown(f, h, i)
  {
    hide Shape, Slot, ByteAt;
    forall j, o | 0 <= j < |f.inodes| && 0 <= o < MAXFILE * BSIZE && Slot(f, j, Place(o / BSIZE)) != 0
      ensures ByteAt(f, j, o) == ByteAt(h, j, o)
    {
      assert Slot(g, j, Place(o / BSIZE)) == Slot(f, j, Place(o / BSIZE));
    }
  }

  lemma {:induction false} GrownFile(f: Fs, g: Fs, i: nat, j: nat)
    requires Grown(f, g, i) && j < |f.inodes| && NoHoles(f, j)
    ensures SameFile(f, g, j)
  {
    forall o | 0 <= o < f.inodes[j].size ensures ByteAt(f, j, o) == ByteAt(g, j, o) {
      assert o / BSIZE * BSIZE < f.inodes[j].size;
    }
  }

  // ---- frames ----

  lemma {:induction false} SlotOwned(fs: Fs, extra: set<nat>, i: nat, k: nat)
    requires Shape(fs) && Named(fs, extra) && i < |fs.inodes| && k < NSLOT && Slot(fs, i, k) != 0
    ensures var b := Slot(fs, i, k);
      fs.sb.data <= b < fs.sb.size && Used(fs, b) && b !in extra && b in fs.owner && fs.owner[b] == (i, k)
  {
  }

  // Slots depend on the inodes and the indirect blocks only.
  lemma {:induction false} SlotsFrame(fs: Fs, extra: set<nat>, g: Fs)
    requires Shape(fs) && Shape(g) && Named(fs, extra) && g.sb == fs.sb && g.inodes == fs.inodes
    requires forall b :: b in fs.owner && fs.owner[b].1 == NDIRECT ==> g.blocks[b] == fs.blocks[b]
    ensures SameSlots(fs, g)
  {
    forall i, k | 0 <= i < |fs.inodes| && 0 <= k < NSLOT ensures Slot(fs, i, k) == Slot(g, i, k) {
      if k > NDIRECT && Slot(fs, i, NDIRECT) != 0 { SlotOwned(fs, extra, i, NDIRECT); }
    }
  }

  // A file depends on its slots and the blocks it owns.
  lemma {:induction false} FileFrame(fs: Fs, extra: set<nat>, g: Fs, i: nat)
    requires Inv(fs, extra) && Shape(g) && g.sb == fs.sb && i < |fs.inodes| == |g.inodes|
    requires g.inodes[i].size == fs.inodes[i].size
    requires forall k :: 0 <= k < NSLOT ==> Slot(fs, i, k) == Slot(g, i, k)
    requires forall b :: b in fs.owner && fs.owner[b].0 == i && fs.owner[b].1 != NDIRECT ==> g.blocks[b] == fs.blocks[b]
    ensures SameFile(fs, g, i)
  {
    assert NoHoles(fs, i);
    forall off | 0 <= off < fs.inodes[i].size ensures ByteAt(fs, i, off) == ByteAt(g, i, off) {
      assert off / BSIZE * BSIZE < fs.inodes[i].size;
      SlotOwned(fs, extra, i, Place(off / BSIZE));
    }
  }

  lemma {:induction false} NoHolesFrame(fs: Fs, g: Fs)
    requires Shape(fs) && Shape(g) && SameSlots(fs, g) && g.inodes == fs.inodes
    requires forall i :: 0 <= i < |fs.inodes| ==> NoHoles(fs, i)
    ensures forall i :: 0 <= i < |g.inodes| ==> NoHoles(g, i)
  {
    forall i | 0 <= i < |g.inodes| ensures NoHoles(g, i) {
      assert NoHoles(fs, i);
      forall bn | 0 <= bn < MAXFILE && bn * BSIZE < g.inodes[i].size ensures Slot(g, i, Place(bn)) != 0 {
        assert Slot(fs, i, Place(bn)) == Slot(g, i, Place(bn));
      }
    }
  }

  lemma {:induction false} UsedFrame(fs: Fs, g: Fs, c: nat)
    requires Shape(fs) && Shape(g) && fs.sb == g.sb && c < fs.sb.size
    requires forall b :: fs.sb.bmapstart <= b < fs.sb.data ==> g.blocks[b] == fs.blocks[b]
    ensures Used(g, c) == Used(fs, c)
  {
    hide IsBlock, Bit;
    BitmapBelowData(fs, c);
  }

  // ---- balloc() ----

  predicate NoneFree(fs: Fs)
    requires Shape(fs)
  {
    forall b :: 0 <= b < fs.sb.size ==> Used(fs, b)
  }

  // balloc() of block b: mark it, then zero it.
  function Alloc(fs: Fs, b: nat): (g: Fs)
    requires Shape(fs) && b < fs.sb.size
    ensures Shape(g) && g.sb == fs.sb
  {
    WriteBlock(Mark(fs, b, true), b, Zeros())
  }

  lemma {:induction false} AllocFrame(fs: Fs, b: nat)
    requires Inv(fs, {}) && b < fs.sb.size && !Used(fs, b)
    ensures var g := Alloc(fs, b);
      && SameSlots(fs, g) && fs.sb.data <= b && b !in fs.owner
      && forall c :: 0 <= c < fs.sb.size ==> (Used(g, c) <==> Used(fs, c) || c == b)
  {
    hide NoHoles, Used, IsBlock;
    var m, g := Mark(fs, b, true), Alloc(fs, b);
    assert fs.sb.data <= b && b !in fs.owner;
    BitmapBelowData(fs, b);
    SlotsFrame(fs, {}, g);
    forall c | 0 <= c < fs.sb.size ensures Used(g, c) <==> Used(fs, c) || c == b {
      MarkAt(fs, b, true, c);
      UsedFrame(m, g, c);
    }
  }

  lemma {:induction false} AllocBytes(fs: Fs, b: nat)
    requires Inv(fs, {}) && b < fs.sb.size && b !in fs.owner && fs.sb.data <= b
    requires SameSlots(fs, Alloc(fs, b))
    ensures KeepsBytes(fs, Alloc(fs, b))
  {
    hide NoHoles, Used, IsBlock, Slot, MarksMatch, OwnersName;
    var g := Alloc(fs, b);
    forall j, o | 0 <= j < |fs.inodes| && 0 <= o < MAXFILE * BSIZE && Slot(fs, j, Place(o / BSIZE)) != 0
      ensures ByteAt(fs, j, o) == ByteAt(g, j, o)
    {
      SlotOwned(fs, {}, j, Place(o / BSIZE));
      assert Slot(g, j, Place(o / BSIZE)) == Slot(fs, j, Place(o / BSIZE));
    }
  }

  lemma {:induction false} AllocNamed(fs: Fs, b: nat)
    requires Inv(fs, {}) && b < fs.sb.size && !Used(fs, b)
    ensures Named(Alloc(fs, b), {b}) && fs.sb.data <= b && b !in fs.owner && SameSlots(fs, Alloc(fs, b))
  {
    hide NoHoles, Used, IsBlock, Slot;
    AllocFrame(fs, b);
  }

  lemma {:induction false} AllocKeeps(fs: Fs, b: nat, i: nat)
    requires Inv(fs, {}) && b < fs.sb.size && !Used(fs, b)
    ensures var g := Alloc(fs, b);
      && Inv(g, {b}) && g.blocks[b] == Zeros() && b !in fs.owner && fs.sb.data <= b
      && SameSlots(fs, g) && g.inodes == fs.inodes && Grown(fs, g, i)
  {
    hide NoHoles, Used, IsBlock, Slot, Named, KeepsBytes;
    AllocNamed(fs, b);
    NoHolesFrame(fs, Alloc(fs, b));
    AllocBytes(fs, b);
  }

  // ---- bmap() stores the new block ----

  function Indirect(fs: Fs, i: nat): nat
    requires Shape(fs) && i < |fs.inodes|
  {
    fs.inodes[i].addrs[NDIRECT]
  }

  predicate CanAdopt(fs: Fs, i: nat, k: nat, b: nat)
    requires Shape(fs)
  {
    && i < |fs.inodes| && k < NSLOT && 0 < b < fs.sb.size
    && Slot(fs, i, k) == 0
    && (k == NDIRECT ==> fs.blocks[b] == Zeros())
    && (k > NDIRECT ==> 0 < Indirect(fs, i) < fs.sb.size)
  }

  // ip->addrs[k] = b, or a[k'] = b in the indirect block.
  function Adopt(fs: Fs, i: nat, k: nat, b: nat): (g: Fs)
    requires Shape(fs) && CanAdopt(fs, i, k, b)
    ensures Shape(g) && g.sb == fs.sb && |g.inodes| == |fs.inodes|
    ensures forall j :: 0 <= j < |fs.inodes| ==> g.inodes[j].size == fs.inodes[j].size
    ensures g.owner == fs.owner[b := (i, k)]
  {
    var ino := fs.inodes[i];
    if k <= NDIRECT then
      fs.(inodes := fs.inodes[i := ino.(addrs := ino.addrs[k := b])], owner := fs.owner[b := (i, k)])
    else
      var a := ino.addrs[NDIRECT];
      fs.(blocks := fs.blocks[a := PutWord(fs.blocks[a], k - NDIRECT - 1, b)], owner := fs.owner[b := (i, k)])
  }

  lemma {:induction false} ZeroWords(w: nat)
    requires w < NINDIRECT
    ensures Word(Zeros(), w) == 0
  {
  }

  lemma {:induction false} AdoptSlot(fs: Fs, extra: set<nat>, i: nat, k: nat, b: nat, j: nat, l: nat)
    requires Shape(fs) && Named(fs, extra) && CanAdopt(fs, i, k, b) && j < |fs.inodes| && l < NSLOT
    ensures Slot(Adopt(fs, i, k, b), j, l) == if j == i && l == k then b else Slot(fs, j, l)
  {
    hide Used, IsBlock, PutWord, Word, Zeros;
    if k == NDIRECT && l > NDIRECT && j == i {
      ZeroWords(l - NDIRECT - 1);
    } else if k > NDIRECT && l > NDIRECT {
      SlotOwned(fs, extra, i, NDIRECT);
      if j == i {
        WordRoundTrip(fs.blocks[Indirect(fs, i)], k - NDIRECT - 1, b, l - NDIRECT - 1);
      } else if Slot(fs, j, NDIRECT) != 0 {
        SlotOwned(fs, extra, j, NDIRECT);
      }
    }
  }

  lemma {:induction false} AdoptUsed(fs: Fs, extra: set<nat>, i: nat, k: nat, b: nat, c: nat)
    requires Shape(fs) && Named(fs, extra) && CanAdopt(fs, i, k, b) && c < fs.sb.size
    ensures Used(Adopt(fs, i, k, b), c) == Used(fs, c)
  {
    hide Used, IsBlock, PutWord;
    if k > NDIRECT { SlotOwned(fs, extra, i, NDIRECT); }
    UsedFrame(fs, Adopt(fs, i, k, b), c);
  }

  lemma {:induction false} AdoptSlotsOwned(fs: Fs, i: nat, k: nat, b: nat)
    requires Inv(fs, {b}) && CanAdopt(fs, i, k, b) && b !in fs.owner
    ensures SlotsOwned(Adopt(fs, i, k, b))
  {
    hide Used, IsBlock, Adopt, NoHoles, CanAdopt, Slot, MarksMatch, OwnersName;
    var g := Adopt(fs, i, k, b);
    forall j, l | 0 <= j < |g.inodes| && 0 <= l < NSLOT && Slot(g, j, l) != 0
      ensures Slot(g, j, l) in g.owner && g.owner[Slot(g, j, l)] == (j, l)
    {
      AdoptSlot(fs, {b}, i, k, b, j, l);
    }
  }

  lemma {:induction false} AdoptOwnersName(fs: Fs, i: nat, k: nat, b: nat)
    requires Inv(fs, {b}) && CanAdopt(fs, i, k, b) && fs.sb.data <= b && b !in fs.owner
    ensures OwnersName(Adopt(fs, i, k, b), {})
  {
    hide Used, IsBlock, Adopt, NoHoles, CanAdopt, Slot, MarksMatch;
    var g := Adopt(fs, i, k, b);
    AdoptPlace(fs, i, k, b);
    forall c | c in g.owner
      ensures fs.sb.data <= c < fs.sb.size && g.owner[c].0 < |g.inodes| && g.owner[c].1 < NSLOT
      ensures Slot(g, g.owner[c].0, g.owner[c].1) == c
    {
      AdoptSlot(fs, {b}, i, k, b, g.owner[c].0, g.owner[c].1);
    }
  }

  lemma {:induction false} AdoptNamed(fs: Fs, i: nat, k: nat, b: nat)
    requires Inv(fs, {b}) && CanAdopt(fs, i, k, b) && fs.sb.data <= b
    ensures Named(Adopt(fs, i, k, b), {})
  {
    hide Used, IsBlock, Adopt, NoHoles, CanAdopt, Slot, SlotsOwned;
    var g := Adopt(fs, i, k, b);
    assert b !in fs.owner;
    AdoptSlotsOwned(fs, i, k, b);
    AdoptOwnersName(fs, i, k, b);
    forall c | 0 <= c < fs.sb.size ensures Used(g, c) == Used(fs, c) {
      AdoptUsed(fs, {b}, i, k, b, c);
    }
  }

  lemma {:induction false} AdoptPlace(fs: Fs, i: nat, k: nat, b: nat)
    requires Shape(fs) && CanAdopt(fs, i, k, b)
    ensures i < |fs.inodes| && k < NSLOT && b < fs.sb.size && Slot(fs, i, k) == 0
  {
  }

  lemma {:induction false} AdoptKeeps(fs: Fs, i: nat, k: nat, b: nat)
    requires Inv(fs, {b}) && CanAdopt(fs, i, k, b) && fs.sb.data <= b
    ensures var g := Adopt(fs, i, k, b);
      && Inv(g, {}) && Slot(g, i, k) == b
      && Grown(fs, g, i)
      && forall l :: 0 <= l < NSLOT && l != k ==> Slot(g, i, l) == Slot(fs, i, l)
  {
    hide Used, IsBlock, Named, Slot, CanAdopt, Adopt, ByteAt;
    var g := Adopt(fs, i, k, b);
    AdoptNamed(fs, i, k, b);
    forall j, l | 0 <= j < |fs.inodes| && 0 <= l < NSLOT
      ensures Slot(g, j, l) == if j == i && l == k then b else Slot(fs, j, l)
    {
      AdoptSlot(fs, {b}, i, k, b, j, l);
    }
    AdoptPlace(fs, i, k, b);
    forall j | 0 <= j < |g.inodes| ensures NoHoles(g, j) {
      assert NoHoles(fs, j);
    }
    forall j, o | 0 <= j < |fs.inodes| && 0 <= o < MAXFILE * BSIZE && Slot(fs, j, Place(o / BSIZE)) != 0
      ensures ByteAt(fs, j, o) == ByteAt(g, j, o)
    {
      AdoptByte(fs, i, k, b, j, o);
    }
  }

  lemma {:induction false} AdoptByte(fs: Fs, i: nat, k: nat, b: nat, j: nat, o: nat)
    requires Inv(fs, {b}) && CanAdopt(fs, i, k, b) && j < |fs.inodes| && o < MAXFILE * BSIZE
    requires Slot(fs, j, Place(o / BSIZE)) != 0
    ensures ByteAt(fs, j, o) == ByteAt(Adopt(fs, i, k, b), j, o)
  {
    hide Used, IsBlock, Adopt, PutWord, Slot;
    var l := Place(o / BSIZE);
    AdoptPlace(fs, i, k, b);
    AdoptSlot(fs, {b}, i, k, b, j, l);
    SlotOwned(fs, {b}, j, l);
    AdoptBlocks(fs, i, k, b, Slot(fs, j, l));
  }

  lemma {:induction false} AdoptBlocks(fs: Fs, i: nat, k: nat, b: nat, c: nat)
    requires Inv(fs, {b}) && CanAdopt(fs, i, k, b)
    requires c in fs.owner && c < fs.sb.size && fs.owner[c].1 != NDIRECT
    ensures Adopt(fs, i, k, b).blocks[c] == fs.blocks[c]
  {
    hide Used, IsBlock, PutWord;
    if k > NDIRECT { SlotOwned(fs, {b}, i, NDIRECT); }
  }

  // ---- writei() copies into one block ----

  function Overlay(b: Block, at: nat, data: seq<int>): (r: Block)
    requires IsBlock(b) && at + |data| <= BSIZE && Bytes(data)
    ensures IsBlock(r)
    ensures forall o :: 0 <= o < BSIZE ==> r[o] == if at <= o < at + |data| then data[o - at] else b[o]
  {
    b[..at] + data + b[at + |data|..]
  }

  predicate CanPoke(fs: Fs, i: nat, off: nat, data: seq<int>)
    requires Shape(fs)
  {
    && i < |fs.inodes| && off < MAXFILE * BSIZE && off % BSIZE + |data| <= BSIZE
    && 0 < Slot(fs, i, Place(off / BSIZE)) < fs.sb.size
    && Bytes(data)
  }

  function Poke(fs: Fs, i: nat, off: nat, data: seq<int>): (g: Fs)
    requires Shape(fs) && CanPoke(fs, i, off, data)
    ensures Shape(g) && g.sb == fs.sb && g.inodes == fs.inodes && g.owner == fs.owner
  {
    var b := Slot(fs, i, Place(off / BSIZE));
    WriteBlock(fs, b, Overlay(fs.blocks[b], off % BSIZE, data))
  }

  lemma {:induction false} PokeSlots(fs: Fs, i: nat, off: nat, data: seq<int>)
    requires Inv(fs, {}) && CanPoke(fs, i, off, data)
    ensures SameSlots(fs, Poke(fs, i, off, data))
  {
    hide Used, IsBlock, Slot, Overlay;
    SlotOwned(fs, {}, i, Place(off / BSIZE));
    SlotsFrame(fs, {}, Poke(fs, i, off, data));
  }

  lemma {:induction false} PokeKeeps(fs: Fs, i: nat, off: nat, data: seq<int>)
    requires Inv(fs, {}) && CanPoke(fs, i, off, data)
    ensures Inv(Poke(fs, i, off, data), {}) && SameSlots(fs, Poke(fs, i, off, data))
    ensures forall j :: 0 <= j < |fs.inodes| && j != i ==> SameFile(fs, Poke(fs, i, off, data), j)
  {
    hide Used, IsBlock, Slot, Overlay, SameFile, NoHoles;
    var g := Poke(fs, i, off, data);
    PokeSlots(fs, i, off, data);
    NoHolesFrame(fs, g);
    SlotOwned(fs, {}, i, Place(off / BSIZE));
    forall c | 0 <= c < fs.sb.size ensures Used(g, c) == Used(fs, c) {
      UsedFrame(fs, g, c);
    }
    forall j | 0 <= j < |fs.inodes| && j != i ensures SameFile(fs, g, j) {
      FileFrame(fs, {}, g, j);
    }
  }

  // Exactly the bytes at off .. off + |data| of file i change.
  lemma {:induction false} PokeAt(fs: Fs, i: nat, off: nat, data: seq<int>, o: nat)
    requires Inv(fs, {}) && CanPoke(fs, i, off, data) && o < MAXFILE * BSIZE
    ensures ByteAt(Poke(fs, i, off, data), i, o)
         == if off <= o < off + |data| then data[o - off] else ByteAt(fs, i, o)
  {
    hide Used, IsBlock, Slot;
    PokeSlots(fs, i, off, data);
    var k, l := Place(off / BSIZE), Place(o / BSIZE);
    SlotOwned(fs, {}, i, k);
    if Slot(fs, i, l) != 0 { SlotOwned(fs, {}, i, l); }
    if o / BSIZE == off / BSIZE {
      assert off <= o < off + |data| <==> off % BSIZE <= o % BSIZE < off % BSIZE + |data|;
    } else {
      assert k != l;
    }
  }

  function Resize(fs: Fs, i: nat, size: nat): (g: Fs)
    requires Shape(fs) && i < |fs.inodes|
    ensures Shape(g)
  {
    fs.(inodes := fs.inodes[i := fs.inodes[i].(size := size)])
  }

  lemma {:induction false} ResizeKeeps(fs: Fs, i: nat, size: nat)
    requires Inv(fs, {}) && i < |fs.inodes| && size <= MAXFILE * BSIZE
    requires forall bn :: 0 <= bn < MAXFILE && bn * BSIZE < size ==> Slot(fs, i, Place(bn)) != 0
    ensures Inv(Resize(fs, i, size), {}) && SameSlots(fs, Resize(fs, i, size))
    ensures forall j :: 0 <= j < |fs.inodes| && j != i ==> SameFile(fs, Resize(fs, i, size), j)
    ensures forall o :: 0 <= o < MAXFILE * BSIZE ==> ByteAt(Resize(fs, i, size), i, o) == ByteAt(fs, i, o)
  {
    hide Used, IsBlock, SameFile;
    var g := Resize(fs, i, size);
    assert SameSlots(fs, g);
    forall j | 0 <= j < |fs.inodes| && j != i ensures NoHoles(g, j) && SameFile(fs, g, j) {
      assert NoHoles(fs, j);
      forall bn | 0 <= bn < MAXFILE && bn * BSIZE < g.inodes[j].size ensures Slot(g, j, Place(bn)) != 0 {
        assert Slot(fs, j, Place(bn)) == Slot(g, j, Place(bn));
      }
      FileFrame(fs, {}, g, j);
    }
    forall c | 0 <= c < fs.sb.size ensures Used(g, c) == Used(fs, c) {
      UsedFrame(fs, g, c);
    }
    forall o | 0 <= o < MAXFILE * BSIZE ensures ByteAt(g, i, o) == ByteAt(fs, i, o) {
      assert Slot(fs, i, Place(o / BSIZE)) == Slot(g, i, Place(o / BSIZE));
    }
  }

  // ---- itrunc() ----

  // The blocks that inode i names.
  function Holdings(fs: Fs, i: nat): (r: set<nat>)
    ensures forall b :: b in r <==> b in fs.owner && fs.owner[b].0 == i
  {
    set b | b in fs.owner && fs.owner[b].0 == i
  }

  // g is fs with the blocks of inode i unmarked and the inode emptied.
  predicate Truncated(fs: Fs, i: nat, g: Fs) {
    && Shape(fs) && Shape(g) && g.sb == fs.sb && i < |fs.inodes|
    && g.inodes == fs.inodes[i := Inode(seq(NDIRECT + 1, _ => 0), 0)]
    && g.owner == fs.owner - Holdings(fs, i)
    && (forall b :: fs.sb.data <= b < fs.sb.size ==> g.blocks[b] == fs.blocks[b])
    && (forall b :: 0 <= b < fs.sb.size ==> (Used(g, b) <==> Used(fs, b) && b !in Holdings(fs, i)))
  }

  lemma {:induction false} TruncatedSlot(fs: Fs, i: nat, g: Fs, j: nat, k: nat)
    requires Inv(fs, {}) && Truncated(fs, i, g) && j < |fs.inodes| && k < NSLOT
    ensures Slot(g, j, k) == if j == i then 0 else Slot(fs, j, k)
  {
    hide Used, IsBlock, Word;
    if j != i && k > NDIRECT && Slot(fs, j, NDIRECT) != 0 { SlotOwned(fs, {}, j, NDIRECT); }
  }

  lemma {:induction false} TruncatedNamed(fs: Fs, i: nat, g: Fs)
    requires Inv(fs, {}) && Truncated(fs, i, g)
    ensures Named(g, {})
  {
    hide Used, IsBlock, Slot;
    forall j, k | 0 <= j < |g.inodes| && 0 <= k < NSLOT && Slot(g, j, k) != 0
      ensures Slot(g, j, k) in g.owner && g.owner[Slot(g, j, k)] == (j, k)
    {
      TruncatedSlot(fs, i, g, j, k);
    }
    forall b | b in g.owner ensures Slot(g, g.owner[b].0, g.owner[b].1) == b {
      TruncatedSlot(fs, i, g, g.owner[b].0, g.owner[b].1);
    }
  }

  lemma {:induction false} TruncatedKeeps(fs: Fs, i: nat, g: Fs)
    requires Inv(fs, {}) && Truncated(fs, i, g)
    ensures Inv(g, {}) && Content(g, i) == []
    ensures forall j :: 0 <= j < |fs.inodes| && j != i ==> SameFile(fs, g, j)
  {
    hide Used, IsBlock, Slot, Named, SameFile;
    TruncatedNamed(fs, i, g);
    forall j | 0 <= j < |fs.inodes| ensures NoHoles(g, j) && (j != i ==> SameFile(fs, g, j)) {
      assert NoHoles(fs, j);
      forall k | 0 <= k < NSLOT ensures Slot(g, j, k) == if j == i then 0 else Slot(fs, j, k) {
        TruncatedSlot(fs, i, g, j, k);
      }
      if j != i { TruncatedFile(fs, i, g, j); }
    }
  }

  lemma {:induction false} TruncatedFile(fs: Fs, i: nat, g: Fs, j: nat)
    requires Inv(fs, {}) && Truncated(fs, i, g) && j < |fs.inodes| && j != i
    ensures SameFile(fs, g, j)
  {
    hide Used, IsBlock, Slot, SameFile;
    forall k | 0 <= k < NSLOT ensures Slot(g, j, k) == Slot(fs, j, k) {
      TruncatedSlot(fs, i, g, j, k);
    }
    FileFrame(fs, {}, g, j);
  }

  // ---- a write in progress ----

  function Max(a: nat, b: nat): nat {
    if a < b then b else a
  }

  // data replaces what s holds from position off on, extending s if need be.
  function Spliced(s: seq<int>, off: nat, data: seq<int>): seq<int>
    requires off <= |s|
  {
    s[..off] + data + (if off + |data| < |s| then s[off + |data|..] else [])
  }

  // f is f0 with data written to file i at off; sizes are not yet updated.
  predicate Written(f0: Fs, f: Fs, i: nat, off: nat, data: seq<int>) {
    && Shape(f0) && Shape(f) && f.sb == f0.sb && |f.inodes| == |f0.inodes| && i < |f.inodes|
    && (forall j :: 0 <= j < |f0.inodes| ==> f.inodes[j].size == f0.inodes[j].size)
    && (forall j :: 0 <= j < |f0.inodes| && j != i ==> SameFile(f0, f, j))
    && (forall o :: 0 <= o < Max(f0.inodes[i].size, off + |data|) && o < MAXFILE * BSIZE ==>
          Slot(f, i, Place(o / BSIZE)) != 0 && ByteAt(f, i, o) == Expected(f0, i, off, data, o))
  }

  function Expected(f0: Fs, i: nat, off: nat, data: seq<int>, o: nat): int
    requires Shape(f0) && i < |f0.inodes| && o < MAXFILE * BSIZE
  {
    if off <= o < off + |data| then data[o - off] else ByteAt(f0, i, o)
  }

  lemma {:induction false} WrittenNothing(f: Fs, i: nat, off: nat)
    requires Inv(f, {}) && i < |f.inodes| && off <= f.inodes[i].size
    ensures Written(f, f, i, off, [])
  {
    hide Slot, ByteAt, Named;
    assert NoHoles(f, i);
    forall o | 0 <= o < f.inodes[i].size && o < MAXFILE * BSIZE ensures Slot(f, i, Place(o / BSIZE)) != 0 {
      assert o / BSIZE * BSIZE < f.inodes[i].size;
    }
  }

  lemma {:induction false} WrittenGrown(f0: Fs, f: Fs, g: Fs, i: nat, off: nat, data: seq<int>)
    requires Written(f0, f, i, off, data) && Grown(f, g, i)
    requires forall j :: 0 <= j < |f.inodes| ==> NoHoles(f, j)
    ensures Written(f0, g, i, off, data)
  {
    hide Slot, ByteAt, NoHoles, SameFile;
    forall j | 0 <= j < |f0.inodes| && j != i ensures SameFile(f0, g, j) {
      GrownFile(f, g, i, j);
      SameFileTransitive(f0, f, g, j);
    }
    forall o | 0 <= o < Max(f0.inodes[i].size, off + |data|) && o < MAXFILE * BSIZE
      ensures Slot(g, i, Place(o / BSIZE)) != 0 && ByteAt(g, i, o) == Expected(f0, i, off, data, o)
    {
      assert Slot(f, i, Place(o / BSIZE)) != 0;
      assert Slot(g, i, Place(o / BSIZE)) == Slot(f, i, Place(o / BSIZE));
      assert ByteAt(f, i, o) == ByteAt(g, i, o);
    }
  }

  lemma {:induction false} WrittenPoked(f0: Fs, f: Fs, i: nat, off: nat, data: seq<int>, more: seq<int>)
    requires Written(f0, f, i, off, data) && Inv(f, {}) && CanPoke(f, i, off + |data|, more)
    requires off <= f0.inodes[i].size
    ensures Written(f0, Poke(f, i, off + |data|, more), i, off, data + more)
  {
    hide Slot, ByteAt, NoHoles, Named, Poke, SameFile, CanPoke;
    var at := off + |data|;
    var g := Poke(f, i, at, more);
    PokeKeeps(f, i, at, more);
    forall j | 0 <= j < |f0.inodes| && j != i ensures SameFile(f0, g, j) {
      SameFileTransitive(f0, f, g, j);
    }
    forall o | 0 <= o < Max(f0.inodes[i].size, at + |more|) && o < MAXFILE * BSIZE
      ensures Slot(g, i, Place(o / BSIZE)) != 0 && ByteAt(g, i, o) == Expected(f0, i, off, data + more, o)
    {
      assert o / BSIZE < MAXFILE;
      PokedByte(f0, f, i, off, data, more, o, g);
    }
  }

  lemma {:induction false} SameFileTransitive(f: Fs, g: Fs, h: Fs, j: nat)
    requires Shape(f) && Shape(g) && Shape(h) && j < |f.inodes| && j < |g.inodes| && j < |h.inodes|
    requires SameFile(f, g, j) && SameFile(g, h, j)
    ensures SameFile(f, h, j)
  {
  }

  lemma {:induction false} PokedByte(f0: Fs, f: Fs, i: nat, off: nat, data: seq<int>, more: seq<int>, o: nat, g: Fs)
    requires Written(f0, f, i, off, data) && Inv(f, {}) && CanPoke(f, i, off + |data|, more)
    requires off <= f0.inodes[i].size && g == Poke(f, i, off + |data|, more)
    requires o < Max(f0.inodes[i].size, off + |data| + |more|) && o < MAXFILE * BSIZE && o / BSIZE < MAXFILE
    ensures Slot(g, i, Place(o / BSIZE)) != 0 && ByteAt(g, i, o) == Expected(f0, i, off, data + more, o)
  {
    hide Slot, ByteAt, NoHoles, Named, Poke, SameFile;
    var at := off + |data|;
    PokeAt(f, i, at, more, o);
    PokeSlots(f, i, at, more);
    if at <= o < at + |more| {
      assert o / BSIZE == at / BSIZE;
    }
  }

  // Setting the size completes the write.
  lemma {:induction false} WrittenContent(f0: Fs, f: Fs, i: nat, off: nat, data: seq<int>)
    requires Inv(f0, {}) && Written(f0, f, i, off, data) && Inv(f, {})
    requires off <= f0.inodes[i].size && off + |data| <= MAXFILE * BSIZE
    ensures f0.inodes[i].size <= MAXFILE * BSIZE
    ensures var g := Resize(f, i, Max(f0.inodes[i].size, off + |data|));
      && Inv(g, {}) && Content(g, i) == Spliced(Content(f0, i), off, data)
      && forall j :: 0 <= j < |f0.inodes| && j != i ==> SameFile(f0, g, j)
  {
    hide Slot, ByteAt, Named, SameFile;
    var size := Max(f0.inodes[i].size, off + |data|);
    var g := Resize(f, i, size);
    assert NoHoles(f0, i);
    forall bn | 0 <= bn < MAXFILE && bn * BSIZE < size ensures Slot(f, i, Place(bn)) != 0 {
      assert (bn * BSIZE) / BSIZE == bn;
      assert Slot(f, i, Place((bn * BSIZE) / BSIZE)) != 0;
    }
    ResizeKeeps(f, i, size);
    forall j | 0 <= j < |f0.inodes| && j != i ensures SameFile(f0, g, j) {
      SameFileTransitive(f0, f, g, j);
    }
    var want := Spliced(Content(f0, i), off, data);
    forall o | 0 <= o < size ensures Content(g, i)[o] == want[o] {
      assert ByteAt(f, i, o) == Expected(f0, i, off, data, o);
    }
  }
}

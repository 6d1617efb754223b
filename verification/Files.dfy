// The block and inode layers of kernel/fs.c, and filewrite() of kernel/file.c:
// the loops that update the image in place, one logged block at a time.
module Files {
  import opened FsImage
  import opened Prelude

  class FileSystem {
    // The image as bread() shows it inside a transaction; fs.inodes are the
    // in-memory inodes, dinodes what iupdate() has put on disk.
    var fs: Fs
    var dinodes: seq<Inode>
    // The blocks passed to log_write() in the running transaction.
    ghost var logged: set<nat>

    // An image without files, as mkfs makes it: the bits of the blocks below the
    // data blocks are set.
    constructor (sb: Super, n: nat)
      requires Shape(Blank(sb, n))
      ensures Inv(fs, {}) && fs.sb == sb && |fs.inodes| == n && dinodes == fs.inodes && logged == {}
      ensures forall i :: 0 <= i < n ==> fs.inodes[i].size == 0 && Content(fs, i) == []
      ensures forall b :: 0 <= b < sb.size ==> (Used(fs, b) <==> b < sb.data)
    {
      fs, dinodes, logged := Blank(sb, n), Blank(sb, n).inodes, {};
      new;
      hide Used, IsBlock, Bit;
      forall b | 0 <= b < sb.size ensures !Used(fs, b) { BlankUnused(sb, n, b); }
      var b := 0;
      while b < sb.data
        invariant 0 <= b <= sb.data && Shape(fs) && fs.sb == sb && fs.inodes == Blank(sb, n).inodes && fs.owner == map[]
        invariant dinodes == fs.inodes && logged == {}
        invariant forall c :: 0 <= c < sb.size ==> (Used(fs, c) <==> c < b)
      {
        forall c | 0 <= c < sb.size ensures Used(Mark(fs, b, true), c) == if c == b then true else Used(fs, c) {
          MarkAt(fs, b, true, c);
        }
        fs := Mark(fs, b, true);
        b := b + 1;
      }
      NoFiles(fs);
    }

    // The inner loop of balloc(): the first clear bit of the bitmap block that
    // covers b, or the first bit past it.
    method FirstClear(b: nat) returns (bi: nat)
      requires Shape(fs) && b < fs.sb.size && b % BPB == 0
      ensures bi <= BPB && (bi < BPB && b + bi < fs.sb.size ==> !Used(fs, b + bi))
      ensures forall c :: b <= c < b + bi && c < fs.sb.size ==> Used(fs, c)
    {
      hide Bit, IsBlock;
      bi := 0;
      while bi < BPB && b + bi < fs.sb.size
        invariant 0 <= bi <= BPB
        invariant forall c :: b <= c < b + bi && c < fs.sb.size ==> Used(fs, c)
      {
        BitIsUsed(fs, b, bi);
        if !Bit(fs.blocks[Bblock(fs.sb, b)], bi) { return; }
        bi := bi + 1;
      }
    }

    // balloc(): the first block whose bit is clear, marked and zeroed; 0 when
    // there is none.
    method Balloc() returns (r: nat)
      requires Inv(fs, {})
      modifies this`fs, this`logged
      ensures r == 0 <==> old(NoneFree(fs))
      ensures r == 0 ==> fs == old(fs) && logged == old(logged)
      ensures r != 0 ==>
        && r < old(fs).sb.size && !Used(old(fs), r) && (forall c :: 0 <= c < r ==> Used(old(fs), c))
        && fs == Alloc(old(fs), r)
        && logged == old(logged) + {Bblock(old(fs).sb, r), r}
    {
      hide Named, NoHoles, Used, Shape;
      var b := 0;
      while b < fs.sb.size
        invariant fs == old(fs) && logged == old(logged)
        invariant b % BPB == 0
        invariant forall c :: 0 <= c < b && c < fs.sb.size ==> Used(fs, c)
      {
        var bi := FirstClear(b);
        if bi < BPB && b + bi < fs.sb.size {
          r := b + bi;
          FreeIsData(fs, r);
          BitIsUsed(fs, b, bi);
          fs := fs.(blocks := fs.blocks[Bblock(fs.sb, b) := PutBit(fs.blocks[Bblock(fs.sb, b)], bi, true)]);
          logged := logged + {Bblock(fs.sb, b)};
          assert fs == Mark(old(fs), r, true);
          Bzero(r);
          return;
        }
        b := b + BPB;
      }
      r := 0;
    }

    // bzero()
    method Bzero(b: nat)
      requires Shape(fs) && b < fs.sb.size
      modifies this`fs, this`logged
      ensures fs == WriteBlock(old(fs), b, Zeros()) && logged == old(logged) + {b}
    {
      fs := fs.(blocks := fs.blocks[b := Zeros()]);
      logged := logged + {b};
    }

    // bfree(); the precondition is the check that panics.
    method Bfree(b: nat)
      requires Shape(fs) && b < fs.sb.size && Used(fs, b)
      modifies this`fs, this`logged
      ensures fs == Mark(old(fs), b, false) && logged == old(logged) + {Bblock(fs.sb, b)}
    {
      var bp := Bblock(fs.sb, b);
      fs := fs.(blocks := fs.blocks[bp := PutBit(fs.blocks[bp], b % BPB, false)]);
      logged := logged + {bp};
    }

    // iupdate()
    method Iupdate(inum: nat)
      requires inum < |fs.inodes| && inum < |dinodes|
      modifies this`dinodes, this`logged
      ensures dinodes == old(dinodes)[inum := fs.inodes[inum]]
      ensures logged == old(logged) + {Iblock(fs.sb, inum)}
    {
      dinodes := dinodes[inum := fs.inodes[inum]];
      logged := logged + {Iblock(fs.sb, inum)};
    }

    // balloc(), and store the block in the empty place k of the inode.
    method Extend(inum: nat, k: nat) returns (b: nat)
      requires Inv(fs, {}) && inum < |fs.inodes| && k < NSLOT && Slot(fs, inum, k) == 0
      requires k > NDIRECT ==> Slot(fs, inum, NDIRECT) != 0
      modifies this`fs, this`logged
      ensures Inv(fs, {}) && Grown(old(fs), fs, inum) && b == Slot(fs, inum, k)
      ensures fs.sb == old(fs).sb && |fs.inodes| == |old(fs).inodes|
      ensures forall l :: 0 <= l < NSLOT && l != k ==> Slot(fs, inum, l) == Slot(old(fs), inum, l)
      ensures b == 0 <==> old(NoneFree(fs))
      ensures b == 0 ==> fs == old(fs) && logged == old(logged)
      ensures b != 0 ==> logged == old(logged) + {Bblock(fs.sb, b), b}
                                   + (if k > NDIRECT then {Slot(old(fs), inum, NDIRECT)} else {})
      ensures old(logged) <= logged && Covered(old(fs), fs, logged)
    {
      hide Named, NoHoles, Used, Slot, Grown, Alloc;
      ghost var f0 := fs;
      GrownRefl(fs, inum);
      b := Balloc();
      if b == 0 { return; }
      AllocKeeps(f0, b, inum);
      AllocCovered(f0, b);
      ghost var f1 := fs;
      assert Slot(f1, inum, k) == 0;
      AdoptAllowed(f1, {b}, inum, k, b);
      var ino := fs.inodes[inum];
      if k <= NDIRECT {
        fs := fs.(inodes := fs.inodes[inum := ino.(addrs := ino.addrs[k := b])], owner := fs.owner[b := (inum, k)]);
      } else {
        var a := ino.addrs[NDIRECT];
        fs := fs.(blocks := fs.blocks[a := PutWord(fs.blocks[a], k - NDIRECT - 1, b)],
                  owner := fs.owner[b := (inum, k)]);
        logged := logged + {a};
      }
      assert fs == Adopt(f1, inum, k, b);
      AdoptKeeps(f1, inum, k, b);
      GrownAgain(f0, f1, fs, inum);
    }

    // bmap(): the block that holds block bn of the file, added if missing;
    // 0 when the disk is full. The precondition is the check that panics.
    method Bmap(inum: nat, bn: nat) returns (addr: nat)
      requires Inv(fs, {}) && inum < |fs.inodes| && bn < MAXFILE
      modifies this`fs, this`logged
      ensures Inv(fs, {}) && Grown(old(fs), fs, inum) && addr == Slot(fs, inum, Place(bn))
      ensures fs.sb == old(fs).sb && |fs.inodes| == |old(fs).inodes|
      ensures old(Slot(fs, inum, Place(bn))) != 0 ==> fs == old(fs) && logged == old(logged)
      ensures forall l :: 0 <= l < NSLOT && l != Place(bn) && l != NDIRECT ==>
                Slot(fs, inum, l) == Slot(old(fs), inum, l)
      ensures addr == 0 ==> NoneFree(fs)
      ensures logged <= old(logged) + IndirectBlocks(fs, inum) + (if addr == 0 then {} else {addr, Bblock(fs.sb, addr)})
      ensures old(logged) <= logged && Covered(old(fs), fs, logged)
    {
      hide Named, NoHoles, Used, Slot, Grown;
      ghost var f0 := fs;
      GrownRefl(fs, inum);
      SlotIsAddr(fs, inum);
      if bn < NDIRECT {
        addr := fs.inodes[inum].addrs[bn];
        if addr == 0 {
          addr := Extend(inum, bn);
        }
        return;
      }
      if fs.inodes[inum].addrs[NDIRECT] == 0 {
        NoIndirect(fs, inum, Place(bn));
        addr := Extend(inum, NDIRECT);
        if addr == 0 {
          NoIndirect(fs, inum, Place(bn));
          return;
        }
      }
      ghost var f1 := fs;
      SlotIsAddr(fs, inum);
      SlotIsWord(fs, {}, inum, Place(bn));
      addr := Word(fs.blocks[fs.inodes[inum].addrs[NDIRECT]], bn - NDIRECT);
      if addr == 0 {
        addr := Extend(inum, Place(bn));
        GrownAgain(f0, f1, fs, inum);
        SlotIsAddr(fs, inum);
      }
    }

    // One round of writei(): find or add the block, and copy chunk into it
    // unless the source cannot be read. after is the image in between.
    method WritePiece(inum: nat, off: nat, chunk: seq<int>, readable: bool)
      returns (ok: bool, ghost after: Fs, ghost touched: set<nat>)
      requires Inv(fs, {}) && inum < |fs.inodes| && off < MAXFILE * BSIZE
      requires off % BSIZE + |chunk| <= BSIZE && Bytes(chunk)
      modifies this`fs, this`logged
      ensures Inv(after, {}) && Grown(old(fs), after, inum)
      ensures fs.sb == old(fs).sb && |fs.inodes| == |old(fs).inodes|
      ensures ok ==> readable && CanPoke(after, inum, off, chunk) && fs == Poke(after, inum, off, chunk)
      ensures !ok ==> fs == after && (NoneFree(fs) || !readable)
      ensures logged <= old(logged) + touched + IndirectBlocks(fs, inum)
      ensures IndirectBlocks(old(fs), inum) <= IndirectBlocks(fs, inum)
      ensures |touched| <= if old(Slot(fs, inum, Place(off / BSIZE))) != 0 then 1 else 2
      ensures old(logged) <= logged && Covered(old(fs), fs, logged)
    {
      hide Named, NoHoles, Used, Slot, NoneFree;
      ghost var f0 := fs;
      var addr := Bmap(inum, off / BSIZE);
      after := fs;
      IndirectKept(f0, fs, inum);
      touched := if addr == 0 then {} else if fs == f0 then {addr} else {addr, Bblock(fs.sb, addr)};
      if addr == 0 || !readable {
        return false, after, touched;
      }
      NamedInRange(fs, {}, inum, Place(off / BSIZE));
      fs := fs.(blocks := fs.blocks[addr := Overlay(fs.blocks[addr], off % BSIZE, chunk)]);
      logged := logged + {addr};
      PokeSlots(after, inum, off, chunk);
      return true, after, touched;
    }

    // writei(): copy src into the file at off0. src holds the readable bytes of
    // the source, which may end before n: a copy that would run past them fails.
    method Writei(inum: nat, src: seq<int>, off0: nat, n: nat) returns (r: int)
      requires Inv(fs, {}) && inum < |fs.inodes| == |dinodes|
      requires Bytes(src) && off0 < UINT && n < UINT
      modifies this`fs, this`dinodes, this`logged
      ensures r == -1 <==> off0 > old(fs).inodes[inum].size || off0 + n >= UINT || off0 + n > MAXFILE * BSIZE
      ensures r == -1 ==> fs == old(fs) && dinodes == old(dinodes) && logged == old(logged)
      ensures Inv(fs, {}) && fs.sb == old(fs).sb && |fs.inodes| == |old(fs).inodes|
      ensures r != -1 ==> 0 <= r <= n && r <= |src|
      ensures r != -1 ==> Holds(old(fs), fs, inum, off0, src[..r])
      ensures r != -1 ==> dinodes == old(dinodes)[inum := fs.inodes[inum]]
      ensures 0 <= r < n ==> NoneFree(fs) || |src| < r + Piece(off0 + r, n - r)
      ensures old(logged) == {} ==> |logged| <= LogBound(off0, n)
      ensures old(logged) <= logged && Covered(old(fs), fs, logged)
      ensures r != -1 ==> Iblock(fs.sb, inum) in logged
    {
      hide Named, NoHoles, Used, Slot, NoneFree, Written, Holds, Poke, IndirectBlocks, Grown, CanPoke, Bytes,
           Weight, Blocks, Slack, Piece, Shape, Writing, Logs;
      SizeBound(fs, inum);
      WeightOfNothing(off0, n);
      if off0 > fs.inodes[inum].size || (off0 + n) % UINT < off0 {
        return -1;
      }
      if (off0 + n) % UINT > MAXFILE * BSIZE {
        return -1;
      }
      assert off0 + n <= MAXFILE * BSIZE;
      ghost var f0 := fs;
      WrittenNothing(fs, inum, off0);
      assert src[..0] == [];
      var tot, ok := 0, true;
      ghost var blocks: set<nat> := {};
      StartsWriting(fs, inum, src, off0, n, logged);
      while tot < n && ok
        invariant Writing(f0, fs, inum, src, off0, n, tot, ok) && tot <= n && tot <= |src|
        invariant Logs(f0, fs, inum, off0, n, tot, ok, old(logged), logged, blocks)
        invariant dinodes == old(dinodes)
        decreases n - tot, ok
      {
        ok, tot, blocks := WriteRound(inum, src, off0, n, tot, f0, old(logged), blocks);
      }
      WritingEnds(f0, fs, inum, src, off0, n, tot, ok, old(logged), logged, blocks);
      Finish(inum, off0 + tot, f0, src[..tot], off0);
      LoggedSize(old(logged), blocks, IndirectBlocks(fs, inum), Iblock(fs.sb, inum), logged);
      return tot;
    }

    // One round of the loop of writei().
    method WriteRound(inum: nat, src: seq<int>, off0: nat, n: nat, tot: nat, ghost f0: Fs, ghost logged0: set<nat>,
                      ghost blocks: set<nat>)
      returns (ok: bool, tot': nat, ghost blocks': set<nat>)
      requires tot < n && off0 + n <= MAXFILE * BSIZE && Bytes(src) && inum < |f0.inodes|
               && off0 <= f0.inodes[inum].size <= MAXFILE * BSIZE
      requires Inv(f0, {}) && Writing(f0, fs, inum, src, off0, n, tot, true)
               && Logs(f0, fs, inum, off0, n, tot, true, logged0, logged, blocks)
      modifies this`fs, this`logged
      ensures Writing(f0, fs, inum, src, off0, n, tot', ok)
              && Logs(f0, fs, inum, off0, n, tot', ok, logged0, logged, blocks')
      ensures tot' <= n && tot' <= |src| && (if ok then tot' > tot else tot' == tot)
    {
      hide Named, NoHoles, Used, Slot, NoneFree, Written, Poke, IndirectBlocks, Grown, CanPoke, Bytes, Weight, Blocks,
           Slack, Piece, Shape;
      ghost var f1 := fs;
      var off := off0 + tot;
      var m := Piece(off, n - tot);
      var readable := tot + m <= |src|;
      var chunk := if readable then src[tot..tot + m] else [];
      BytesSlice(src, tot, m);
      FirstMapped(f0, fs, inum, off0, src[..tot]);
      Count(off0, tot, n);
      ghost var after, touched;
      ok, after, touched := WritePiece(inum, off, chunk, readable);
      WrittenGrown(f0, f1, after, inum, off0, src[..tot]);
      UnionBound(blocks, touched);
      blocks' := blocks + touched;
      tot' := tot;
      if ok {
        WrittenPoked(f0, after, inum, off0, src[..tot], chunk);
        PokeKeeps(after, inum, off, chunk);
        assert src[..tot] + chunk == src[..tot + m];
        tot' := tot + m;
      }
    }

    // The end of writei(): record the new size and write the inode back.
    method Finish(inum: nat, off: nat, ghost f0: Fs, ghost data: seq<int>, ghost off0: nat)
      requires Inv(f0, {}) && Inv(fs, {}) && Written(f0, fs, inum, off0, data) && |dinodes| == |fs.inodes|
      requires off == off0 + |data| <= MAXFILE * BSIZE && off0 <= f0.inodes[inum].size
      modifies this`fs, this`dinodes, this`logged
      ensures Inv(fs, {}) && fs.sb == f0.sb && |fs.inodes| == |f0.inodes|
      ensures Holds(f0, fs, inum, off0, data)
      ensures dinodes == old(dinodes)[inum := fs.inodes[inum]]
      ensures NoneFree(old(fs)) ==> NoneFree(fs)
      ensures IndirectBlocks(fs, inum) == IndirectBlocks(old(fs), inum)
      ensures logged == old(logged) + {Iblock(fs.sb, inum)} && fs.blocks == old(fs).blocks
    {
      hide Named, NoHoles, Used, Slot, SameFile;
      WrittenContent(f0, fs, inum, off0, data);
      ghost var g := fs;
      if off > fs.inodes[inum].size {
        fs := fs.(inodes := fs.inodes[inum := fs.inodes[inum].(size := off)]);
      }
      assert fs == Resize(g, inum, Max(f0.inodes[inum].size, off));
      ResizeMarks(g, inum, Max(f0.inodes[inum].size, off));
      Iupdate(inum);
    }

    // readi(): copy up to n bytes of the file at off0 to a destination that
    // accepts room bytes. -1 is a failed copy; bytes is what was copied.
    method Readi(inum: nat, off0: nat, n: nat, room: nat) returns (r: int, bytes: seq<int>)
      requires Inv(fs, {}) && inum < |fs.inodes| && off0 < UINT && n < UINT
      modifies this`fs, this`logged
      ensures fs == old(fs) && logged == old(logged)
      ensures fs.inodes[inum].size <= MAXFILE * BSIZE
      ensures var size := fs.inodes[inum].size;
        if off0 > size || off0 + n >= UINT then r == 0 && bytes == []
        else
          var want := if off0 + n > size then size - off0 else n;
          if room < want then r == -1
          else r == want && bytes == Content(fs, inum)[off0..off0 + want]
    {
      hide Named, Used, Slot, NoneFree, Grown, ByteAt, Piece, NoHoles, Shape, Content, IndirectBlocks, Covered;
      SizeBound(fs, inum);
      bytes := [];
      var size := fs.inodes[inum].size;
      if off0 > size || (off0 + n) % UINT < off0 {
        return 0, [];
      }
      var n' := if (off0 + n) % UINT > size then size - off0 else n;
      var tot, off := 0, off0;
      while tot < n'
        invariant 0 <= tot <= n' && tot <= room && off == off0 + tot
        invariant fs == old(fs) && logged == old(logged)
        invariant bytes == Content(fs, inum)[off0..off0 + tot]
      {
        var m := Piece(off, n' - tot);
        PieceFits(off, n' - tot);
        if tot + m > room {
          return -1, bytes;
        }
        var chunk := ReadPiece(inum, off, m);
        SliceGrows(Content(fs, inum), off0, off, m);
        bytes := bytes + chunk;
        tot, off := tot + m, off + m;
      }
      return tot, bytes;
    }

    // One round of readi(): m bytes of one block, which is there.
    method ReadPiece(inum: nat, off: nat, m: nat) returns (chunk: seq<int>)
      requires Inv(fs, {}) && inum < |fs.inodes| && 0 < m && off % BSIZE + m <= BSIZE
               && off + m <= fs.inodes[inum].size <= MAXFILE * BSIZE
      modifies this`fs, this`logged
      ensures fs == old(fs) && logged == old(logged) && chunk == Content(fs, inum)[off..off + m]
    {
      hide Named, Used, Slot, NoneFree, Grown, ByteAt, NoHoles, Shape, Content, IndirectBlocks, Covered;
      Mapped(fs, inum, off);
      var addr := Bmap(inum, off / BSIZE);
      PieceOf(fs, inum, off, m);
      chunk := fs.blocks[addr][off % BSIZE..off % BSIZE + m];
    }

    // filewrite() on an inode file: chunks that fit in a transaction each.
    // offset is f->off; done counts the bytes that reached the file. images are
    // the image before and after each transaction.
    method Filewrite(inum: nat, src: seq<int>, offset: nat, n: int)
      returns (r: int, offset': nat, ghost done: nat, ghost transactions: seq<set<nat>>, ghost images: seq<Fs>)
      requires Inv(fs, {}) && inum < |fs.inodes| == |dinodes|
      requires Bytes(src) && offset < UINT && n < 0x8000_0000
      modifies this`fs, this`dinodes, this`logged
      ensures Inv(fs, {}) && done <= |src| && offset' == offset + done
      ensures r == (if n == done then n else -1)
      ensures old(fs).inodes[inum].size < offset ==> fs == old(fs) && done == 0
      ensures offset <= old(fs).inodes[inum].size ==> Holds(old(fs), fs, inum, offset, src[..done])
      ensures offset <= old(fs).inodes[inum].size && done < n ==> NoneFree(fs) || Stops(src, offset, n, done)
      ensures |images| == |transactions| + 1 && images[0] == old(fs) && images[|transactions|] == fs
      ensures forall t :: 0 <= t < |transactions| ==>
                |transactions[t]| <= MAXOPBLOCKS && Covered(images[t], images[t + 1], transactions[t])
    {
      hide Named, NoHoles, Used, Slot, NoneFree, Holds, Weight, Blocks, Slack, Piece, Bytes, Shape, LogBound;
      SizeBound(fs, inum);
      var max := (MAXOPBLOCKS - 1 - 1 - 2) / 2 * BSIZE;
      var i := 0;
      offset', transactions, images := offset, [], [fs];
      assert src[..0] == [];
      if offset <= fs.inodes[inum].size { HoldsNothing(fs, inum, offset); }
      ghost var f0 := fs;
      var ok := true;
      done := 0;
      while i < n && ok
        invariant 0 <= done <= |src| && offset' == offset + done && (n < 0 || done <= n)
        invariant if ok then i == done else done < n
        invariant offset' < UINT && |dinodes| == |fs.inodes| == |f0.inodes|
        invariant Inv(fs, {})
        invariant f0.inodes[inum].size < offset ==> fs == f0 && done == 0
        invariant offset <= f0.inodes[inum].size ==> Holds(f0, fs, inum, offset, src[..done])
        invariant !ok && offset <= f0.inodes[inum].size ==> NoneFree(fs) || Stops(src, offset, n, done)
        invariant |images| == |transactions| + 1 && images[0] == f0 && images[|transactions|] == fs
        invariant forall t :: 0 <= t < |transactions| ==>
                    |transactions[t]| <= MAXOPBLOCKS && Covered(images[t], images[t + 1], transactions[t])
        decreases n - i, ok
      {
        var n1 := if n - i > max then max else n - i;
        logged := {};
        ghost var f1 := fs;
        BytesSlice(src, i, |src| - i);
        assert src[i..i + (|src| - i)] == src[i..];
        var w := Writei(inum, src[i..], offset', n1);
        transactions, images := transactions + [logged], images + [fs];
        OneTransaction(offset', n1);
        SizeBound(f1, inum);
        if offset <= f0.inodes[inum].size {
          HoldsSize(f0, f1, inum, offset, src[..done]);
        }
        if 0 <= w < n1 {
          PieceGrows(offset' + w, n1 - w, n - i - w);
        }
        if w > 0 {
          assert src[..done] + src[i..][..w] == src[..done + w];
          HoldsMore(f0, f1, fs, inum, offset, src[..done], src[i..][..w]);
          offset' := offset' + w;
          done := done + w;
        } else if w == 0 {
          assert src[..done] + src[i..][..0] == src[..done];
          HoldsMore(f0, f1, fs, inum, offset, src[..done], src[i..][..0]);
        }
        if w != n1 {
          ok := false;
        } else {
          i := i + w;
        }
      }
      r := if i == n && ok then n else -1;
    }

    // if(a) bfree(a), for the block a that place k of the inode names.
    method FreePlace(inum: nat, k: nat, a: nat, ghost f0: Fs, ghost places: set<nat>)
      requires Inv(f0, {}) && inum < |f0.inodes| && k < NSLOT && k !in places && a == Slot(f0, inum, k)
      requires FreedTo(f0, inum, places, fs)
      modifies this`fs, this`logged
      ensures FreedTo(f0, inum, places + {k}, fs)
      ensures fs.inodes == old(fs).inodes && fs.owner == old(fs).owner
    {
      hide FreedTo, Inv, Slot, Used, IsBlock;
      FreedMore(f0, inum, places, k, fs);
      if a != 0 {
        Bfree(a);
      }
    }

    // itrunc(): free every block of the inode and empty it. No bfree() in it
    // panics, and no block of another file is touched.
    method Itrunc(inum: nat)
      requires Inv(fs, {}) && inum < |fs.inodes| == |dinodes|
      modifies this`fs, this`dinodes, this`logged
      ensures Inv(fs, {}) && Truncated(old(fs), inum, fs) && Content(fs, inum) == []
      ensures forall j :: 0 <= j < |fs.inodes| && j != inum ==> SameFile(old(fs), fs, j)
      ensures dinodes == old(dinodes)[inum := fs.inodes[inum]]
    {
      hide Named, NoHoles, Used, Slot, SameFile, FreedTo, Truncated, IsBlock;
      ghost var f0 := fs;
      var addrs := FreeDirect(inum);
      var ind := addrs[NDIRECT];
      SlotIsAddr(f0, inum);
      if ind != 0 {
        FreeIndirect(inum, ind, f0);
        addrs := addrs[NDIRECT := 0];
      } else {
        NoIndirectLeft(f0, inum, fs);
      }
      ghost var f1 := fs;
      fs := fs.(inodes := fs.inodes[inum := Inode(addrs, 0)], owner := fs.owner - Holdings(fs, inum));
      assert addrs == seq(NDIRECT + 1, _ => 0);
      AllFreed(f0, inum, f1, fs);
      TruncatedKeeps(f0, inum, fs);
      Iupdate(inum);
    }

    // The first loop of itrunc(). addrs is ip->addrs with the loop's zeros.
    method FreeDirect(inum: nat) returns (addrs: seq<nat>)
      requires Inv(fs, {}) && inum < |fs.inodes|
      modifies this`fs, this`logged
      ensures FreedTo(old(fs), inum, Below(NDIRECT), fs)
      ensures fs.inodes == old(fs).inodes && fs.owner == old(fs).owner && |addrs| == NDIRECT + 1
      ensures forall k :: 0 <= k <= NDIRECT ==> addrs[k] == if k < NDIRECT then 0 else fs.inodes[inum].addrs[k]
    {
      hide Named, NoHoles, Used, Slot, FreedTo, IsBlock;
      ghost var f0 := fs;
      SlotIsAddr(f0, inum);
      FreedNothing(f0, inum);
      addrs := fs.inodes[inum].addrs;
      for i := 0 to NDIRECT
        invariant fs.inodes == f0.inodes && fs.owner == f0.owner
        invariant FreedTo(f0, inum, Below(i), fs) && |addrs| == NDIRECT + 1
        invariant forall k :: 0 <= k <= NDIRECT ==> addrs[k] == if k < i then 0 else f0.inodes[inum].addrs[k]
      {
        FreePlace(inum, i, addrs[i], f0, Below(i));
        addrs := addrs[i := 0];
      }
    }

    // The second loop of itrunc(), and the indirect block itself.
    method FreeIndirect(inum: nat, ind: nat, ghost f0: Fs)
      requires Inv(f0, {}) && inum < |f0.inodes| && ind == Slot(f0, inum, NDIRECT) != 0
      requires FreedTo(f0, inum, Below(NDIRECT), fs)
      modifies this`fs, this`logged
      ensures FreedTo(f0, inum, Below(NSLOT), fs)
      ensures fs.inodes == old(fs).inodes && fs.owner == old(fs).owner
    {
      hide Named, NoHoles, Used, Slot, FreedTo, IsBlock, Below;
      SlotIsAddr(f0, inum);
      SlotIsWord(f0, {}, inum, NDIRECT + 1);
      ghost var places: set<nat> := Below(NDIRECT);
      for j := 0 to NINDIRECT
        invariant fs.inodes == old(fs).inodes && fs.owner == old(fs).owner
        invariant FreedTo(f0, inum, places, fs)
        invariant places == Below(NDIRECT + 1 + j) - {NDIRECT}
      {
        IndirectUnfreed(f0, inum, places, fs);
        SlotIsWord(f0, {}, inum, NDIRECT + 1 + j);
        FreePlace(inum, NDIRECT + 1 + j, Word(fs.blocks[ind], j), f0, places);
        NextPlace(j);
        places := places + {NDIRECT + 1 + j};
      }
      FreePlace(inum, NDIRECT, ind, f0, places);
      assert places + {NDIRECT} == Below(NSLOT);
    }
  }

  // After writei() has copied tot bytes; not ok means that it cannot go on.
  ghost predicate Writing(f0: Fs, f: Fs, i: nat, src: seq<int>, off0: nat, n: nat, tot: nat, ok: bool) {
    && tot <= n && tot <= |src| && Inv(f, {}) && f.sb == f0.sb && |f.inodes| == |f0.inodes|
    && Written(f0, f, i, off0, src[..tot])
    && (tot < n ==> tot == 0 || (off0 + tot) % BSIZE == 0)
    && (!ok ==> tot < n && (NoneFree(f) || |src| < tot + Piece(off0 + tot, n - tot)))
  }

  // And what it has logged.
  ghost predicate Logs(f0: Fs, f: Fs, i: nat, off0: nat, n: nat, tot: nat, ok: bool, logged0: set<nat>,
                       logged: set<nat>, blocks: set<nat>)
  {
    && Shape(f) && i < |f.inodes| && logged0 <= logged <= logged0 + blocks + IndirectBlocks(f, i)
    && Covered(f0, f, logged)
    && |blocks| <= Weight(off0, if ok then tot else n)
  }

  lemma StartsWriting(f: Fs, i: nat, src: seq<int>, off0: nat, n: nat, logged: set<nat>)
    requires Inv(f, {}) && i < |f.inodes| && Written(f, f, i, off0, []) && Weight(off0, 0) == 0
    ensures Writing(f, f, i, src, off0, n, 0, true) && Logs(f, f, i, off0, n, 0, true, logged, logged, {})
  {
    assert src[..0] == [];
  }

  lemma WritingEnds(f0: Fs, f: Fs, i: nat, src: seq<int>, off0: nat, n: nat, tot: nat, ok: bool, logged0: set<nat>,
                    logged: set<nat>, blocks: set<nat>)
    requires Writing(f0, f, i, src, off0, n, tot, ok) && Logs(f0, f, i, off0, n, tot, ok, logged0, logged, blocks)
    requires tot == n || !ok
    ensures Inv(f, {}) && f.sb == f0.sb && |f.inodes| == |f0.inodes| && Written(f0, f, i, off0, src[..tot])
            && i < |f.inodes|
    ensures tot < n ==> NoneFree(f) || |src| < tot + Piece(off0 + tot, n - tot)
    ensures logged0 <= logged <= logged0 + blocks + IndirectBlocks(f, i) && Covered(f0, f, logged)
            && |blocks| <= Weight(off0, n)
  {
  }

  // The blocks in which g differs from f are among the logged ones.
  ghost predicate Covered(f: Fs, g: Fs, logged: set<nat>) {
    |g.blocks| == |f.blocks| && forall b :: 0 <= b < |f.blocks| && g.blocks[b] != f.blocks[b] ==> b in logged
  }

  lemma AllocCovered(fs: Fs, b: nat)
    requires Shape(fs) && b < fs.sb.size
    ensures Covered(fs, Alloc(fs, b), {Bblock(fs.sb, b), b})
  {
    hide PutBit, IsBlock;
  }

  // All blocks zero, and no inode in use.
  function Blank(sb: Super, n: nat): Fs {
    Fs(sb, seq(sb.size, _ => Zeros()), seq(n, _ => Inode(seq(NDIRECT + 1, _ => 0), 0)), map[])
  }

  lemma BlankUnused(sb: Super, n: nat, b: nat)
    requires Shape(Blank(sb, n)) && b < sb.size
    ensures !Used(Blank(sb, n), b)
  {
    hide Digit;
    BitmapBelowData(Blank(sb, n), b);
    NoDigit(b % BPB % 8);
  }

  lemma {:induction false} NoDigit(k: nat)
    ensures !Digit(0, k)
  {
    if k > 0 { NoDigit(k - 1); }
  }

  lemma NoFiles(fs: Fs)
    requires Shape(fs) && fs.owner == map[] && (forall b :: 0 <= b < fs.sb.size ==> (Used(fs, b) <==> b < fs.sb.data))
    requires forall i :: 0 <= i < |fs.inodes| ==> fs.inodes[i] == Inode(seq(NDIRECT + 1, _ => 0), 0)
    ensures Inv(fs, {})
  {
    hide Used, IsBlock;
    forall i, k | 0 <= i < |fs.inodes| && 0 <= k < NSLOT ensures Slot(fs, i, k) == 0 {
    }
  }

  function Below(n: nat): (r: set<nat>)
    ensures forall k: nat :: k in r <==> k < n
  {
    if n == 0 then {} else Below(n - 1) + {n - 1}
  }

  lemma NextPlace(j: nat)
    ensures Below(NDIRECT + 1 + j) - {NDIRECT} + {NDIRECT + 1 + j} == Below(NDIRECT + 1 + (j + 1)) - {NDIRECT}
  {
  }

  // g is fs with the blocks that the given places of inode i name unmarked.
  predicate FreedTo(fs: Fs, i: nat, places: set<nat>, g: Fs) {
    && Shape(fs) && Shape(g) && g.sb == fs.sb && |g.inodes| == |fs.inodes|
    && (forall b :: fs.sb.data <= b < fs.sb.size ==> g.blocks[b] == fs.blocks[b])
    && (forall c :: 0 <= c < fs.sb.size ==>
          (Used(g, c) <==> Used(fs, c) && !(c in fs.owner && fs.owner[c].0 == i && fs.owner[c].1 in places)))
  }

  lemma FreedMore(fs: Fs, i: nat, places: set<nat>, k: nat, g: Fs)
    requires Inv(fs, {}) && i < |fs.inodes| && k < NSLOT && k !in places && FreedTo(fs, i, places, g)
    ensures Shape(g) && |g.inodes| == |fs.inodes|
    ensures var a := Slot(fs, i, k);
      if a == 0 then FreedTo(fs, i, places + {k}, g)
      else a < g.sb.size && Used(g, a) && FreedTo(fs, i, places + {k}, Mark(g, a, false))
  {
    hide NoHoles, Slot, Used, IsBlock;
    var a := Slot(fs, i, k);
    if a != 0 {
      SlotOwned(fs, {}, i, k);
      var h := Mark(g, a, false);
      BitmapBelowData(fs, a);
      forall c | 0 <= c < fs.sb.size ensures Used(h, c) == (c != a && Used(g, c)) {
        MarkAt(g, a, false, c);
      }
    }
  }

  lemma FreedNothing(fs: Fs, i: nat)
    requires Shape(fs)
    ensures FreedTo(fs, i, {}, fs)
  {
  }

  lemma IndirectUnfreed(fs: Fs, i: nat, places: set<nat>, g: Fs)
    requires Inv(fs, {}) && FreedTo(fs, i, places, g) && i < |fs.inodes| && Slot(fs, i, NDIRECT) != 0
    ensures var a := fs.inodes[i].addrs[NDIRECT];
      a < |g.blocks| && g.blocks[a] == fs.blocks[a] && IsBlock(g.blocks[a]) && g.sb == fs.sb
  {
    hide Used;
    SlotOwned(fs, {}, i, NDIRECT);
  }

  lemma NoIndirectLeft(fs: Fs, i: nat, g: Fs)
    requires Inv(fs, {}) && FreedTo(fs, i, Below(NDIRECT), g) && i < |fs.inodes| && Slot(fs, i, NDIRECT) == 0
    ensures FreedTo(fs, i, Below(NSLOT), g)
  {
    hide Used, Slot, IsBlock, NoHoles, MarksMatch, SlotsOwned;
    forall c | c in fs.owner && fs.owner[c].0 == i ensures fs.owner[c].1 < NDIRECT {
      var k := fs.owner[c].1;
      if NDIRECT < k { NoIndirect(fs, i, k); }
    }
  }

  lemma AllFreed(fs: Fs, i: nat, f1: Fs, g: Fs)
    requires Inv(fs, {}) && i < |fs.inodes| && FreedTo(fs, i, Below(NSLOT), f1)
    requires f1.inodes == fs.inodes && f1.owner == fs.owner
    requires g == f1.(inodes := fs.inodes[i := Inode(seq(NDIRECT + 1, _ => 0), 0)], owner := fs.owner - Holdings(fs, i))
    ensures Truncated(fs, i, g)
  {
    hide Used, Slot, IsBlock, NoHoles;
    forall c | 0 <= c < fs.sb.size ensures Used(g, c) == Used(f1, c) {
      UsedFrame(f1, g, c);
    }
  }

  const MAXOPBLOCKS: int := 10

  // A chunk of filewrite() logs at most MAXOPBLOCKS blocks, wherever it starts
  // and wherever the allocator finds its blocks.
  lemma OneTransaction(off: nat, n: nat)
    requires n <= (MAXOPBLOCKS - 1 - 1 - 2) / 2 * BSIZE
    ensures LogBound(off, n) <= MAXOPBLOCKS
  {
  }

  lemma HoldsNothing(f: Fs, i: nat, off: nat)
    requires Shape(f) && i < |f.inodes| && off <= f.inodes[i].size <= MAXFILE * BSIZE
    ensures Holds(f, f, i, off, [])
  {
    var c := Content(f, i);
    assert Spliced(c, off, []) == c;
  }

  lemma HoldsMore(f0: Fs, f: Fs, g: Fs, i: nat, off: nat, data: seq<int>, more: seq<int>)
    requires i < |f0.inodes| && (off <= f0.inodes[i].size ==> Holds(f0, f, i, off, data))
    requires Holds(f, g, i, off + |data|, more)
    ensures off <= f0.inodes[i].size ==> Holds(f0, g, i, off, data + more)
  {
    hide Content;
    if off <= f0.inodes[i].size {
      var c := Content(f0, i);
      assert Spliced(Spliced(c, off, data), off + |data|, more) == Spliced(c, off, data + more);
      forall j | 0 <= j < |f0.inodes| && j != i ensures SameFile(f0, g, j) {
        SameFileTransitive(f0, f, g, j);
      }
    }
  }

  lemma HoldsSize(f0: Fs, g: Fs, i: nat, off: nat, data: seq<int>)
    requires Holds(f0, g, i, off, data)
    ensures off + |data| <= g.inodes[i].size
  {
    hide Content;
  }

  lemma PieceGrows(off: nat, left: nat, more: nat)
    requires left <= more
    ensures Piece(off, left) <= Piece(off, more)
  {
  }

  // filewrite() of n bytes cannot go on after done of them: the source ends
  // inside the next piece, or the next chunk passes the end of the largest file.
  predicate Stops(src: seq<int>, offset: nat, n: nat, done: nat)
    requires done < n
  {
    || |src| < done + Piece(offset + done, n - done)
    || offset + done + Least(n - done, (MAXOPBLOCKS - 1 - 1 - 2) / 2 * BSIZE) > MAXFILE * BSIZE
  }

  lemma Mapped(fs: Fs, i: nat, off: nat)
    requires Inv(fs, {}) && i < |fs.inodes| && off < fs.inodes[i].size
    ensures off / BSIZE < MAXFILE && Slot(fs, i, Place(off / BSIZE)) != 0
  {
    hide Slot;
    assert NoHoles(fs, i);
    assert off / BSIZE * BSIZE < fs.inodes[i].size;
  }

  lemma PieceFits(off: nat, left: nat)
    requires left > 0
    ensures 0 < Piece(off, left) <= left && off % BSIZE + Piece(off, left) <= BSIZE
  {
  }

  lemma SliceGrows(s: seq<int>, a: nat, b: nat, m: nat)
    requires a <= b && b + m <= |s|
    ensures s[a..b] + s[b..b + m] == s[a..b + m]
  {
  }

  lemma PieceOf(fs: Fs, i: nat, off: nat, m: nat)
    requires Inv(fs, {}) && i < |fs.inodes| && off < fs.inodes[i].size <= MAXFILE * BSIZE
    requires off % BSIZE + m <= BSIZE && off + m <= fs.inodes[i].size
    ensures off / BSIZE < MAXFILE && Slot(fs, i, Place(off / BSIZE)) < |fs.blocks|
    ensures |fs.blocks[Slot(fs, i, Place(off / BSIZE))]| == BSIZE
    ensures fs.blocks[Slot(fs, i, Place(off / BSIZE))][off % BSIZE..off % BSIZE + m] == Content(fs, i)[off..off + m]
  {
    hide Slot, Named;
    Mapped(fs, i, off);
    NamedInRange(fs, {}, i, Place(off / BSIZE));
    var a, b := fs.blocks[Slot(fs, i, Place(off / BSIZE))][off % BSIZE..off % BSIZE + m], Content(fs, i)[off..off + m];
    forall k | 0 <= k < m ensures a[k] == b[k] {
      assert (off + k) / BSIZE == off / BSIZE && (off + k) % BSIZE == off % BSIZE + k;
      assert b[k] == ByteAt(fs, i, off + k);
    }
  }

  // In g, file i is what it was in f0 with data written at off; every other
  // file is as it was.
  predicate Holds(f0: Fs, g: Fs, i: nat, off: nat, data: seq<int>) {
    && Shape(f0) && Shape(g) && i < |f0.inodes| == |g.inodes|
    && f0.inodes[i].size <= MAXFILE * BSIZE && g.inodes[i].size <= MAXFILE * BSIZE && off <= f0.inodes[i].size
    && Content(g, i) == Spliced(Content(f0, i), off, data)
    && forall j :: 0 <= j < |f0.inodes| && j != i ==> SameFile(f0, g, j)
  }

  lemma SizeBound(fs: Fs, i: nat)
    requires Inv(fs, {}) && i < |fs.inodes|
    ensures fs.inodes[i].size <= MAXFILE * BSIZE
  {
    assert NoHoles(fs, i);
  }

  lemma BytesSlice(s: seq<int>, a: nat, m: nat)
    requires Bytes(s)
    ensures a + m <= |s| ==> Bytes(s[a..a + m])
    ensures Bytes([])
  {
  }

  lemma ResizeMarks(fs: Fs, i: nat, size: nat)
    requires Shape(fs) && i < |fs.inodes|
    ensures NoneFree(fs) ==> NoneFree(Resize(fs, i, size))
    ensures IndirectBlocks(Resize(fs, i, size), i) == IndirectBlocks(fs, i)
  {
    hide Used;
    forall c | 0 <= c < fs.sb.size ensures Used(Resize(fs, i, size), c) == Used(fs, c) {
      UsedFrame(fs, Resize(fs, i, size), c);
    }
  }

  // A write that starts inside a block starts in one that is there.
  lemma FirstMapped(f0: Fs, f: Fs, i: nat, off: nat, data: seq<int>)
    requires Written(f0, f, i, off, data) && off <= f0.inodes[i].size <= MAXFILE * BSIZE
    ensures off % BSIZE != 0 ==> off / BSIZE < MAXFILE && Slot(f, i, Place(off / BSIZE)) != 0
  {
    hide Slot, ByteAt, SameFile, Shape;
    if off % BSIZE != 0 {
      var o := off - 1;
      assert o / BSIZE == off / BSIZE;
      assert Slot(f, i, Place(o / BSIZE)) != 0;
    }
  }

  // One more round adds two blocks, or one if the block was certain to be there.
  lemma Count(off: nat, tot: nat, n: nat)
    requires tot < n && (tot == 0 || (off + tot) % BSIZE == 0)
    ensures var m := Piece(off + tot, n - tot);
      && 0 < m <= n - tot
      && Weight(off, tot + m) == Weight(off, tot) + (if tot == 0 && off % BSIZE != 0 then 1 else 2)
      && Weight(off, tot + m) <= Weight(off, n)
      && (tot + m < n ==> (off + tot + m) % BSIZE == 0)
      && (off + tot) % BSIZE + m <= BSIZE
  {
  }

  lemma WeightOfNothing(off: nat, n: nat)
    ensures Weight(off, 0) == 0 <= Weight(off, n)
  {
  }

  lemma UnionBound(a: set<nat>, b: set<nat>)
    ensures |a + b| <= |a| + |b|
  {
    assert |a + b| == |a| + |b - a|;
    assert b - a <= b;
    SubsetSize(b - a, b);
  }

  lemma LoggedSize(before: set<nat>, blocks: set<nat>, indirect: set<nat>, inode: nat, logged: set<nat>)
    requires logged <= before + blocks + indirect + {inode} && |indirect| <= 2
    ensures before == {} ==> |logged| <= |blocks| + 3
  {
    if before == {} {
      SubsetSize(logged, blocks + indirect + {inode});
      UnionBound(blocks + indirect, {inode});
      UnionBound(blocks, indirect);
    }
  }

  lemma IndirectKept(f: Fs, g: Fs, i: nat)
    requires Grown(f, g, i) && i < |f.inodes|
    ensures IndirectBlocks(f, i) <= IndirectBlocks(g, i)
  {
    hide Slot;
  }

  lemma NamedInRange(fs: Fs, extra: set<nat>, i: nat, k: nat)
    requires Inv(fs, extra) && i < |fs.inodes| && k < NSLOT && Slot(fs, i, k) != 0
    ensures 0 < Slot(fs, i, k) < fs.sb.size && IsBlock(fs.blocks[Slot(fs, i, k)])
  {
    SlotOwned(fs, extra, i, k);
  }

  const UINT: nat := 0x1_0000_0000

  // min(left, BSIZE - off % BSIZE): what one round of the loop copies.
  function Piece(off: nat, left: nat): nat {
    if left < BSIZE - off % BSIZE then left else BSIZE - off % BSIZE
  }

  // How many blocks a transfer of n bytes at off touches.
  function Blocks(off: nat, n: nat): nat {
    if n == 0 then 0 else (off + n - 1) / BSIZE - off / BSIZE + 1
  }

  // 1 when the first block touched is certain to be there already.
  function Slack(off: nat, n: nat): nat {
    if n > 0 && off % BSIZE != 0 then 1 else 0
  }

  // Data blocks and the bitmap blocks that their allocation changes.
  function Weight(off: nat, n: nat): int {
    2 * Blocks(off, n) - Slack(off, n)
  }

  // And the indirect block, its bitmap block, and the inode block.
  function LogBound(off: nat, n: nat): int {
    Weight(off, n) + 3
  }

  // The indirect block of an inode and the bitmap block that covers it.
  function IndirectBlocks(fs: Fs, i: nat): (r: set<nat>)
    requires Shape(fs) && i < |fs.inodes|
    ensures |r| <= 2
  {
    var a := Slot(fs, i, NDIRECT);
    if a == 0 then {} else {a, Bblock(fs.sb, a)}
  }

  lemma SlotIsAddr(fs: Fs, i: nat)
    requires Shape(fs) && i < |fs.inodes|
    ensures forall k :: 0 <= k <= NDIRECT ==> Slot(fs, i, k) == fs.inodes[i].addrs[k]
  {
  }

  lemma SlotIsWord(fs: Fs, extra: set<nat>, i: nat, k: nat)
    requires Inv(fs, extra) && i < |fs.inodes| && NDIRECT < k < NSLOT && Slot(fs, i, NDIRECT) != 0
    ensures var a := fs.inodes[i].addrs[NDIRECT];
      a < fs.sb.size && IsBlock(fs.blocks[a]) && Slot(fs, i, k) == Word(fs.blocks[a], k - NDIRECT - 1)
  {
    SlotOwned(fs, extra, i, NDIRECT);
  }

  lemma NoIndirect(fs: Fs, i: nat, k: nat)
    requires Shape(fs) && i < |fs.inodes| && NDIRECT < k < NSLOT && Slot(fs, i, NDIRECT) == 0
    ensures Slot(fs, i, k) == 0
  {
  }

  lemma GrownRefl(fs: Fs, i: nat)
    requires Shape(fs)
    ensures Grown(fs, fs, i)
  {
  }

  lemma AdoptAllowed(fs: Fs, extra: set<nat>, i: nat, k: nat, b: nat)
    requires Inv(fs, extra) && i < |fs.inodes| && k < NSLOT && 0 < b < fs.sb.size
    requires Slot(fs, i, k) == 0 && fs.blocks[b] == Zeros()
    requires k > NDIRECT ==> Slot(fs, i, NDIRECT) != 0
    ensures CanAdopt(fs, i, k, b) && Indirect(fs, i) == Slot(fs, i, NDIRECT)
  {
    if k > NDIRECT { SlotOwned(fs, extra, i, NDIRECT); }
  }

  lemma BitIsUsed(fs: Fs, b: nat, bi: nat)
    requires Shape(fs) && b % BPB == 0 && bi < BPB && b + bi < fs.sb.size
    ensures Bblock(fs.sb, b) == Bblock(fs.sb, b + bi) < |fs.blocks| && (b + bi) % BPB == bi
    ensures IsBlock(fs.blocks[Bblock(fs.sb, b)])
    ensures Used(fs, b + bi) == Bit(fs.blocks[Bblock(fs.sb, b)], bi)
  {
    hide Bit;
    assert (b + bi) / BPB == b / BPB;
  }

  lemma FreeIsData(fs: Fs, b: nat)
    requires Inv(fs, {}) && b < fs.sb.size && !Used(fs, b)
    ensures 0 < fs.sb.data <= b
  {
  }
}

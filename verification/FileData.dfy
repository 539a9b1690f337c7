/** `inode_read_at` and `inode_write_at`: sector-sized transfers that behave as a flat array of
    bytes. */
module FileData {

  const SECTOR: nat := 512

  type Byte = b: int | 0 <= b < 256

  type Sector = s: seq<Byte> | |s| == SECTOR witness seq(SECTOR, _ => 0)

  /** The extent and the length in the on-disk inode. */
  datatype Inode = Inode(start: nat, length: nat)

  function SectorsOf(length: nat): nat { (length + SECTOR - 1) / SECTOR }

  predicate OnDevice(disk: seq<Sector>, inode: Inode) { inode.start + SectorsOf(inode.length) <= |disk| }

  /** Byte `a` of the device. */
  function At(disk: seq<Sector>, a: nat): Byte
    requires a < |disk| * SECTOR
  {
    disk[a / SECTOR][a % SECTOR]
  }

  /** The contents of a file: the flat array that the transfers refine. */
  ghost function Contents(disk: seq<Sector>, inode: Inode): seq<Byte>
    requires OnDevice(disk, inode)
  {
    seq<Byte>(inode.length, i requires 0 <= i < inode.length => At(disk, inode.start * SECTOR + i))
  }

  /** How many bytes a transfer is good for: up to the end of the file, no growth. */
  function Available(inode: Inode, size: int, offset: nat): nat {
    if size <= 0 || offset >= inode.length then 0
    else if size < inode.length - offset then size else inode.length - offset
  }

  /** Where the bytes of a chunk are: next to each other in one sector of the extent. */
  lemma ChunkByte(disk: seq<Sector>, inode: Inode, offset: nat, chunk: nat, i: nat)
    requires OnDevice(disk, inode) && i < chunk && offset + chunk <= inode.length && offset % SECTOR + chunk <= SECTOR
    ensures inode.start + offset / SECTOR < |disk|
    ensures Contents(disk, inode)[offset + i] == disk[inode.start + offset / SECTOR][offset % SECTOR + i]
  {
    var a := inode.start * SECTOR + (offset + i);
    assert Contents(disk, inode)[offset + i] == At(disk, a);
    assert a / SECTOR == inode.start + offset / SECTOR && a % SECTOR == offset % SECTOR + i;
  }

  lemma ChunkBytes(disk: seq<Sector>, inode: Inode, offset: nat, chunk: nat)
    requires OnDevice(disk, inode) && 0 < chunk && offset + chunk <= inode.length && offset % SECTOR + chunk <= SECTOR
    ensures inode.start + offset / SECTOR < |disk|
    ensures Contents(disk, inode)[offset..offset + chunk]
         == disk[inode.start + offset / SECTOR][offset % SECTOR..offset % SECTOR + chunk]
  {
    ChunkByte(disk, inode, offset, chunk, 0);
    var l, r := Contents(disk, inode)[offset..offset + chunk], disk[inode.start + offset / SECTOR][offset % SECTOR..offset % SECTOR + chunk];
    forall i | 0 <= i < chunk
      ensures l[i] == r[i]
    {
      ChunkByte(disk, inode, offset, chunk, i);
    }
  }

  /** How much of a transfer at `pos` lies in one sector; nothing at the end of the file. */
  method ChunkAt(inode: Inode, left: int, pos: nat) returns (sectorOfs: nat, chunk: int)
    requires left > 0
    ensures sectorOfs == pos % SECTOR
    ensures chunk <= 0 <==> pos >= inode.length
    ensures chunk > 0 ==> chunk <= left && sectorOfs + chunk <= SECTOR && pos + chunk <= inode.length
    ensures chunk > 0 && pos % SECTOR == 0 && left >= SECTOR && inode.length - pos >= SECTOR ==> chunk == SECTOR
  {
    sectorOfs := pos % SECTOR;
    var inodeLeft := inode.length - pos;
    var sectorLeft := SECTOR - sectorOfs;
    var minLeft := if inodeLeft < sectorLeft then inodeLeft else sectorLeft;
    chunk := if left < minLeft then left else minLeft;
  }

  /** What a transfer of up to `Available` bytes reads. */
  ghost function Wanted(disk: seq<Sector>, inode: Inode, size: int, offset: nat): (w: seq<Byte>)
    requires OnDevice(disk, inode)
    ensures |w| == Available(inode, size, offset)
  {
    var n := Available(inode, size, offset);
    if n == 0 then [] else Contents(disk, inode)[offset..offset + n]
  }

  /** The first `n` wanted bytes have been put at the front of what was `orig`. */
  ghost predicate Filled(now: seq<Byte>, wanted: seq<Byte>, orig: seq<Byte>, n: int) {
    0 <= n <= |wanted| <= |orig| && now == wanted[..n] + orig[n..]
  }

  /** Where a transfer may stop: when all is done, or for want of a bounce buffer at a partial
      sector. */
  predicate MayStop(inode: Inode, size: int, offset: nat, n: nat, memory: bool) {
    var left := Available(inode, size, offset) - n;
    left == 0 || (!memory && !((offset + n) % SECTOR == 0 && left >= SECTOR))
  }

  /** Reads into the front of `buffer`; `memory` says whether a bounce buffer can be had. */
  method ReadAt(disk: seq<Sector>, inode: Inode, buffer: array<Byte>, size: int, offset: nat, memory: bool)
    returns (bytesRead: nat)
    requires OnDevice(disk, inode) && size <= buffer.Length
    modifies buffer
    ensures Filled(buffer[..], Wanted(disk, inode, size, offset), old(buffer[..]), bytesRead)
    ensures MayStop(inode, size, offset, bytesRead, memory)
  {
    bytesRead := 0;
    var left, pos, bounce := size, offset, false;
    while left > 0
      invariant left == size - bytesRead && pos == offset + bytesRead
      invariant Filled(buffer[..], Wanted(disk, inode, size, offset), old(buffer[..]), bytesRead)
      decreases left
    {
      var sectorOfs, chunk := ChunkAt(inode, left, pos);
      if chunk <= 0 {
        break;
      }
      if !(sectorOfs == 0 && chunk == SECTOR) && !bounce {
        if !memory {
          break;
        }
        bounce := true;
      }
      ReadChunk(disk, inode, buffer, size, offset, bytesRead, chunk, old(buffer[..]));
      left, pos, bytesRead := left - chunk, pos + chunk, bytesRead + chunk;
    }
  }

  method ReadChunk(disk: seq<Sector>, inode: Inode, buffer: array<Byte>, size: int, offset: nat, n: nat, chunk: nat,
      ghost orig: seq<Byte>)
    requires OnDevice(disk, inode) && 0 < chunk && n + chunk <= size
    requires offset + n + chunk <= inode.length && (offset + n) % SECTOR + chunk <= SECTOR
    requires Filled(buffer[..], Wanted(disk, inode, size, offset), orig, n)
    modifies buffer
    ensures Filled(buffer[..], Wanted(disk, inode, size, offset), orig, n + chunk)
  {
    WantedChunk(disk, inode, size, offset, n, chunk);
    ghost var before := buffer[..];
    CopyOut(buffer, n, disk[inode.start + (offset + n) / SECTOR], (offset + n) % SECTOR, chunk);
    ReadMore(before, Wanted(disk, inode, size, offset), orig, n, chunk);
  }

  lemma WantedChunk(disk: seq<Sector>, inode: Inode, size: int, offset: nat, n: nat, chunk: nat)
    requires OnDevice(disk, inode) && 0 < chunk && n + chunk <= size
    requires offset + n + chunk <= inode.length && (offset + n) % SECTOR + chunk <= SECTOR
    ensures n + chunk <= Available(inode, size, offset)
    ensures inode.start + (offset + n) / SECTOR < |disk|
    ensures Wanted(disk, inode, size, offset)[n..n + chunk]
         == disk[inode.start + (offset + n) / SECTOR][(offset + n) % SECTOR..(offset + n) % SECTOR + chunk]
  {
    ChunkBytes(disk, inode, offset + n, chunk);
    SliceOfSlice(Contents(disk, inode), offset, Available(inode, size, offset), n, chunk);
  }

  lemma SliceOfSlice(f: seq<Byte>, offset: nat, avail: nat, n: nat, chunk: nat)
    requires offset + avail <= |f| && n + chunk <= avail
    ensures f[offset..offset + avail][n..n + chunk] == f[offset + n..offset + n + chunk]
  {
    var l, r := f[offset..offset + avail][n..n + chunk], f[offset + n..offset + n + chunk];
    assert |l| == |r| && forall i :: 0 <= i < |l| ==> l[i] == r[i];
  }

  lemma ReadMore(before: seq<Byte>, wanted: seq<Byte>, orig: seq<Byte>, n: nat, chunk: nat)
    requires Filled(before, wanted, orig, n) && n + chunk <= |wanted|
    ensures Filled(before[..n] + wanted[n..n + chunk] + before[n + chunk..], wanted, orig, n + chunk)
  {
  }

  /** `memcpy` from a sector into the caller's buffer. */
  method CopyOut(buffer: array<Byte>, at: nat, sector: Sector, ofs: nat, chunk: nat)
    requires at + chunk <= buffer.Length && ofs + chunk <= SECTOR
    modifies buffer
    ensures buffer[..] == old(buffer[..])[..at] + sector[ofs..ofs + chunk] + old(buffer[..])[at + chunk..]
  {
    for i := 0 to chunk
      invariant forall k :: at <= k < at + i ==> buffer[k] == sector[ofs + (k - at)]
      invariant forall k :: 0 <= k < at || at + i <= k < buffer.Length ==> buffer[k] == old(buffer[k])
    {
      buffer[at + i] := sector[ofs + i];
    }
  }

  // ---- writing

  /** `sector` with `data` put at `ofs`. */
  function Patched(sector: Sector, ofs: nat, data: seq<Byte>): (r: Sector)
    requires ofs + |data| <= SECTOR
    ensures forall i :: 0 <= i < SECTOR ==> r[i] == if ofs <= i < ofs + |data| then data[i - ofs] else sector[i]
  {
    sector[..ofs] + data + sector[ofs + |data|..]
  }

  /** `disk'` is `disk` with the bytes from address `base` replaced by `data`, and nothing else. */
  ghost predicate Stored(disk: seq<Sector>, disk': seq<Sector>, base: nat, data: seq<Byte>) {
    && |disk'| == |disk| && base + |data| <= |disk| * SECTOR
    && forall a :: 0 <= a < |disk| * SECTOR ==>
      At(disk', a) == if base <= a < base + |data| then data[a - base] else At(disk, a)
  }

  lemma PatchStores(disk: seq<Sector>, idx: nat, ofs: nat, data: seq<Byte>)
    requires idx < |disk| && ofs + |data| <= SECTOR
    ensures Stored(disk, disk[idx := Patched(disk[idx], ofs, data)], idx * SECTOR + ofs, data)
  {
    var disk', base := disk[idx := Patched(disk[idx], ofs, data)], idx * SECTOR + ofs;
    forall a | 0 <= a < |disk| * SECTOR
      ensures At(disk', a) == if base <= a < base + |data| then data[a - base] else At(disk, a)
    {
      assert base <= a < base + |data| ==> a / SECTOR == idx;
      assert a / SECTOR == idx ==> a == idx * SECTOR + a % SECTOR;
    }
  }

  lemma StoreMore(disk: seq<Sector>, disk1: seq<Sector>, disk2: seq<Sector>, base: nat, d1: seq<Byte>, d2: seq<Byte>)
    requires Stored(disk, disk1, base, d1) && Stored(disk1, disk2, base + |d1|, d2)
    ensures Stored(disk, disk2, base, d1 + d2)
  {
  }

  /** The first `n` bytes of `buffer` have been stored at the file offset. */
  ghost predicate Written(disk: seq<Sector>, disk': seq<Sector>, inode: Inode, offset: nat, buffer: seq<Byte>, n: int) {
    0 <= n <= |buffer| && if n == 0 then disk' == disk else Stored(disk, disk', inode.start * SECTOR + offset, buffer[..n])
  }

  class Device {
    var disk: seq<Sector>

    /** Writes the front of `buffer`; a file with `denyWriteCnt > 0` is left alone. */
    method WriteAt(inode: Inode, denyWriteCnt: nat, buffer: seq<Byte>, size: int, offset: nat, memory: bool)
      returns (bytesWritten: nat)
      requires OnDevice(disk, inode) && size <= |buffer|
      modifies this
      ensures bytesWritten <= Available(inode, size, offset)
      ensures Written(old(disk), disk, inode, offset, buffer, bytesWritten)
      ensures if denyWriteCnt > 0 then bytesWritten == 0 else MayStop(inode, size, offset, bytesWritten, memory)
    {
      bytesWritten := 0;
      if denyWriteCnt > 0 {
        return;
      }
      var left, pos, bounce := size, offset, false;
      while left > 0
        invariant OnDevice(disk, inode)
        invariant 0 <= bytesWritten <= Available(inode, size, offset)
        invariant left == size - bytesWritten && pos == offset + bytesWritten
        invariant Written(old(disk), disk, inode, offset, buffer, bytesWritten)
        decreases left
      {
        var sectorOfs, chunk := ChunkAt(inode, left, pos);
        if chunk <= 0 {
          break;
        }
        if !(sectorOfs == 0 && chunk == SECTOR) && !bounce {
          if !memory {
            break;
          }
          bounce := true;
        }
        WritePart(inode, offset, buffer, bytesWritten, chunk, old(disk));
        left, pos, bytesWritten := left - chunk, pos + chunk, bytesWritten + chunk;
      }
    }

    method WritePart(inode: Inode, offset: nat, buffer: seq<Byte>, n: nat, chunk: nat, ghost orig: seq<Sector>)
      requires OnDevice(disk, inode) && 0 < chunk && n + chunk <= |buffer|
      requires offset + n + chunk <= inode.length && (offset + n) % SECTOR + chunk <= SECTOR
      requires Written(orig, disk, inode, offset, buffer, n)
      modifies this
      ensures OnDevice(disk, inode) && Written(orig, disk, inode, offset, buffer, n + chunk)
    {
      ghost var before := disk;
      var sectorOfs := (offset + n) % SECTOR;
      WriteChunk(inode.start + (offset + n) / SECTOR, sectorOfs, buffer[n..n + chunk], SECTOR - sectorOfs);
      WriteMore(orig, before, disk, inode, offset, buffer, n, chunk);
    }

    /** One sector of a write: a whole sector directly, a part of one by way of the bounce buffer. */
    method WriteChunk(idx: nat, ofs: nat, data: seq<Byte>, sectorLeft: nat)
      requires idx < |disk| && 0 < |data| && ofs + |data| <= SECTOR && sectorLeft == SECTOR - ofs
      modifies this
      ensures Stored(old(disk), disk, idx * SECTOR + ofs, data)
    {
      PatchStores(disk, idx, ofs, data);
      if ofs == 0 && |data| == SECTOR {
        disk := disk[idx := data];
      } else {
        if !(ofs > 0 || |data| < sectorLeft) {
          // The original would start from a zeroed bounce buffer here, but a chunk that fills
          // its sector has been written directly.
          assert false;
        }
        var bounce := disk[idx];
        bounce := Patched(bounce, ofs, data);
        disk := disk[idx := bounce];
      }
    }
  }

  lemma WriteMore(disk: seq<Sector>, disk1: seq<Sector>, disk2: seq<Sector>, inode: Inode, offset: nat, buffer: seq<Byte>, n: nat, chunk: nat)
    requires n + chunk <= |buffer|
    requires Written(disk, disk1, inode, offset, buffer, n)
    requires Stored(disk1, disk2, (inode.start + (offset + n) / SECTOR) * SECTOR + (offset + n) % SECTOR, buffer[n..n + chunk])
    ensures Stored(disk, disk2, inode.start * SECTOR + offset, buffer[..n + chunk])
  {
    var base := inode.start * SECTOR + offset;
    assert (inode.start + (offset + n) / SECTOR) * SECTOR + (offset + n) % SECTOR == base + n;
    if n == 0 {
      assert buffer[..n + chunk] == buffer[n..n + chunk];
    } else {
      StoreMore(disk, disk1, disk2, base, buffer[..n], buffer[n..n + chunk]);
      assert buffer[..n + chunk] == buffer[..n] + buffer[n..n + chunk];
    }
  }

  // ---- what a write means for files

  /** The extents have no sector in common. */
  predicate Disjoint(a: Inode, b: Inode) {
    || a.length == 0 || b.length == 0
    || a.start + SectorsOf(a.length) <= b.start || b.start + SectorsOf(b.length) <= a.start
  }

  /** The file has the data at the offset and is otherwise as it was. */
  lemma WriteRefines(disk: seq<Sector>, disk': seq<Sector>, inode: Inode, offset: nat, data: seq<Byte>)
    requires OnDevice(disk, inode) && offset + |data| <= inode.length
    requires Stored(disk, disk', inode.start * SECTOR + offset, data)
    ensures var f := Contents(disk, inode);
      Contents(disk', inode) == f[..offset] + data + f[offset + |data|..]
  {
    var f := Contents(disk, inode);
    var want := f[..offset] + data + f[offset + |data|..];
    forall i | 0 <= i < inode.length
      ensures Contents(disk', inode)[i] == want[i]
    {
      assert Contents(disk', inode)[i] == At(disk', inode.start * SECTOR + i);
      assert f[i] == At(disk, inode.start * SECTOR + i);
    }
  }

  /** Reading back what was written gives it. */
  lemma ReadBack(disk: seq<Sector>, disk': seq<Sector>, inode: Inode, offset: nat, data: seq<Byte>)
    requires OnDevice(disk, inode) && offset + |data| <= inode.length
    requires Stored(disk, disk', inode.start * SECTOR + offset, data)
    ensures Wanted(disk', inode, |data|, offset) == data
  {
    WriteRefines(disk, disk', inode, offset, data);
  }

  /** Every other file is as it was. */
  lemma WriteKeepsOthers(disk: seq<Sector>, disk': seq<Sector>, inode: Inode, other: Inode, offset: nat, data: seq<Byte>)
    requires OnDevice(disk, inode) && OnDevice(disk, other) && Disjoint(inode, other)
    requires offset + |data| <= inode.length
    requires Stored(disk, disk', inode.start * SECTOR + offset, data)
    ensures Contents(disk', other) == Contents(disk, other)
  {
    forall i | 0 <= i < other.length
      ensures Contents(disk', other)[i] == Contents(disk, other)[i]
    {
      var a := other.start * SECTOR + i;
      assert Contents(disk', other)[i] == At(disk', a);
      assert Contents(disk, other)[i] == At(disk, a);
    }
  }
}

/** Finding the End Of Central Directory record of a ZIP file and the bytes its digest covers
    (mdm-server/styly_mdm/integrity.py; the record is section 4.3.16 of the ZIP APPNOTE). The
    digest function is left out: what is computed is the sequence of bytes fed to it. */
module Eocd {
  import opened PushJobs

  newtype Byte = x: int | 0 <= x < 256

  type Bytes = seq<Byte>

  const SIGNATURE: Bytes := [0x50, 0x4B, 0x05, 0x06]
  const MIN_SIZE := 22
  const MAX_COMMENT := 0xFFFF
  const ZIP64_SENTINEL := 0xFFFF_FFFF
  const CHUNK: nat := 1024 * 1024

  function Le16(b: Bytes, at: nat): (r: nat)
    requires at + 2 <= |b|
    ensures r <= MAX_COMMENT
  {
    b[at] as nat + 256 * b[at + 1] as nat
  }

  function Le32(b: Bytes, at: nat): nat
    requires at + 4 <= |b|
  {
    Le16(b, at) + 0x1_0000 * Le16(b, at + 2)
  }

  /** An end record starts at `p` and ends, with its comment, exactly at the end of the file. */
  predicate RecordAt(file: Bytes, p: nat) {
    && p + MIN_SIZE <= |file| && file[p..p + 4] == SIGNATURE
    && p + MIN_SIZE + (file[p + 20] as nat + 256 * file[p + 21] as nat) == |file|
  }

  /** The full search: the greatest offset in the whole file that holds a record. */
  ghost predicate LastRecord(file: Bytes, p: nat) {
    RecordAt(file, p) && forall q: nat :: RecordAt(file, q) ==> q <= p
  }

  /** `_find_eocd` on any tail of the file. */
  method FindEocd(tail: Bytes, fileLen: nat, tailStart: nat) returns (found: Option<nat>)
    requires tailStart + |tail| == fileLen
    ensures found.Some? ==> found.value >= tailStart && LastRecord(tail, found.value - tailStart)
    ensures found.None? ==> forall q: nat :: !RecordAt(tail, q)
  {
    var i := |tail| - MIN_SIZE;
    while i >= 0
      invariant i <= |tail| - MIN_SIZE
      invariant forall q: nat :: RecordAt(tail, q) ==> q <= i
    {
      if tail[i..i + 4] == SIGNATURE {
        var commentLen := Le16(tail, i + 20);
        var at := tailStart + i;
        if at + MIN_SIZE + commentLen == fileLen {
          return Some(at);
        }
      }
      i := i - 1;
    }
    return None;
  }

  /** A record cannot start before the last 22 + 65535 bytes, and whether one starts at an offset
      after that does not depend on what comes before. */
  lemma TailDecides(file: Bytes, start: nat, p: nat)
    requires start == if |file| <= MIN_SIZE + MAX_COMMENT then 0 else |file| - (MIN_SIZE + MAX_COMMENT)
    ensures RecordAt(file, p) <==> p >= start && RecordAt(file[start..], p - start)
  {
    var tail := file[start..];
    if p >= start && p + MIN_SIZE <= |file| {
      assert tail[p - start..p - start + 4] == file[p..p + 4];
      assert tail[p - start + 20] == file[p + 20] && tail[p - start + 21] == file[p + 21];
    }
  }

  /** Four bytes, the least significant first. */
  function OffsetAt(file: Bytes, p: nat): nat
    requires p + 4 <= |file|
  {
    file[p] as nat + 0x100 * file[p + 1] as nat + 0x1_0000 * file[p + 2] as nat + 0x100_0000 * file[p + 3] as nat
  }

  datatype Digest = NoRecord | Zip64 | Covered(size: nat, bytes: Bytes)

  /** Reading in chunks from an offset to the end; past the end there is nothing. */
  method ReadFrom(file: Bytes, offset: nat, chunk: nat) returns (bytes: Bytes)
    requires chunk > 0
    ensures bytes == if offset <= |file| then file[offset..] else []
  {
    bytes := [];
    if offset > |file| {
      return;
    }
    var at := offset;
    while at < |file|
      invariant offset <= at <= |file| && bytes == file[offset..at]
    {
      var n := if at + chunk <= |file| then at + chunk else |file|;
      assert file[offset..at] + file[at..n] == file[offset..n];
      bytes := bytes + file[at..n];
      at := n;
    }
  }

  /** `apk_cd_digest` reads only the tail of the file, and yet finds exactly the last record of
      the whole file, or none exactly when there is none. */
  method CentralDirectory(file: Bytes) returns (digest: Digest, record: Option<nat>)
    ensures record.Some? ==> LastRecord(file, record.value)
    ensures record.None? <==> forall q: nat :: !RecordAt(file, q)
    ensures digest.NoRecord? <==> record.None?
    ensures record.Some? ==>
      var offset := OffsetAt(file, record.value + 16);
      digest == if offset == ZIP64_SENTINEL then Zip64
                else Covered(|file|, if offset <= |file| then file[offset..] else [])
  {
    hide Le16;
    var readLen := if |file| <= MIN_SIZE + MAX_COMMENT then |file| else MIN_SIZE + MAX_COMMENT;
    var tailStart := |file| - readLen;
    var tail := file[tailStart..];
    record := FindEocd(tail, |file|, tailStart);
    TailSearchIsFull(file, tailStart, record);
    if record.None? {
      return NoRecord, None;
    }
    var at := record.value - tailStart;
    var offset := Le32(tail, at + 16);
    SameOffset(file, tailStart, at + 16);
    if offset == ZIP64_SENTINEL {
      return Zip64, record;
    }
    var bytes := ReadFrom(file, offset, CHUNK);
    digest := Covered(|file|, bytes);
  }

  lemma SameOffset(file: Bytes, start: nat, at: nat)
    requires start + at + 4 <= |file|
    ensures Le32(file[start..], at) == OffsetAt(file, start + at)
  {
  }

  /** Searching the tail is searching the file. */
  lemma TailSearchIsFull(file: Bytes, start: nat, found: Option<nat>)
    requires start == if |file| <= MIN_SIZE + MAX_COMMENT then 0 else |file| - (MIN_SIZE + MAX_COMMENT)
    requires found.Some? ==> found.value >= start && LastRecord(file[start..], found.value - start)
    requires found.None? ==> forall q: nat :: !RecordAt(file[start..], q)
    ensures found.Some? ==> LastRecord(file, found.value)
    ensures found.None? ==> forall q: nat :: !RecordAt(file, q)
  {
    hide RecordAt;
    forall q: nat ensures RecordAt(file, q) <==> q >= start && RecordAt(file[start..], q - start) {
      TailDecides(file, start, q);
    }
  }
}

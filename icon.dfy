/** `BuildIcon` of tools/IconGen: the Windows ICO container. A 6-byte
    ICONDIR header (reserved, type, count), one 16-byte ICONDIRENTRY per
    image, then the PNG payloads back to back. The entries are first
    written as placeholders, the payloads appended, and the directory then
    rewritten in place with each payload's size and offset. All fields are
    little-endian, as `BinaryWriter` writes them. */
module IconFile {

  newtype byte = x: int | 0 <= x < 256

  /** The low byte of `v`, as a `(byte)` cast keeps it. */
  function Low(v: int): byte {
    (v % 256) as byte
  }

  /** `BinaryWriter.Write((short)v)`: the low 16 bits, low byte first. */
  function LE16(v: int): (r: seq<byte>)
    ensures |r| == 2
  {
    [Low(v), Low(v / 256)]
  }

  /** `BinaryWriter.Write((int)v)`: the low 32 bits, low byte first. */
  function LE32(v: int): (r: seq<byte>)
    ensures |r| == 4
  {
    LE16(v) + LE16(v / 65536)
  }

  /** The unsigned 16-bit field at `p`. */
  function U16At(f: seq<byte>, p: nat): (v: nat)
    requires p + 2 <= |f|
    ensures v < 65536
  {
    f[p] as nat + 256 * f[p + 1] as nat
  }

  /** The unsigned 32-bit field at `p`. */
  function U32At(f: seq<byte>, p: nat): (v: nat)
    requires p + 4 <= |f|
    ensures v < 4294967296
  {
    U16At(f, p) + 65536 * U16At(f, p + 2)
  }

  /** `f` holds `x` from byte `p` on. */
  predicate At(f: seq<byte>, p: nat, x: seq<byte>) {
    p + |x| <= |f| && forall k :: 0 <= k < |x| ==> f[p + k] == x[k]
  }

  lemma AtSlice(f: seq<byte>, p: nat, x: seq<byte>)
    requires p + |x| <= |f| && f[p..p + |x|] == x
    ensures At(f, p, x)
  {
    forall k | 0 <= k < |x|
      ensures f[p + k] == x[k]
    {
      assert f[p..p + |x|][k] == f[p + k];
    }
  }

  lemma AtSplit(f: seq<byte>, p: nat, x: seq<byte>, y: seq<byte>)
    requires At(f, p, x + y)
    ensures At(f, p, x) && At(f, p + |x|, y)
  {
    forall k | 0 <= k < |x|
      ensures f[p + k] == x[k]
    {
      assert (x + y)[k] == x[k];
    }
    forall k | 0 <= k < |y|
      ensures f[p + |x| + k] == y[k]
    {
      assert (x + y)[|x| + k] == y[k];
    }
  }

  /** The low 16 bits are the low byte and the next one. */
  lemma Split16(v: int)
    ensures v % 65536 == v % 256 + 256 * ((v / 256) % 256)
  {
    var q := v / 256;
    assert q == 256 * (q / 256) + q % 256;
    assert v == 65536 * (q / 256) + (v % 256 + 256 * (q % 256));
  }

  /** The low 32 bits are the low 16 and the next 16. */
  lemma Split32(v: int)
    ensures v % 4294967296 == v % 65536 + 65536 * ((v / 65536) % 65536)
  {
    var q := v / 65536;
    assert q == 65536 * (q / 65536) + q % 65536;
    assert v == 4294967296 * (q / 65536) + (v % 65536 + 65536 * (q % 65536));
  }

  lemma {:induction false} LE16RoundTrip(v: int, f: seq<byte>, p: nat)
    requires At(f, p, LE16(v))
    ensures p + 2 <= |f| && U16At(f, p) == v % 65536
  {
    var x := LE16(v);
    assert f[p + 0] == x[0] && f[p + 1] == x[1];
    assert U16At(f, p) == v % 256 + 256 * ((v / 256) % 256);
    Split16(v);
  }

  lemma {:induction false} LE32RoundTrip(v: int, f: seq<byte>, p: nat)
    requires At(f, p, LE32(v))
    ensures p + 4 <= |f| && U32At(f, p) == v % 4294967296
  {
    AtSplit(f, p, LE16(v), LE16(v / 65536));
    LE16RoundTrip(v, f, p);
    LE16RoundTrip(v / 65536, f, p + 2);
    Split32(v);
  }

  // ---------------------------------------------------------------------
  // The layout

  /** The width and height bytes: 256 is written as 0. */
  function Dimension(size: int): byte {
    Low(if size == 256 then 0 else size)
  }

  /** An ICONDIRENTRY: width, height, colours 0, reserved 0, planes 1,
      32 bits per pixel, payload size, payload offset. */
  function Entry(size: int, length: int, offset: int): (r: seq<byte>)
    ensures |r| == 16
  {
    [Dimension(size), Dimension(size), 0, 0] + LE16(1) + LE16(32) + LE32(length) + LE32(offset)
  }

  /** The ICONDIR header: reserved 0, type 1 (icon), image count. */
  function Header(count: int): (r: seq<byte>)
    ensures |r| == 6
  {
    LE16(0) + LE16(1) + LE16(count)
  }

  /** The first `k` payloads, back to back. */
  function Payloads(images: seq<seq<byte>>, k: nat): seq<byte>
    requires k <= |images|
  {
    if k == 0 then [] else Payloads(images, k - 1) + images[k - 1]
  }

  /** Where the payloads start: after the header and `n` entries. */
  function DataStart(n: nat): nat {
    6 + 16 * n
  }

  /** Where payload `i` starts. */
  function Offset(images: seq<seq<byte>>, i: nat): nat
    requires i <= |images|
  {
    DataStart(|images|) + |Payloads(images, i)|
  }

  /** The directory entry of image `i`, as the patch pass writes it. */
  function EntryAt(sizes: seq<int>, images: seq<seq<byte>>, i: nat): seq<byte>
    requires |sizes| == |images| && i < |sizes|
  {
    Entry(sizes[i], |images[i]|, Offset(images, i))
  }

  /** The first `k` final directory entries. */
  function Directory(sizes: seq<int>, images: seq<seq<byte>>, k: nat): (r: seq<byte>)
    requires |sizes| == |images| && k <= |sizes|
    ensures |r| == 16 * k
  {
    if k == 0 then [] else Directory(sizes, images, k - 1) + EntryAt(sizes, images, k - 1)
  }

  /** The first `k` placeholder entries: size and offset still 0. */
  function Placeholders(sizes: seq<int>, k: nat): (r: seq<byte>)
    requires k <= |sizes|
    ensures |r| == 16 * k
  {
    if k == 0 then [] else Placeholders(sizes, k - 1) + Entry(sizes[k - 1], 0, 0)
  }

  /** The file before the patch pass. */
  function Unpatched(sizes: seq<int>, images: seq<seq<byte>>): seq<byte>
    requires |sizes| == |images|
  {
    Header(|sizes|) + Placeholders(sizes, |sizes|) + Payloads(images, |images|)
  }

  /** The finished ICO file. */
  function Icon(sizes: seq<int>, images: seq<seq<byte>>): seq<byte>
    requires |sizes| == |images|
  {
    Header(|sizes|) + Directory(sizes, images, |sizes|) + Payloads(images, |images|)
  }

  /** The PNG bytes rendered for each size. */
  function Rendered(sizes: seq<int>, make: int -> seq<byte>): (r: seq<seq<byte>>)
    ensures |r| == |sizes| && forall i :: 0 <= i < |sizes| ==> r[i] == make(sizes[i])
  {
    seq(|sizes|, i requires 0 <= i < |sizes| => make(sizes[i]))
  }

  /** `s` with `data` written over it from `pos` on, as a memory stream
      writes: bytes past the end extend it, and a gap before `pos` reads
      as zeros. */
  function Overwrite(s: seq<byte>, pos: nat, data: seq<byte>): (r: seq<byte>)
    ensures |r| == if pos + |data| > |s| then pos + |data| else |s|
  {
    var head := if pos <= |s| then s[..pos] else s + seq(pos - |s|, _ => 0 as byte);
    head + data + (if pos + |data| < |s| then s[pos + |data|..] else [])
  }

  lemma OverwriteAppend(s: seq<byte>, data: seq<byte>)
    ensures Overwrite(s, |s|, data) == s + data
  {
  }

  /** Two writes in a row are one write of both. */
  lemma OverwriteTwice(s: seq<byte>, pos: nat, x: seq<byte>, y: seq<byte>)
    requires pos <= |s|
    ensures Overwrite(Overwrite(s, pos, x), pos + |x|, y) == Overwrite(s, pos, x + y)
  {
    var t := Overwrite(s, pos, x);
    assert t[..pos + |x|] == s[..pos] + x;
    if pos + |x| + |y| < |s| {
      assert t[pos + |x| + |y|..] == s[pos + |x| + |y|..];
    }
  }

  // ---------------------------------------------------------------------
  // Properties of the layout

  lemma {:induction false} PayloadsLength(images: seq<seq<byte>>, k: nat)
    requires k <= |images|
    ensures |Payloads(images, k)| == if k == 0 then 0 else |Payloads(images, k - 1)| + |images[k - 1]|
  {
  }

  /** Payload `i` sits between its offset and the next one. */
  lemma {:induction false} PayloadIn(images: seq<seq<byte>>, k: nat, i: nat)
    requires i < k <= |images|
    ensures |Payloads(images, i + 1)| <= |Payloads(images, k)|
    ensures Payloads(images, k)[|Payloads(images, i)|..|Payloads(images, i + 1)|] == images[i]
    decreases k
  {
    if i < k - 1 {
      PayloadIn(images, k - 1, i);
      var p := Payloads(images, k - 1);
      assert Payloads(images, k)[..|p|] == p;
    } else {
      assert Payloads(images, k) == Payloads(images, i) + images[i];
    }
  }

  /** Entry `i` of the first `k` is at `16 * i`. */
  lemma {:induction false} DirectoryEntry(sizes: seq<int>, images: seq<seq<byte>>, k: nat, i: nat)
    requires |sizes| == |images| && i < k <= |sizes|
    ensures Directory(sizes, images, k)[16 * i..16 * i + 16] == EntryAt(sizes, images, i)
    decreases k
  {
    var d := Directory(sizes, images, k - 1);
    if i < k - 1 {
      DirectoryEntry(sizes, images, k - 1, i);
      assert Directory(sizes, images, k)[..|d|] == d;
    }
  }

  /** The header holds reserved 0, type 1 and the image count (as a 16-bit field). */
  lemma HeaderFields(sizes: seq<int>, images: seq<seq<byte>>)
    requires |sizes| == |images|
    ensures |Icon(sizes, images)| >= 6
    ensures U16At(Icon(sizes, images), 0) == 0
    ensures U16At(Icon(sizes, images), 2) == 1
    ensures U16At(Icon(sizes, images), 4) == |sizes| % 65536
  {
    var f := Icon(sizes, images);
    assert f[..6] == Header(|sizes|);
    LE16RoundTrip(0, f, 0);
    LE16RoundTrip(1, f, 2);
    LE16RoundTrip(|sizes|, f, 4);
  }

  /** The whole file is the header, 16 bytes per image and the payloads. */
  lemma TotalLength(sizes: seq<int>, images: seq<seq<byte>>)
    requires |sizes| == |images|
    ensures |Icon(sizes, images)| == Offset(images, |images|)
  {
  }

  /** The fields of an entry read back as written. */
  lemma {:induction false} EntryDecode(f: seq<byte>, e: nat, size: int, length: int, offset: int)
    requires At(f, e, Entry(size, length, offset))
    ensures e + 16 <= |f|
    ensures f[e] == Dimension(size) && f[e + 1] == Dimension(size)
    ensures f[e + 2] == 0 && f[e + 3] == 0
    ensures U16At(f, e + 4) == 1 && U16At(f, e + 6) == 32
    ensures U32At(f, e + 8) == length % 4294967296
    ensures U32At(f, e + 12) == offset % 4294967296
  {
    var dims: seq<byte> := [Dimension(size), Dimension(size), 0, 0];
    AtSplit(f, e, dims + LE16(1) + LE16(32) + LE32(length), LE32(offset));
    AtSplit(f, e, dims + LE16(1) + LE16(32), LE32(length));
    AtSplit(f, e, dims + LE16(1), LE16(32));
    AtSplit(f, e, dims, LE16(1));
    assert f[e + 0] == dims[0] && f[e + 1] == dims[1] && f[e + 2] == dims[2] && f[e + 3] == dims[3];
    LE16RoundTrip(1, f, e + 4);
    LE16RoundTrip(32, f, e + 6);
    LE32RoundTrip(length, f, e + 8);
    LE32RoundTrip(offset, f, e + 12);
  }

  /** Entry `i` of the file is at byte 6 + 16 i. */
  lemma {:induction false} EntryPlacement(sizes: seq<int>, images: seq<seq<byte>>, i: nat)
    requires |sizes| == |images| && i < |sizes|
    ensures 6 + 16 * i + 16 <= |Icon(sizes, images)|
    ensures Icon(sizes, images)[6 + 16 * i..6 + 16 * i + 16] == EntryAt(sizes, images, i)
  {
    var f, e := Icon(sizes, images), 6 + 16 * i;
    var d := Directory(sizes, images, |sizes|);
    DirectoryEntry(sizes, images, |sizes|, i);
    assert f[6..6 + |d|] == d;
    assert f[e..e + 16] == d[16 * i..16 * i + 16];
  }

  /** Entry `i` holds the image's dimensions, planes 1, 32 bits per pixel,
      the length of payload `i` and its offset (both as 32-bit fields). */
  lemma {:induction false} EntryFields(sizes: seq<int>, images: seq<seq<byte>>, i: nat)
    requires |sizes| == |images| && i < |sizes|
    ensures 6 + 16 * i + 16 <= |Icon(sizes, images)|
    ensures var f, e := Icon(sizes, images), 6 + 16 * i;
      && f[e] == Dimension(sizes[i]) && f[e + 1] == Dimension(sizes[i])
      && f[e + 2] == 0 && f[e + 3] == 0
      && U16At(f, e + 4) == 1 && U16At(f, e + 6) == 32
      && U32At(f, e + 8) == |images[i]| % 4294967296
      && U32At(f, e + 12) == Offset(images, i) % 4294967296
  {
    EntryPlacement(sizes, images, i);
    AtSlice(Icon(sizes, images), 6 + 16 * i, EntryAt(sizes, images, i));
    EntryDecode(Icon(sizes, images), 6 + 16 * i, sizes[i], |images[i]|, Offset(images, i));
  }

  /** Payload `i` is stored, unchanged, at its offset: the payloads follow
      the directory in input order. */
  lemma PayloadPlacement(sizes: seq<int>, images: seq<seq<byte>>, i: nat)
    requires |sizes| == |images| && i < |images|
    ensures Offset(images, i) + |images[i]| <= |Icon(sizes, images)|
    ensures Icon(sizes, images)[Offset(images, i)..Offset(images, i) + |images[i]|] == images[i]
  {
    var f := Icon(sizes, images);
    var n := |images|;
    PayloadIn(images, n, i);
    PayloadsLength(images, i + 1);
    assert f[DataStart(n)..] == Payloads(images, n);
  }

  /** Size and offset fields that hold a payload's length and position,
      in a file shorter than 4 GiB, locate that payload. */
  lemma {:induction false} FieldsLocate(f: seq<byte>, e: nat, length: nat, offset: nat, data: seq<byte>)
    requires e + 16 <= |f| && U32At(f, e + 8) == length % 4294967296 && U32At(f, e + 12) == offset % 4294967296
    requires offset + length <= |f| < 4294967296 && f[offset..offset + length] == data
    ensures U32At(f, e + 12) + U32At(f, e + 8) <= |f|
    ensures f[U32At(f, e + 12)..U32At(f, e + 12) + U32At(f, e + 8)] == data
  {
    assert length % 4294967296 == length && offset % 4294967296 == offset;
  }

  /** Reading the file back: when it is shorter than 4 GiB, entry `i`'s
      size and offset fields locate exactly payload `i`. */
  lemma ReadBack(sizes: seq<int>, images: seq<seq<byte>>, i: nat)
    requires |sizes| == |images| && i < |images|
    requires |Icon(sizes, images)| < 4294967296
    ensures var f, e := Icon(sizes, images), 6 + 16 * i;
      e + 16 <= |f| && U32At(f, e + 12) + U32At(f, e + 8) <= |f| &&
      f[U32At(f, e + 12)..U32At(f, e + 12) + U32At(f, e + 8)] == images[i]
  {
    EntryFields(sizes, images, i);
    PayloadPlacement(sizes, images, i);
    FieldsLocate(Icon(sizes, images), 6 + 16 * i, |images[i]|, Offset(images, i), images[i]);
  }

  /** The patch pass rewrites the directory and nothing else: the unpatched
      and the finished file agree outside bytes 6 to 6 + 16 n, and the
      finished file is the unpatched one with the directory written over
      it at offset 6. */
  lemma PatchOnlyDirectory(sizes: seq<int>, images: seq<seq<byte>>)
    requires |sizes| == |images|
    ensures |Unpatched(sizes, images)| == |Icon(sizes, images)|
    ensures forall k :: 0 <= k < |Icon(sizes, images)| && !(6 <= k < DataStart(|sizes|)) ==>
      Unpatched(sizes, images)[k] == Icon(sizes, images)[k]
    ensures Overwrite(Unpatched(sizes, images), 6, Directory(sizes, images, |sizes|)) == Icon(sizes, images)
  {
    var u := Unpatched(sizes, images);
    var d := Directory(sizes, images, |sizes|);
    assert u[..6] == Header(|sizes|);
    assert u[6 + |d|..] == Payloads(images, |images|);
  }

  /** One more placeholder entry appended. */
  lemma PlaceholderStep(sizes: seq<int>, i: nat)
    requires i < |sizes|
    ensures var b := Header(|sizes|) + Placeholders(sizes, i);
      Overwrite(b, |b|, Entry(sizes[i], 0, 0)) == Header(|sizes|) + Placeholders(sizes, i + 1)
  {
  }

  /** One more payload appended. */
  lemma PayloadStep(sizes: seq<int>, images: seq<seq<byte>>, i: nat)
    requires |sizes| == |images| && i < |images|
    ensures var b := Header(|sizes|) + Placeholders(sizes, |sizes|) + Payloads(images, i);
      |b| == Offset(images, i) &&
      Overwrite(b, |b|, images[i]) == Header(|sizes|) + Placeholders(sizes, |sizes|) + Payloads(images, i + 1)
  {
  }

  /** One more directory entry patched in. */
  lemma PatchStep(u: seq<byte>, sizes: seq<int>, images: seq<seq<byte>>, i: nat)
    requires |sizes| == |images| && i < |sizes| && DataStart(|sizes|) <= |u|
    ensures var b := Overwrite(u, 6, Directory(sizes, images, i));
      |b| == |u| &&
      Overwrite(b, 6 + 16 * i, EntryAt(sizes, images, i)) == Overwrite(u, 6, Directory(sizes, images, i + 1))
  {
    OverwriteTwice(u, 6, Directory(sizes, images, i), EntryAt(sizes, images, i));
  }

  // ---------------------------------------------------------------------
  // The writer

  /** A growable in-memory byte stream with a current position. */
  class MemoryStream {
    var buffer: seq<byte>
    var position: nat

    constructor()
      ensures buffer == [] && position == 0
    {
      buffer := [];
      position := 0;
    }

    /** Writes `data` at the position and moves past it. */
    method Write(data: seq<byte>)
      modifies this
      ensures buffer == Overwrite(old(buffer), old(position), data)
      ensures position == old(position) + |data|
    {
      buffer := Overwrite(buffer, position, data);
      position := position + |data|;
    }

    /** The `Position` setter: the contents stay as they are. */
    method Seek(p: nat)
      modifies this
      ensures buffer == old(buffer) && position == p
    {
      position := p;
    }
  }

  /** A little-endian writer over a stream that it leaves open. */
  class BinaryWriter {
    const stream: MemoryStream

    constructor(s: MemoryStream)
      ensures stream == s
    {
      stream := s;
    }

    /** `Write((byte)v)`. */
    method WriteByte(v: int)
      modifies stream
      ensures stream.buffer == Overwrite(old(stream.buffer), old(stream.position), [Low(v)])
      ensures stream.position == old(stream.position) + 1
    {
      stream.Write([Low(v)]);
    }

    /** `Write((short)v)`. */
    method WriteInt16(v: int)
      modifies stream
      ensures stream.buffer == Overwrite(old(stream.buffer), old(stream.position), LE16(v))
      ensures stream.position == old(stream.position) + 2
    {
      stream.Write(LE16(v));
    }

    /** `Write((int)v)`. */
    method WriteInt32(v: int)
      modifies stream
      ensures stream.buffer == Overwrite(old(stream.buffer), old(stream.position), LE32(v))
      ensures stream.position == old(stream.position) + 4
    {
      stream.Write(LE32(v));
    }

    /** `Write(byte[])`. */
    method WriteBytes(data: seq<byte>)
      modifies stream
      ensures stream.buffer == Overwrite(old(stream.buffer), old(stream.position), data)
      ensures stream.position == old(stream.position) + |data|
    {
      stream.Write(data);
    }
  }

  /** The eight writes of an entry, one after the other, write the entry. */
  lemma {:induction false} EntryWrites(s: seq<byte>, p: nat, size: int, length: int, offset: int)
    requires p <= |s|
    ensures var d := Low(if size == 256 then 0 else size);
      var s1 := Overwrite(Overwrite(Overwrite(Overwrite(s, p, [d]), p + 1, [d]), p + 2, [Low(0)]), p + 3, [Low(0)]);
      var s2 := Overwrite(Overwrite(s1, p + 4, LE16(1)), p + 6, LE16(32));
      Overwrite(Overwrite(s2, p + 8, LE32(length)), p + 12, LE32(offset)) == Overwrite(s, p, Entry(size, length, offset))
  {
    var d := Dimension(size);
    OverwriteTwice(s, p, [d], [d]);
    OverwriteTwice(s, p, [d, d], [0]);
    OverwriteTwice(s, p, [d, d, 0], [0]);
    var dims: seq<byte> := [d, d, 0, 0];
    assert [d] + [d] == [d, d] && [d, d] + [0] == [d, d, 0] && [d, d, 0] + [0] == dims;
    OverwriteTwice(s, p, dims, LE16(1));
    OverwriteTwice(s, p, dims + LE16(1), LE16(32));
    OverwriteTwice(s, p, dims + LE16(1) + LE16(32), LE32(length));
    OverwriteTwice(s, p, dims + LE16(1) + LE16(32) + LE32(length), LE32(offset));
  }

  /** The eight writes of one directory entry, as both the placeholder and
      the patch pass issue them. */
  method WriteEntry(bw: BinaryWriter, size: int, length: int, offset: int)
    requires bw.stream.position <= |bw.stream.buffer|
    modifies bw.stream
    ensures bw.stream.buffer == Overwrite(old(bw.stream.buffer), old(bw.stream.position), Entry(size, length, offset))
    ensures bw.stream.position == old(bw.stream.position) + 16
  {
    EntryWrites(bw.stream.buffer, bw.stream.position, size, length, offset);
    var dim := if size == 256 then 0 else size;
    bw.WriteByte(dim);
    bw.WriteByte(dim);
    bw.WriteByte(0);
    bw.WriteByte(0);
    bw.WriteInt16(1);
    bw.WriteInt16(32);
    bw.WriteInt32(length);
    bw.WriteInt32(offset);
  }

  /** The placeholder pass: one entry per size with size and offset 0. */
  method WritePlaceholders(bw: BinaryWriter, sizes: seq<int>)
    requires bw.stream.buffer == Header(|sizes|) && bw.stream.position == 6
    modifies bw.stream
    ensures bw.stream.buffer == Header(|sizes|) + Placeholders(sizes, |sizes|)
    ensures bw.stream.position == DataStart(|sizes|)
  {
    for i := 0 to |sizes|
      invariant bw.stream.buffer == Header(|sizes|) + Placeholders(sizes, i)
      invariant bw.stream.position == |bw.stream.buffer|
    {
      PlaceholderStep(sizes, i);
      WriteEntry(bw, sizes[i], 0, 0);
    }
  }

  /** Renders every size, pairing it with its PNG bytes. */
  method RenderImages(sizes: seq<int>, make: int -> seq<byte>) returns (images: array<(int, seq<byte>)>)
    ensures fresh(images) && images.Length == |sizes|
    ensures forall k :: 0 <= k < |sizes| ==> images[k] == (sizes[k], Rendered(sizes, make)[k])
  {
    images := new (int, seq<byte>)[|sizes|];
    for i := 0 to |sizes|
      invariant forall k :: 0 <= k < i ==> images[k] == (sizes[k], Rendered(sizes, make)[k])
    {
      images[i] := (sizes[i], make(sizes[i]));
    }
  }

  /** The payload pass: appends every image, recording where each starts. */
  method WritePayloads(bw: BinaryWriter, sizes: seq<int>, images: array<(int, seq<byte>)>, ghost rendered: seq<seq<byte>>)
      returns (offsets: array<int>)
    requires |rendered| == |sizes| == images.Length
    requires forall k :: 0 <= k < |sizes| ==> images[k].1 == rendered[k]
    requires bw.stream.buffer == Header(|sizes|) + Placeholders(sizes, |sizes|)
    requires bw.stream.position == |bw.stream.buffer|
    modifies bw.stream
    ensures fresh(offsets) && offsets.Length == |sizes|
    ensures bw.stream.buffer == Unpatched(sizes, rendered)
    ensures forall k :: 0 <= k < |sizes| ==> offsets[k] == Offset(rendered, k)
  {
    var ms := bw.stream;
    offsets := new int[|sizes|];
    for i := 0 to |sizes|
      invariant ms.buffer == Header(|sizes|) + Placeholders(sizes, |sizes|) + Payloads(rendered, i)
      invariant ms.position == |ms.buffer|
      invariant forall k :: 0 <= k < i ==> offsets[k] == Offset(rendered, k)
    {
      PayloadStep(sizes, rendered, i);
      assert ms.position == Offset(rendered, i) && images[i].1 == rendered[i];
      offsets[i] := ms.position;
      bw.WriteBytes(images[i].1);
    }
  }

  /** The patch pass: rewrites the directory from byte 6 with each image's
      size and offset. */
  method PatchDirectory(bw: BinaryWriter, sizes: seq<int>, images: array<(int, seq<byte>)>, offsets: array<int>,
                        dataOffset: int, ghost rendered: seq<seq<byte>>)
    requires |rendered| == |sizes| == images.Length == offsets.Length
    requires forall k :: 0 <= k < |sizes| ==> images[k] == (sizes[k], rendered[k])
    requires forall k :: 0 <= k < |sizes| ==> offsets[k] == Offset(rendered, k)
    requires bw.stream.buffer == Unpatched(sizes, rendered) && bw.stream.position == 6
    modifies bw.stream
    ensures bw.stream.buffer == Icon(sizes, rendered)
  {
    var ms := bw.stream;
    ghost var unpatched := ms.buffer;
    for i := 0 to |sizes|
      invariant ms.buffer == Overwrite(unpatched, 6, Directory(sizes, rendered, i))
      invariant ms.position == 6 + 16 * i
    {
      PatchStep(unpatched, sizes, rendered, i);
      WriteEntry(bw, images[i].0, |images[i].1|, dataOffset + (offsets[i] - dataOffset));
    }
    PatchOnlyDirectory(sizes, rendered);
  }

  /** Builds the ICO file for `sizes`, rendering each size to PNG bytes
      with `make`, and returns the stream rewound to its start. */
  method BuildIcon(sizes: seq<int>, make: int -> seq<byte>) returns (ms: MemoryStream)
    ensures fresh(ms)
    ensures ms.buffer == Icon(sizes, Rendered(sizes, make)) && ms.position == 0
  {
    ms := new MemoryStream();
    var bw := new BinaryWriter(ms);
    bw.WriteInt16(0);
    bw.WriteInt16(1);
    bw.WriteInt16(|sizes|);
    var dirPos := ms.position;
    WritePlaceholders(bw, sizes);
    var images := RenderImages(sizes, make);
    var dataOffset := ms.position;
    var offsets := WritePayloads(bw, sizes, images, Rendered(sizes, make));
    ms.Seek(dirPos);
    var bw2 := new BinaryWriter(ms);
    PatchDirectory(bw2, sizes, images, offsets, dataOffset, Rendered(sizes, make));
    ms.Seek(0);
  }
}

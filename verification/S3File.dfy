/** The buffered file over an object store (s3fs.go), against an ideal file of bytes and a cursor. */
module S3File {
  import opened Options

  newtype byte = x: int | 0 <= x < 256

  // ----- The ideal file -----

  datatype Ideal = Ideal(bytes: seq<byte>, pos: nat)
  datatype Whence = SeekStart | SeekCurrent | SeekEnd | BadWhence

  /** `p` laid over `s` from `pos` on; a gap before `pos` reads as zeros. */
  function Overlay(s: seq<byte>, pos: nat, p: seq<byte>): (r: seq<byte>)
    ensures |r| == if |s| > pos + |p| then |s| else pos + |p|
    ensures forall i :: 0 <= i < |r| ==>
              r[i] == if pos <= i < pos + |p| then p[i - pos] else if i < |s| then s[i] else 0
  {
    var n := if |s| > pos + |p| then |s| else pos + |p|;
    seq(n, i requires 0 <= i < n => if pos <= i < pos + |p| then p[i - pos] else if i < |s| then s[i] else 0)
  }

  /** Padding, copying over and appending the rest lay `p` over the file. */
  lemma OverlayInSteps(s: seq<byte>, pos: nat, p: seq<byte>, padded: seq<byte>, n: nat, copied: seq<byte>)
    requires padded == if pos > |s| then s + Zeros(pos - |s|) else s
    requires n == if |padded| - pos < |p| then |padded| - pos else |p|
    requires copied == padded[..pos] + p[..n] + padded[pos + n..]
    ensures (if n < |p| then copied + p[n..] else copied) == Overlay(s, pos, p)
  {
    hide Overlay, Zeros;
    var r := if n < |p| then copied + p[n..] else copied;
    var o := Overlay(s, pos, p);
    assert |r| == |o|;
    forall i | 0 <= i < |r|
      ensures r[i] == o[i]
    {
      PaddedAt(s, pos, padded, i);
      if i < pos {
        assert copied[i] == padded[i];
      } else if i < pos + n {
        assert copied[i] == p[i - pos];
      } else if n < |p| {
        assert r[i] == p[i - pos];
      } else {
        assert copied[i] == padded[i];
      }
    }
  }

  lemma PaddedAt(s: seq<byte>, pos: nat, padded: seq<byte>, i: nat)
    requires padded == if pos > |s| then s + Zeros(pos - |s|) else s
    ensures i < |padded| ==> padded[i] == if i < |s| then s[i] else 0
  {
    hide Zeros;
  }

  function Resize(s: seq<byte>, size: nat): (r: seq<byte>)
    ensures |r| == size && forall i :: 0 <= i < size ==> r[i] == if i < |s| then s[i] else 0
  {
    seq(size, i requires 0 <= i < size => if i < |s| then s[i] else 0)
  }

  function WriteIdeal(f: Ideal, p: seq<byte>): Ideal {
    Ideal(Overlay(f.bytes, f.pos, p), f.pos + |p|)
  }

  /** Up to `n` bytes from the cursor; None at the end of the file, even when nothing is asked for. */
  function ReadIdeal(f: Ideal, n: nat): (Option<seq<byte>>, Ideal) {
    if f.pos >= |f.bytes| then (None, f)
    else
      var k := if |f.bytes| - f.pos < n then |f.bytes| - f.pos else n;
      (Some(f.bytes[f.pos..f.pos + k]), f.(pos := f.pos + k))
  }

  function SeekIdeal(f: Ideal, offset: int, whence: Whence): Option<Ideal> {
    var target := match whence
      case SeekStart => offset
      case SeekCurrent => f.pos + offset
      case SeekEnd => |f.bytes| + offset
      case BadWhence => -1;
    if target < 0 then None else Some(f.(pos := target))
  }

  function TruncateIdeal(f: Ideal, size: nat): Ideal {
    f.(bytes := Resize(f.bytes, size))
  }

  // ----- The object store and the file -----

  class ObjectStore {
    var objects: map<string, seq<byte>>

    constructor ()
      ensures objects == map[]
    {
      objects := map[];
    }
  }

  function Zeros(n: nat): (z: seq<byte>)
    ensures |z| == n && forall i :: 0 <= i < n ==> z[i] == 0
  {
    seq(n, _ => 0 as byte)
  }

  /** `data[..len]` is the slice; what lies beyond `len` in the backing array is stale. */
  class File {
    const fs: ObjectStore
    const name: string
    var data: array<byte>
    var len: nat
    var pos: nat
    var closed: bool
    var dirty: bool

    ghost predicate Valid()
      reads this
    {
      len <= data.Length
    }

    ghost function View(): Ideal
      requires Valid()
      reads this, data
    {
      Ideal(data[..len], pos)
    }

    constructor Create(fs: ObjectStore, name: string)
      ensures Valid() && fresh(data) && this.fs == fs && this.name == name
      ensures View() == Ideal([], 0) && dirty && !closed
    {
      this.fs, this.name := fs, name;
      data := new byte[0];
      len, pos, closed, dirty := 0, 0, false, true;
    }

    constructor Opened(fs: ObjectStore, name: string, bytes: seq<byte>)
      ensures Valid() && fresh(data) && this.fs == fs && this.name == name
      ensures View() == Ideal(bytes, 0) && !dirty && !closed
    {
      this.fs, this.name := fs, name;
      data := new byte[|bytes|](i requires 0 <= i < |bytes| => bytes[i]);
      len, pos, closed, dirty := |bytes|, 0, false, false;
    }

    /** Go's append: in place while the capacity lasts, else into a larger array of the runtime's choice. */
    method Append(p: seq<byte>)
      requires Valid()
      modifies this`data, this`len, data
      ensures Valid() && (data == old(data) || fresh(data))
      ensures data[..len] == old(data[..len]) + p
    {
      var n := len + |p|;
      if n > data.Length {
        var capacity: nat :| capacity >= n;
        var old_ := data;
        var bigger := new byte[capacity];
        forall i | 0 <= i < len {
          bigger[i] := old_[i];
        }
        data := bigger;
      }
      forall i | 0 <= i < |p| {
        data[len + i] := p[i];
      }
      len := n;
    }

    /** Go's copy into the slice from the cursor on. */
    method CopyIn(p: seq<byte>) returns (n: nat)
      requires Valid() && pos <= len
      modifies data
      ensures n == if len - pos < |p| then len - pos else |p|
      ensures data[..len] == old(data[..pos]) + p[..n] + old(data[pos + n..len])
    {
      n := if len - pos < |p| then len - pos else |p|;
      var k := n;
      forall i | 0 <= i < k {
        data[pos + i] := p[i];
      }
    }

    method Write(p: seq<byte>) returns (n: nat)
      requires Valid()
      modifies this`data, this`len, this`pos, this`dirty, data
      ensures Valid() && (data == old(data) || fresh(data)) && dirty
      ensures n == |p| && View() == WriteIdeal(old(View()), p)
    {
      hide Overlay, Zeros;
      ghost var s := data[..len];
      dirty := true;
      if pos > len {
        Append(Zeros(pos - len));
      }
      ghost var padded := data[..len];
      n := CopyIn(p);
      OverlayInSteps(s, pos, p, padded, n, data[..len]);
      if n < |p| {
        Append(p[n..]);
      }
      pos := pos + |p|;
      n := |p|;
    }

    /** Fills the caller's buffer; None is io.EOF. */
    method Read(p: array<byte>) returns (n: Option<nat>)
      requires Valid() && p != data
      modifies this`pos, p
      ensures Valid()
      ensures var (r, f) := ReadIdeal(old(View()), p.Length);
              && View() == f
              && (r.None? <==> n.None?)
              && (n.Some? ==> n.value <= p.Length && p[..n.value] == r.value)
      ensures n.None? <==> old(pos) >= len
      ensures n.Some? ==> n.value == if len - old(pos) < p.Length then len - old(pos) else p.Length
      ensures n.Some? ==> p[..n.value] == View().bytes[old(pos)..old(pos) + n.value]
      ensures pos == old(pos) + n.GetOr(0)
      ensures forall i :: n.GetOr(0) <= i < p.Length ==> p[i] == old(p[i])
    {
      if pos >= len {
        return None;
      }
      var k := if len - pos < p.Length then len - pos else p.Length;
      forall i | 0 <= i < k {
        p[i] := data[pos + i];
      }
      assert p[..k] == old(View()).bytes[pos..pos + k];
      pos := pos + k;
      return Some(k);
    }

    /** Reads without moving the cursor; `eof` tells that the buffer was not filled. */
    method ReadAt(p: array<byte>, off: nat) returns (n: nat, eof: bool)
      requires Valid() && p != data
      modifies p
      ensures Valid() && n <= p.Length && (eof <==> n < p.Length || off >= len)
      ensures off >= len ==> n == 0
      ensures off < len ==> n == (if len - off < p.Length then len - off else p.Length) && p[..n] == data[off..off + n]
      ensures forall i :: n <= i < p.Length ==> p[i] == old(p[i])
    {
      if off >= len {
        return 0, true;
      }
      n := if len - off < p.Length then len - off else p.Length;
      var k := n;
      forall i | 0 <= i < k {
        p[i] := data[off + i];
      }
      eof := n < p.Length;
    }

    method Seek(offset: int, whence: Whence) returns (r: Option<nat>)
      requires Valid()
      modifies this`pos
      ensures Valid()
      ensures match SeekIdeal(old(View()), offset, whence)
              case Some(f) => View() == f && r == Some(f.pos)
              case None => View() == old(View()) && r == None
      ensures whence == SeekStart ==> r == if offset < 0 then None else Some(offset)
      ensures whence == SeekCurrent ==> r == if old(pos) + offset < 0 then None else Some(old(pos) + offset)
      ensures whence == SeekEnd ==> r == if len + offset < 0 then None else Some(len + offset)
      ensures whence == BadWhence ==> r == None
      ensures pos == r.GetOr(old(pos))
    {
      var target: int;
      match whence {
        case SeekStart => target := offset;
        case SeekCurrent => target := pos + offset;
        case SeekEnd => target := len + offset;
        case BadWhence => return None;
      }
      if target < 0 {
        return None;
      }
      pos := target;
      return Some(pos);
    }

    method Truncate(size: nat)
      requires Valid()
      modifies this`data, this`len, this`dirty, data
      ensures Valid() && (data == old(data) || fresh(data)) && dirty
      ensures View() == TruncateIdeal(old(View()), size)
      ensures len == size && forall i :: 0 <= i < size ==>
                data[i] == if i < old(len) then old(data[..len])[i] else 0
    {
      dirty := true;
      if size < len {
        len := size;
      } else if size > len {
        Append(Zeros(size - len));
      }
    }

    /** The first close of a changed file stores its bytes; later closes do nothing. */
    method Close()
      requires Valid()
      modifies this`closed, fs
      ensures Valid() && closed && View() == old(View())
      ensures fs.objects == if !old(closed) && dirty then old(fs.objects)[name := View().bytes] else old(fs.objects)
    {
      if closed {
        return;
      }
      closed := true;
      if dirty {
        fs.objects := fs.objects[name := data[..len]];
      }
    }
  }

  // ----- Any sequence of operations -----

  datatype Op = Write(p: seq<byte>) | Read(n: nat) | Seek(offset: int, whence: Whence) | Truncate(size: nat)
  datatype Outcome = Wrote(n: nat) | Got(bytes: Option<seq<byte>>) | At(pos: Option<nat>) | Truncated

  function StepIdeal(f: Ideal, op: Op): (Outcome, Ideal) {
    match op
    case Write(p) => (Wrote(|p|), WriteIdeal(f, p))
    case Read(n) =>
      var (r, f') := ReadIdeal(f, n);
      (Got(r), f')
    case Seek(offset, whence) =>
      (match SeekIdeal(f, offset, whence)
       case Some(f') => (At(Some(f'.pos)), f')
       case None => (At(None), f))
    case Truncate(size) => (Truncated, TruncateIdeal(f, size))
  }

  function RunIdeal(f: Ideal, ops: seq<Op>): (seq<Outcome>, Ideal)
    decreases |ops|
  {
    if ops == [] then ([], f)
    else
      var (o, f') := StepIdeal(f, ops[0]);
      var (os, f'') := RunIdeal(f', ops[1..]);
      ([o] + os, f'')
  }

  method StepFile(f: File, op: Op) returns (o: Outcome)
    requires f.Valid()
    modifies f`data, f`len, f`pos, f`dirty, f.data
    ensures f.Valid() && (f.data == old(f.data) || fresh(f.data))
    ensures (o, f.View()) == StepIdeal(old(f.View()), op)
  {
    match op
    case Write(p) =>
      var n := f.Write(p);
      return Wrote(n);
    case Read(n) =>
      var buffer := new byte[n];
      var k := f.Read(buffer);
      if k.None? {
        return Got(None);
      }
      return Got(Some(buffer[..k.value]));
    case Seek(offset, whence) =>
      var r := f.Seek(offset, whence);
      return At(r);
    case Truncate(size) =>
      f.Truncate(size);
      return Truncated;
  }

  /** Every outcome and the final bytes are those of the ideal file, whatever the backing arrays did. */
  method RunFile(f: File, ops: seq<Op>) returns (os: seq<Outcome>)
    requires f.Valid()
    modifies f`data, f`len, f`pos, f`dirty, f.data
    ensures f.Valid() && (f.data == old(f.data) || fresh(f.data))
    ensures (os, f.View()) == RunIdeal(old(f.View()), ops)
    decreases |ops|
  {
    if |ops| == 0 {
      return [];
    }
    var o := StepFile(f, ops[0]);
    var rest := RunFile(f, ops[1..]);
    return [o] + rest;
  }

  // ----- The ideal file, by its last writer -----

  datatype Effect = Placed(pos: nat, p: seq<byte>) | Cut(size: nat) | Nothing

  function EffectOf(f: Ideal, op: Op): Effect {
    match op
    case Write(p) => Placed(f.pos, p)
    case Truncate(size) => Cut(size)
    case _ => Nothing
  }

  function Effects(f: Ideal, ops: seq<Op>): seq<Effect>
    decreases |ops|
  {
    if ops == [] then [] else [EffectOf(f, ops[0])] + Effects(StepIdeal(f, ops[0]).1, ops[1..])
  }

  function ByteAt(s: seq<byte>, i: nat): byte {
    if i < |s| then s[i] else 0
  }

  /** The last write over position `i`, unless a later truncation cut it off. */
  function LastWriter(es: seq<Effect>, start: seq<byte>, i: nat): byte
    decreases |es|
  {
    if es == [] then ByteAt(start, i)
    else
      var n := |es| - 1;
      match es[n]
      case Placed(pos, p) => if pos <= i < pos + |p| then p[i - pos] else LastWriter(es[..n], start, i)
      case Cut(size) => if i >= size then 0 else LastWriter(es[..n], start, i)
      case Nothing => LastWriter(es[..n], start, i)
  }

  lemma {:induction false} FirstEffect(e: Effect, es: seq<Effect>, s: seq<byte>, s': seq<byte>, i: nat)
    requires ByteAt(s', i) == LastWriter([e], s, i)
    ensures LastWriter([e] + es, s, i) == LastWriter(es, s', i)
    decreases |es|
  {
    if es == [] {
      assert [e] + es == [e];
    } else {
      var n := |es| - 1;
      assert ([e] + es)[..n + 1] == [e] + es[..n];
      FirstEffect(e, es[..n], s, s', i);
    }
  }

  /** After any operations, each byte is the last one written there since it was last cut off, or zero. */
  lemma {:induction false} LastWriteWins(f: Ideal, ops: seq<Op>, i: nat)
    ensures ByteAt(RunIdeal(f, ops).1.bytes, i) == LastWriter(Effects(f, ops), f.bytes, i)
    decreases |ops|
  {
    if ops != [] {
      var f' := StepIdeal(f, ops[0]).1;
      LastWriteWins(f', ops[1..], i);
      assert [EffectOf(f, ops[0])][..0] == [];
      FirstEffect(EffectOf(f, ops[0]), Effects(f', ops[1..]), f.bytes, f'.bytes, i);
    }
  }

  /** The size the last truncation or any later write left. */
  function SizeAfter(es: seq<Effect>, start: nat): nat
    decreases |es|
  {
    if es == [] then start
    else
      var n := |es| - 1;
      var before := SizeAfter(es[..n], start);
      match es[n]
      case Placed(pos, p) => if pos + |p| > before then pos + |p| else before
      case Cut(size) => size
      case Nothing => before
  }

  lemma {:induction false} FirstSize(e: Effect, es: seq<Effect>, start: nat)
    ensures SizeAfter([e] + es, start) == SizeAfter(es, SizeAfter([e], start))
    decreases |es|
  {
    if es == [] {
      assert [e] + es == [e];
    } else {
      var n := |es| - 1;
      assert ([e] + es)[..n + 1] == [e] + es[..n];
      FirstSize(e, es[..n], start);
    }
  }

  /** After any operations the file ends where the last truncation or the farthest later write ended. */
  lemma {:induction false} SizeLaw(f: Ideal, ops: seq<Op>)
    ensures |RunIdeal(f, ops).1.bytes| == SizeAfter(Effects(f, ops), |f.bytes|)
    decreases |ops|
  {
    if ops != [] {
      var f' := StepIdeal(f, ops[0]).1;
      SizeLaw(f', ops[1..]);
      assert [EffectOf(f, ops[0])][..0] == [];
      FirstSize(EffectOf(f, ops[0]), Effects(f', ops[1..]), |f.bytes|);
    }
  }

  /** What was written reads back from where it was written. */
  lemma WriteThenRead(f: Ideal, p: seq<byte>)
    requires p != []
    ensures SeekIdeal(WriteIdeal(f, p), f.pos, SeekStart).Some?
    ensures ReadIdeal(SeekIdeal(WriteIdeal(f, p), f.pos, SeekStart).value, |p|) == (Some(p), WriteIdeal(f, p))
  {
    assert WriteIdeal(f, p).bytes[f.pos..f.pos + |p|] == p;
  }
}

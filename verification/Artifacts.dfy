/** Artifact archives: stored by key, recorded on their job (artifacts.go). */
module Artifacts {
  import opened Options
  import opened Tokens
  import opened S3File
  import Scheduler
  import ControlPlane

  /** The archive's key in the store. */
  function ArtifactKey(job: nat): string {
    Digits(job) + ".zip"
  }

  /** The job's id in decimal and the archive suffix. */
  lemma ArtifactKeyShape(job: nat)
    ensures var key, n := ArtifactKey(job), |ArtifactKey(job)| - 4;
            && n > 0 && key[n..] == ".zip" && Decimal(key[..n]) && Value(key[..n]) == job
            && (n > 1 ==> key[0] != '0')
  {
    hide Decimal, Digits, Value;
    var key, n := ArtifactKey(job), |ArtifactKey(job)| - 4;
    assert key[..n] == Digits(job) && key[n..] == ".zip";
    DigitsAreDecimal(job);
    ValueOfDigits(job);
  }

  lemma ArtifactKeyInjective(a: nat, b: nat)
    requires ArtifactKey(a) == ArtifactKey(b)
    ensures a == b
  {
    assert ArtifactKey(a)[..|ArtifactKey(a)| - 4] == Digits(a);
    assert ArtifactKey(b)[..|ArtifactKey(b)| - 4] == Digits(b);
    ValueOfDigits(a);
    ValueOfDigits(b);
  }

  // ----- The object-store backend -----

  method Put(fs: ObjectStore, key: string, data: seq<byte>)
    modifies fs
    ensures fs.objects == old(fs.objects)[key := data]
  {
    var f := new File.Create(fs, key);
    var n := f.Write(data);
    f.Close();
    assert Overlay([], 0, data) == data;
  }

  lemma ChunkAdded(bytes: seq<byte>, start: nat, from: nat, to: nat)
    requires start <= from <= to <= |bytes|
    ensures bytes[start..from] + bytes[from..to] == bytes[start..to] && bytes[start..|bytes|] == bytes[start..]
  {
  }

  /** Reads to the end in chunks of any sizes. */
  method ReadAll(f: File) returns (data: seq<byte>)
    requires f.Valid()
    modifies f`pos
    ensures f.Valid() && f.View().bytes == old(f.View().bytes)
    ensures data == if f.len < old(f.pos) then [] else f.View().bytes[old(f.pos)..]
  {
    hide ReadIdeal;
    data := [];
    ghost var start, bytes := f.pos, f.View().bytes;
    while true
      invariant f.Valid() && f.View().bytes == bytes && |bytes| == f.len
      invariant if f.len < start then f.pos == start && data == []
                else start <= f.pos <= f.len && data == bytes[start..f.pos]
      decreases f.len - f.pos
    {
      var chunk: nat :| chunk > 0;
      var buffer := new byte[chunk];
      ghost var from := f.pos;
      var k := f.Read(buffer);
      if start <= |bytes| {
        ChunkAdded(bytes, start, from, f.pos);
      }
      if k.None? {
        return;
      }
      assert buffer[..k.value] == bytes[from..f.pos];
      data := data + buffer[..k.value];
    }
  }

  method Get(fs: ObjectStore, key: string) returns (r: Option<seq<byte>>)
    ensures r == if key in fs.objects then Some(fs.objects[key]) else None
  {
    if key !in fs.objects {
      return None;
    }
    var f := new File.Opened(fs, key, fs.objects[key]);
    var data := ReadAll(f);
    return Some(data);
  }

  // ----- The in-memory backend -----

  /** Each archive has an array of its own: the caller's buffer may change after Put. */
  class MemoryStore {
    var m: map<string, array<byte>>

    ghost function View(): map<string, seq<byte>>
      reads this, m.Values
    {
      map k | k in m :: m[k][..]
    }

    constructor ()
      ensures m == map[]
    {
      m := map[];
    }

    method Put(key: string, data: array<byte>)
      modifies this
      ensures key in m && fresh(m[key]) && m == old(m)[key := m[key]]
      ensures View() == old(View())[key := data[..]]
    {
      var copy := new byte[data.Length];
      forall i | 0 <= i < data.Length {
        copy[i] := data[i];
      }
      m := m[key := copy];
      assert copy[..] == data[..];
      assert forall k :: k in old(m) && k != key ==> m[k] == old(m)[k] && m[k][..] == old(m[k][..]);
    }

    method Get(key: string) returns (r: Option<array<byte>>)
      ensures r == if key in m then Some(m[key]) else None
    {
      if key in m {
        return Some(m[key]);
      }
      return None;
    }
  }

  // ----- The upload -----

  datatype UploadReply = NotFound | Forbidden | Unreadable | StoreFailed | Uploaded

  /**
   * handleArtifactUpload: name the archive, store it, then record its size. `data` is None when the
   * request could not be read; `storable` says whether the store takes the archive.
   */
  method Upload(
      s: ControlPlane.Server, fs: ObjectStore, j: nat, token: string, filename: string, data: Option<seq<byte>>,
      storable: bool)
      returns (r: UploadReply)
    requires s.Valid()
    modifies s`jobs, fs
    ensures s.Valid()
    ensures r.NotFound? <==> j !in old(s.jobs)
    ensures r.Forbidden? <==> j in old(s.jobs) && !(old(s.jobs)[j].token == token && token != "")
    ensures r.Unreadable? ==> data.None?
    ensures r.StoreFailed? ==> data.Some? && !storable
    ensures r.Uploaded? ==> data.Some? && storable
    ensures !r.Uploaded? ==>
              && fs.objects == old(fs.objects)
              && s.View() ==
                 if r.StoreFailed? then Scheduler.NameArtifact(old(s.View()), j, filename) else old(s.View())
    ensures r.StoreFailed? ==>
              s.jobs == if filename == "" then old(s.jobs)
                        else old(s.jobs)[j := old(s.jobs)[j].(artifactFilename := filename)]
    ensures r.Uploaded? ==>
              && s.View() == Scheduler.SizeArtifact(Scheduler.NameArtifact(old(s.View()), j, filename), j, |data.value|)
              && fs.objects == old(fs.objects)[ArtifactKey(j) := data.value] && j in s.jobs
              && s.jobs[j].artifactSize == |fs.objects[ArtifactKey(j)]|
              && var before := old(s.jobs)[j].artifactFilename;
                 var name := if filename != "" then filename else if before != "" then before else "artifacts.zip";
                 s.jobs == old(s.jobs)[j := old(s.jobs)[j].(artifactSize := |data.value|, artifactFilename := name)]
  {
    if j !in s.jobs {
      return NotFound;
    }
    if s.jobs[j].token == "" || s.jobs[j].token != token {
      return Forbidden;
    }
    if data.None? {
      return Unreadable;
    }
    if filename != "" {
      s.jobs := s.jobs[j := s.jobs[j].(artifactFilename := filename)];
    }
    if !storable {
      return StoreFailed;
    }
    Put(fs, ArtifactKey(j), data.value);
    s.jobs := s.jobs[j := s.jobs[j].(artifactSize := |data.value|)];
    if s.jobs[j].artifactFilename == "" {
      s.jobs := s.jobs[j := s.jobs[j].(artifactFilename := "artifacts.zip")];
    }
    return Uploaded;
  }
}

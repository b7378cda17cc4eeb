/**
 * Copy-if-absent of a bundled raw resource into a file (Utility.copy, and the identical
 * TorManager.copy): nothing happens when the destination exists; otherwise the destination is
 * created and the resource's stream (or, for a zip resource, its first entry's stream) is copied
 * into it through a 4096-byte buffer until a read delivers no bytes.
 *
 * The file system is a map from path to content. A stream is the sequence of results of its
 * read(buffer) calls; running past its end is end of stream (read returns -1).
 */
module FileCopy {
  import opened Wrappers
  import opened JavaLang

  type byte = b: int | 0 <= b < 256

  /** The size of the copy buffer, new byte[4096]. */
  const BufferSize: nat := 4096

  /** What one read(buffer) call can deliver: at most a buffer's worth. */
  type Chunk = s: seq<byte> | |s| <= BufferSize

  /** One call of InputStream.read(buffer): the bytes it delivered, or the IOException it raised. */
  datatype Read = Data(bytes: Chunk) | Failed(message: string)

  /**
   * A raw resource: the reads of its stream, and the reads of the stream of its first zip entry
   * (what ZipInputStream gives after getNextEntry; the decompression itself is not modelled).
   */
  datatype Resource = Resource(raw: seq<Read>, firstEntry: seq<Read>)

  type FileStore = map<string, seq<byte>>

  /** The read returned a positive byte count, so the copy loop writes and goes on. */
  predicate Delivers(r: Read) { r.Data? && |r.bytes| > 0 }

  /** The number of reads the copy loop writes before it stops. */
  function StopAt(stream: seq<Read>): (n: nat)
    ensures n <= |stream|
    ensures forall j :: 0 <= j < n ==> Delivers(stream[j])
    ensures n < |stream| ==> !Delivers(stream[n])
  {
    if stream == [] || !Delivers(stream[0]) then 0 else 1 + StopAt(stream[1..])
  }

  /** The bytes of a run of successful reads, in order. */
  function Concat(stream: seq<Read>): seq<byte>
    requires forall j :: 0 <= j < |stream| ==> stream[j].Data?
  {
    if stream == [] then [] else Concat(stream[..|stream| - 1]) + stream[|stream| - 1].bytes
  }

  /** What the copy loop writes: the bytes of every read before the first that delivers none. */
  function Written(stream: seq<Read>): seq<byte>
  {
    Concat(stream[..StopAt(stream)])
  }

  /** The IOException that ends the copy loop, if a read raised one. */
  function StreamError(stream: seq<Read>): Option<string>
  {
    var n := StopAt(stream);
    if n < |stream| && stream[n].Failed? then Some(stream[n].message) else None
  }

  /** The stream the loop reads: the first zip entry when zip is set, the raw stream otherwise. */
  function Input(resource: Resource, zip: bool): seq<Read>
  {
    if zip then resource.firstEntry else resource.raw
  }

  /** The file store after copy(location, resource, zip), and whether it threw. */
  function Copied(files: FileStore, location: string, resource: Resource, zip: bool): (FileStore, Outcome<Exception>)
  {
    if location in files then (files, Pass)
    else
      var stream := Input(resource, zip);
      (files[location := Written(stream)],
       match StreamError(stream) { case None => Pass case Some(m) => Fail(IOError(m)) })
  }

  /** One read(buffer) call: fills the front of the buffer and gives the count, -1 at the end. */
  method ReadInto(input: seq<Read>, next: nat, buffer: array<byte>) returns (count: int, failure: Option<string>)
    requires buffer.Length == BufferSize
    modifies buffer
    ensures next < |input| && input[next].Data? ==>
      failure == None && count == |input[next].bytes| && buffer[..count] == input[next].bytes
    ensures next < |input| && input[next].Failed? ==> count == -1 && failure == Some(input[next].message)
    ensures next >= |input| ==> count == -1 && failure == None
  {
    if next >= |input| {
      return -1, None;
    }
    match input[next]
    case Failed(m) =>
      return -1, Some(m);
    case Data(bytes) =>
      forall i | 0 <= i < |bytes| {
        buffer[i] := bytes[i];
      }
      return |bytes|, None;
  }

  /** Writing one more read appends its bytes. */
  lemma ConcatSnoc(stream: seq<Read>, n: nat)
    requires n < |stream| && forall j :: 0 <= j <= n ==> stream[j].Data?
    ensures Concat(stream[..n + 1]) == Concat(stream[..n]) + stream[n].bytes
  {
    assert stream[..n + 1][..n] == stream[..n];
  }

  /** Utility.copy: copy-if-absent through a 4096-byte buffer. */
  method Copy(files: FileStore, location: string, resource: Resource, zip: bool)
    returns (files': FileStore, outcome: Outcome<Exception>)
    ensures (files', outcome) == Copied(files, location, resource, zip)
  {
    if location in files {
      return files, Pass;
    }
    var input := resource.raw;
    files' := files[location := []];
    outcome := Pass;
    if zip {
      input := resource.firstEntry;
    }
    var failure;
    files', failure := Pump(files', location, input);
    assert files' == files[location := Written(input)];
    if failure.Some? {
      outcome := Fail(IOError(failure.value));
    }
  }

  /**
   * The copy loop: read into the buffer and append what was read to the open file, until a
   * read delivers no bytes; a read that throws ends it too.
   */
  method Pump(files: FileStore, location: string, input: seq<Read>) returns (files': FileStore, failure: Option<string>)
    requires location in files && files[location] == []
    ensures files' == files[location := Written(input)]
    ensures failure == StreamError(input)
  {
    files' := files;
    var buffer := new byte[BufferSize];
    var next := 0;
    var bytecount;
    bytecount, failure := ReadInto(input, next, buffer);
    while bytecount > 0
      invariant next <= |input| && bytecount <= buffer.Length
      invariant forall j :: 0 <= j < next ==> Delivers(input[j])
      invariant files' == files[location := Concat(input[..next])]
      invariant bytecount > 0 ==>
        next < |input| && Delivers(input[next]) && buffer[..bytecount] == input[next].bytes
      invariant bytecount <= 0 ==> next == StopAt(input)
      invariant bytecount <= 0 ==>
        failure == (if next < |input| && input[next].Failed? then Some(input[next].message) else None)
      decreases |input| - next
    {
      ConcatSnoc(input, next);
      files' := files'[location := files'[location] + buffer[..bytecount]];
      next := next + 1;
      bytecount, failure := ReadInto(input, next, buffer);
    }
  }

  // ---------------------------------------------------------------- properties

  /** When the destination exists, copy returns without altering any file. */
  lemma CopyExistingIsNoOp(files: FileStore, location: string, resource: Resource, zip: bool)
    requires location in files
    ensures Copied(files, location, resource, zip) == (files, Pass)
  {
  }

  /** A second copy to the same location, from any resource, keeps what the first produced. */
  lemma CopyIdempotent(files: FileStore, location: string, first: Resource, zip: bool, second: Resource, zip': bool)
    ensures var (once, _) := Copied(files, location, first, zip);
            Copied(once, location, second, zip') == (once, Pass)
  {
  }

  /** Otherwise only the destination changes, and it holds exactly the bytes the loop wrote. */
  lemma CopyWritesDestinationOnly(files: FileStore, location: string, resource: Resource, zip: bool)
    requires location !in files
    ensures var (after, _) := Copied(files, location, resource, zip);
            after.Keys == files.Keys + {location} &&
            after[location] == Written(Input(resource, zip)) &&
            forall p :: p in files ==> after[p] == files[p]
  {
  }

  /** A zip resource contributes only the bytes of its first entry. */
  lemma ZipCopiesFirstEntry(files: FileStore, location: string, resource: Resource)
    requires location !in files
    ensures Copied(files, location, resource, true).0[location] == Written(resource.firstEntry)
  {
  }

  /** Each read delivers at most a buffer's worth, so the file is at most that many bytes per read. */
  lemma {:induction false} ConcatBound(stream: seq<Read>)
    requires forall j :: 0 <= j < |stream| ==> stream[j].Data?
    ensures |Concat(stream)| <= BufferSize * |stream|
  {
    if stream != [] {
      ConcatBound(stream[..|stream| - 1]);
    }
  }

  lemma WrittenBound(stream: seq<Read>)
    ensures |Written(stream)| <= BufferSize * StopAt(stream)
  {
    ConcatBound(stream[..StopAt(stream)]);
  }

  /** A stream whose every read delivers bytes is copied whole, and the copy succeeds. */
  lemma {:induction false} WholeStreamCopied(stream: seq<Read>)
    requires forall j :: 0 <= j < |stream| ==> stream[j].Data? && |stream[j].bytes| > 0
    ensures Written(stream) == Concat(stream) && StreamError(stream) == None
  {
    assert stream[..StopAt(stream)] == stream;
  }

  /**
   * A copy that fails part-way leaves the destination holding the bytes read so far, and a
   * later copy, finding the destination present, never completes it.
   */
  lemma FailedCopyIsKept(files: FileStore, location: string, resource: Resource, zip: bool, retry: Resource, zip': bool)
    requires location !in files
    requires Copied(files, location, resource, zip).1.Fail?
    ensures var (after, _) := Copied(files, location, resource, zip);
            location in after && after[location] == Written(Input(resource, zip)) &&
            StreamError(Input(resource, zip)).Some? &&
            Copied(after, location, retry, zip') == (after, Pass)
  {
  }
}

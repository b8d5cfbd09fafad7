/**
 * getTypedArray: the typed-array view the echo app lays over each audio
 * chunk, chosen by the RtAudio sample format, to read samples for the
 * loudness meter.
 */
module SampleFormat {
  import opened JsBuiltins

  /** The RtAudio sample formats the app names; OtherFormat is any other value. */
  datatype RtAudioFormat = SInt8 | SInt16 | SInt32 | Float32 | Float64 | OtherFormat

  /** BYTES_PER_ELEMENT of the typed array getTypedArray picks for `f`. */
  function ElementSize(f: RtAudioFormat): (w: nat)
    ensures w in {1, 2, 4, 8}
  {
    match f
    case Float32 => 4
    case Float64 => 8
    case SInt16 => 2
    case SInt32 => 4
    case SInt8 => 1
    case OtherFormat => 2
  }

  /**
   * Which format gets which width: 8 bytes only for Float64Array, 1 only for
   * Int8Array, 4 for Float32Array and Int32Array, and 2 for Int16Array and
   * the fallback branch.
   */
  lemma ElementSizes(f: RtAudioFormat)
    ensures ElementSize(f) == 8 <==> f == Float64
    ensures ElementSize(f) == 1 <==> f == SInt8
    ensures ElementSize(f) == 4 <==> f == Float32 || f == SInt32
    ensures ElementSize(f) == 2 <==> f == SInt16 || f == OtherFormat
  {
  }

  /**
   * A Node Buffer as a window of `length` bytes at `byteOffset` inside its
   * backing ArrayBuffer of `backingLength` bytes (`buffer.buffer.byteLength`).
   * Small Node buffers share one pooled backing store, so the offset can be
   * non-zero and the backing store larger than the chunk.
   */
  datatype NodeBuffer = NodeBuffer(backingLength: nat, byteOffset: nat, length: nat)

  predicate WellFormed(b: NodeBuffer) {
    b.byteOffset + b.length <= b.backingLength
  }

  /**
   * getTypedArray as written: the view starts at the chunk's offset but its
   * element count is the WHOLE backing store's byte length divided by the
   * element size.
   */
  function GetTypedArray(buffer: NodeBuffer, f: RtAudioFormat): (r: Construction)
    requires WellFormed(buffer)
    ensures r.Constructed? ==>
      r.view.elementSize == ElementSize(f) &&
      r.view.byteOffset == buffer.byteOffset &&
      r.view.length * ElementSize(f) <= buffer.backingLength < (r.view.length + 1) * ElementSize(f)
  {
    var w := ElementSize(f);
    NewTypedArray(w, buffer.backingLength, buffer.byteOffset, buffer.backingLength / w)
  }

  /**
   * The as-written view exists only when the chunk's offset is aligned and no
   * larger than the backing length's remainder modulo the element size; in
   * particular a chunk at offset 0 always gets a view.
   */
  lemma GetTypedArraySucceeds(buffer: NodeBuffer, f: RtAudioFormat)
    requires WellFormed(buffer)
    ensures GetTypedArray(buffer, f).Constructed? <==>
      buffer.byteOffset % ElementSize(f) == 0 && buffer.byteOffset <= buffer.backingLength % ElementSize(f)
    ensures buffer.byteOffset == 0 ==> GetTypedArray(buffer, f).Constructed?
  {
    var w := ElementSize(f);
    var b := buffer.backingLength;
    assert (b / w) * w + b % w == b;
  }

  /**
   * A 3840-byte chunk (48000 Hz, 40 ms, mono, 16 bits) at offset 8 of an
   * 8192-byte pooled backing store: the as-written view would need 8200
   * bytes, so the constructor throws.
   */
  lemma PooledChunkRangeError()
    ensures GetTypedArray(NodeBuffer(8192, 8, 3840), SInt16) == RangeError
  {
  }

  /**
   * The same chunk at offset 0 of that store: the as-written view has 4096
   * samples, 2176 more than the chunk holds, so it reads past the chunk.
   */
  lemma SharedBackingOverreads()
    ensures GetTypedArray(NodeBuffer(8192, 0, 3840), SInt16) == Constructed(TypedArray(2, 0, 4096))
    ensures var view := GetTypedArray(NodeBuffer(8192, 0, 3840), SInt16).view;
            view.length * view.elementSize > NodeBuffer(8192, 0, 3840).length
  {
  }

  /** getTypedArray as evidently intended: as many elements as fit in the chunk. */
  function ChunkTypedArray(buffer: NodeBuffer, f: RtAudioFormat): (r: Construction)
    requires WellFormed(buffer)
    ensures r.Constructed? ==>
      r.view.byteOffset + r.view.length * r.view.elementSize <= buffer.byteOffset + buffer.length
  {
    var w := ElementSize(f);
    NewTypedArray(w, buffer.backingLength, buffer.byteOffset, buffer.length / w)
  }

  /**
   * The intended view exists for every aligned chunk, lies inside the chunk,
   * and leaves out less than one element at its end.
   */
  lemma ChunkTypedArrayInBounds(buffer: NodeBuffer, f: RtAudioFormat)
    requires WellFormed(buffer)
    ensures ChunkTypedArray(buffer, f).Constructed? <==> buffer.byteOffset % ElementSize(f) == 0
    ensures ChunkTypedArray(buffer, f).Constructed? ==>
      var v := ChunkTypedArray(buffer, f).view;
      v.byteOffset == buffer.byteOffset &&
      v.elementSize == ElementSize(f) &&
      v.length * v.elementSize <= buffer.length < (v.length + 1) * v.elementSize
  {
    var w := ElementSize(f);
    var n := buffer.length;
    assert (n / w) * w + n % w == n;
  }

  /** When the chunk owns its whole backing store, both views coincide. */
  lemma ViewsAgreeOnOwnedBuffer(buffer: NodeBuffer, f: RtAudioFormat)
    requires WellFormed(buffer)
    requires buffer.byteOffset == 0 && buffer.length == buffer.backingLength
    ensures GetTypedArray(buffer, f) == ChunkTypedArray(buffer, f)
    ensures GetTypedArray(buffer, f).Constructed?
  {
    GetTypedArraySucceeds(buffer, f);
  }
}

/**
 * The sample frame: one point in time of up to eight channels (`AudioSample` in
 * src/audio/sample.rs). The value is `Copy` in the source, so it is a datatype
 * here; the operations that fill a frame slot by slot, or write one into a
 * caller's buffer, are methods with loops.
 */
module Sample {

  /** Number of slots of the fixed array `data: [f32; 8]`. */
  const Slots: nat := 8

  type SlotData = s: seq<real> | |s| == Slots witness [0.0, 0.0, 0.0, 0.0, 0.0, 0.0, 0.0, 0.0]

  /** Every constructed frame has at most eight live channels. */
  type ChannelCount = c: nat | c <= Slots

  const Zeros: SlotData := [0.0, 0.0, 0.0, 0.0, 0.0, 0.0, 0.0, 0.0]

  /** Only the first `channels` slots of `data` are meaningful. */
  datatype AudioSample = AudioSample(channels: ChannelCount, data: SlotData)

  /** `AudioSample::default()`: no channels, all slots 0.0. */
  const Default: AudioSample := AudioSample(0, Zeros)

  /** The frame `from_slice` builds from `values`. */
  function OfValues(values: seq<real>): (r: AudioSample)
    requires |values| <= Slots
    ensures r.channels == |values|
    ensures forall i :: 0 <= i < |values| ==> r.data[i] == values[i]
    ensures forall i :: |values| <= i < Slots ==> r.data[i] == 0.0
  {
    AudioSample(|values|, values + Zeros[|values|..])
  }

  /** The frame `apply_process` returns: `f` on the live channels, the rest as they were. */
  function Processed(s: AudioSample, f: real -> real): (r: AudioSample)
    ensures r.channels == s.channels
  {
    AudioSample(s.channels, seq(Slots, i requires 0 <= i < Slots => if i < s.channels then f(s.data[i]) else s.data[i]))
  }

  /** `from_slice`: start from the default frame and copy `values` into the first slots.
      More than eight values is an out-of-bounds slice in the source (a panic). */
  method FromSlice(values: seq<real>) returns (r: AudioSample)
    requires |values| <= Slots
    ensures r == OfValues(values)
    ensures r.channels == |values| && r.data[..|values|] == values
    ensures forall i :: |values| <= i < Slots ==> r.data[i] == 0.0
  {
    var data: SlotData := Zeros;
    var i := 0;
    while i < |values|
      invariant 0 <= i <= |values|
      invariant forall k :: 0 <= k < i ==> data[k] == values[k]
      invariant forall k :: i <= k < Slots ==> data[k] == 0.0
    {
      data := data[i := values[i]];
      i := i + 1;
    }
    assert data == OfValues(values).data;
    r := AudioSample(|values|, data);
  }

  /** `apply_process`: a copy of `s` with `processor` applied to each live channel. */
  method ApplyProcess(s: AudioSample, processor: real -> real) returns (r: AudioSample)
    ensures r == Processed(s, processor)
    ensures r.channels == s.channels
    ensures forall i :: 0 <= i < s.channels ==> r.data[i] == processor(s.data[i])
    ensures forall i :: s.channels <= i < Slots ==> r.data[i] == s.data[i]
  {
    r := s;
    var i := 0;
    while i < s.channels
      invariant 0 <= i <= s.channels
      invariant r.channels == s.channels
      invariant forall k :: 0 <= k < i ==> r.data[k] == processor(s.data[k])
      invariant forall k :: i <= k < Slots ==> r.data[k] == s.data[k]
    {
      r := r.(data := r.data[i := processor(r.data[i])]);
      i := i + 1;
    }
  }

  /** `write_slice`: copy the first `dst.Length` slots into `dst`; a destination longer
      than eight is an out-of-bounds slice in the source. */
  method WriteSlice(s: AudioSample, dst: array<real>)
    requires dst.Length <= Slots
    modifies dst
    ensures dst[..] == s.data[..dst.Length]
  {
    forall i | 0 <= i < dst.Length {
      dst[i] := s.data[i];
    }
  }

  /** What `write_slice_convert` writes into a destination of `len` slots. */
  function Converted<T>(s: AudioSample, len: nat, convert: real -> T): (r: seq<T>)
    requires len <= Slots
    ensures |r| == len
  {
    seq(len, i requires 0 <= i < len => convert(s.data[i]))
  }

  /** `write_slice_convert` into the sub-slice `dst[start..start + len]`: slot i gets
      `convert(data[i])`; the rest of `dst` is untouched. */
  method WriteSliceConvert<T>(s: AudioSample, dst: array<T>, start: nat, len: nat, convert: real -> T)
    requires start + len <= dst.Length && len <= Slots
    modifies dst
    ensures dst[..start] == old(dst[..start])
    ensures dst[start..start + len] == Converted(s, len, convert)
    ensures dst[start + len..] == old(dst[start + len..])
  {
    var i := 0;
    while i < len
      invariant 0 <= i <= len
      invariant forall k :: 0 <= k < start ==> dst[k] == old(dst[k])
      invariant forall k :: 0 <= k < i ==> dst[start + k] == convert(s.data[k])
      invariant forall k :: start + i <= k < dst.Length ==> dst[k] == old(dst[k])
    {
      dst[start + i] := convert(s.data[i]);
      i := i + 1;
    }
    assert dst[start..start + len] == Converted(s, len, convert) by {
      forall k | 0 <= k < len ensures dst[start..start + len][k] == Converted(s, len, convert)[k] {
        assert dst[start + k] == convert(s.data[k]);
      }
    }
  }

  /** `channels()`. */
  function Channels(s: AudioSample): (c: nat)
    ensures c <= Slots
  {
    s.channels
  }

  /** `ch1()` .. `ch8()`: `Ch(s, n)` is `chn()`. */
  function Ch(s: AudioSample, n: nat): real
    requires 1 <= n <= Slots
  {
    s.data[n - 1]
  }

  /** from_slice then write_slice into a slice of the same length gives the values back. */
  method FromSliceThenWriteSlice(values: seq<real>, dst: array<real>)
    requires dst.Length == |values| <= Slots
    modifies dst
    ensures dst[..] == values
  {
    var s := FromSlice(values);
    WriteSlice(s, dst);
  }

  /** The same round trip on the specification: the live slots are the values. */
  lemma OfValuesRoundTrip(values: seq<real>)
    requires |values| <= Slots
    ensures Channels(OfValues(values)) == |values|
    ensures OfValues(values).data[..Channels(OfValues(values))] == values
  {
    assert OfValues(values).data[..|values|] == values;
  }

  /** The channel accessors of a built frame: the n-th value, 0.0 past the end. */
  lemma ChOfValues(values: seq<real>, n: nat)
    requires |values| <= Slots && 1 <= n <= Slots
    ensures Ch(OfValues(values), n) == if n <= |values| then values[n - 1] else 0.0
  {
  }

  /** Processing keeps the dead slots, so a processed frame built from values still has
      zeros past its channels, and its live slots are the processed values. */
  lemma ProcessedOfValues(values: seq<real>, f: real -> real)
    requires |values| <= Slots
    ensures Processed(OfValues(values), f) == OfValues(seq(|values|, i requires 0 <= i < |values| => f(values[i])))
  {
    var p := Processed(OfValues(values), f);
    var q := OfValues(seq(|values|, i requires 0 <= i < |values| => f(values[i])));
    assert p.data == q.data by {
      forall i | 0 <= i < Slots ensures p.data[i] == q.data[i] {
      }
    }
  }
}

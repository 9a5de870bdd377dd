/**
 * The bounded frame queue: the single-producer/single-consumer ring of the `ringbuf`
 * crate that src/audio/device.rs creates and splits into a producer and a consumer.
 * The crate is not part of this model; the class states the behaviour the core relies
 * on: FIFO order, a fixed capacity, no overwrite of unread entries.
 * The producer and consumer halves share one object here.
 */
module Ring {
  import opened Common
  import opened Sample

  class SampleRing {
    const capacity: nat
    /** Queued frames, oldest first. */
    var contents: seq<AudioSample>

    ghost predicate Valid()
      reads this
    {
      |contents| <= capacity
    }

    /** `RingBuffer::new(capacity)`. */
    constructor (capacity: nat)
      ensures Valid() && this.capacity == capacity && contents == []
    {
      this.capacity := capacity;
      contents := [];
    }

    /** `Producer::remaining`: free slots. */
    function Remaining(): (r: nat)
      reads this
      requires Valid()
      ensures r + |contents| == capacity
    {
      capacity - |contents|
    }

    /** `Producer::push_slice`: appends as many leading elements as there is room for and
        returns how many. */
    method PushSlice(elems: seq<AudioSample>) returns (n: nat)
      requires Valid()
      modifies this
      ensures Valid()
      ensures n == Min(|elems|, old(Remaining()))
      ensures contents == old(contents) + elems[..n]
    {
      n := Min(|elems|, Remaining());
      contents := contents + elems[..n];
    }

    /** `Consumer::pop`: the oldest frame, or None when empty. */
    method Pop() returns (r: Option<AudioSample>)
      requires Valid()
      modifies this
      ensures Valid()
      ensures old(contents) == [] ==> r == None && contents == []
      ensures old(contents) != [] ==> r == Some(old(contents)[0]) && contents == old(contents)[1..]
    {
      if contents == [] {
        r := None;
      } else {
        r := Some(contents[0]);
        contents := contents[1..];
      }
    }

    /** `Consumer::discard`: drops up to `n` of the oldest frames and returns how many. */
    method Discard(n: nat) returns (k: nat)
      requires Valid()
      modifies this
      ensures Valid()
      ensures k == Min(n, |old(contents)|) && contents == old(contents)[k..]
    {
      k := Min(n, |contents|);
      contents := contents[k..];
    }
  }
}

/** The waveform sample buffer as values: what an AudioData call leaves in
    the two 512-sample channels, given only the interleaved chunk it was
    handed. The class in visualization.dfy fills its array to match. */
module Waveform {

  /** Samples kept per channel (the second dimension of m_fWaveform). */
  const BufferSize: nat := 512

  /** A sample is the host's normalised float amplitude, idealised as a real. */
  type Sample = real

  /** The two channels of the buffer: index 0 is left, index 1 is right. */
  datatype Channels = Channels(left: seq<Sample>, right: seq<Sample>) {

    /** The channel with the given index, as the first subscript of m_fWaveform. */
    function Channel(c: nat): seq<Sample>
      requires c < 2
    {
      if c == 0 then left else right
    }
  }

  predicate Full(buf: Channels) {
    |buf.left| == BufferSize && |buf.right| == BufferSize
  }

  /** The index of the right-channel float read by write k (counting from 0)
      of the fill loop, for a chunk of n floats: each pass of the inner loop
      runs i = 0, 2, 4, ... below n, that is (n + 1) / 2 times, and the outer
      loop starts a new pass from i = 0 until 512 writes are done. */
  function ReadIndex(n: nat, k: nat): nat
    requires n > 0
  {
    2 * (k % ((n + 1) / 2)) + 1
  }

  /** The chunks AudioData can consume: exactly those for which the fill loop
      makes progress and every float it reads lies inside the chunk. With no
      samples the loop never ends; with an odd count the last pair's right
      sample lies past the end, unless 512 pairs are written before that pair
      is reached, which is the case exactly when the count exceeds 1024. */
  predicate Consumable(data: seq<Sample>): (ok: bool)
    ensures ok <==> |data| > 0 && forall k :: 0 <= k < BufferSize ==> ReadIndex(|data|, k) < |data|
  {
    ReadsInBounds(|data|);
    |data| > 0 && (|data| % 2 == 0 || |data| > 2 * BufferSize)
  }

  lemma ReadsInBounds(n: nat)
    ensures n > 0 && (n % 2 == 0 || n > 2 * BufferSize)
            <==> n > 0 && forall k :: 0 <= k < BufferSize ==> ReadIndex(n, k) < n
  {
    if n > 0 {
      var c := (n + 1) / 2;
      if n % 2 == 0 {
        assert c == n / 2;
        forall k | 0 <= k < BufferSize ensures ReadIndex(n, k) < n {
          assert k % c < c;
        }
      } else if n > 2 * BufferSize {
        forall k | 0 <= k < BufferSize ensures ReadIndex(n, k) < n {
          ModSmall(k, c);
        }
      } else {
        // The last write of the first pass reads pAudioData[n].
        ModSmall(c - 1, c);
        assert ReadIndex(n, c - 1) == n;
      }
    }
  }

  /** Number of complete stereo pairs in an interleaved chunk. */
  function PairCount(data: seq<Sample>): nat {
    |data| / 2
  }

  /** The complete (left, right) pairs of an interleaved chunk, in order. */
  function Pairs(data: seq<Sample>): (r: seq<(Sample, Sample)>)
    ensures |r| == PairCount(data)
    ensures forall j :: 0 <= j < |r| ==> r[j] == (data[2 * j], data[2 * j + 1])
  {
    if |data| < 2 then [] else [(data[0], data[1])] + Pairs(data[2..])
  }

  /** s written end to end as often as needed and cut at length n. */
  function Cycle<T>(s: seq<T>, n: nat): (r: seq<T>)
    requires |s| > 0
    ensures |r| == n
    decreases n
  {
    if n <= |s| then s[..n] else s + Cycle(s, n - |s|)
  }

  /** Quotient and remainder are unique: n == q * p + m with 0 <= m < p fixes m. */
  lemma ModUnique(n: int, p: int, q: int, m: int)
    requires p > 0 && 0 <= m < p && n == q * p + m
    ensures n % p == m
  {
    var q', m' := n / p, n % p;
    assert (q - q') * p == m' - m;
    if q > q' {
      assert (q - q') * p >= p by { MulAtLeast(q - q', p); }
    } else if q < q' {
      assert (q' - q) * p >= p by { MulAtLeast(q' - q, p); }
    }
  }

  lemma MulAtLeast(a: int, p: int)
    requires a >= 1 && p > 0
    ensures a * p >= p
  {
  }

  lemma ModShift(k: nat, p: nat)
    requires 0 < p <= k
    ensures (k - p) % p == k % p
  {
    var q, m := (k - p) / p, (k - p) % p;
    assert k == (q + 1) * p + m;
    ModUnique(k, p, q + 1, m);
  }

  lemma ModSmall(k: nat, p: nat)
    requires k < p
    ensures k % p == k
  {
    ModUnique(k, p, 0, k);
  }

  lemma ModOffset(a: nat, d: nat, p: nat)
    requires 0 <= d < p && a % p == 0
    ensures (a + d) % p == d
  {
    var q := a / p;
    assert a + d == q * p + d;
    ModUnique(a + d, p, q, d);
  }

  /** Element k of a cycle is element k mod |s| of the cycled sequence. */
  lemma {:induction false} CycleAt<T>(s: seq<T>, n: nat, k: nat)
    requires |s| > 0 && k < n
    ensures Cycle(s, n)[k] == s[k % |s|]
    decreases n
  {
    if n > |s| && k >= |s| {
      CycleAt(s, n - |s|, k - |s|);
      ModShift(k, |s|);
    }
  }

  lemma CycleEverywhere<T>(s: seq<T>, n: nat)
    requires |s| > 0
    ensures forall k :: 0 <= k < n ==> Cycle(s, n)[k] == s[k % |s|]
  {
    forall k | 0 <= k < n ensures Cycle(s, n)[k] == s[k % |s|] {
      CycleAt(s, n, k);
    }
  }

  /** The buffer after AudioData(data): the chunk's pairs are written from
      slot 0 on, starting over from the first pair until all 512 slots hold a
      sample, so slot k holds pair k mod P (P the number of pairs). */
  function AfterAudioData(data: seq<Sample>): (r: Channels)
    requires Consumable(data)
    ensures Full(r)
    ensures forall k :: 0 <= k < BufferSize ==>
              r.left[k] == data[2 * (k % PairCount(data))]
    ensures forall k :: 0 <= k < BufferSize ==>
              r.right[k] == data[2 * (k % PairCount(data)) + 1]
  {
    var written := Cycle(Pairs(data), BufferSize);
    CycleEverywhere(Pairs(data), BufferSize);
    Channels(seq(BufferSize, k requires 0 <= k < BufferSize => written[k].0),
             seq(BufferSize, k requires 0 <= k < BufferSize => written[k].1))
  }

  /** A chunk of N pairs lands in slots 0..N-1 unchanged (for N up to 512). */
  lemma DeinterleavedPrefix(data: seq<Sample>, k: nat)
    requires Consumable(data) && k < PairCount(data) && k < BufferSize
    ensures AfterAudioData(data).left[k] == data[2 * k]
    ensures AfterAudioData(data).right[k] == data[2 * k + 1]
  {
    ModSmall(k, PairCount(data));
  }

  /** A chunk shorter than 512 pairs is repeated: every slot from P on holds
      what the slot P places earlier holds, so nothing of an earlier call
      survives. */
  lemma ShortChunkRepeats(data: seq<Sample>, k: nat)
    requires Consumable(data) && PairCount(data) <= k < BufferSize
    ensures AfterAudioData(data).left[k] == AfterAudioData(data).left[k - PairCount(data)]
    ensures AfterAudioData(data).right[k] == AfterAudioData(data).right[k - PairCount(data)]
  {
    ModShift(k, PairCount(data));
  }

  /** A chunk of 512 pairs or more: exactly the first 512 pairs are kept, in
      order, and whatever follows them is ignored. */
  lemma LongChunkTruncated(data: seq<Sample>)
    requires Consumable(data) && |data| >= 2 * BufferSize
    ensures Consumable(data[..2 * BufferSize])
    ensures AfterAudioData(data) == AfterAudioData(data[..2 * BufferSize])
    ensures AfterAudioData(data).left == seq(BufferSize, k requires 0 <= k < BufferSize => data[2 * k])
    ensures AfterAudioData(data).right == seq(BufferSize, k requires 0 <= k < BufferSize => data[2 * k + 1])
  {
  }
}

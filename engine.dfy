/** The benchmark engine: the input normaliser that turns the user's text
    into a buffer of the requested size, the per-algorithm runner that times
    key generation, signing and verification, and the orchestrator that runs
    every (algorithm, run) pair in order. The two runners of the source
    (Ed25519 and ECDSA) differ only in the provider parameters and the label,
    so they are one method here, parameterised by the algorithm. */
module BenchmarkEngine {
  import opened Common
  import opened Statistics
  import opened Platform

  /** The label a runner writes into its record. */
  function Label(alg: Algorithm): string
  {
    match alg
    case Ed25519 => "ED25519"
    case Ecdsa => "ECDSA"
  }

  /** The orchestrator's dispatch: an identifier selects a runner only when
      it is exactly one of the two labels. */
  function ParseAlgorithm(id: string): (r: Option<Algorithm>)
  {
    if id == "ED25519" then Some(Ed25519)
    else if id == "ECDSA" then Some(Ecdsa)
    else None
  }

  /** Dispatch and labelling are inverse: an identifier is accepted exactly
      when it is the label of the algorithm it selects. */
  lemma ParseLabelInverse(id: string, alg: Algorithm)
    ensures ParseAlgorithm(id) == Some(alg) <==> id == Label(alg)
  {
  }

  /** What is assumed of `TextEncoder.encode`: the empty string encodes to no
      bytes and every other string to at least one. */
  predicate EncodingOf(input: string, encoded: seq<byte>)
  {
    (|input| == 0) == (|encoded| == 0)
  }

  // ---------------------------------------------------------------- input

  /** The custom-input buffer: the encoding repeated cyclically, cut at
      `size` bytes. */
  function Tiled(encoded: seq<byte>, size: nat): seq<byte>
    requires |encoded| > 0
  {
    seq(size, i requires 0 <= i < size => encoded[i % |encoded|])
  }

  /** `k` copies of `s`, one after the other. */
  function Repeat(s: seq<byte>, k: nat): (r: seq<byte>)
    ensures |r| == k * |s|
  {
    if k == 0 then [] else s + Repeat(s, k - 1)
  }

  /** A buffer longer than the encoding starts with the whole encoding and
      continues with the tiling of the rest: tiling is periodic. */
  lemma TiledUnfold(encoded: seq<byte>, n: nat)
    requires |encoded| > 0
    ensures Tiled(encoded, |encoded| + n) == encoded + Tiled(encoded, n)
  {
    var e := |encoded|;
    var lhs, rhs := Tiled(encoded, e + n), encoded + Tiled(encoded, n);
    forall i | 0 <= i < e + n
      ensures lhs[i] == rhs[i]
    {
      if i >= e {
        assert (i - e) % e == i % e by {
          ModShift(i - e, e);
        }
      } else {
        assert i % e == i;
      }
    }
  }

  lemma ModShift(a: nat, e: nat)
    requires e > 0
    ensures (a + e) % e == a % e
  {
    ModUnique(a + e, e, a / e + 1, a % e);
  }

  /** Quotient and remainder are determined by `x == q * e + m`, `0 <= m < e`. */
  lemma ModUnique(x: int, e: int, q: int, m: int)
    requires e > 0 && 0 <= m < e && x == q * e + m
    ensures x % e == m
  {
    var d := q - x / e;
    assert d * e == x % e - m;
    MulBounds(d, e);
  }

  lemma MulBounds(d: int, e: int)
    requires e > 0
    ensures d >= 1 ==> d * e >= e
    ensures d <= -1 ==> d * e <= -e
  {
  }

  /** A buffer no longer than the encoding is a prefix of it. */
  lemma TiledPrefixOfEncoding(encoded: seq<byte>, size: nat)
    requires |encoded| > 0 && size <= |encoded|
    ensures Tiled(encoded, size) == encoded[..size]
  {
  }

  /** Cutting a tiling shorter gives the tiling of the shorter size. */
  lemma TiledTruncate(encoded: seq<byte>, size: nat, m: nat)
    requires |encoded| > 0 && m <= size
    ensures Tiled(encoded, size)[..m] == Tiled(encoded, m)
  {
  }

  /** When the encoding's length divides the size, the buffer is the
      encoding repeated `size / |encoded|` times. */
  lemma {:induction false} TiledWhole(encoded: seq<byte>, k: nat)
    requires |encoded| > 0
    ensures Tiled(encoded, k * |encoded|) == Repeat(encoded, k)
  {
    if k == 0 {
      assert Tiled(encoded, 0) == [];
    } else {
      assert k * |encoded| == |encoded| + (k - 1) * |encoded|;
      TiledUnfold(encoded, (k - 1) * |encoded|);
      TiledWhole(encoded, k - 1);
    }
  }

  /** In general the buffer is a prefix of the least number of whole
      repetitions that reaches `size` bytes. */
  lemma TiledIsRepetitionPrefix(encoded: seq<byte>, size: nat)
    requires |encoded| > 0
    ensures CeilDiv(size, |encoded|) >= 0
    ensures size <= CeilDiv(size, |encoded|) * |encoded|
    ensures Tiled(encoded, size) == Repeat(encoded, CeilDiv(size, |encoded|))[..size]
  {
    var k := CeilDiv(size, |encoded|);
    TiledWhole(encoded, k);
    TiledTruncate(encoded, k * |encoded|, size);
  }

  /** The bytes `generateDataFromInput` produces when it succeeds: the tiled
      encoding for custom input, else the next `size` random bytes. */
  function InputBlock(input: string, encoded: seq<byte>, size: nat, stream: nat -> byte, drawn: nat): seq<byte>
    requires EncodingOf(input, encoded)
  {
    if |input| > 0 then Tiled(encoded, size) else RandomBlock(stream, drawn, size)
  }

  /** Random bytes one call of `generateDataFromInput` consumes. */
  function RandomBytesPerCall(input: string, size: nat): nat
  {
    if |input| > 0 then 0 else size
  }

  /** Why `generateDataFromInput(input, size)` throws, if it does: the
      `Uint8Array` constructor refuses a negative size, and the random
      source refuses more than `MaxRandomBytes` bytes. */
  function DataFailure(input: string, size: int): (e: Option<Failure>)
    ensures e.Some? <==> size < 0 || (|input| == 0 && size > MaxRandomBytes)
    ensures e.Some? ==> (e.value == InvalidArrayLength <==> size < 0)
    ensures e.Some? ==> e.value in {InvalidArrayLength, QuotaExceeded}
  {
    if size < 0 then Some(InvalidArrayLength)
    else if |input| == 0 && size > MaxRandomBytes then Some(QuotaExceeded)
    else None
  }

  /** The error one round of a runner throws: the input's, or else a
      rejection by the provider. */
  function RoundFailure(input: string, size: int): Failure
  {
    if DataFailure(input, size).Some? then DataFailure(input, size).value else ProviderRejected
  }

  /** `generateDataFromInput(input, size)`. */
  method GenerateDataFromInput(input: string, encoded: seq<byte>, size: int, rng: RandomSource)
    returns (r: Result<array<byte>>)
    requires EncodingOf(input, encoded)
    modifies rng
    ensures r.Failure? <==> DataFailure(input, size).Some?
    ensures r.Failure? ==> r.error == DataFailure(input, size).value && unchanged(rng)
    ensures r.Success? ==> fresh(r.value) && r.value.Length == size
    ensures r.Success? ==> r.value[..] == InputBlock(input, encoded, size, rng.stream, old(rng.drawn))
    ensures r.Success? ==> rng.drawn == old(rng.drawn) + RandomBytesPerCall(input, size)
  {
    if size < 0 {
      return Failure(InvalidArrayLength);
    }
    if |input| > 0 {
      var data := new byte[size];
      for i := 0 to size
        modifies data
        invariant forall k :: 0 <= k < i ==> data[k] == encoded[k % |encoded|]
      {
        data[i] := encoded[i % |encoded|];
      }
      return Success(data);
    }
    var data := new byte[size];
    var filled := rng.GetRandomValues(data);
    if filled.Failure? {
      return Failure(filled.error);
    }
    return Success(data);
  }

  /** For custom input the buffer is the same on every call. */
  lemma CustomInputDeterministic(input: string, encoded: seq<byte>, size: nat,
                                 s1: nat -> byte, d1: nat, s2: nat -> byte, d2: nat)
    requires EncodingOf(input, encoded) && |input| > 0
    ensures |encoded| > 0
    ensures InputBlock(input, encoded, size, s1, d1) == InputBlock(input, encoded, size, s2, d2)
    ensures InputBlock(input, encoded, size, s1, d1) == Tiled(encoded, size)
  {
  }

  // --------------------------------------------------------------- records

  datatype InputDetails = InputDetails(
    originalInput: string,
    inputLength: nat,
    encodedLength: nat,
    dataSize: int,
    isCustomInput: bool)

  /** The `inputDetails` object a runner attaches to its record. */
  function InputDetailsOf(userInput: string, encoded: seq<byte>, dataSize: int): (d: InputDetails)
    requires EncodingOf(userInput, encoded)
    ensures d.isCustomInput <==> |userInput| > 0
    ensures d.encodedLength == |encoded|
    ensures d.isCustomInput <==> d.encodedLength > 0
    ensures !d.isCustomInput ==> d.originalInput == "Random data"
    ensures d.isCustomInput ==> d.originalInput == userInput
    ensures d.inputLength == |userInput| && d.dataSize == dataSize
  {
    InputDetails(
      originalInput := if |userInput| > 0 then userInput else "Random data",
      inputLength := |userInput|,
      encodedLength := if |userInput| > 0 then |encoded| else 0,
      dataSize := dataSize,
      isCustomInput := |userInput| > 0)
  }

  /** One `BenchmarkMetrics` record: one runner invocation's samples and
      their statistics (`varianceTime` is the square of `stdDevTime`). */
  datatype BenchmarkMetrics = BenchmarkMetrics(
    algorithm: string,
    times: seq<real>,
    memorySnapshots: seq<real>,
    avgTime: real,
    minTime: real,
    maxTime: real,
    varianceTime: real,
    p50Time: real,
    p95Time: real,
    p99Time: real,
    avgMemory: real,
    inputDetails: InputDetails)

  /** A record's statistics are those of its own samples. */
  predicate Summarised(m: BenchmarkMetrics)
  {
    && |m.times| == |m.memorySnapshots| > 0
    && CalculateStatistics(m.times)
       == Success(Summary(m.avgTime, m.minTime, m.maxTime, m.varianceTime, m.p50Time, m.p95Time, m.p99Time))
    && m.avgMemory == Mean(m.memorySnapshots)
  }

  /** Elapsed time of one iteration when its six clock readings start at
      position `t`: key generation, signing and verification. */
  function IterationTime(reading: nat -> real, t: nat): real
  {
    Elapsed(reading, t) + Elapsed(reading, t + 2) + Elapsed(reading, t + 4)
  }

  /** With a monotonic clock every time sample is non-negative. */
  lemma IterationTimeNonNegative(clock: Clock, t: nat)
    requires clock.Monotonic()
    ensures IterationTime(clock.reading, t) >= 0.0
  {
    assert clock.reading(t) <= clock.reading(t + 1);
    assert clock.reading(t + 2) <= clock.reading(t + 3);
    assert clock.reading(t + 4) <= clock.reading(t + 5);
  }

  /** `(data.byteLength + signature.byteLength) / (1024 * 1024)`. */
  function MemoryEstimate(dataLength: nat, signatureLength: nat): (mb: real)
    ensures mb >= 0.0
  {
    (dataLength + signatureLength) as real / (1024 * 1024) as real
  }

  /** Elapsed time between two consecutive clock readings from position `t`. */
  function Elapsed(reading: nat -> real, t: nat): real
  {
    reading(t + 1) - reading(t)
  }

  /** Key generation between two clock readings. */
  method TimeKeyGeneration(alg: Algorithm, provider: CryptoProvider, clock: Clock)
    returns (r: Result<(KeyPair, real)>)
    modifies provider, clock
    ensures r.Failure? <==> provider.keyGen(alg, old(provider.calls)).None?
    ensures r.Failure? ==> r.error == ProviderRejected
    ensures r.Success? ==> r.value.0 == provider.keyGen(alg, old(provider.calls)).value
    ensures provider.calls == old(provider.calls) + 1
    ensures r.Success? ==> r.value.1 == Elapsed(clock.reading, old(clock.ticks)) && clock.ticks == old(clock.ticks) + 2
    ensures provider.messages == old(provider.messages) && provider.signatures == old(provider.signatures)
  {
    var start := clock.Now();
    var keyPair := provider.GenerateKey(alg);
    if keyPair.None? {
      return Failure(ProviderRejected);
    }
    var end := clock.Now();
    return Success((keyPair.value, end - start));
  }

  /** Signing between two clock readings. */
  method TimeSigning(alg: Algorithm, key: KeyPair, data: seq<byte>, provider: CryptoProvider, clock: Clock)
    returns (r: Result<(seq<byte>, real)>)
    modifies provider, clock
    ensures r.Failure? <==> provider.signer(alg, key, data, old(provider.calls)).None?
    ensures r.Failure? ==> r.error == ProviderRejected
    ensures r.Success? ==> r.value.0 == provider.signer(alg, key, data, old(provider.calls)).value
    ensures provider.calls == old(provider.calls) + 1
    ensures r.Success? ==> r.value.1 == Elapsed(clock.reading, old(clock.ticks)) && clock.ticks == old(clock.ticks) + 2
    ensures r.Success? ==> provider.messages == old(provider.messages) + [data]
    ensures r.Success? ==> provider.signatures == old(provider.signatures) + [r.value.0]
  {
    var start := clock.Now();
    var signature := provider.Sign(alg, key, data);
    if signature.None? {
      return Failure(ProviderRejected);
    }
    var end := clock.Now();
    return Success((signature.value, end - start));
  }

  /** Verification between two clock readings; the verdict is discarded. */
  method TimeVerification(alg: Algorithm, key: KeyPair, signature: seq<byte>, data: seq<byte>,
                          provider: CryptoProvider, clock: Clock)
    returns (r: Result<real>)
    modifies provider, clock
    ensures r.Failure? <==> provider.verifier(alg, key, signature, data, old(provider.calls)).None?
    ensures r.Failure? ==> r.error == ProviderRejected
    ensures provider.calls == old(provider.calls) + 1
    ensures r.Success? ==> r.value == Elapsed(clock.reading, old(clock.ticks)) && clock.ticks == old(clock.ticks) + 2
    ensures provider.messages == old(provider.messages) && provider.signatures == old(provider.signatures)
  {
    var start := clock.Now();
    var verified := provider.Verify(alg, key, signature, data);
    if verified.None? {
      return Failure(ProviderRejected);
    }
    var end := clock.Now();
    return Success(end - start);
  }

  /** Whether the provider rejects one of the three calls of a round that
      signs `data` and whose first provider call is call number `c`: key
      generation at `c`, signing at `c + 1`, verification at `c + 2`. */
  predicate RoundRejected(provider: CryptoProvider, alg: Algorithm, data: seq<byte>, c: nat)
  {
    var key := provider.keyGen(alg, c);
    || key.None?
    || provider.signer(alg, key.value, data, c + 1).None?
    || provider.verifier(alg, key.value, provider.signer(alg, key.value, data, c + 1).value, data, c + 2).None?
  }

  /** The signature such a round hands back when nothing is rejected. */
  function RoundSignature(provider: CryptoProvider, alg: Algorithm, data: seq<byte>, c: nat): seq<byte>
    requires !RoundRejected(provider, alg, data, c)
  {
    provider.signer(alg, provider.keyGen(alg, c).value, data, c + 1).value
  }

  /** The timed part of one iteration: key generation, signing of `data`
      and verification of the signature, each between two clock readings.
      It fails exactly when the provider rejects one of the three calls,
      and otherwise returns the summed time and the signer's answer. */
  method TimeRound(alg: Algorithm, data: seq<byte>, provider: CryptoProvider, clock: Clock)
    returns (r: Result<(real, seq<byte>)>)
    modifies provider, clock
    ensures r.Failure? <==> RoundRejected(provider, alg, data, old(provider.calls))
    ensures r.Failure? ==> r.error == ProviderRejected
    ensures r.Success? ==>
      && r.value.1 == RoundSignature(provider, alg, data, old(provider.calls))
      && r.value.0 == IterationTime(clock.reading, old(clock.ticks))
      && clock.ticks == old(clock.ticks) + 6
      && provider.calls == old(provider.calls) + 3
      && provider.messages == old(provider.messages) + [data]
      && provider.signatures == old(provider.signatures) + [r.value.1]
  {
    var keyed := TimeKeyGeneration(alg, provider, clock);
    if keyed.Failure? {
      return Failure(keyed.error);
    }
    var (keyPair, keyTime) := keyed.value;
    var signed := TimeSigning(alg, keyPair, data, provider, clock);
    if signed.Failure? {
      return Failure(signed.error);
    }
    var (signature, signTime) := signed.value;
    var verifyTime := TimeVerification(alg, keyPair, signature, data, provider, clock);
    if verifyTime.Failure? {
      return Failure(verifyTime.error);
    }
    return Success((keyTime + signTime + verifyTime.value, signature));
  }

  /** What one completed iteration produced. */
  datatype Sample = Sample(time: real, memory: real, message: seq<byte>, signature: seq<byte>)

  /** The body of the runner's loop: normalise the input, then time key
      generation, signing and verification. */
  method RunIteration(alg: Algorithm, userInput: string, encoded: seq<byte>, dataSize: int,
                      provider: CryptoProvider, clock: Clock, rng: RandomSource)
    returns (r: Result<Sample>)
    requires EncodingOf(userInput, encoded)
    modifies provider, clock, rng
    ensures DataFailure(userInput, dataSize).Some? ==>
      r == Failure(DataFailure(userInput, dataSize).value) && unchanged(provider, clock, rng)
    ensures DataFailure(userInput, dataSize).None? && r.Failure? ==> r.error == ProviderRejected
    ensures DataFailure(userInput, dataSize).None? && provider.Accepting() ==> r.Success?
    ensures DataFailure(userInput, dataSize).None? ==>
      (r.Failure? <==> RoundRejected(provider, alg, InputBlock(userInput, encoded, dataSize, rng.stream, old(rng.drawn)),
                                     old(provider.calls)))
    ensures r.Success? ==>
      && dataSize >= 0 && DataFailure(userInput, dataSize).None?
      && r.value.message == InputBlock(userInput, encoded, dataSize, rng.stream, old(rng.drawn))
      && !RoundRejected(provider, alg, r.value.message, old(provider.calls))
      && r.value.signature == RoundSignature(provider, alg, r.value.message, old(provider.calls))
      && provider.calls == old(provider.calls) + 3
      && r.value.time == IterationTime(clock.reading, old(clock.ticks))
      && r.value.memory == MemoryEstimate(dataSize, |r.value.signature|)
      && clock.ticks == old(clock.ticks) + 6
      && rng.drawn == old(rng.drawn) + RandomBytesPerCall(userInput, dataSize)
      && provider.messages == old(provider.messages) + [r.value.message]
      && provider.signatures == old(provider.signatures) + [r.value.signature]
  {
    var dataTemp := GenerateDataFromInput(userInput, encoded, dataSize, rng);
    if dataTemp.Failure? {
      return Failure(dataTemp.error);
    }
    var data := dataTemp.value[..];
    var timed := TimeRound(alg, data, provider, clock);
    if timed.Failure? {
      return Failure(timed.error);
    }
    var (time, signature) := timed.value;
    var memEstimate := MemoryEstimate(|data|, |signature|);
    return Success(Sample(time, memEstimate, data, signature));
  }

  /** The buffers the first `k` iterations hand to `sign`. */
  function Messages(userInput: string, encoded: seq<byte>, dataSize: nat,
                    stream: nat -> byte, drawn: nat, k: nat): (ms: seq<seq<byte>>)
    requires EncodingOf(userInput, encoded)
    ensures |ms| == k
  {
    seq(k, j requires 0 <= j < k =>
      InputBlock(userInput, encoded, dataSize, stream, drawn + j * RandomBytesPerCall(userInput, dataSize)))
  }

  /** The progress calls `(1, total), (2, total), …, (k, total)`. */
  function ProgressTrace(algo: string, k: nat, total: int): (es: seq<ProgressEvent>)
    ensures |es| == k
  {
    seq(k, j requires 0 <= j < k => ProgressEvent(algo, j + 1, total))
  }

  /** The part of the platform's state the runner changes, read at one
      instant: clock readings taken, provider calls made, buffers signed,
      signatures returned, random bytes drawn and progress calls received. */
  datatype Observation = Observation(
    ticks: nat,
    calls: nat,
    messages: seq<seq<byte>>,
    signatures: seq<seq<byte>>,
    drawn: nat,
    events: seq<ProgressEvent>)

  function Observe(provider: CryptoProvider, clock: Clock, rng: RandomSource, sink: ProgressSink?): Observation
    reads provider, clock, rng, sink
  {
    Observation(clock.ticks, provider.calls, provider.messages, provider.signatures, rng.drawn,
                if sink != null then sink.events else [])
  }

  /** Whether round `k` of the runner's loop, reached after `k` rounds that
      all completed, is rejected by the provider: that round signs the
      buffer drawn after `k` earlier draws and makes its first provider call
      after `3 * k` earlier ones. */
  predicate RejectedAt(provider: CryptoProvider, alg: Algorithm, userInput: string, encoded: seq<byte>,
                       dataSize: nat, stream: nat -> byte, drawn: nat, calls: nat, k: nat)
    requires EncodingOf(userInput, encoded)
  {
    RoundRejected(provider, alg,
                  InputBlock(userInput, encoded, dataSize, stream, drawn + k * RandomBytesPerCall(userInput, dataSize)),
                  calls + 3 * k)
  }

  /** The provider's side of `k` completed rounds for `alg` between the
      observations `before` and `after`: `3 * k` calls, none of them
      rejected, and the `k` new signatures are the signer's answers for the
      buffers of those rounds. */
  predicate Signed(provider: CryptoProvider, alg: Algorithm, k: nat, dataSize: nat, userInput: string,
                   encoded: seq<byte>, stream: nat -> byte, before: Observation, after: Observation)
    requires EncodingOf(userInput, encoded)
  {
    && after.calls == before.calls + 3 * k
    && |after.signatures| == |before.signatures| + k
    && (forall i :: 0 <= i < k ==>
          && !RejectedAt(provider, alg, userInput, encoded, dataSize, stream, before.drawn, before.calls, i)
          && after.signatures[|before.signatures| + i]
             == RoundSignature(provider, alg,
                               InputBlock(userInput, encoded, dataSize, stream,
                                          before.drawn + i * RandomBytesPerCall(userInput, dataSize)),
                               before.calls + 3 * i))
  }

  /** One more round the provider accepted extends `Signed` by its signature. */
  lemma SignedStep(provider: CryptoProvider, alg: Algorithm, k: nat, dataSize: nat, userInput: string,
                   encoded: seq<byte>, stream: nat -> byte, before: Observation, mid: Observation,
                   after: Observation, message: seq<byte>, signature: seq<byte>)
    requires EncodingOf(userInput, encoded)
    requires Signed(provider, alg, k, dataSize, userInput, encoded, stream, before, mid)
    requires mid.drawn == before.drawn + k * RandomBytesPerCall(userInput, dataSize)
    requires message == InputBlock(userInput, encoded, dataSize, stream, mid.drawn)
    requires after.calls == mid.calls + 3 && !RoundRejected(provider, alg, message, mid.calls)
    requires signature == RoundSignature(provider, alg, message, mid.calls)
    requires after.signatures == mid.signatures + [signature]
    ensures Signed(provider, alg, k + 1, dataSize, userInput, encoded, stream, before, after)
  {
    assert after.signatures[|before.signatures| + k] == signature;
  }

  /** The runner's own side of `k` completed rounds between the
      observations `before` and `after`: `k` time samples read off
      consecutive clock readings, the `k` buffers that were signed, `k`
      memory estimates from the `k` new signatures, the random bytes
      consumed, and (when a callback is present) the progress calls
      `(1, total) … (k, total)`. */
  predicate Traced(k: nat, total: int, dataSize: nat, userInput: string, encoded: seq<byte>,
                   reading: nat -> real, stream: nat -> byte, reporting: bool, algoId: string,
                   times: seq<real>, mems: seq<real>, before: Observation, after: Observation)
    requires EncodingOf(userInput, encoded)
  {
    && |times| == k && |mems| == k
    && after.ticks == before.ticks + 6 * k
    && (forall i :: 0 <= i < k ==> times[i] == IterationTime(reading, before.ticks + 6 * i))
    && after.messages == before.messages + Messages(userInput, encoded, dataSize, stream, before.drawn, k)
    && |after.signatures| == |before.signatures| + k
    && after.signatures[..|before.signatures|] == before.signatures
    && (forall i :: 0 <= i < k ==>
          mems[i] == MemoryEstimate(dataSize, |after.signatures[|before.signatures| + i]|))
    && after.drawn == before.drawn + k * RandomBytesPerCall(userInput, dataSize)
    && (reporting ==> after.events == before.events + ProgressTrace(algoId, k, total))
    && (!reporting ==> after.events == before.events)
  }

  /** What `k` completed rounds of the runner's loop for `alg` leave behind
      between the observations `before` and `after`: the runner's trace of
      them and the provider's accepted calls. */
  predicate Recorded(provider: CryptoProvider, alg: Algorithm,
                     k: nat, total: int, dataSize: nat, userInput: string, encoded: seq<byte>,
                     reading: nat -> real, stream: nat -> byte, reporting: bool, algoId: string,
                     times: seq<real>, mems: seq<real>, before: Observation, after: Observation)
    requires EncodingOf(userInput, encoded)
  {
    && Traced(k, total, dataSize, userInput, encoded, reading, stream, reporting, algoId, times, mems, before, after)
    && Signed(provider, alg, k, dataSize, userInput, encoded, stream, before, after)
  }

  /** One more completed round extends the trace by that round's sample. */
  lemma TracedStep(k: nat, total: int, dataSize: nat, userInput: string, encoded: seq<byte>,
                   reading: nat -> real, stream: nat -> byte, reporting: bool, algoId: string,
                   times: seq<real>, mems: seq<real>, before: Observation, mid: Observation,
                   after: Observation, s: Sample)
    requires EncodingOf(userInput, encoded)
    requires Traced(k, total, dataSize, userInput, encoded, reading, stream, reporting, algoId,
                    times, mems, before, mid)
    requires s.time == IterationTime(reading, mid.ticks) && after.ticks == mid.ticks + 6
    requires s.message == InputBlock(userInput, encoded, dataSize, stream, mid.drawn)
    requires s.memory == MemoryEstimate(dataSize, |s.signature|)
    requires after.messages == mid.messages + [s.message]
    requires after.signatures == mid.signatures + [s.signature]
    requires after.drawn == mid.drawn + RandomBytesPerCall(userInput, dataSize)
    requires reporting ==> after.events == mid.events + [ProgressEvent(algoId, k + 1, total)]
    requires !reporting ==> after.events == mid.events
    ensures Traced(k + 1, total, dataSize, userInput, encoded, reading, stream, reporting, algoId,
                   times + [s.time], mems + [s.memory], before, after)
  {
    assert ProgressTrace(algoId, k + 1, total) == ProgressTrace(algoId, k, total) + [ProgressEvent(algoId, k + 1, total)];
    assert Messages(userInput, encoded, dataSize, stream, before.drawn, k + 1)
        == Messages(userInput, encoded, dataSize, stream, before.drawn, k) + [s.message];
    var n := |before.signatures|;
    assert after.signatures[..n] == mid.signatures[..n];
  }

  /** One more completed round, accepted by the provider, extends the record
      by that round's sample. */
  lemma RecordedStep(provider: CryptoProvider, alg: Algorithm, k: nat, total: int, dataSize: nat, userInput: string, encoded: seq<byte>,
                     reading: nat -> real, stream: nat -> byte, reporting: bool, algoId: string,
                     times: seq<real>, mems: seq<real>, before: Observation, mid: Observation,
                     after: Observation, s: Sample)
    requires EncodingOf(userInput, encoded)
    requires Recorded(provider, alg, k, total, dataSize, userInput, encoded, reading, stream, reporting, algoId,
                      times, mems, before, mid)
    requires s.time == IterationTime(reading, mid.ticks) && after.ticks == mid.ticks + 6
    requires s.message == InputBlock(userInput, encoded, dataSize, stream, mid.drawn)
    requires after.calls == mid.calls + 3 && !RoundRejected(provider, alg, s.message, mid.calls)
    requires s.signature == RoundSignature(provider, alg, s.message, mid.calls)
    requires s.memory == MemoryEstimate(dataSize, |s.signature|)
    requires after.messages == mid.messages + [s.message]
    requires after.signatures == mid.signatures + [s.signature]
    requires after.drawn == mid.drawn + RandomBytesPerCall(userInput, dataSize)
    requires reporting ==> after.events == mid.events + [ProgressEvent(algoId, k + 1, total)]
    requires !reporting ==> after.events == mid.events
    ensures Recorded(provider, alg, k + 1, total, dataSize, userInput, encoded, reading, stream, reporting, algoId,
                     times + [s.time], mems + [s.memory], before, after)
  {
    TracedStep(k, total, dataSize, userInput, encoded, reading, stream, reporting, algoId,
               times, mems, before, mid, after, s);
    SignedStep(provider, alg, k, dataSize, userInput, encoded, stream, before, mid, after, s.message, s.signature);
  }

  /** No round at all leaves an empty record. */
  lemma RecordedStart(provider: CryptoProvider, alg: Algorithm, total: int, dataSize: nat, userInput: string,
                      encoded: seq<byte>, reading: nat -> real, stream: nat -> byte, reporting: bool, algoId: string,
                      o: Observation)
    requires EncodingOf(userInput, encoded)
    ensures Recorded(provider, alg, 0, total, dataSize, userInput, encoded, reading, stream, reporting, algoId,
                     [], [], o, o)
  {
    assert Messages(userInput, encoded, dataSize, stream, o.drawn, 0) == [];
    assert o.signatures[..|o.signatures|] == o.signatures;
  }

  /** A record of `k` completed rounds shows that none of them was rejected. */
  lemma RecordedAccepted(provider: CryptoProvider, alg: Algorithm,
                         k: nat, total: int, dataSize: nat, userInput: string, encoded: seq<byte>,
                         reading: nat -> real, stream: nat -> byte, reporting: bool, algoId: string,
                         times: seq<real>, mems: seq<real>, before: Observation, after: Observation)
    requires EncodingOf(userInput, encoded)
    requires Recorded(provider, alg, k, total, dataSize, userInput, encoded, reading, stream, reporting, algoId,
                      times, mems, before, after)
    ensures forall j :: 0 <= j < k ==>
      !RejectedAt(provider, alg, userInput, encoded, dataSize, stream, before.drawn, before.calls, j)
  {
  }

  /** A record of at least one completed round shows that the provider
      generated a key for `alg` once, so it supports `alg`. */
  lemma RecordedSupported(provider: CryptoProvider, alg: Algorithm,
                          k: nat, total: int, dataSize: nat, userInput: string, encoded: seq<byte>,
                          reading: nat -> real, stream: nat -> byte, reporting: bool, algoId: string,
                          times: seq<real>, mems: seq<real>, before: Observation, after: Observation)
    requires EncodingOf(userInput, encoded)
    requires Recorded(provider, alg, k, total, dataSize, userInput, encoded, reading, stream, reporting, algoId,
                      times, mems, before, after)
    requires k > 0
    ensures !provider.Unsupported(alg)
  {
    assert !RejectedAt(provider, alg, userInput, encoded, dataSize, stream, before.drawn, before.calls, 0);
    assert provider.keyGen(alg, before.calls).Some?;
  }

  /** One round of the runner's loop: an iteration, then the progress call
      `(i + 1, total)`. After `i` recorded rounds, the round fails exactly
      when the input is invalid or the provider rejects round `i`, and
      otherwise extends the record by its sample. */
  method Round(alg: Algorithm, i: nat, total: int, dataSize: int, userInput: string, encoded: seq<byte>,
               provider: CryptoProvider, clock: Clock, rng: RandomSource, sink: ProgressSink?, algoId: string,
               ghost times: seq<real>, ghost mems: seq<real>, ghost before: Observation)
    returns (r: Result<Sample>)
    requires EncodingOf(userInput, encoded)
    requires dataSize >= 0 ==>
      Recorded(provider, alg, i, total, dataSize, userInput, encoded, clock.reading, rng.stream, sink != null,
               algoId, times, mems, before, Observe(provider, clock, rng, sink))
    modifies provider, clock, rng, sink
    ensures DataFailure(userInput, dataSize).Some? ==>
      r == Failure(DataFailure(userInput, dataSize).value) && unchanged(provider, clock, rng)
    ensures DataFailure(userInput, dataSize).Some? && sink != null ==> unchanged(sink)
    ensures DataFailure(userInput, dataSize).None? ==>
      && (r.Failure? <==>
            RejectedAt(provider, alg, userInput, encoded, dataSize, rng.stream, before.drawn, before.calls, i))
      && (r.Failure? ==> r.error == ProviderRejected)
      && (provider.Accepting() ==> r.Success?)
    ensures r.Success? ==>
      && dataSize >= 0 && DataFailure(userInput, dataSize).None?
      && Recorded(provider, alg, i + 1, total, dataSize, userInput, encoded, clock.reading, rng.stream, sink != null,
                  algoId, times + [r.value.time], mems + [r.value.memory], before, Observe(provider, clock, rng, sink))
  {
    ghost var mid := Observe(provider, clock, rng, sink);
    r := RunIteration(alg, userInput, encoded, dataSize, provider, clock, rng);
    if r.Failure? {
      return;
    }
    if sink != null {
      sink.Report(ProgressEvent(algoId, i + 1, total));
    }
    RecordedStep(provider, alg, i, total, dataSize, userInput, encoded, clock.reading, rng.stream, sink != null, algoId,
                 times, mems, before, mid, Observe(provider, clock, rng, sink), r.value);
  }

  /** The loop of the runner: `iterations` rounds, each appending one time
      sample and one memory sample and then reporting `(i + 1, iterations)`.
      A failing round aborts the whole loop. */
  method CollectSamples(alg: Algorithm, iterations: int, dataSize: int, userInput: string, encoded: seq<byte>,
                        provider: CryptoProvider, clock: Clock, rng: RandomSource,
                        sink: ProgressSink?, algoId: string)
    returns (r: Result<(seq<real>, seq<real>)>)
    requires EncodingOf(userInput, encoded)
    modifies provider, clock, rng, sink
    ensures iterations <= 0 ==> r == Success(([], [])) && unchanged(provider, clock, rng)
    ensures iterations <= 0 && sink != null ==> unchanged(sink)
    ensures r.Failure? ==> iterations > 0 && r.error == RoundFailure(userInput, dataSize)
    ensures iterations > 0 && DataFailure(userInput, dataSize).None? && provider.Accepting() ==> r.Success?
    ensures iterations > 0 && r.Failure? && DataFailure(userInput, dataSize).None? ==>
      exists k :: 0 <= k < iterations &&
        RejectedAt(provider, alg, userInput, encoded, dataSize, rng.stream, old(rng.drawn), old(provider.calls), k)
    ensures r.Success? && iterations > 0 && DataFailure(userInput, dataSize).None? ==>
      forall k :: 0 <= k < iterations ==>
        !RejectedAt(provider, alg, userInput, encoded, dataSize, rng.stream, old(rng.drawn), old(provider.calls), k)
    ensures r.Success? && iterations > 0 ==>
      && dataSize >= 0 && DataFailure(userInput, dataSize).None?
      && Recorded(provider, alg, iterations, iterations, dataSize, userInput, encoded, clock.reading, rng.stream, sink != null,
                  algoId, r.value.0, r.value.1, old(Observe(provider, clock, rng, sink)), Observe(provider, clock, rng, sink))
  {
    var times: seq<real> := [];
    var memorySnapshots: seq<real> := [];
    ghost var before := Observe(provider, clock, rng, sink);
    if dataSize >= 0 {
      RecordedStart(provider, alg, iterations, dataSize, userInput, encoded, clock.reading, rng.stream, sink != null,
                    algoId, before);
    }
    var i := 0;
    while i < iterations
      invariant 0 <= i && (iterations > 0 ==> i <= iterations) && (iterations <= 0 ==> i == 0)
      invariant DataFailure(userInput, dataSize).Some? ==> i == 0
      invariant dataSize >= 0 ==>
        Recorded(provider, alg, i, iterations, dataSize, userInput, encoded, clock.reading, rng.stream, sink != null,
                 algoId, times, memorySnapshots, before, Observe(provider, clock, rng, sink))
      invariant i == 0 ==> times == [] && memorySnapshots == [] && unchanged(provider, clock, rng)
      invariant i == 0 && sink != null ==> unchanged(sink)
    {
      var sample := Round(alg, i, iterations, dataSize, userInput, encoded, provider, clock, rng, sink, algoId,
                          times, memorySnapshots, before);
      if sample.Failure? {
        assert DataFailure(userInput, dataSize).None? ==>
          RejectedAt(provider, alg, userInput, encoded, dataSize, rng.stream, old(rng.drawn), old(provider.calls), i);
        return Failure(sample.error);
      }
      times := times + [sample.value.time];
      memorySnapshots := memorySnapshots + [sample.value.memory];
      i := i + 1;
    }
    if iterations > 0 {
      RecordedAccepted(provider, alg, iterations, iterations, dataSize, userInput, encoded, clock.reading, rng.stream,
                       sink != null, algoId, times, memorySnapshots, before, Observe(provider, clock, rng, sink));
    }
    return Success((times, memorySnapshots));
  }

  /** `runED25519Benchmark` / `runECDSABenchmark`: the loop, then the
      statistics of the collected samples. With no rounds the first
      `reduce` throws. */
  method RunAlgorithmBenchmark(alg: Algorithm, iterations: int, dataSize: int,
                               userInput: string, encoded: seq<byte>,
                               provider: CryptoProvider, clock: Clock, rng: RandomSource,
                               sink: ProgressSink?, algoId: string)
    returns (r: Result<BenchmarkMetrics>)
    requires EncodingOf(userInput, encoded)
    modifies provider, clock, rng, sink
    ensures iterations <= 0 ==> r == Failure(EmptyReduce) && unchanged(provider, clock, rng)
    ensures iterations <= 0 && sink != null ==> unchanged(sink)
    ensures iterations > 0 && r.Failure? ==> r.error == RoundFailure(userInput, dataSize)
    ensures iterations > 0 && DataFailure(userInput, dataSize).None? && provider.Accepting() ==> r.Success?
    ensures iterations > 0 && r.Failure? && DataFailure(userInput, dataSize).None? ==>
      exists k :: 0 <= k < iterations &&
        RejectedAt(provider, alg, userInput, encoded, dataSize, rng.stream, old(rng.drawn), old(provider.calls), k)
    ensures r.Success? && iterations > 0 && DataFailure(userInput, dataSize).None? ==>
      forall k :: 0 <= k < iterations ==>
        !RejectedAt(provider, alg, userInput, encoded, dataSize, rng.stream, old(rng.drawn), old(provider.calls), k)
    ensures provider.Unsupported(alg) ==> r.Failure?
    ensures r.Success? ==>
      && iterations > 0 && dataSize >= 0 && DataFailure(userInput, dataSize).None?
      && r.value.algorithm == Label(alg)
      && Summarised(r.value)
      && r.value.inputDetails == InputDetailsOf(userInput, encoded, dataSize)
      && Recorded(provider, alg, iterations, iterations, dataSize, userInput, encoded, clock.reading, rng.stream, sink != null,
                  algoId, r.value.times, r.value.memorySnapshots,
                  old(Observe(provider, clock, rng, sink)), Observe(provider, clock, rng, sink))
  {
    var inputDetails := InputDetailsOf(userInput, encoded, dataSize);
    var samples := CollectSamples(alg, iterations, dataSize, userInput, encoded, provider, clock, rng, sink, algoId);
    if samples.Failure? {
      return Failure(samples.error);
    }
    var (times, memorySnapshots) := samples.value;
    var stats := CalculateStatistics(times);
    if stats.Failure? {
      return Failure(stats.error);
    }
    RecordedSupported(provider, alg, iterations, iterations, dataSize, userInput, encoded, clock.reading, rng.stream,
                      sink != null, algoId, times, memorySnapshots,
                      old(Observe(provider, clock, rng, sink)), Observe(provider, clock, rng, sink));
    var avgMemory := Mean(memorySnapshots);
    var sm := stats.value;
    r := Success(BenchmarkMetrics(
      algorithm := Label(alg),
      times := times,
      memorySnapshots := memorySnapshots,
      avgTime := sm.avg,
      minTime := sm.min,
      maxTime := sm.max,
      varianceTime := sm.variance,
      p50Time := sm.p50,
      p95Time := sm.p95,
      p99Time := sm.p99,
      avgMemory := avgMemory,
      inputDetails := inputDetails));
  }

  /** Samples taken six readings apart from a monotonic clock, as
      `Recorded` says the runner's are, are never negative. */
  lemma TimesNonNegative(clock: Clock, times: seq<real>, ticks: nat)
    requires clock.Monotonic()
    requires forall i :: 0 <= i < |times| ==> times[i] == IterationTime(clock.reading, ticks + 6 * i)
    ensures forall i :: 0 <= i < |times| ==> times[i] >= 0.0
  {
    forall i | 0 <= i < |times|
      ensures times[i] >= 0.0
    {
      IterationTimeNonNegative(clock, ticks + 6 * i);
    }
  }

  // ---------------------------------------------------------- orchestrator

  /** The runner invocations one identifier asks for: `runs` of them when it
      is exactly a label, none otherwise. */
  function Block(id: string, runs: int): (b: seq<Algorithm>)
    ensures ParseAlgorithm(id).None? ==> b == []
    ensures ParseAlgorithm(id).Some? ==> |b| == (if runs > 0 then runs else 0)
    ensures forall k :: 0 <= k < |b| ==> ParseAlgorithm(id) == Some(b[k])
  {
    match ParseAlgorithm(id)
    case None => []
    case Some(alg) => seq(if runs > 0 then runs else 0, _ => alg)
  }

  /** Every runner invocation `runBenchmark` makes, in order. */
  function Invocations(algorithms: seq<string>, runs: int): seq<Algorithm>
  {
    if |algorithms| == 0 then []
    else Invocations(algorithms[..|algorithms| - 1], runs) + Block(algorithms[|algorithms| - 1], runs)
  }

  /** `Math.ceil(iterations / runs)`, the iteration count of every runner
      invocation (only ever computed when `runs > 0`). */
  function IterationsPerRun(iterations: int, runs: int): int
  {
    if runs > 0 then CeilDiv(iterations, runs) else 0
  }

  /** The progress calls the top-level callback receives on success: each
      invocation reports `(label, 1, per) … (label, per, per)`. */
  function OrchestratorTrace(invocations: seq<Algorithm>, per: nat): seq<ProgressEvent>
  {
    if |invocations| == 0 then []
    else OrchestratorTrace(invocations[..|invocations| - 1], per)
         + ProgressTrace(Label(invocations[|invocations| - 1]), per, per)
  }

  /** A record produced by one invocation of the runner for `alg`. */
  predicate RecordFor(m: BenchmarkMetrics, alg: Algorithm, per: int, details: InputDetails)
  {
    m.algorithm == Label(alg) && |m.times| == per && Summarised(m) && m.inputDetails == details
  }

  predicate RecordsFor(results: seq<BenchmarkMetrics>, invocations: seq<Algorithm>, per: int, details: InputDetails)
  {
    |results| == |invocations|
    && forall k :: 0 <= k < |results| ==> RecordFor(results[k], invocations[k], per, details)
  }

  lemma {:induction false} InvocationsPrefix(algorithms: seq<string>, runs: int, a: nat)
    requires a <= |algorithms|
    ensures |Invocations(algorithms[..a], runs)| <= |Invocations(algorithms, runs)|
    decreases |algorithms|
  {
    if a < |algorithms| {
      var init := algorithms[..|algorithms| - 1];
      assert algorithms[..a] == init[..a];
      InvocationsPrefix(init, runs, a);
    } else {
      assert algorithms[..a] == algorithms;
    }
  }

  /** One runner invocation as the orchestrator sees it: the record it
      produces and the progress it reports under the algorithm's label. */
  method Invoke(alg: Algorithm, per: int, dataSize: int, userInput: string, encoded: seq<byte>,
                provider: CryptoProvider, clock: Clock, rng: RandomSource, sink: ProgressSink?)
    returns (r: Result<BenchmarkMetrics>)
    requires EncodingOf(userInput, encoded)
    modifies provider, clock, rng, sink
    ensures per <= 0 ==> r == Failure(EmptyReduce)
    ensures per > 0 && r.Failure? ==> r.error == RoundFailure(userInput, dataSize)
    ensures per > 0 && DataFailure(userInput, dataSize).None? && provider.Accepting() ==> r.Success?
    ensures provider.Unsupported(alg) ==> r.Failure?
    ensures r.Success? ==>
      && per > 0 && dataSize >= 0 && DataFailure(userInput, dataSize).None?
      && RecordFor(r.value, alg, per, InputDetailsOf(userInput, encoded, dataSize))
    ensures r.Success? && sink != null ==> sink.events == old(sink.events) + ProgressTrace(Label(alg), per, per)
  {
    r := RunAlgorithmBenchmark(alg, per, dataSize, userInput, encoded, provider, clock, rng, sink, Label(alg));
  }

  lemma {:induction false} OrchestratorTraceConcat(a: seq<Algorithm>, b: seq<Algorithm>, per: nat)
    ensures OrchestratorTrace(a + b, per) == OrchestratorTrace(a, per) + OrchestratorTrace(b, per)
    decreases |b|
  {
    if |b| == 0 {
      assert a + b == a;
    } else {
      var init, last := b[..|b| - 1], b[|b| - 1];
      assert a + b == (a + init) + [last];
      assert ((a + init) + [last])[..|a + init|] == a + init;
      OrchestratorTraceConcat(a, init, per);
      calc {
        OrchestratorTrace(a + b, per);
        OrchestratorTrace(a + init, per) + ProgressTrace(Label(last), per, per);
        OrchestratorTrace(a, per) + OrchestratorTrace(init, per) + ProgressTrace(Label(last), per, per);
        OrchestratorTrace(a, per) + OrchestratorTrace(b, per);
      }
    }
  }

  lemma RecordsForConcat(r1: seq<BenchmarkMetrics>, i1: seq<Algorithm>, r2: seq<BenchmarkMetrics>, i2: seq<Algorithm>,
                         per: int, details: InputDetails)
    requires RecordsFor(r1, i1, per, details) && RecordsFor(r2, i2, per, details)
    ensures RecordsFor(r1 + r2, i1 + i2, per, details)
  {
    forall k | 0 <= k < |r1 + r2|
      ensures RecordFor((r1 + r2)[k], (i1 + i2)[k], per, details)
    {
      if k >= |r1| {
        assert (r1 + r2)[k] == r2[k - |r1|] && (i1 + i2)[k] == i2[k - |r1|];
      }
    }
  }

  /** The provider supports the algorithm of every invocation. */
  ghost predicate AllSupported(provider: CryptoProvider, invocations: seq<Algorithm>)
  {
    forall k :: 0 <= k < |invocations| ==> !provider.Unsupported(invocations[k])
  }

  /** A block of invocations of a supported label keeps every invocation supported. */
  lemma SupportedConcat(provider: CryptoProvider, done: seq<Algorithm>, id: string, runs: int)
    requires AllSupported(provider, done)
    requires ParseAlgorithm(id).Some? && runs > 0 ==> !provider.Unsupported(ParseAlgorithm(id).value)
    ensures AllSupported(provider, done + Block(id, runs))
  {
    var b := Block(id, runs);
    forall k | 0 <= k < |done + b|
      ensures !provider.Unsupported((done + b)[k])
    {
      if k >= |done| {
        assert (done + b)[k] == b[k - |done|];
      }
    }
  }

  /** A benchmark that either fails with the first invocation's error or
      succeeds only when every algorithm is supported fails with a
      rejection when one of the algorithms is unsupported, its input being
      valid. */
  lemma UnsupportedRejected(provider: CryptoProvider, invocations: seq<Algorithm>, per: int,
                            userInput: string, dataSize: int, r: Result<seq<BenchmarkMetrics>>)
    requires r.Success? ==> AllSupported(provider, invocations)
    requires r.Failure? ==> r.error == FirstFailure(per, userInput, dataSize)
    ensures per > 0 && DataFailure(userInput, dataSize).None? &&
            (exists k :: 0 <= k < |invocations| && provider.Unsupported(invocations[k])) ==>
              r == Failure(ProviderRejected)
  {
  }

  /** The error the first runner invocation throws when it throws before
      signing anything. */
  function FirstFailure(per: int, userInput: string, dataSize: int): Failure
  {
    if per <= 0 then EmptyReduce else RoundFailure(userInput, dataSize)
  }

  lemma AppendAssociative<T>(a: seq<T>, b: seq<T>, c: seq<T>)
    ensures (a + b) + c == a + (b + c)
  {
  }

  /** One more completed invocation for a label extends the block by one. */
  lemma BlockGrows(id: string, run: nat, alg: Algorithm, per: nat, details: InputDetails,
                   results: seq<BenchmarkMetrics>, m: BenchmarkMetrics)
    requires ParseAlgorithm(id) == Some(alg)
    requires RecordsFor(results, Block(id, run), per, details)
    requires RecordFor(m, alg, per, details)
    ensures Block(id, run + 1) == Block(id, run) + [alg]
    ensures RecordsFor(results + [m], Block(id, run + 1), per, details)
    ensures OrchestratorTrace(Block(id, run + 1), per) == OrchestratorTrace(Block(id, run), per) + ProgressTrace(Label(alg), per, per)
  {
    var prev := Block(id, run);
    var next := Block(id, run + 1);
    assert |next| == |prev| + 1;
    assert next == prev + [alg];
    assert RecordsFor([m], [alg], per, details);
    RecordsForConcat(results, prev, [m], [alg], per, details);
    assert next[..|prev|] == prev;
  }

  /** The inner loop of `runBenchmark` for one identifier: `runs` runner
      invocations when the identifier is a label, each `continue`d past
      otherwise. */
  method RunIdentifier(id: string, iterations: int, dataSize: int, runs: int,
                       userInput: string, encoded: seq<byte>,
                       provider: CryptoProvider, clock: Clock, rng: RandomSource, sink: ProgressSink?)
    returns (r: Result<seq<BenchmarkMetrics>>)
    requires EncodingOf(userInput, encoded)
    modifies provider, clock, rng, sink
    ensures Block(id, runs) == [] ==> r == Success([])
    ensures r.Failure? ==>
      Block(id, runs) != [] && r.error == FirstFailure(IterationsPerRun(iterations, runs), userInput, dataSize)
    ensures r.Success? && Block(id, runs) != [] ==>
      IterationsPerRun(iterations, runs) > 0 && dataSize >= 0 && DataFailure(userInput, dataSize).None?
    ensures provider.Accepting() && IterationsPerRun(iterations, runs) > 0 && DataFailure(userInput, dataSize).None?
      ==> r.Success?
    ensures r.Success? ==>
      RecordsFor(r.value, Block(id, runs), IterationsPerRun(iterations, runs), InputDetailsOf(userInput, encoded, dataSize))
    ensures ParseAlgorithm(id).Some? && runs > 0 && provider.Unsupported(ParseAlgorithm(id).value) ==> r.Failure?
    ensures r.Success? && sink != null && IterationsPerRun(iterations, runs) >= 0 ==>
      sink.events == old(sink.events) + OrchestratorTrace(Block(id, runs), IterationsPerRun(iterations, runs))
  {
    ghost var per := IterationsPerRun(iterations, runs);
    ghost var details := InputDetailsOf(userInput, encoded, dataSize);
    var results: seq<BenchmarkMetrics> := [];
    var run := 0;
    assert Block(id, 0) == [];
    while run < runs
      invariant 0 <= run && (runs > 0 ==> run <= runs) && (runs <= 0 ==> run == 0)
      invariant RecordsFor(results, Block(id, run), per, details)
      invariant Block(id, run) != [] ==> per > 0 && dataSize >= 0 && DataFailure(userInput, dataSize).None?
      invariant run > 0 && ParseAlgorithm(id).Some? ==> !provider.Unsupported(ParseAlgorithm(id).value)
      invariant sink != null && per >= 0 ==> sink.events == old(sink.events) + OrchestratorTrace(Block(id, run), per)
    {
      ghost var before := if sink != null then sink.events else [];
      assert sink != null && per >= 0 ==> before == old(sink.events) + OrchestratorTrace(Block(id, run), per);
      var parsed := ParseAlgorithm(id);
      if parsed.None? {
        assert Block(id, run + 1) == [];
        run := run + 1;
        continue;
      }
      ParseLabelInverse(id, parsed.value);
      assert per == CeilDiv(iterations, runs);
      var metrics := Invoke(parsed.value, CeilDiv(iterations, runs), dataSize,
                            userInput, encoded, provider, clock, rng, sink);
      if metrics.Failure? {
        return Failure(metrics.error);
      }
      BlockGrows(id, run, parsed.value, per, details, results, metrics.value);
      if sink != null {
        var past, done, step := old(sink.events), OrchestratorTrace(Block(id, run), per), ProgressTrace(id, per, per);
        assert OrchestratorTrace(Block(id, run + 1), per) == done + step;
        assert sink.events == (past + done) + step;
        AppendAssociative(past, done, step);
      }
      results := results + [metrics.value];
      run := run + 1;
    }
    r := Success(results);
  }

  /** `runBenchmark`: for each identifier in order, `runs` invocations of
      the matching runner with `ceil(iterations / runs)` iterations each;
      identifiers that are not exactly a label are skipped silently; the
      first failing invocation aborts the whole benchmark and its records
      are lost. */
  method RunBenchmark(algorithms: seq<string>, iterations: int, dataSize: int, runs: int,
                      userInput: string, encoded: seq<byte>,
                      provider: CryptoProvider, clock: Clock, rng: RandomSource, sink: ProgressSink?)
    returns (r: Result<seq<BenchmarkMetrics>>)
    requires EncodingOf(userInput, encoded)
    modifies provider, clock, rng, sink
    ensures var invocations := Invocations(algorithms, runs);
            var per := IterationsPerRun(iterations, runs);
            && (invocations == [] ==> r == Success([]))
            && (r.Failure? ==> invocations != [] && r.error == FirstFailure(per, userInput, dataSize))
            && (r == Failure(EmptyReduce) <==> invocations != [] && per <= 0)
            && (r == Failure(InvalidArrayLength) <==> invocations != [] && per > 0 && dataSize < 0)
            && (r == Failure(QuotaExceeded) <==>
                  invocations != [] && per > 0 && |userInput| == 0 && dataSize > MaxRandomBytes)
            && (provider.Accepting() ==>
                  (invocations == [] || (per > 0 && DataFailure(userInput, dataSize).None?) ==> r.Success?))
            && (r.Success? ==> AllSupported(provider, invocations))
            && (per > 0 && DataFailure(userInput, dataSize).None? &&
                (exists k :: 0 <= k < |invocations| && provider.Unsupported(invocations[k])) ==>
                  r == Failure(ProviderRejected))
            && (r.Success? ==> RecordsFor(r.value, invocations, per, InputDetailsOf(userInput, encoded, dataSize)))
            && (r.Success? && sink != null && per >= 0 ==>
                  sink.events == old(sink.events) + OrchestratorTrace(invocations, per))
  {
    ghost var per := IterationsPerRun(iterations, runs);
    ghost var details := InputDetailsOf(userInput, encoded, dataSize);
    var results: seq<BenchmarkMetrics> := [];
    for a := 0 to |algorithms|
      invariant RecordsFor(results, Invocations(algorithms[..a], runs), per, details)
      invariant (per <= 0 || DataFailure(userInput, dataSize).Some?) ==> Invocations(algorithms[..a], runs) == []
      invariant AllSupported(provider, Invocations(algorithms[..a], runs))
      invariant sink != null && per >= 0 ==>
        sink.events == old(sink.events) + OrchestratorTrace(Invocations(algorithms[..a], runs), per)
    {
      ghost var done := Invocations(algorithms[..a], runs);
      assert algorithms[..a + 1][..a] == algorithms[..a];
      assert Invocations(algorithms[..a + 1], runs) == done + Block(algorithms[a], runs);
      InvocationsPrefix(algorithms, runs, a + 1);
      var batch := RunIdentifier(algorithms[a], iterations, dataSize, runs, userInput, encoded,
                                 provider, clock, rng, sink);
      if batch.Failure? {
        r := Failure(batch.error);
        UnsupportedRejected(provider, Invocations(algorithms, runs), per, userInput, dataSize, r);
        return;
      }
      RecordsForConcat(results, done, batch.value, Block(algorithms[a], runs), per, details);
      SupportedConcat(provider, done, algorithms[a], runs);
      if sink != null && per >= 0 {
        OrchestratorTraceConcat(done, Block(algorithms[a], runs), per);
        AppendAssociative(old(sink.events), OrchestratorTrace(done, per), OrchestratorTrace(Block(algorithms[a], runs), per));
      }
      results := results + batch.value;
    }
    assert algorithms[..|algorithms|] == algorithms;
    r := Success(results);
    UnsupportedRejected(provider, Invocations(algorithms, runs), per, userInput, dataSize, r);
  }

  // ------------------------------------------------- orchestrator properties

  /** How many identifiers are exactly `name`. */
  function Occurrences(ids: seq<string>, name: string): nat
  {
    if |ids| == 0 then 0
    else Occurrences(ids[..|ids| - 1], name) + (if ids[|ids| - 1] == name then 1 else 0)
  }

  /** How many identifiers are a label of some algorithm. */
  function KnownIds(ids: seq<string>): nat
  {
    if |ids| == 0 then 0
    else KnownIds(ids[..|ids| - 1]) + (if ParseAlgorithm(ids[|ids| - 1]).Some? then 1 else 0)
  }

  /** How many invocations are of `alg`. */
  function RunsOf(invocations: seq<Algorithm>, alg: Algorithm): nat
  {
    if |invocations| == 0 then 0
    else RunsOf(invocations[..|invocations| - 1], alg) + (if invocations[|invocations| - 1] == alg then 1 else 0)
  }

  /** Samples taken for `name` over all records. */
  function SamplesFor(results: seq<BenchmarkMetrics>, name: string): nat
  {
    if |results| == 0 then 0
    else SamplesFor(results[..|results| - 1], name)
         + (if results[|results| - 1].algorithm == name then |results[|results| - 1].times| else 0)
  }

  lemma {:induction false} RunsOfConcat(a: seq<Algorithm>, b: seq<Algorithm>, alg: Algorithm)
    ensures RunsOf(a + b, alg) == RunsOf(a, alg) + RunsOf(b, alg)
    decreases |b|
  {
    if |b| == 0 {
      assert a + b == a;
    } else {
      assert (a + b)[..|a + b| - 1] == a + b[..|b| - 1];
      RunsOfConcat(a, b[..|b| - 1], alg);
    }
  }

  lemma {:induction false} RunsOfConstant(n: nat, alg: Algorithm, other: Algorithm)
    ensures RunsOf(seq(n, _ => other), alg) == if alg == other then n else 0
  {
    if n > 0 {
      assert seq(n, _ => other)[..n - 1] == seq(n - 1, _ => other);
      RunsOfConstant(n - 1, alg, other);
    }
  }

  /** Every identifier equal to an algorithm's label yields `runs`
      invocations of it (none when `runs <= 0`): an algorithm listed twice
      is benchmarked twice as often, and identifiers that are not labels
      contribute nothing. */
  lemma {:induction false} InvocationsCount(algorithms: seq<string>, runs: int, alg: Algorithm)
    ensures RunsOf(Invocations(algorithms, runs), alg)
            == (if runs > 0 then runs else 0) * Occurrences(algorithms, Label(alg))
  {
    if |algorithms| > 0 {
      var init, id := algorithms[..|algorithms| - 1], algorithms[|algorithms| - 1];
      var n := if runs > 0 then runs else 0;
      assert Invocations(algorithms, runs) == Invocations(init, runs) + Block(id, runs);
      InvocationsCount(init, runs, alg);
      RunsOfConcat(Invocations(init, runs), Block(id, runs), alg);
      BlockRuns(id, runs, alg);
      var before := Occurrences(init, Label(alg));
      if id == Label(alg) {
        assert Occurrences(algorithms, Label(alg)) == before + 1;
        MultiplySuccessor(n, before);
      } else {
        assert Occurrences(algorithms, Label(alg)) == before;
      }
    }
  }

  /** One identifier yields `runs` invocations of `alg` when it is that
      algorithm's label, and none otherwise. */
  lemma BlockRuns(id: string, runs: int, alg: Algorithm)
    ensures RunsOf(Block(id, runs), alg) == if id == Label(alg) then (if runs > 0 then runs else 0) else 0
  {
    var n := if runs > 0 then runs else 0;
    ParseLabelInverse(id, alg);
    if ParseAlgorithm(id).Some? {
      var other := ParseAlgorithm(id).value;
      assert Block(id, runs) == seq(n, _ => other);
      RunsOfConstant(n, alg, other);
      LabelInjective(alg, other);
      ParseLabelInverse(id, other);
    }
  }

  lemma LabelInjective(a: Algorithm, b: Algorithm)
    ensures Label(a) == Label(b) <==> a == b
  {
  }

  /** Each identifier that is a label yields `runs` invocations. */
  lemma {:induction false} InvocationsLength(algorithms: seq<string>, runs: int)
    ensures |Invocations(algorithms, runs)| == (if runs > 0 then runs else 0) * KnownIds(algorithms)
  {
    if |algorithms| > 0 {
      var init, id := algorithms[..|algorithms| - 1], algorithms[|algorithms| - 1];
      assert Invocations(algorithms, runs) == Invocations(init, runs) + Block(id, runs);
      InvocationsLength(init, runs);
      MultiplySuccessor(if runs > 0 then runs else 0, KnownIds(init));
    }
  }

  /** A list in which no identifier is a label runs nothing. */
  lemma UnknownIdsRunNothing(algorithms: seq<string>, runs: int)
    requires forall i :: 0 <= i < |algorithms| ==> ParseAlgorithm(algorithms[i]).None?
    ensures Invocations(algorithms, runs) == []
  {
    KnownIdsNone(algorithms);
    InvocationsLength(algorithms, runs);
  }

  lemma {:induction false} KnownIdsNone(ids: seq<string>)
    requires forall i :: 0 <= i < |ids| ==> ParseAlgorithm(ids[i]).None?
    ensures KnownIds(ids) == 0
  {
    if |ids| > 0 {
      var init := ids[..|ids| - 1];
      assert forall i :: 0 <= i < |init| ==> init[i] == ids[i];
      KnownIdsNone(init);
    }
  }

  /** The label and sample count of every record. */
  predicate Shaped(results: seq<BenchmarkMetrics>, invocations: seq<Algorithm>, per: int)
  {
    |results| == |invocations|
    && forall k :: 0 <= k < |results| ==>
         results[k].algorithm == Label(invocations[k]) && |results[k].times| == per
  }

  lemma RecordsAreShaped(results: seq<BenchmarkMetrics>, invocations: seq<Algorithm>, per: int, details: InputDetails)
    requires RecordsFor(results, invocations, per, details)
    ensures Shaped(results, invocations, per)
  {
    forall k | 0 <= k < |results|
      ensures results[k].algorithm == Label(invocations[k]) && |results[k].times| == per
    {
      assert RecordFor(results[k], invocations[k], per, details);
    }
  }

  /** The records of a successful benchmark hold `per` samples for every
      invocation of an algorithm. */
  lemma {:induction false} SamplesPerAlgorithm(results: seq<BenchmarkMetrics>, invocations: seq<Algorithm>,
                                               per: int, alg: Algorithm)
    requires Shaped(results, invocations, per)
    ensures SamplesFor(results, Label(alg)) == RunsOf(invocations, alg) * per
  {
    if |results| > 0 {
      var n := |results| - 1;
      assert Shaped(results[..n], invocations[..n], per);
      SamplesPerAlgorithm(results[..n], invocations[..n], per, alg);
      LabelInjective(invocations[n], alg);
      var before := RunsOf(invocations[..n], alg);
      assert invocations[..|invocations| - 1] == invocations[..n];
      MultiplySuccessor(per, before);
    }
  }

  /** So every algorithm gets at least `iterations` samples for every time
      its label is listed. */
  lemma SamplesCoverRequest(results: seq<BenchmarkMetrics>, algorithms: seq<string>, iterations: int,
                            runs: int, details: InputDetails, alg: Algorithm)
    requires runs > 0
    requires RecordsFor(results, Invocations(algorithms, runs), IterationsPerRun(iterations, runs), details)
    ensures SamplesFor(results, Label(alg))
            == runs * IterationsPerRun(iterations, runs) * Occurrences(algorithms, Label(alg))
    ensures SamplesFor(results, Label(alg)) >= iterations * Occurrences(algorithms, Label(alg))
  {
    var per := IterationsPerRun(iterations, runs);
    var occ := Occurrences(algorithms, Label(alg));
    RecordsAreShaped(results, Invocations(algorithms, runs), per, details);
    SamplesPerAlgorithm(results, Invocations(algorithms, runs), per, alg);
    InvocationsCount(algorithms, runs, alg);
    MultiplyRearrange(runs, occ, per);
    SplitCoversIterations(iterations, runs);
    MultiplyMonotone(runs * per, iterations, occ);
  }

  /** Splitting `iterations` into `runs` runs of `ceil(iterations / runs)`
      never takes fewer samples than asked for, takes fewer than one extra
      per run, and takes exactly as many when `runs` divides `iterations`. */
  lemma SplitCoversIterations(iterations: int, runs: int)
    requires runs > 0
    ensures iterations <= runs * IterationsPerRun(iterations, runs) < iterations + runs
    ensures runs * IterationsPerRun(iterations, runs) == iterations <==> iterations % runs == 0
  {
    var q := IterationsPerRun(iterations, runs);
    assert q * runs >= iterations && (q - 1) * runs < iterations;
    if iterations % runs == 0 {
      var k := iterations / runs;
      assert k * runs == iterations;
      CeilDivIsLeast(iterations, runs, k);
      MulBounds(k - q, runs);
      assert (k - q) * runs == iterations - q * runs;
    } else if runs * q == iterations {
      ModOfMultiple(q, runs);
    }
  }

  lemma MultiplySuccessor(a: int, b: int)
    ensures a * (b + 1) == a * b + a
    ensures (b + 1) * a == b * a + a
  {
  }

  lemma MultiplyRearrange(a: int, b: int, c: int)
    ensures (a * b) * c == (a * c) * b
  {
  }

  lemma MultiplyMonotone(a: int, b: int, c: nat)
    requires a >= b
    ensures a * c >= b * c
  {
  }

  lemma ModOfMultiple(q: int, runs: int)
    requires runs > 0
    ensures (runs * q) % runs == 0
  {
    ModUnique(runs * q, runs, q, 0);
  }

  /** The configuration panel's defaults, 1000 iterations over 5 runs, split
      evenly into 200 samples per run; an uneven split such as 1000 over 3
      takes 334 per run, 1002 per algorithm. */
  lemma DefaultSplit()
    ensures IterationsPerRun(1000, 5) == 200
    ensures 5 * IterationsPerRun(1000, 5) == 1000
    ensures IterationsPerRun(1000, 3) == 334
    ensures 3 * IterationsPerRun(1000, 3) == 1002
  {
  }
}

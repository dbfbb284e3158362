/** The ambient services the benchmark engine calls and cannot see into: the
    Web Crypto key-generation, signing and verification calls, the
    monotonic clock `performance.now()`, the random source
    `crypto.getRandomValues`, and the caller's progress callback. Each is an
    object whose behaviour is fixed at construction by a total function of
    the number of calls made so far, so that a model of the engine can say
    exactly which readings and which signatures it used. */
module Platform {
  import opened Common

  /** The two signature algorithm families the engine drives. */
  datatype Algorithm = Ed25519 | Ecdsa

  /** The key pair the provider hands back; its content is never inspected. */
  datatype KeyPair = KeyPair(publicKey: seq<byte>, privateKey: seq<byte>)

  /** `performance.now()`: the i-th reading is `reading(i)`. */
  class Clock {
    const reading: nat -> real
    var ticks: nat

    /** Readings never go backwards. */
    ghost predicate Monotonic()
    {
      forall i, j :: 0 <= i <= j ==> reading(i) <= reading(j)
    }

    constructor (reading: nat -> real)
      ensures this.reading == reading && ticks == 0
    {
      this.reading := reading;
      ticks := 0;
    }

    method Now() returns (t: real)
      modifies this
      ensures t == reading(old(ticks))
      ensures ticks == old(ticks) + 1
    {
      t := reading(ticks);
      ticks := ticks + 1;
    }
  }

  /** The platform's signature provider. The n-th call (of any kind) is
      answered by the matching function applied to `n`; `None` is a
      rejection, which the awaiting caller sees as a thrown error. Every
      message that was signed and every signature returned are logged. */
  class CryptoProvider {
    const keyGen: (Algorithm, nat) -> Option<KeyPair>
    const signer: (Algorithm, KeyPair, seq<byte>, nat) -> Option<seq<byte>>
    const verifier: (Algorithm, KeyPair, seq<byte>, seq<byte>, nat) -> Option<bool>
    var calls: nat
    var messages: seq<seq<byte>>
    var signatures: seq<seq<byte>>

    /** The provider never rejects a call. */
    ghost predicate Accepting()
    {
      && (forall alg, n :: keyGen(alg, n).Some?)
      && (forall alg, key, data, n :: signer(alg, key, data, n).Some?)
      && (forall alg, key, signature, data, n :: verifier(alg, key, signature, data, n).Some?)
    }

    /** The platform does not support `alg`: every key generation for it is rejected. */
    ghost predicate Unsupported(alg: Algorithm)
    {
      forall n :: keyGen(alg, n).None?
    }

    constructor (keyGen: (Algorithm, nat) -> Option<KeyPair>,
                 signer: (Algorithm, KeyPair, seq<byte>, nat) -> Option<seq<byte>>,
                 verifier: (Algorithm, KeyPair, seq<byte>, seq<byte>, nat) -> Option<bool>)
      ensures this.keyGen == keyGen && this.signer == signer && this.verifier == verifier
      ensures calls == 0 && messages == [] && signatures == []
    {
      this.keyGen, this.signer, this.verifier := keyGen, signer, verifier;
      calls, messages, signatures := 0, [], [];
    }

    /** `crypto.subtle.generateKey(alg, false, ["sign", "verify"])`. */
    method GenerateKey(alg: Algorithm) returns (r: Option<KeyPair>)
      modifies this
      ensures r == keyGen(alg, old(calls))
      ensures calls == old(calls) + 1
      ensures messages == old(messages) && signatures == old(signatures)
    {
      r := keyGen(alg, calls);
      calls := calls + 1;
    }

    /** `crypto.subtle.sign(alg, keyPair.privateKey, data)`. */
    method Sign(alg: Algorithm, key: KeyPair, data: seq<byte>) returns (r: Option<seq<byte>>)
      modifies this
      ensures r == signer(alg, key, data, old(calls))
      ensures calls == old(calls) + 1
      ensures r.Some? ==> messages == old(messages) + [data] && signatures == old(signatures) + [r.value]
      ensures r.None? ==> messages == old(messages) && signatures == old(signatures)
    {
      r := signer(alg, key, data, calls);
      calls := calls + 1;
      if r.Some? {
        messages := messages + [data];
        signatures := signatures + [r.value];
      }
    }

    /** `crypto.subtle.verify(alg, keyPair.publicKey, signature, data)`. */
    method Verify(alg: Algorithm, key: KeyPair, signature: seq<byte>, data: seq<byte>) returns (r: Option<bool>)
      modifies this
      ensures r == verifier(alg, key, signature, data, old(calls))
      ensures calls == old(calls) + 1
      ensures messages == old(messages) && signatures == old(signatures)
    {
      r := verifier(alg, key, signature, data, calls);
      calls := calls + 1;
    }
  }

  /** `n` consecutive bytes of a random stream, starting at position `from`. */
  function RandomBlock(stream: nat -> byte, from: nat, n: nat): (b: seq<byte>)
    ensures |b| == n
  {
    seq(n, i requires 0 <= i => stream(from + i))
  }

  /** The most bytes one `crypto.getRandomValues` call may fill (Web
      Cryptography API, the `getRandomValues` method). */
  const MaxRandomBytes: nat := 65536

  /** `crypto.getRandomValues`: a stream of bytes the model cannot predict;
      `drawn` bytes of it have been used. */
  class RandomSource {
    const stream: nat -> byte
    var drawn: nat

    constructor (stream: nat -> byte)
      ensures this.stream == stream && drawn == 0
    {
      this.stream := stream;
      drawn := 0;
    }

    /** Fills `buf` in place with the next `buf.Length` bytes of the stream;
        a buffer longer than `MaxRandomBytes` is refused and left as it was. */
    method GetRandomValues(buf: array<byte>) returns (r: Result<()>)
      modifies this, buf
      ensures r.Failure? <==> buf.Length > MaxRandomBytes
      ensures r.Failure? ==> r.error == QuotaExceeded && unchanged(this, buf)
      ensures r.Success? ==> buf[..] == RandomBlock(stream, old(drawn), buf.Length)
      ensures r.Success? ==> drawn == old(drawn) + buf.Length
    {
      if buf.Length > MaxRandomBytes {
        return Failure(QuotaExceeded);
      }
      var i := 0;
      while i < buf.Length
        invariant 0 <= i <= buf.Length
        invariant drawn == old(drawn)
        invariant forall k :: 0 <= k < i ==> buf[k] == stream(drawn + k)
      {
        buf[i] := stream(drawn + i);
        i := i + 1;
      }
      drawn := drawn + buf.Length;
      return Success(());
    }
  }

  /** One call of the progress callback `onProgress(algo, current, total)`. */
  datatype ProgressEvent = ProgressEvent(algo: string, current: int, total: int)

  /** The caller's progress callback: it only records what it is told. */
  class ProgressSink {
    var events: seq<ProgressEvent>

    constructor ()
      ensures events == []
    {
      events := [];
    }

    method Report(e: ProgressEvent)
      modifies this
      ensures events == old(events) + [e]
    {
      events := events + [e];
    }
  }
}

/** The Signal value of internal/domain/signal.go that the adapters pass
    around: a sample array, shared with its creator, and a rate. */
module DomainSignals {
  import opened RealSeq

  class Signal {
    var samples: array<real>
    var sampleRate: real

    /** NewSignal: keeps the very array it is given, not a copy. */
    constructor(samples: array<real>, sampleRate: real)
      ensures this.samples == samples && this.sampleRate == sampleRate
    {
      this.samples := samples;
      this.sampleRate := sampleRate;
    }

    /** Duration: the sample count over the rate, in seconds. */
    function Duration(): (d: real)
      reads this
      requires sampleRate != 0.0
      ensures d * sampleRate == samples.Length as real
      ensures sampleRate > 0.0 ==> d >= 0.0
    {
      Quotient(samples.Length as real, sampleRate)
    }

    /** Clone: a new signal over a new array holding the same samples at
        the same rate. */
    method Clone() returns (c: Signal)
      ensures fresh(c) && fresh(c.samples) && c.samples.Length == samples.Length
      ensures c.samples[..] == samples[..] && c.sampleRate == sampleRate
    {
      var copy := new real[samples.Length];
      forall i | 0 <= i < samples.Length {
        copy[i] := samples[i];
      }
      c := new Signal(copy, sampleRate);
    }
  }

  /** A clone is deep: writing into its samples leaves the original's
      samples as they were. */
  method WriteIntoClone(s: Signal, i: nat, v: real) returns (c: Signal)
    requires i < s.samples.Length
    ensures fresh(c) && c.samples.Length == s.samples.Length && c.samples[i] == v
    ensures s.samples[..] == old(s.samples[..]) && s.sampleRate == old(s.sampleRate)
  {
    c := s.Clone();
    c.samples[i] := v;
  }
}

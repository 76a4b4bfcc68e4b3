/** What the parameter values written by a run stand for. */
module ParameterValues {
  import opened ByteUtils
  import opened XBeeModels
  import opened Discovery

  /** An explicit timeout that fits a Java `int` is written to `NT` as four
      bytes holding the timeout in whole units of 100 ms, rounded down: the
      device's own timeout then differs from the requested one by less
      than 100 ms and never exceeds it. */
  lemma TimeoutParamValue(t: int64)
    requires 0 < t < 0x8000_0000
    ensures |TimeoutParam(t)| == 4
    ensures BeValue(TimeoutParam(t)) == t / 100
    ensures t - 100 < NtMillis(TimeoutParam(t)) <= t
  {
    var q := JavaDiv(ToInt32(t), 100);
    assert q == t / 100;
    assert BeValue(IntToByteArray(q)) == q;
  }

  /** The `int` cast keeps only the low 32 bits of the timeout: whenever
      those bits form a non-negative `int`, `NT` holds them in units of
      100 ms, so a timeout of 2^32 ms or more is written as one about
      2^32 ms shorter (2^32 + 500 ms becomes 5 units of 100 ms). */
  lemma TimeoutParamWraps(t: int64)
    requires 0 <= t % TWO_32 < 0x8000_0000
    ensures BeValue(TimeoutParam(t)) == (t % TWO_32) / 100
    ensures t >= TWO_32 ==> NtMillis(TimeoutParam(t)) <= t - TWO_32
  {
    var m := t % TWO_32;
    assert (t + 0x8000_0000) % TWO_32 == m + 0x8000_0000;
    assert ToInt32(t) == m;
    assert JavaDiv(m, 100) == m / 100;
    assert t - m >= TWO_32 ==> m <= t - TWO_32;
  }

  /** The `NO` value is the four-byte big-endian form of the protocol's
      encoding of the option set. */
  lemma OptionsParamValue(encode: (Protocol, set<DiscoveryOption>) -> int32, p: Protocol,
                          options: set<DiscoveryOption>)
    ensures |OptionsParam(encode, p, options)| == 4
    ensures BeValue(OptionsParam(encode, p, options)) == encode(p, options) % TWO_32
  {
  }

  /** The device timeout `NT` is counted in units of 100 ms: a one-byte
      value `n` means `100 * n` ms. */
  lemma NtMillisOneByte(n: byte)
    ensures NtMillis([n]) == 100 * n
  {
    assert [n][..0] == [];
  }
}

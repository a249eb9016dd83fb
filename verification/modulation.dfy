/** Frequencies split into a kHz part and a sub-kHz Hz part
    (`Freq` in src/modulation/mod.rs), with the conversions to and from
    whole Hz, kHz, MHz and GHz in both directions. */
module Modulation {
  import opened Base

  /** A frequency of `khz * 1000 + hz` Hz. The type's fields are private in
      the source, so every value is built by one of the constructors below,
      each of which keeps `hz` below 1000. */
  datatype Freq = Freq(khz: u32, hz: u32) {
    predicate Valid() {
      hz < 1000
    }
  }

  /** The frequency in Hz, when it is representable at all. */
  function Value(f: Freq): nat {
    f.khz * 1000 + f.hz
  }

  /** Whether converting `f` to a `u32` Hz count stays clear of overflow. */
  predicate FitsHz(f: Freq) {
    Value(f) < U32_LIMIT
  }

  /** `Freq::from_parts`: refuses a Hz part of 1000 or more. */
  function FromParts(khz: u32, hz: u32): (r: Option<Freq>)
    ensures r.None? <==> hz >= 1000
    ensures r.Some? ==> r.value.Valid() && Parts(r.value) == (khz, hz)
  {
    if hz >= 1000 then None else Some(Freq(khz, hz))
  }

  /** `Freq::parts`. */
  function Parts(f: Freq): (u32, u32) {
    (f.khz, f.hz)
  }

  /** `Frequency<u32>::hz` on a `Freq`. The multiplication and addition are
      checked u32 arithmetic, so the source panics when the value exceeds
      u32; the model asks its callers to stay within range instead. */
  function ToHz(f: Freq): (n: u32)
    requires FitsHz(f)
    ensures f.Valid() ==> n / 1000 == f.khz && n % 1000 == f.hz
  {
    var n := f.khz * 1000 + f.hz;
    if f.Valid() then DivModUnique(n, f.khz, f.hz); n else n
  }

  /** `Frequency<u32>::khz` on a `Freq`: the whole kHz, the Hz part dropped. */
  function ToKhz(f: Freq): (n: u32)
    ensures f.Valid() ==> n == Value(f) / 1000
  {
    if f.Valid() then DivModUnique(Value(f), f.khz, f.hz); f.khz else f.khz
  }

  /** `Frequency<u32>::mhz` on a `Freq`: the kHz part divided down, rounding
      toward zero. */
  function ToMhz(f: Freq): (m: u32)
    ensures m * 1000 <= f.khz < (m + 1) * 1000
  {
    ToKhz(f) / 1000
  }

  /** `Frequency<u32>::ghz` on a `Freq`: the MHz value divided down again. */
  function ToGhz(f: Freq): (g: u32)
    ensures g * 1_000_000 <= f.khz < (g + 1) * 1_000_000
  {
    var m := ToMhz(f);
    var g := m / 1000;
    assert g * 1000 <= m < (g + 1) * 1000;
    assert g * 1_000_000 == (g * 1000) * 1000;
    assert (g + 1) * 1_000_000 == ((g + 1) * 1000) * 1000;
    g
  }

  /** `Frequency<Freq>::hz` on a `u32`. */
  function FromHz(n: u32): (f: Freq)
    ensures f.Valid() && Value(f) == n
  {
    Freq(n / 1000, n % 1000)
  }

  /** `Frequency<Freq>::khz` on a `u32`. */
  function FromKhz(n: u32): (f: Freq)
    ensures f.Valid() && ToKhz(f) == n && f.hz == 0
  {
    Freq(n, 0)
  }

  /** `Frequency<Freq>::mhz` on a `u32`; `n * 1000` is checked u32
      arithmetic in the source. */
  function FromMhz(n: u32): (f: Freq)
    requires n * 1000 < U32_LIMIT
    ensures f.Valid() && f.hz == 0
    ensures ToMhz(f) == n && f.khz % 1000 == 0
  {
    Freq(n * 1000, 0)
  }

  /** `Frequency<Freq>::ghz` on a `u32`; both multiplications by 1000 are
      checked u32 arithmetic in the source. */
  function FromGhz(n: u32): (f: Freq)
    requires n * 1_000_000 < U32_LIMIT
    ensures f.Valid() && f.hz == 0
    ensures ToGhz(f) == n && f.khz % 1_000_000 == 0
  {
    Freq(n * 1000 * 1000, 0)
  }

  /** Euclidean division has exactly one quotient and remainder. */
  lemma DivModUnique(n: int, q: int, r: int)
    requires 0 <= r < 1000 && n == q * 1000 + r
    ensures n / 1000 == q && n % 1000 == r
  {
  }

  /** `parts` gives back what `from_parts` accepted, and a valid frequency is
      rebuilt from its own parts. */
  lemma PartsRoundTrip(khz: u32, hz: u32, f: Freq)
    requires f.Valid()
    ensures FromParts(khz, hz).Some? ==> Parts(FromParts(khz, hz).value) == (khz, hz)
    ensures FromParts(Parts(f).0, Parts(f).1) == Some(f)
  {
  }

  /** Every u32 Hz count survives the trip through `Freq` and back. */
  lemma HzRoundTrip(n: u32)
    ensures FitsHz(FromHz(n)) && ToHz(FromHz(n)) == n
    ensures FromHz(n) == Freq(n / 1000, n % 1000)
  {
  }

  /** A valid frequency that fits in u32 is rebuilt exactly from its Hz count:
      the split into kHz and Hz parts is unique. */
  lemma {:induction false} FreqFromItsHz(f: Freq)
    requires f.Valid() && FitsHz(f)
    ensures FromHz(ToHz(f)) == f
  {
    var n := ToHz(f);
    assert n / 1000 == f.khz && n % 1000 == f.hz;
  }

  /** Whole kHz come back unchanged, and as Hz they are a thousand times as
      many when that does not overflow. */
  lemma KhzRoundTrip(n: u32)
    ensures ToKhz(FromKhz(n)) == n
    ensures n * 1000 < U32_LIMIT ==> FitsHz(FromKhz(n)) && ToHz(FromKhz(n)) == n * 1000
  {
  }

  /** `n.mhz()` is the same frequency as `(n * 1000).khz()`, and reads back
      as `n` MHz. */
  lemma MhzAgreesWithKhz(n: u32)
    requires n * 1000 < U32_LIMIT
    ensures FromMhz(n) == FromKhz(n * 1000)
    ensures ToMhz(FromMhz(n)) == n
  {
  }

  /** `n.ghz()` is the same frequency as `(n * 1000).mhz()`; read back it is
      `n` GHz and `n * 1000` MHz. */
  lemma {:induction false} GhzAgreesWithMhz(n: u32)
    requires n * 1_000_000 < U32_LIMIT
    ensures n * 1000 < U32_LIMIT
    ensures FromGhz(n) == FromMhz(n * 1000)
    ensures ToGhz(FromGhz(n)) == n && ToMhz(FromGhz(n)) == n * 1000
  {
    var f := FromGhz(n);
    assert f.khz == (n * 1000) * 1000;
    DivModUnique(f.khz, n * 1000, 0);
  }

  /** The worked examples of the type's documentation. */
  lemma DocumentedExamples()
    ensures FromMhz(434) == FromKhz(434_000) && ToMhz(FromMhz(434)) == 434
    ensures FromParts(433_100, 200).Some?
    ensures ToHz(FromParts(433_100, 200).value) == 433_100_200
    ensures ToKhz(FromParts(433_100, 200).value) == 433_100
    ensures ToMhz(FromParts(2_400_100, 200).value) == 2_400
    ensures ToGhz(FromParts(20_000_000, 200).value) == 20
    ensures ToKhz(FromHz(434_100_200)) == 434_100 && ToHz(FromHz(434_100_200)) == 434_100_200
    ensures ToHz(FromKhz(434_100)) == 434_100_000
    ensures ToKhz(FromMhz(2_450)) == 2_450_000
    ensures ToMhz(FromGhz(2)) == 2_000
  {
    MhzAgreesWithKhz(434);
    GhzAgreesWithMhz(2);
  }
}

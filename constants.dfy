/** The constant tables shared by the propagation calculations. */
module Constants {

  /** Amateur bands and their lower edge in MHz, in the listed order. */
  const BAND_FREQUENCIES: seq<(string, real)> := [
    ("160m", 1.8), ("80m", 3.5), ("40m", 7.0), ("30m", 10.1), ("20m", 14.0),
    ("17m", 18.1), ("15m", 21.0), ("12m", 24.9), ("10m", 28.0), ("6m", 50.0)
  ]

  /** (SFI threshold, base MUF in MHz), searched top-down. */
  const MUF_SFI_TABLE: seq<(real, real)> := [
    (150.0, 40.0), (120.0, 32.0), (100.0, 26.0), (80.0, 21.0), (60.0, 16.0), (0.0, 12.0)
  ]

  const MUF_MIN: real := 10.0
  const MUF_MAX: real := 50.0

  predicate IsBand(name: string)
  {
    exists i :: 0 <= i < |BAND_FREQUENCIES| && BAND_FREQUENCIES[i].0 == name
  }

  /** Thresholds strictly decrease and end at 0; the MUF values strictly
      decrease along the table, so a higher threshold never maps to a lower MUF. */
  lemma MufTableOrdered()
    ensures forall i, j :: 0 <= i < j < |MUF_SFI_TABLE| ==>
      MUF_SFI_TABLE[i].0 > MUF_SFI_TABLE[j].0 && MUF_SFI_TABLE[i].1 > MUF_SFI_TABLE[j].1
    ensures MUF_SFI_TABLE[|MUF_SFI_TABLE| - 1].0 == 0.0
  {
  }

  /** Band frequencies are positive and strictly increase from 160m to 6m;
      the band names are distinct. */
  lemma BandFrequenciesIncreasing()
    ensures forall i :: 0 <= i < |BAND_FREQUENCIES| ==> BAND_FREQUENCIES[i].1 > 0.0
    ensures forall i, j :: 0 <= i < j < |BAND_FREQUENCIES| ==>
      BAND_FREQUENCIES[i].1 < BAND_FREQUENCIES[j].1 && BAND_FREQUENCIES[i].0 != BAND_FREQUENCIES[j].0
  {
  }

  lemma MufRangeNonEmpty()
    ensures MUF_MIN < MUF_MAX
  {
  }
}

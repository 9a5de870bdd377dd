/**
 * The volume mapping of src/audio/volume.rs. Its floating-point formulas (`powf`,
 * `exp`) are not modelled: they are the two functions of a `GainCurve`, supplied by
 * whoever builds the player. What the model keeps is the shape the rest of the core
 * relies on: a level of exactly 1 is exactly 0 dB, and every other level maps to at
 * most 0 dB.
 */
module Volume {
  datatype GainCurve = GainCurve(
    /** `(lowest_db + c) * e^(-b * level) - c` of `volume_level_to_db`. */
    levelFormula: real -> real,
    /** `db_gain_to_amplitude`: `10^(db / 20)`. */
    dbToAmplitude: real -> real)

  /** `volume_level_to_db`: 1 is 0 dB; otherwise the formula clamped to at most 0 dB. */
  function LevelToDb(curve: GainCurve, level: real): (db: real)
    ensures db <= 0.0
    ensures level == 1.0 ==> db == 0.0
    ensures level != 1.0 && curve.levelFormula(level) <= 0.0 ==> db == curve.levelFormula(level)
  {
    if level == 1.0 then 0.0
    else if curve.levelFormula(level) <= 0.0 then curve.levelFormula(level)
    else 0.0
  }
}

/** Optional values and the typed defects a traversal can report. */
module Outcomes {

  datatype Option<T> = None | Some(value: T)

  /** One constructor per entry of the `errorMessage` table of index.js except
      `MULTIPLE_PATHS`, which the class never reports and no test expects, plus the
      misplaced-start defect that test.js expects; the message text
      is presentation and is not modelled, the counts and glyphs it carries are. */
  datatype Glitch =
    | MissingStartGlyph
    | MissingEndGlyph
    | MissingUniqueGlyph(glyph: string)
    | MultipleStartGlyphs(count: nat)
    | MultipleEndGlyphs(count: nat)
    | MultipleUniqueGlyphs(count: nat)
    | InvalidGlyph
    | MisplacedStartGlyph
    | Fork
    | FakeTurn
    | BrokenPath

  /** A value, or the defect that a thrown `Error` carried in the source. */
  datatype Result<T> = Ok(value: T) | Err(error: Glitch)
}

/** The glyph alphabet of a track map and the three classifiers of the
    Pathfinder class, written as membership in fixed character sets. */
module Glyphs {

  /** A matrix field: the source stores each field as a (normally one-character) string. */
  type Cell = string

  const VERTICAL: Cell := "|"
  const HORIZONTAL: Cell := "-"
  const TURN: Cell := "+"
  const START: Cell := "@"
  const END: Cell := "x"

  predicate IsUpperCase(c: char) {
    'A' <= c <= 'Z'
  }

  /** The characters of the class `[A-Z@x|+-]`. */
  predicate IsTrackChar(c: char) {
    IsUpperCase(c) || c == '@' || c == 'x' || c == '|' || c == '+' || c == '-'
  }

  /** The characters matched by the regular-expression escape `\s`. */
  predicate IsWhitespace(c: char) {
    || c == ' ' || c == '\t' || c == '\n' || c == '\r'
    || c == '\U{B}' || c == '\U{C}' || c == '\U{A0}' || c == '\U{1680}'
    || ('\U{2000}' <= c <= '\U{200A}')
    || c == '\U{2028}' || c == '\U{2029}' || c == '\U{202F}' || c == '\U{205F}'
    || c == '\U{3000}' || c == '\U{FEFF}'
  }

  /** `/^[A-Z]{1}$/`: exactly one upper-case letter. */
  predicate IsValidLetter(glyph: Cell) {
    |glyph| == 1 && IsUpperCase(glyph[0])
  }

  /** `/(^[A-Z@x|+-]{1}$)/`: exactly one character that may lie on the track. */
  predicate IsValidGlyph(glyph: Cell) {
    |glyph| == 1 && IsTrackChar(glyph[0])
  }

  /** `/^[A-Z@x|+-\s]{1}$/`: a track character or one whitespace character. */
  predicate IsValidMatrixFieldValue(glyph: Cell) {
    |glyph| == 1 && (IsTrackChar(glyph[0]) || IsWhitespace(glyph[0]))
  }

  /** The stations, listed one by one. */
  const LETTERS: set<Cell> :=
    {"A", "B", "C", "D", "E", "F", "G", "H", "I", "J", "K", "L", "M",
     "N", "O", "P", "Q", "R", "S", "T", "U", "V", "W", "X", "Y", "Z"}

  /** Every glyph that may lie on the track, listed one by one. */
  const TRACK_GLYPHS: set<Cell> := LETTERS + {START, END, VERTICAL, TURN, HORIZONTAL}

  lemma LetterCharIsListed(c: char)
    requires IsUpperCase(c)
    ensures [c] in LETTERS
  {
    if c < 'N' {
      if c < 'G' {
        if c == 'A' {} else if c == 'B' {} else if c == 'C' {} else if c == 'D' {} else if c == 'E' {} else {}
      } else {
        if c == 'G' {} else if c == 'H' {} else if c == 'I' {} else if c == 'J' {} else if c == 'K' {} else if c == 'L' {} else {}
      }
    } else {
      if c < 'T' {
        if c == 'N' {} else if c == 'O' {} else if c == 'P' {} else if c == 'Q' {} else if c == 'R' {} else {}
      } else {
        if c == 'T' {} else if c == 'U' {} else if c == 'V' {} else if c == 'W' {} else if c == 'X' {} else if c == 'Y' {} else {}
      }
    }
  }

  /** The letter classifier accepts exactly the 26 one-character stations. */
  lemma ValidLettersAreListed(glyph: Cell)
    ensures IsValidLetter(glyph) <==> glyph in LETTERS
  {
    if IsValidLetter(glyph) {
      assert glyph == [glyph[0]];
      LetterCharIsListed(glyph[0]);
    }
  }

  /** The glyph classifier accepts exactly the 31 one-character track glyphs. */
  lemma ValidGlyphsAreListed(glyph: Cell)
    ensures IsValidGlyph(glyph) <==> glyph in TRACK_GLYPHS
  {
    ValidLettersAreListed(glyph);
    if IsValidGlyph(glyph) {
      assert glyph == [glyph[0]];
    }
  }

  /** Each letter is a glyph, each glyph a field value, and blanks are field values only. */
  lemma ClassifiersNest(glyph: Cell)
    ensures IsValidLetter(glyph) ==> IsValidGlyph(glyph)
    ensures IsValidGlyph(glyph) ==> IsValidMatrixFieldValue(glyph)
    ensures IsValidMatrixFieldValue(glyph) && !IsValidGlyph(glyph) ==> IsWhitespace(glyph[0])
  {
  }

  /** The markers and the line-drawing glyphs are track glyphs but not stations. */
  lemma MarkersAreGlyphsNotLetters()
    ensures forall g :: g in {START, END, VERTICAL, HORIZONTAL, TURN} ==> IsValidGlyph(g) && !IsValidLetter(g)
    ensures !IsValidGlyph(" ") && IsValidMatrixFieldValue(" ")
  {
  }
}

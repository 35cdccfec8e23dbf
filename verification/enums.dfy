/** The two closed enumerations a stored QR-code configuration may hold. */
module Enums {
  import opened Ascii

  /** Image format of a QR code. */
  datatype QRFormat = SVG | PNG

  /** Error-correction tier of a QR code, from least to most redundancy. */
  datatype ErrorLevel = LOW | MEDIUM | QUARTILE | HIGH

  /** The member's name as the database enumeration spells it. */
  function FormatName(f: QRFormat): (name: string)
    ensures IsUpperWord(name)
  {
    match f
    case SVG => "SVG"
    case PNG => "PNG"
  }

  /** The member's name as the database enumeration spells it. */
  function LevelName(l: ErrorLevel): (name: string)
    ensures IsUpperWord(name)
  {
    match l
    case LOW => "LOW"
    case MEDIUM => "MEDIUM"
    case QUARTILE => "QUARTILE"
    case HIGH => "HIGH"
  }

  /** Distinct error levels have distinct names. */
  lemma LevelNameInjective(a: ErrorLevel, b: ErrorLevel)
    ensures LevelName(a) == LevelName(b) <==> a == b
  {
    if a != b {
      match a
      case LOW => assert LevelName(a)[0] == 'L';
      case MEDIUM => assert LevelName(a)[0] == 'M';
      case QUARTILE => assert LevelName(a)[0] == 'Q';
      case HIGH => assert LevelName(a)[0] == 'H';
    }
  }
}

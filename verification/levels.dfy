/**
 Log levels of the logging utility: the numeric codes, their names, and the
 two conversions between them.

 The header that defines LOG_DEBUG .. LOG_CRITICAL is not part of this model.
 The codes are assumed to be 0 .. 4, the values the name lookup switches on.
 */
module LogLevels {
  import opened Optional

  const LOG_DEBUG: int := 0
  const LOG_INFO: int := 1
  const LOG_WARN: int := 2
  const LOG_ERROR: int := 3
  const LOG_CRITICAL: int := 4

  /** What the name parser returns for a string that names no level. */
  const UNKNOWN_LEVEL: int := -1

  /** Level names in code order: the name of code c is LevelNames[c]. */
  const LevelNames: seq<string> := ["DEBUG", "INFO", "WARN", "ERROR", "CRITICAL"]

  predicate IsLevel(code: int) {
    LOG_DEBUG <= code <= LOG_CRITICAL
  }

  /** The name of a level code; None (NULL) for any code outside 0 .. 4. */
  function LevelName(code: int): (r: Option<string>)
    ensures r.Some? <==> IsLevel(code)
    ensures r.Some? ==> r.value == LevelNames[code]
  {
    match code
    case 0 => Some("DEBUG")
    case 1 => Some("INFO")
    case 2 => Some("WARN")
    case 3 => Some("ERROR")
    case 4 => Some("CRITICAL")
    case _ => None
  }

  /**
   The level code of a name, as intended: every name in the table parses to
   its own code, every other string to UNKNOWN_LEVEL.
   */
  function ParseLevel(s: string): (r: int)
    ensures s in LevelNames ==> IsLevel(r) && LevelNames[r] == s
    ensures s !in LevelNames ==> r == UNKNOWN_LEVEL
  {
    if s == "DEBUG" then LOG_DEBUG
    else if s == "INFO" then LOG_INFO
    else if s == "WARN" then LOG_WARN
    else if s == "ERROR" then LOG_ERROR
    else if s == "CRITICAL" then LOG_CRITICAL
    else UNKNOWN_LEVEL
  }

  /**
   The level code of a name, as the source writes it: the last comparison is
   against the misspelt "CRTITICAL", so the real name "CRITICAL" is unknown
   and the misspelling is what parses to LOG_CRITICAL.
   */
  function ParseLevelAsWritten(s: string): (r: int)
    ensures s in LevelNames[..LOG_CRITICAL] ==> IsLevel(r) && LevelNames[r] == s
    ensures s == "CRTITICAL" ==> r == LOG_CRITICAL
    ensures s !in LevelNames[..LOG_CRITICAL] && s != "CRTITICAL" ==> r == UNKNOWN_LEVEL
  {
    if s == "DEBUG" then LOG_DEBUG
    else if s == "INFO" then LOG_INFO
    else if s == "WARN" then LOG_WARN
    else if s == "ERROR" then LOG_ERROR
    else if s == "CRTITICAL" then LOG_CRITICAL
    else UNKNOWN_LEVEL
  }

  /** Parsing the name of a level gives the level back, for all five levels. */
  lemma ParseInvertsName(code: int)
    requires IsLevel(code)
    ensures ParseLevel(LevelName(code).value) == code
  {
  }

  /** A string that parses to a level is exactly that level's name. */
  lemma NameInvertsParse(s: string)
    requires ParseLevel(s) != UNKNOWN_LEVEL
    ensures LevelName(ParseLevel(s)) == Some(s)
  {
  }

  /** As written, the round trip still holds for DEBUG .. ERROR. */
  lemma AsWrittenInvertsNameBelowCritical(code: int)
    requires LOG_DEBUG <= code <= LOG_ERROR
    ensures ParseLevelAsWritten(LevelName(code).value) == code
  {
  }

  /** As written, the name of LOG_CRITICAL does not parse back: it is unknown. */
  lemma CriticalNotParsedAsWritten()
    ensures LevelName(LOG_CRITICAL) == Some("CRITICAL")
    ensures ParseLevelAsWritten("CRITICAL") == UNKNOWN_LEVEL
    ensures ParseLevel("CRITICAL") == LOG_CRITICAL
  {
  }

  /** The two parsers differ only on "CRITICAL" and its misspelling. */
  lemma AsWrittenAgreesElsewhere(s: string)
    requires s != "CRITICAL" && s != "CRTITICAL"
    ensures ParseLevelAsWritten(s) == ParseLevel(s)
  {
  }
}

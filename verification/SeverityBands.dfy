/** The severity bands of src/threatlens/core/models/common.py, under their own names. */
module SeverityBands {
  datatype Severity = NORMAL | LOW | MEDIUM | HIGH | CRITICAL

  function SeverityFor(score: int): Severity {
    if score >= 80 then CRITICAL
    else if score >= 60 then HIGH
    else if score >= 40 then MEDIUM
    else if score >= 20 then LOW
    else NORMAL
  }

  function Level(s: Severity): int {
    match s case NORMAL => 0 case LOW => 1 case MEDIUM => 2 case HIGH => 3 case CRITICAL => 4
  }

  /** A higher score never has a lower band; these are the last and first scores of neighbouring bands. */
  lemma BandsMeaning(a: int, b: int)
    ensures a <= b ==> Level(SeverityFor(a)) <= Level(SeverityFor(b))
    ensures SeverityFor(0) == SeverityFor(19) == NORMAL && SeverityFor(20) == SeverityFor(39) == LOW
    ensures SeverityFor(40) == SeverityFor(59) == MEDIUM && SeverityFor(60) == SeverityFor(79) == HIGH
    ensures SeverityFor(80) == SeverityFor(100) == CRITICAL
  {
  }
}

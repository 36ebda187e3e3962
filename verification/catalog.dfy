/** The preset catalog of the cost calculator: for every position and seniority
    level, the US annual salary and the Philippines monthly salary range that
    seed the calculator's inputs when a selection changes. */
module Catalog {

  datatype Option<+T> = None | Some(value: T)

  /** The positions on offer, keyed in the calculator component by the strings of `PositionKey`. */
  datatype Position = SoftwareEngineer | WebDeveloper | DataScientist

  /** Seniority levels, keyed in the calculator component by the strings of `LevelKey`. */
  datatype Level = Junior | Mid | Senior

  /** One catalog row: a monthly PH salary range and a US annual salary. */
  datatype Range = Range(phMin: real, phMax: real, usSalary: real)

  function PositionKey(p: Position): string {
    match p
    case SoftwareEngineer => "software-engineer"
    case WebDeveloper => "web-developer"
    case DataScientist => "data-scientist"
  }

  function LevelKey(l: Level): string {
    match l
    case Junior => "junior"
    case Mid => "mid"
    case Senior => "senior"
  }

  /** Display title of a position (used by the selector and the report). */
  function Title(p: Position): string {
    match p
    case SoftwareEngineer => "Software Engineer"
    case WebDeveloper => "Web Developer"
    case DataScientist => "Data Scientist"
  }

  /** The position whose key is `s`, if any: the inverse of `PositionKey`. */
  function ParsePosition(s: string): (r: Option<Position>)
    ensures forall p :: PositionKey(p) == s <==> r == Some(p)
  {
    if s == "software-engineer" then Some(SoftwareEngineer)
    else if s == "web-developer" then Some(WebDeveloper)
    else if s == "data-scientist" then Some(DataScientist)
    else None
  }

  /** The level whose key is `s`, if any: the inverse of `LevelKey`. */
  function ParseLevel(s: string): (r: Option<Level>)
    ensures forall l :: LevelKey(l) == s <==> r == Some(l)
  {
    if s == "junior" then Some(Junior)
    else if s == "mid" then Some(Mid)
    else if s == "senior" then Some(Senior)
    else None
  }

  /** The catalog table itself. Every row has a positive US salary and a
      non-empty, positive PH range. */
  function Lookup(p: Position, l: Level): (r: Range)
    ensures 0.0 < r.phMin < r.phMax
    ensures 0.0 < r.usSalary
  {
    match p
    case SoftwareEngineer =>
      (match l
       case Junior => Range(800.0, 1200.0, 85000.0)
       case Mid => Range(1500.0, 2500.0, 120000.0)
       case Senior => Range(2500.0, 4000.0, 150000.0))
    case WebDeveloper =>
      (match l
       case Junior => Range(700.0, 1000.0, 75000.0)
       case Mid => Range(1200.0, 2000.0, 100000.0)
       case Senior => Range(2000.0, 3500.0, 130000.0))
    case DataScientist =>
      (match l
       case Junior => Range(1000.0, 1500.0, 90000.0)
       case Mid => Range(1800.0, 3000.0, 130000.0)
       case Senior => Range(3000.0, 4500.0, 160000.0))
  }

  /** The lookup by string keys: defined exactly when both keys name a
      catalog entry; a key outside the catalog yields no row. */
  function LookupByKey(position: string, level: string): (r: Option<Range>)
    ensures r.Some? <==> (exists p :: PositionKey(p) == position) && (exists l :: LevelKey(l) == level)
    ensures forall p, l :: PositionKey(p) == position && LevelKey(l) == level ==> r == Some(Lookup(p, l))
  {
    match (ParsePosition(position), ParseLevel(level))
    case (Some(p), Some(l)) => Some(Lookup(p, l))
    case _ => None
  }

  /** The default PH monthly salary of a row: equidistant from both ends of
      the range, hence inside it. */
  function Midpoint(r: Range): (m: real)
    ensures r.phMin <= r.phMax ==> r.phMin <= m <= r.phMax
    ensures m - r.phMin == r.phMax - m
  {
    (r.phMin + r.phMax) / 2.0
  }
}

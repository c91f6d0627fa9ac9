/** The two letter-grade ladders the analyzers use. The simulation analyzers
    (waterfall, multi-location, device simulation) grade on 85/70/55/40; Core
    Web Vitals, accessibility and security grade on 90/80/70/60. */
module Grading {

  datatype Grade = A | B | C | D | F

  /** The verdict on one simulated row (a location or a device). */
  datatype Status = Pass | Warn | Fail

  /** How bad a row verdict is: Pass 0, Warn 1, Fail 2. */
  function Badness(s: Status): nat
  {
    match s
    case Pass => 0
    case Warn => 1
    case Fail => 2
  }

  /** Position of a grade on the ladder, higher is better. */
  function Rank(g: Grade): nat
  {
    match g
    case A => 4
    case B => 3
    case C => 2
    case D => 1
    case F => 0
  }

  /** `_get_grade` of the simulation analyzers. */
  function SimulationGrade(score: int): (g: Grade)
    ensures g == A <==> score >= 85
    ensures g == B <==> 70 <= score < 85
    ensures g == C <==> 55 <= score < 70
    ensures g == D <==> 40 <= score < 55
    ensures g == F <==> score < 40
  {
    if score >= 85 then A
    else if score >= 70 then B
    else if score >= 55 then C
    else if score >= 40 then D
    else F
  }

  /** A higher score never earns a worse simulation grade. */
  lemma SimulationGradeMonotone(s1: int, s2: int)
    requires s1 <= s2
    ensures Rank(SimulationGrade(s1)) <= Rank(SimulationGrade(s2))
  {
  }

  /** `get_grade` / `_get_grade` of Core Web Vitals, accessibility and security. */
  function StandardGrade(score: real): (g: Grade)
    ensures g == A <==> score >= 90.0
    ensures g == B <==> 80.0 <= score < 90.0
    ensures g == C <==> 70.0 <= score < 80.0
    ensures g == D <==> 60.0 <= score < 70.0
    ensures g == F <==> score < 60.0
  {
    if score >= 90.0 then A
    else if score >= 80.0 then B
    else if score >= 70.0 then C
    else if score >= 60.0 then D
    else F
  }

  /** A higher score never earns a worse standard grade. */
  lemma StandardGradeMonotone(s1: real, s2: real)
    requires s1 <= s2
    ensures Rank(StandardGrade(s1)) <= Rank(StandardGrade(s2))
  {
  }
}

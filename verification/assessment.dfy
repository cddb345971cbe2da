/** The triage result shape shared by the backend and the AI service:
    `{ level: "1".."5", priorityScore, notes, recommendations, estimatedWaitTime }`,
    and the note text both copies build the same way. */
module Assessment {
  import opened Text

  datatype TriageResult = TriageResult(
    level: string,
    priorityScore: int,
    notes: string,
    recommendations: seq<string>,
    estimatedWaitTime: int)

  /** A decision of one cascade before it is turned into a result:
      tier 1 (most urgent) to 5, score and recommendations. */
  datatype Classification = Classification(tier: nat, score: int, recommendations: seq<string>)

  predicate ValidTier(t: nat) { 1 <= t <= 5 }

  /** The wire name of a tier. */
  function LevelName(t: nat): string
    requires ValidTier(t)
  {
    ["1", "2", "3", "4", "5"][t - 1]
  }

  predicate IsLevel(level: string) {
    level == "1" || level == "2" || level == "3" || level == "4" || level == "5"
  }

  lemma LevelNameValid(t: nat)
    requires ValidTier(t)
    ensures IsLevel(LevelName(t))
    ensures forall u :: ValidTier(u) && LevelName(u) == LevelName(t) ==> u == t
  {
  }

  const ImmediateAssessment := "Immediate physician assessment required"

  const NotesHead := "Triage assessment based on "
  const VitalsMention := "vital signs and "
  const ComplaintLabel := "chief complaint: "

  /** `Triage assessment based on ${vitals ? 'vital signs and ' : ''}chief complaint: ${complaint}`. */
  function BaseNotes(vitalsUsed: bool, complaint: string): string {
    NotesHead + (if vitalsUsed then VitalsMention else "") + ComplaintLabel + complaint
  }

  /** The notes mention vital signs exactly when the vitals branch ran,
      whatever the complaint says. */
  lemma BaseNotesMentionVitals(vitalsUsed: bool, complaint: string, suffix: string)
    ensures StartsWith(BaseNotes(vitalsUsed, complaint) + suffix, NotesHead + VitalsMention) <==> vitalsUsed
  {
    var n := BaseNotes(vitalsUsed, complaint) + suffix;
    var p := NotesHead + VitalsMention;
    if vitalsUsed {
      assert n == p + (ComplaintLabel + complaint + suffix);
      assert n[..|p|] == p;
    } else {
      assert n == NotesHead + (ComplaintLabel + complaint + suffix);
      assert n[|NotesHead|] == 'c';
      assert p[|NotesHead|] == 'v';
    }
  }
}

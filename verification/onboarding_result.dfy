/**
 * OnboardingResult: the verdict of one onboarding verification. A mutable
 * record of four fields; each setter replaces one field.
 */
module OnboardingRecord {
  import opened Wrappers
  import opened ExtractionRecord

  class OnboardingResult {
    var verified: bool
    var studentId: Option<string>
    /** The extraction result per document type; null when never set. */
    var documents: Option<map<string, DocumentExtractionResult>>
    var notes: Option<string>

    /** The no-argument constructor: not verified, every other field null. */
    constructor Empty()
      ensures !verified && studentId == None && documents == None && notes == None
    {
      verified, studentId, documents, notes := false, None, None, None;
    }

    /** The four-argument constructor: every field holds its argument. */
    constructor (verified: bool, studentId: Option<string>,
                 documents: Option<map<string, DocumentExtractionResult>>, notes: Option<string>)
      ensures IsVerified() == verified && GetStudentId() == studentId
      ensures GetDocuments() == documents && GetNotes() == notes
    {
      this.verified := verified;
      this.studentId := studentId;
      this.documents := documents;
      this.notes := notes;
    }

    function IsVerified(): bool reads this { verified }

    function GetStudentId(): Option<string> reads this { studentId }

    function GetDocuments(): Option<map<string, DocumentExtractionResult>> reads this { documents }

    function GetNotes(): Option<string> reads this { notes }

    method SetVerified(value: bool)
      modifies this
      ensures IsVerified() == value
      ensures studentId == old(studentId) && documents == old(documents) && notes == old(notes)
    {
      verified := value;
    }

    method SetStudentId(value: Option<string>)
      modifies this
      ensures GetStudentId() == value
      ensures verified == old(verified) && documents == old(documents) && notes == old(notes)
    {
      studentId := value;
    }

    method SetDocuments(value: Option<map<string, DocumentExtractionResult>>)
      modifies this
      ensures GetDocuments() == value
      ensures verified == old(verified) && studentId == old(studentId) && notes == old(notes)
    {
      documents := value;
    }

    method SetNotes(value: Option<string>)
      modifies this
      ensures GetNotes() == value
      ensures verified == old(verified) && studentId == old(studentId) && documents == old(documents)
    {
      notes := value;
    }
  }
}

/**
 * OnboardingService.verify: extracts the Aadhaar card, the PAN card and the
 * income proof, matches their names against the student's profile name,
 * flags every document read with confidence below 0.90 to the notifier, and
 * reports the verdict. Any exception turns into a failed result.
 *
 * The collaborators are abstract: the extractor is a function from a request
 * to the five extracted fields, the profile-name query a function from the
 * student id to the query's outcome, and the notifier an object that records
 * the alerts it posts.
 */
module Onboarding {
  import opened Wrappers
  import opened Text
  import opened NameMatcher
  import opened ExtractionRecord
  import opened OnboardingRecord

  /** The confidence every document must reach. */
  const ConfidenceThreshold: real := 0.9

  const VerifiedNotes := "Name match successful"
  const MismatchNotes := "Name mismatch across documents"
  const FailurePrefix := "Verification failed: "

  /** An uploaded file: its bytes, or the exception `getBytes` raises, with its message. */
  datatype Upload = Readable(bytes: seq<bv8>) | ReadFails(message: Option<string>)

  /** A call into the document extractor. */
  datatype DocRequest =
    | IdDocument(bytes: seq<bv8>, modelId: string)
    | IncomeDocument(bytes: seq<bv8>)

  /** The outcome of the profile-name query: a row (whose column may be null) or an exception. */
  datatype ProfileQuery = Row(fullName: Option<string>) | QueryFails

  /** One low-confidence notification. */
  datatype Alert = Alert(studentId: Option<string>, docType: string, confidence: real)

  /** fetchStudentName: the queried name, or "" when the query throws (no row, no database). */
  function FetchStudentName(q: ProfileQuery): (r: Option<string>)
    ensures q.QueryFails? ==> r == Some("")
    ensures q.Row? ==> r == q.fullName
  {
    match q
    case Row(n) => n
    case QueryFails => Some("")
  }

  /** The alert checkConfidence raises for one document, if any. */
  function AlertFor(studentId: Option<string>, docType: string, confidence: real): seq<Alert> {
    if confidence < ConfidenceThreshold then [Alert(studentId, docType, confidence)] else []
  }

  /** The three checkConfidence calls, in the order aadhaar, pan, income. */
  function LowConfidenceAlerts(studentId: Option<string>, a: Extracted, p: Extracted, i: Extracted): seq<Alert> {
    AlertFor(studentId, "aadhaar", a.confidence) + AlertFor(studentId, "pan", p.confidence)
    + AlertFor(studentId, "income", i.confidence)
  }

  /** What one call of verify produces: the result's four fields and the alerts raised. */
  datatype Verification = Verification(
    verified: bool,
    studentId: Option<string>,
    documents: map<string, Extracted>,
    notes: string,
    alerts: seq<Alert>)

  predicate AllReadable(aadhaar: Upload, pan: Upload, income: Upload) {
    aadhaar.Readable? && pan.Readable? && income.Readable?
  }

  /** The message of the first upload that cannot be read, in the order the uploads are read. */
  function FirstFailure(aadhaar: Upload, pan: Upload, income: Upload): Option<string>
    requires !AllReadable(aadhaar, pan, income)
  {
    if aadhaar.ReadFails? then aadhaar.message
    else if pan.ReadFails? then pan.message
    else income.message
  }

  function Failed(studentId: Option<string>, message: Option<string>): Verification {
    Verification(false, studentId, map[], FailurePrefix + Show(message), [])
  }

  /** The verdict once the three documents are extracted and the profile name fetched. */
  function Decide(studentId: Option<string>, profileName: Option<string>,
                  a: Extracted, p: Extracted, i: Extracted): (v: Verification)
    ensures v.studentId == studentId
  {
    var nameMatch := AllMatch(profileName, a.name, p.name, i.name);
    var verified := nameMatch && a.confidence >= ConfidenceThreshold
                    && p.confidence >= ConfidenceThreshold && i.confidence >= ConfidenceThreshold;
    Verification(verified, studentId, map["aadhaar" := a, "pan" := p, "income" := i],
                 if nameMatch then VerifiedNotes else MismatchNotes,
                 LowConfidenceAlerts(studentId, a, p, i))
  }

  /** The specification of verify. */
  function VerifySpec(studentId: Option<string>, aadhaar: Upload, pan: Upload, income: Upload,
                      extract: DocRequest -> Extracted, query: ProfileQuery): (v: Verification)
    ensures v.studentId == studentId
  {
    if !AllReadable(aadhaar, pan, income) then
      Failed(studentId, FirstFailure(aadhaar, pan, income))
    else
      Decide(studentId, FetchStudentName(query), extract(IdDocument(aadhaar.bytes, "AADHAAR")),
             extract(IdDocument(pan.bytes, "PAN")), extract(IncomeDocument(income.bytes)))
  }

  // ---------------------------------------------------------------------------
  // Properties of the verdict

  /**
   * On success the documents map holds exactly the three extraction results,
   * each under its own key and each from its own upload.
   */
  lemma SuccessDocuments(studentId: Option<string>, aadhaar: Upload, pan: Upload, income: Upload,
                         extract: DocRequest -> Extracted, query: ProfileQuery)
    requires AllReadable(aadhaar, pan, income)
    ensures var v := VerifySpec(studentId, aadhaar, pan, income, extract, query);
      v.documents.Keys == {"aadhaar", "pan", "income"}
      && v.documents["aadhaar"] == extract(IdDocument(aadhaar.bytes, "AADHAAR"))
      && v.documents["pan"] == extract(IdDocument(pan.bytes, "PAN"))
      && v.documents["income"] == extract(IncomeDocument(income.bytes))
  {
  }

  /**
   * Verified exactly when every upload was read, the names match and every
   * document in the result reaches the threshold.
   */
  lemma VerifiedIff(studentId: Option<string>, aadhaar: Upload, pan: Upload, income: Upload,
                    extract: DocRequest -> Extracted, query: ProfileQuery)
    ensures var v := VerifySpec(studentId, aadhaar, pan, income, extract, query);
      v.verified <==>
        (AllReadable(aadhaar, pan, income)
         && AllMatch(FetchStudentName(query), v.documents["aadhaar"].name,
                     v.documents["pan"].name, v.documents["income"].name)
         && forall k :: k in v.documents ==> v.documents[k].confidence >= ConfidenceThreshold)
  {
    var v := VerifySpec(studentId, aadhaar, pan, income, extract, query);
    if AllReadable(aadhaar, pan, income) {
      SuccessDocuments(studentId, aadhaar, pan, income, extract, query);
      if forall k :: k in v.documents ==> v.documents[k].confidence >= ConfidenceThreshold {
      } else {
        var k :| k in v.documents && v.documents[k].confidence < ConfidenceThreshold;
        assert k == "aadhaar" || k == "pan" || k == "income";
      }
    }
  }

  /** A verified student's profile name agrees with the Aadhaar and income names and is not empty. */
  lemma VerifiedNamesAgree(studentId: Option<string>, aadhaar: Upload, pan: Upload, income: Upload,
                           extract: DocRequest -> Extracted, query: ProfileQuery)
    requires VerifySpec(studentId, aadhaar, pan, income, extract, query).verified
    ensures var v := VerifySpec(studentId, aadhaar, pan, income, extract, query);
      var base := Normalize(FetchStudentName(query));
      base != "" && Normalize(v.documents["aadhaar"].name) == base
      && Normalize(v.documents["income"].name) == base
  {
  }

  /** The notes say whether the names matched, whatever the confidences. */
  lemma NotesReportNameMatch(studentId: Option<string>, aadhaar: Upload, pan: Upload, income: Upload,
                             extract: DocRequest -> Extracted, query: ProfileQuery)
    requires AllReadable(aadhaar, pan, income)
    ensures var v := VerifySpec(studentId, aadhaar, pan, income, extract, query);
      (v.notes == VerifiedNotes <==>
         AllMatch(FetchStudentName(query), v.documents["aadhaar"].name,
                  v.documents["pan"].name, v.documents["income"].name))
      && (v.notes != VerifiedNotes ==> v.notes == MismatchNotes)
  {
  }

  /** The three document types are distinct. */
  lemma DocTypesDistinct()
    ensures "aadhaar" != "pan" && "aadhaar" != "income" && "pan" != "income"
  {
    assert "aadhaar"[0] != "pan"[0] && "aadhaar"[0] != "income"[0] && "pan"[0] != "income"[0];
  }

  /** The position of a document type in the order the confidences are checked. */
  function DocRank(docType: string): nat {
    if docType == "aadhaar" then 0 else if docType == "pan" then 1 else 2
  }

  /**
   * The three confidence checks raise one alert per document below the
   * threshold and none for the others, each with the student id and that
   * document's confidence, at most one per document, in the order aadhaar,
   * pan, income.
   */
  lemma LowConfidenceAlertsExact(studentId: Option<string>, a: Extracted, p: Extracted, i: Extracted)
    ensures var al := LowConfidenceAlerts(studentId, a, p, i);
      (Alert(studentId, "aadhaar", a.confidence) in al <==> a.confidence < ConfidenceThreshold)
      && (Alert(studentId, "pan", p.confidence) in al <==> p.confidence < ConfidenceThreshold)
      && (Alert(studentId, "income", i.confidence) in al <==> i.confidence < ConfidenceThreshold)
      && (forall x :: x in al ==>
            x == Alert(studentId, "aadhaar", a.confidence) || x == Alert(studentId, "pan", p.confidence)
            || x == Alert(studentId, "income", i.confidence))
      && (forall j, l :: 0 <= j < l < |al| ==> DocRank(al[j].docType) < DocRank(al[l].docType))
  {
    DocTypesDistinct();
  }

  /**
   * On success the alerts name exactly the documents of the result whose
   * confidence is below the threshold, each once, with that document's
   * confidence, in the order aadhaar, pan, income.
   */
  lemma AlertsExactlyLowConfidence(studentId: Option<string>, aadhaar: Upload, pan: Upload, income: Upload,
                                   extract: DocRequest -> Extracted, query: ProfileQuery)
    requires AllReadable(aadhaar, pan, income)
    ensures var v := VerifySpec(studentId, aadhaar, pan, income, extract, query);
      (forall k :: k in v.documents ==>
         (Alert(studentId, k, v.documents[k].confidence) in v.alerts
          <==> v.documents[k].confidence < ConfidenceThreshold))
      && (forall x :: x in v.alerts ==>
            x.docType in v.documents && x == Alert(studentId, x.docType, v.documents[x.docType].confidence))
      && (forall j, l :: 0 <= j < l < |v.alerts| ==> DocRank(v.alerts[j].docType) < DocRank(v.alerts[l].docType))
  {
    var a := extract(IdDocument(aadhaar.bytes, "AADHAAR"));
    var p := extract(IdDocument(pan.bytes, "PAN"));
    var i := extract(IncomeDocument(income.bytes));
    LowConfidenceAlertsExact(studentId, a, p, i);
    SuccessDocuments(studentId, aadhaar, pan, income, extract, query);
  }

  /** A verified result raised no alert. */
  lemma VerifiedRaisesNoAlert(studentId: Option<string>, aadhaar: Upload, pan: Upload, income: Upload,
                              extract: DocRequest -> Extracted, query: ProfileQuery)
    requires VerifySpec(studentId, aadhaar, pan, income, extract, query).verified
    ensures VerifySpec(studentId, aadhaar, pan, income, extract, query).alerts == []
  {
  }

  /**
   * An upload that cannot be read fails the verification: not verified, no
   * documents, no alert, and the notes carry the first failure's message.
   */
  lemma UnreadableUploadFails(studentId: Option<string>, aadhaar: Upload, pan: Upload, income: Upload,
                              extract: DocRequest -> Extracted, query: ProfileQuery)
    requires !AllReadable(aadhaar, pan, income)
    ensures var v := VerifySpec(studentId, aadhaar, pan, income, extract, query);
      !v.verified && v.documents == map[] && v.alerts == []
      && v.notes == FailurePrefix + Show(FirstFailure(aadhaar, pan, income))
  {
  }

  /** A profile name without letters (a failed lookup gives "") is never verified. */
  lemma FailedLookupNeverVerifies(studentId: Option<string>, aadhaar: Upload, pan: Upload, income: Upload,
                                  extract: DocRequest -> Extracted, query: ProfileQuery)
    requires query.QueryFails? || query == Row(None) || (query.fullName.Some? && IsBlank(query.fullName.value))
    ensures !VerifySpec(studentId, aadhaar, pan, income, extract, query).verified
  {
    if query.Row? && query.fullName.Some? {
      BlankNormalizesToEmpty(query.fullName.value);
    }
  }

  // ---------------------------------------------------------------------------
  // The notifier and the service

  /**
   * PowerAutomateNotifier: posts one alert to the webhook, unless the webhook
   * URL is null or blank. It never throws.
   */
  class Notifier {
    const webhookUrl: Option<string>
    /** The alerts posted so far. */
    var sent: seq<Alert>

    predicate Active() {
      webhookUrl.Some? && !IsBlank(webhookUrl.value)
    }

    constructor (webhookUrl: Option<string>)
      ensures this.webhookUrl == webhookUrl && sent == []
    {
      this.webhookUrl := webhookUrl;
      sent := [];
    }

    method NotifyLowConfidence(studentId: Option<string>, docType: string, confidence: real)
      modifies this
      ensures sent == old(sent) + (if Active() then [Alert(studentId, docType, confidence)] else [])
    {
      if Active() {
        sent := sent + [Alert(studentId, docType, confidence)];
      }
    }
  }

  class OnboardingService {
    const extractor: DocRequest -> Extracted
    const notifier: Notifier
    /** The profile-name query, per student id. */
    const profiles: Option<string> -> ProfileQuery

    constructor (extractor: DocRequest -> Extracted, notifier: Notifier, profiles: Option<string> -> ProfileQuery)
      ensures this.extractor == extractor && this.notifier == notifier && this.profiles == profiles
    {
      this.extractor := extractor;
      this.notifier := notifier;
      this.profiles := profiles;
    }

    /** Runs the extractor on one request, giving a fresh record. */
    method Extract(request: DocRequest) returns (d: DocumentExtractionResult)
      ensures fresh(d) && d.Value() == extractor(request)
    {
      var x := extractor(request);
      d := new DocumentExtractionResult(x.name, x.dob, x.idNumber, x.annualIncome, x.confidence);
    }

    /** checkConfidence: a notification exactly when the confidence is below the threshold. */
    method CheckConfidence(studentId: Option<string>, docType: string, confidence: real)
      modifies notifier
      ensures notifier.sent == old(notifier.sent)
                               + (if notifier.Active() then AlertFor(studentId, docType, confidence) else [])
    {
      if confidence < ConfidenceThreshold {
        notifier.NotifyLowConfidence(studentId, docType, confidence);
      }
    }

    /**
     * The part of verify after the three extractions: name match, the
     * documents map, the confidence checks, and the result, proved against Decide.
     */
    method Conclude(studentId: Option<string>, aadhaarResult: DocumentExtractionResult,
                  panResult: DocumentExtractionResult, incomeResult: DocumentExtractionResult)
      returns (result: OnboardingResult)
      modifies notifier
      ensures fresh(result)
      ensures var v := Decide(studentId, FetchStudentName(profiles(studentId)),
                               aadhaarResult.Value(), panResult.Value(), incomeResult.Value());
        result.verified == v.verified && result.studentId == studentId && result.notes == Some(v.notes)
        && result.documents == Some(map["aadhaar" := aadhaarResult, "pan" := panResult, "income" := incomeResult])
        && notifier.sent == old(notifier.sent) + (if notifier.Active() then v.alerts else [])
    {
      var profileName := FetchStudentName(profiles(studentId));
      var nameMatch := AllMatch(profileName, aadhaarResult.GetName(), panResult.GetName(), incomeResult.GetName());

      var docs: map<string, DocumentExtractionResult> := map[];
      docs := docs["aadhaar" := aadhaarResult];
      docs := docs["pan" := panResult];
      docs := docs["income" := incomeResult];

      CheckConfidence(studentId, "aadhaar", aadhaarResult.GetConfidence());
      CheckConfidence(studentId, "pan", panResult.GetConfidence());
      CheckConfidence(studentId, "income", incomeResult.GetConfidence());

      var verified := nameMatch
        && aadhaarResult.GetConfidence() >= ConfidenceThreshold
        && panResult.GetConfidence() >= ConfidenceThreshold
        && incomeResult.GetConfidence() >= ConfidenceThreshold;
      var notes := if nameMatch then VerifiedNotes else MismatchNotes;
      result := new OnboardingResult(verified, studentId, Some(docs), Some(notes));
    }

    /** verify, proved against VerifySpec. */
    method Verify(studentId: Option<string>, aadhaar: Upload, pan: Upload, income: Upload)
      returns (result: OnboardingResult)
      modifies notifier
      ensures fresh(result)
      ensures var v := VerifySpec(studentId, aadhaar, pan, income, extractor, profiles(studentId));
        result.verified == v.verified && result.studentId == studentId && result.notes == Some(v.notes)
        && result.documents.Some? && result.documents.value.Keys == v.documents.Keys
        && (forall k :: k in result.documents.value ==>
              fresh(result.documents.value[k]) && result.documents.value[k].Value() == v.documents[k])
        && notifier.sent == old(notifier.sent) + (if notifier.Active() then v.alerts else [])
    {
      if aadhaar.ReadFails? {
        result := new OnboardingResult(false, studentId, Some(map[]), Some(FailurePrefix + Show(aadhaar.message)));
        return;
      }
      var aadhaarResult := Extract(IdDocument(aadhaar.bytes, "AADHAAR"));
      if pan.ReadFails? {
        result := new OnboardingResult(false, studentId, Some(map[]), Some(FailurePrefix + Show(pan.message)));
        return;
      }
      var panResult := Extract(IdDocument(pan.bytes, "PAN"));
      if income.ReadFails? {
        result := new OnboardingResult(false, studentId, Some(map[]), Some(FailurePrefix + Show(income.message)));
        return;
      }
      var incomeResult := Extract(IncomeDocument(income.bytes));

      result := Conclude(studentId, aadhaarResult, panResult, incomeResult);
    }
  }
}

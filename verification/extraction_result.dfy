/**
 * DocumentExtractionResult: what the document extractor read from one
 * document. A mutable record of five fields; each setter replaces one field
 * and stores its argument as given.
 */
module ExtractionRecord {
  import opened Wrappers

  /** The five fields of a DocumentExtractionResult, as a value. */
  datatype Extracted = Extracted(
    name: Option<string>,
    dob: Option<string>,
    idNumber: Option<string>,
    annualIncome: Option<string>,
    confidence: real)

  /** What the extractor returns on every failure path: four empty strings and confidence 0.0. */
  const Sentinel: Extracted := Extracted(Some(""), Some(""), Some(""), Some(""), 0.0)

  class DocumentExtractionResult {
    var name: Option<string>
    var dob: Option<string>
    var idNumber: Option<string>
    var annualIncome: Option<string>
    var confidence: real

    /** The current contents of the record. */
    function Value(): Extracted
      reads this
    {
      Extracted(name, dob, idNumber, annualIncome, confidence)
    }

    /** The no-argument constructor: strings null, confidence 0.0. */
    constructor Empty()
      ensures Value() == Extracted(None, None, None, None, 0.0)
    {
      name, dob, idNumber, annualIncome, confidence := None, None, None, None, 0.0;
    }

    /** The five-argument constructor: every field holds its argument. */
    constructor (name: Option<string>, dob: Option<string>, idNumber: Option<string>,
                 annualIncome: Option<string>, confidence: real)
      ensures Value() == Extracted(name, dob, idNumber, annualIncome, confidence)
    {
      this.name := name;
      this.dob := dob;
      this.idNumber := idNumber;
      this.annualIncome := annualIncome;
      this.confidence := confidence;
    }

    function GetName(): Option<string> reads this { name }

    function GetDob(): Option<string> reads this { dob }

    function GetIdNumber(): Option<string> reads this { idNumber }

    function GetAnnualIncome(): Option<string> reads this { annualIncome }

    function GetConfidence(): real reads this { confidence }

    method SetName(value: Option<string>)
      modifies this
      ensures GetName() == value
      ensures Value() == old(Value()).(name := value)
    {
      name := value;
    }

    method SetDob(value: Option<string>)
      modifies this
      ensures GetDob() == value
      ensures Value() == old(Value()).(dob := value)
    {
      dob := value;
    }

    method SetIdNumber(value: Option<string>)
      modifies this
      ensures GetIdNumber() == value
      ensures Value() == old(Value()).(idNumber := value)
    {
      idNumber := value;
    }

    method SetAnnualIncome(value: Option<string>)
      modifies this
      ensures GetAnnualIncome() == value
      ensures Value() == old(Value()).(annualIncome := value)
    {
      annualIncome := value;
    }

    /** Stores any value, in [0, 1] or not: nothing is clamped. */
    method SetConfidence(value: real)
      modifies this
      ensures GetConfidence() == value
      ensures Value() == old(Value()).(confidence := value)
    {
      confidence := value;
    }
  }
}

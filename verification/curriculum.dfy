/**
 * The curriculum tool: the modules of a career path, found by looking for
 * a path name, case-insensitively, inside the student's free-text career
 * path; "General" when none is found.
 */
module Curriculum {
  import opened Wrappers
  import opened Text

  const DataAnalyst := "Data Analyst"
  const FrontendDeveloper := "Frontend Developer"
  const CloudSupport := "Cloud Support Associate"
  const DigitalMarketer := "Digital Marketer"
  const General := "General"

  /** CURRICULUM_DB. */
  const Db: map<string, seq<string>> := map[
    DataAnalyst := ["Module 1: Introduction to Data", "Module 2: Excel for Data Analysis",
                    "Module 3: SQL Fundamentals", "Module 4: Power BI Basics"],
    FrontendDeveloper := ["Module 1: HTML & CSS", "Module 2: JavaScript Basics",
                          "Module 3: Introduction to React", "Module 4: Building a Portfolio Project"],
    CloudSupport := ["Module 1: Introduction to Cloud Computing", "Module 2: AWS Core Services",
                     "Module 3: Networking and Security Basics", "Module 4: Troubleshooting Common Issues"],
    DigitalMarketer := ["Module 1: SEO Fundamentals", "Module 2: Social Media Marketing",
                        "Module 3: Content Creation", "Module 4: Google Analytics"],
    General := ["Module 1: Digital Literacy", "Module 2: Soft Skills", "Module 3: Professional Communication"]
  ]

  /**
   * An iteration order of the map's entries. The map's own order is not
   * specified, so it is a parameter: any sequence that lists every key.
   */
  predicate IsKeyOrder(order: seq<string>) {
    (set k | k in order) == Db.Keys
  }

  /** The career path mentions the path name `key`, ignoring case. */
  predicate Matches(careerPath: string, key: string) {
    Contains(Lower(careerPath), Lower(key))
  }

  /** The first key in `keys` that the career path mentions. */
  function FirstMatch(keys: seq<string>, careerPath: string): (r: Option<string>)
    ensures r.Some? ==> r.value in keys && Matches(careerPath, r.value)
    ensures r.None? ==> forall k :: k in keys ==> !Matches(careerPath, k)
  {
    if keys == [] then None
    else if Matches(careerPath, keys[0]) then Some(keys[0])
    else FirstMatch(keys[1..], careerPath)
  }

  /**
   * CurriculumService.getModules: the modules of a key the career path
   * mentions; the General modules when it mentions none.
   */
  function GetModules(order: seq<string>, careerPath: string): (r: seq<string>)
    requires IsKeyOrder(order)
    ensures r in Db.Values
    ensures (exists k :: k in Db && Matches(careerPath, k) && r == Db[k])
            || ((forall k :: k in Db ==> !Matches(careerPath, k)) && r == Db[General])
  {
    match FirstMatch(order, careerPath)
    case Some(k) => Db[k]
    case None => Db[General]
  }

  /** CurriculumTool.curriculumFunction: the tool hands the path to the service. */
  function CurriculumFunction(order: seq<string>, careerPath: string): (r: seq<string>)
    requires IsKeyOrder(order)
    ensures r in Db.Values
    ensures r == GetModules(order, careerPath)
  {
    GetModules(order, careerPath)
  }

  /** The lookup ignores case: only the lower-cased career path counts. */
  lemma GetModulesIgnoresCase(order: seq<string>, careerPath: string)
    requires IsKeyOrder(order)
    ensures GetModules(order, careerPath) == GetModules(order, Lower(careerPath))
  {
    assert Lower(Lower(careerPath)) == Lower(careerPath);
    FirstMatchIgnoresCase(order, careerPath);
  }

  lemma {:induction false} FirstMatchIgnoresCase(keys: seq<string>, careerPath: string)
    requires Lower(Lower(careerPath)) == Lower(careerPath)
    ensures FirstMatch(keys, careerPath) == FirstMatch(keys, Lower(careerPath))
  {
    if keys != [] {
      FirstMatchIgnoresCase(keys[1..], careerPath);
    }
  }

  /** When exactly one key is mentioned, its modules are the answer, whatever the map's order. */
  lemma SingleMatchDecides(order: seq<string>, careerPath: string, key: string)
    requires IsKeyOrder(order) && key in Db && Matches(careerPath, key)
    requires forall k :: k in Db && k != key ==> !Matches(careerPath, k)
    ensures GetModules(order, careerPath) == Db[key]
  {
  }

  // ---------------------------------------------------------------------------
  // "I want to be a Data Analyst"

  const Wish := "I want to be a Data Analyst"

  lemma LowerWish()
    ensures Lower(Wish) == "i want to be a data analyst"
  {
  }

  lemma LowerDataAnalyst()
    ensures Lower(DataAnalyst) == "data analyst"
  {
  }

  lemma WishMentionsDataAnalyst()
    ensures Matches(Wish, DataAnalyst)
  {
    LowerWish();
    LowerDataAnalyst();
    assert OccursAt("i want to be a data analyst", "data analyst", 15);
  }

  /** A key with a letter the lower-cased career path lacks is not mentioned. */
  lemma MissingLetter(careerPath: string, key: string, c: char)
    requires c in Lower(key) && c !in Lower(careerPath)
    ensures !Matches(careerPath, key)
  {
    if Matches(careerPath, key) {
      ContainsChars(Lower(careerPath), Lower(key), c);
    }
  }

  lemma WishLacksLetters()
    ensures 'f' !in Lower(Wish) && 'c' !in Lower(Wish) && 'g' !in Lower(Wish)
  {
    LowerWish();
  }

  lemma WishMentionsNoOtherPath()
    ensures !Matches(Wish, FrontendDeveloper) && !Matches(Wish, CloudSupport)
    ensures !Matches(Wish, DigitalMarketer) && !Matches(Wish, General)
  {
    WishLacksLetters();
    assert Lower(FrontendDeveloper)[0] == 'f';
    MissingLetter(Wish, FrontendDeveloper, 'f');
    assert Lower(CloudSupport)[0] == 'c';
    MissingLetter(Wish, CloudSupport, 'c');
    assert Lower(DigitalMarketer)[2] == 'g';
    MissingLetter(Wish, DigitalMarketer, 'g');
    assert Lower(General)[0] == 'g';
    MissingLetter(Wish, General, 'g');
  }

  /** "I want to be a Data Analyst" gets the Data Analyst modules. */
  lemma DataAnalystWish(order: seq<string>)
    requires IsKeyOrder(order)
    ensures GetModules(order, Wish) == Db[DataAnalyst]
  {
    WishMentionsDataAnalyst();
    WishMentionsNoOtherPath();
    SingleMatchDecides(order, Wish, DataAnalyst);
  }
}

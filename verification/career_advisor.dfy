/**
 * The career advisor's prompt preparation: the knowledge-graph rule text
 * read once at construction, the retrieved success stories, the language
 * instruction, the choice of prompt template and the null-safe prompt
 * variables. The model call itself is not part of this model.
 */
module CareerAdvisor {
  import opened Wrappers
  import opened Text

  // ---------------------------------------------------------------------------
  // Knowledge-graph rules

  /**
   * A value inside a parsed rule object: text, JSON null, or anything else
   * (a number, a boolean, a list, an object). The loop reads the four rule
   * values as String, so a value of the last kind under one of those keys
   * fails the cast and raises an exception.
   */
  datatype RuleValue = Text(text: string) | Null | NotText

  /**
   * One element of the parsed rule list: an object (key to value) or
   * anything else (null, a number, a nested list), which the loop cannot use
   * as a map and which raises an exception.
   */
  datatype RuleEntry = RuleObject(fields: map<string, RuleValue>) | NotAnObject

  /** knowledge_graph.json: absent, unreadable or not a list, or its parsed elements. */
  datatype RulesSource = Unavailable | Parsed(entries: seq<RuleEntry>)

  const NotAvailable := "Knowledge graph rules not available."
  const UnknownField := "Unknown"

  /** The value under `key` survives the String cast: it is missing, text or null. */
  predicate CastsAt(fields: map<string, RuleValue>, key: string) {
    key !in fields || !fields[key].NotText?
  }

  /** An element the loop renders without an exception. */
  predicate Usable(e: RuleEntry) {
    e.RuleObject? && CastsAt(e.fields, "interest") && CastsAt(e.fields, "trait")
    && CastsAt(e.fields, "skill") && CastsAt(e.fields, "role")
  }

  /** `getOrDefault(key, "Unknown")` as it appears after string concatenation. */
  function Field(fields: map<string, RuleValue>, key: string): (r: string)
    requires CastsAt(fields, key)
    ensures key !in fields ==> r == UnknownField
    ensures key in fields && fields[key].Null? ==> r == "null"
    ensures key in fields && fields[key].Text? ==> r == fields[key].text
  {
    if key !in fields then UnknownField
    else if fields[key].Text? then fields[key].text
    else "null"
  }

  /** The one-line rendering of a rule. */
  function RuleLine(e: RuleEntry): string
    requires Usable(e)
  {
    "Interest: " + Field(e.fields, "interest") + " -> Trait: " + Field(e.fields, "trait")
      + " -> Skill: " + Field(e.fields, "skill") + " -> Role: " + Field(e.fields, "role")
  }

  predicate AllUsable(entries: seq<RuleEntry>) {
    forall j :: 0 <= j < |entries| ==> Usable(entries[j])
  }

  /** The rule lines, in list order. */
  function RuleLines(entries: seq<RuleEntry>): (r: seq<string>)
    requires AllUsable(entries)
    ensures |r| == |entries|
    ensures forall j :: 0 <= j < |entries| ==> r[j] == RuleLine(entries[j])
  {
    if entries == [] then [] else [RuleLine(entries[0])] + RuleLines(entries[1..])
  }

  /** The text the service keeps: the lines joined by newlines, or the fixed text on any failure. */
  function KnowledgeGraphRules(source: RulesSource): string {
    if source.Parsed? && AllUsable(source.entries) then Join(RuleLines(source.entries), "\n")
    else NotAvailable
  }

  /** No text value holds a newline. */
  predicate SingleLineFields(fields: map<string, RuleValue>) {
    forall k :: k in fields && fields[k].Text? ==> '\n' !in fields[k].text
  }

  lemma FieldIsSingleLine(fields: map<string, RuleValue>, key: string)
    requires SingleLineFields(fields) && CastsAt(fields, key)
    ensures '\n' !in Field(fields, key)
  {
  }

  lemma RuleLineIsSingleLine(e: RuleEntry)
    requires Usable(e) && SingleLineFields(e.fields)
    ensures '\n' !in RuleLine(e)
  {
    FieldIsSingleLine(e.fields, "interest");
    FieldIsSingleLine(e.fields, "trait");
    FieldIsSingleLine(e.fields, "skill");
    FieldIsSingleLine(e.fields, "role");
  }

  /** A usable file never renders as the failure text: every rule line starts with "Interest: ". */
  lemma NoRuleTextIsNotAvailable(entries: seq<RuleEntry>)
    requires AllUsable(entries)
    ensures Join(RuleLines(entries), "\n") != NotAvailable
  {
    var lines := RuleLines(entries);
    if lines != [] {
      var first := lines[0];
      JoinStartsWithFirst(lines, "\n");
      assert first[0] == 'I';
      assert Join(lines, "\n")[0] == first[0];
      assert NotAvailable[0] == 'K';
    }
  }

  /**
   * The failure text appears exactly when the file cannot be used: it is
   * missing or malformed, some element is not an object, or some element
   * holds a value that is neither text nor null under one of the four keys.
   */
  lemma RulesFailIff(source: RulesSource)
    ensures KnowledgeGraphRules(source) == NotAvailable <==> source.Unavailable? || !AllUsable(source.entries)
  {
    if source.Parsed? && AllUsable(source.entries) {
      NoRuleTextIsNotAvailable(source.entries);
    }
  }

  /**
   * When no field holds a newline, splitting the rule text at newlines gives
   * back one line per rule, in order.
   */
  lemma {:induction false} RulesTextSplitsIntoLines(entries: seq<RuleEntry>)
    requires AllUsable(entries) && entries != []
    requires forall j :: 0 <= j < |entries| ==> SingleLineFields(entries[j].fields)
    ensures Split(KnowledgeGraphRules(Parsed(entries)), '\n') == RuleLines(entries)
  {
    var lines := RuleLines(entries);
    var t := KnowledgeGraphRules(Parsed(entries));
    assert t == Join(lines, "\n");
    RuleLinesAreSingleLines(entries);
    LinesSplitBack(lines);
    assert Split(t, '\n') == lines;
  }

  lemma LinesSplitBack(lines: seq<string>)
    requires lines != [] && forall i :: 0 <= i < |lines| ==> '\n' !in lines[i]
    ensures Split(Join(lines, "\n"), '\n') == lines
  {
    SplitJoin(lines, '\n');
  }

  lemma RuleLinesAreSingleLines(entries: seq<RuleEntry>)
    requires AllUsable(entries)
    requires forall j :: 0 <= j < |entries| ==> SingleLineFields(entries[j].fields)
    ensures forall j :: 0 <= j < |entries| ==> '\n' !in RuleLines(entries)[j]
  {
    forall j | 0 <= j < |entries|
      ensures '\n' !in RuleLines(entries)[j]
    {
      RuleLineIsSingleLine(entries[j]);
    }
  }

  /** An empty rule list is not a failure: the text is empty. */
  lemma NoRulesGiveEmptyText()
    ensures KnowledgeGraphRules(Parsed([])) == ""
  {
  }

  // ---------------------------------------------------------------------------
  // Retrieval context and language

  const StorySeparator := "\n---\n"

  /** The retrieved stories joined in retrieval order. */
  function RagContext(stories: seq<string>): string {
    Join(stories, StorySeparator)
  }

  /** A story retrieved later comes after the earlier ones, behind the separator. */
  lemma RagContextKeepsOrder(stories: seq<string>, next: string)
    requires stories != []
    ensures RagContext(stories + [next]) == RagContext(stories) + StorySeparator + next
  {
    JoinAppend(stories, next, StorySeparator);
  }

  lemma RagContextSingle(story: string)
    ensures RagContext([story]) == story
  {
  }

  /** The similarity query: skills and interests, with null rendered as "null". */
  function SearchQuery(currentSkills: Option<string>, interests: Option<string>): string {
    Show(currentSkills) + " " + Show(interests)
  }

  const StoryCount := 3

  const English := "English (Professional but simple). Respond only in English."
  const Hindi := "Hindi (Simple, friendly, and encouraging). Respond only in Hindi. Do not mix English."
  const Marathi := "Marathi (Simple, friendly, and encouraging). Respond only in Marathi. Do not mix English."

  predicate Prefers(preferredLanguage: Option<string>, language: string) {
    preferredLanguage.Some? && EqualsIgnoreCase(language, preferredLanguage.value)
  }

  /** The instruction for the preferred language; English for null and for anything unknown. */
  function LanguageInstruction(preferredLanguage: Option<string>): (r: string)
    ensures r == Hindi <==> Prefers(preferredLanguage, "Hindi")
    ensures r == Marathi <==> Prefers(preferredLanguage, "Marathi")
    ensures r == English <==> !Prefers(preferredLanguage, "Hindi") && !Prefers(preferredLanguage, "Marathi")
  {
    OneLanguageAtMost(preferredLanguage);
    LanguagesDiffer();
    if Prefers(preferredLanguage, "Hindi") then Hindi
    else if Prefers(preferredLanguage, "Marathi") then Marathi
    else English
  }

  /** "Hindi" and "Marathi" differ in length, so no text equals both ignoring case. */
  lemma OneLanguageAtMost(preferredLanguage: Option<string>)
    ensures !(Prefers(preferredLanguage, "Hindi") && Prefers(preferredLanguage, "Marathi"))
  {
    if preferredLanguage.Some? {
      var v := preferredLanguage.value;
      assert |Lower("Hindi")| == 5 && |Lower("Marathi")| == 7;
    }
  }

  lemma LanguagesDiffer()
    ensures Hindi != Marathi && Hindi != English && Marathi != English
  {
    assert |Hindi| != |Marathi| && |Hindi| != |English| && |Marathi| != |English|;
  }

  lemma LowerHindi()
    ensures Lower("HINDI") == Lower("Hindi")
  {
  }

  /** The choice ignores case: "HINDI" selects Hindi. */
  lemma ShoutedHindi()
    ensures LanguageInstruction(Some("HINDI")) == Hindi
  {
    LowerHindi();
  }

  // ---------------------------------------------------------------------------
  // Template and safe defaults

  /** The two prompt bodies; their wording is constant text. */
  datatype Template = Discovery | Roadmap

  function TemplateFor(roadmapRequested: bool): (t: Template)
    ensures t == Roadmap <==> roadmapRequested
  {
    if roadmapRequested then Roadmap else Discovery
  }

  /** The variables each template refers to. Both use the same fifteen. */
  function Placeholders(t: Template): set<string> {
    match t
    case Discovery => VarNames
    case Roadmap => VarNames
  }

  const VarNames: set<string> := {
    "education", "skills", "interests", "language", "rag_context", "conversation_context",
    "user_message", "student_name", "ai_interest", "device_access", "time_per_week",
    "math_comfort", "problem_solving", "english_comfort", "kg_rules"
  }

  const NoPriorMessages := "No prior messages."
  const NoNewMessage := "No new message. Generate the first roadmap."
  const DefaultStudent := "Student"
  const NotShared := "Not shared"
  const HoursSuffix := " hours/week"

  /** A null text becomes the default; any other text, even blank, is kept. */
  function OrDefault(s: Option<string>, default: string): (r: string)
    ensures s.None? ==> r == default
    ensures s.Some? ==> r == s.value
  {
    s.GetOr(default)
  }

  /** A null or blank text becomes the default. */
  function NonBlankOr(s: Option<string>, default: string): (r: string)
    ensures s.Some? && !IsBlank(s.value) ==> r == s.value
    ensures s.None? || IsBlank(s.value) ==> r == default
    ensures !IsBlank(default) ==> !IsBlank(r)
  {
    if s.None? || IsBlank(s.value) then default else s.value
  }

  /** The weekly time: "Not shared" for null, otherwise the number and " hours/week". */
  function SafeHours(hours: Option<int>): (r: string)
    ensures hours.None? ==> r == NotShared
  {
    if hours.None? then NotShared else IntToString(hours.value) + HoursSuffix
  }

  /** A rating: "Not shared" for null, otherwise its decimal text. */
  function SafeRating(rating: Option<int>): (r: string)
    ensures rating.None? ==> r == NotShared
  {
    if rating.None? then NotShared else IntToString(rating.value)
  }

  /** A given number never reads as "Not shared", and different numbers read differently. */
  lemma SafeRatingFaithful(a: Option<int>, b: Option<int>)
    ensures a.Some? ==> SafeRating(a) != NotShared
    ensures SafeRating(a) == SafeRating(b) ==> a == b
  {
    if a.Some? {
      var t := IntToString(a.value);
      assert t[0] == '-' || IsDigit(t[0]) by { IntToStringHead(a.value); }
    }
    if b.Some? {
      IntToStringHead(b.value);
    }
    if a.Some? && b.Some? && SafeRating(a) == SafeRating(b) {
      IntToStringInjective(a.value, b.value);
    }
  }

  /** The same holds for the weekly time. */
  lemma SafeHoursFaithful(a: Option<int>, b: Option<int>)
    ensures a.Some? ==> SafeHours(a) != NotShared
    ensures SafeHours(a) == SafeHours(b) ==> a == b
  {
    if a.Some? {
      IntToStringHead(a.value);
    }
    if b.Some? {
      IntToStringHead(b.value);
    }
    if a.Some? && b.Some? && SafeHours(a) == SafeHours(b) {
      var s, t := IntToString(a.value), IntToString(b.value);
      assert s + HoursSuffix == t + HoursSuffix;
      assert |s| == |t|;
      assert s == (s + HoursSuffix)[..|s|];
      assert t == (t + HoursSuffix)[..|t|];
      IntToStringInjective(a.value, b.value);
    }
  }

  lemma IntToStringHead(i: int)
    ensures var t := IntToString(i); t[0] == '-' || IsDigit(t[0])
  {
    if i >= 0 {
      assert IsDigit(NatToString(i)[0]);
    }
  }

  // ---------------------------------------------------------------------------
  // The prompt variables

  /** The request fields the prompt is built from; Java null is None. */
  datatype AdviceRequest = AdviceRequest(
    currentSkills: Option<string>,
    interests: Option<string>,
    educationLevel: Option<string>,
    preferredLanguage: Option<string>,
    userMessage: Option<string>,
    conversationContext: Option<string>,
    studentName: Option<string>,
    roadmapRequested: bool,
    aiDataInterest: Option<string>,
    deviceAccess: Option<string>,
    timePerWeekHours: Option<int>,
    mathComfort: Option<int>,
    problemSolvingConfidence: Option<int>,
    englishComfort: Option<int>)

  /** The null-safe texts getCareerAdvice computes before it fills the variable map. */
  datatype SafeTexts = SafeTexts(
    language: string,
    conversationContext: string,
    userMessage: string,
    studentName: string,
    aiInterest: string,
    deviceAccess: string,
    timePerWeek: string,
    mathComfort: string,
    problemSolving: string,
    englishComfort: string)

  /** The language instruction and the `safe...` locals of a request. */
  function Safe(req: AdviceRequest): (r: SafeTexts)
    ensures !IsBlank(r.studentName) && !IsBlank(r.aiInterest) && !IsBlank(r.deviceAccess)
  {
    assert DefaultStudent[0] == 'S' && NotShared[0] == 'N';
    SafeTexts(
      LanguageInstruction(req.preferredLanguage),
      OrDefault(req.conversationContext, NoPriorMessages),
      OrDefault(req.userMessage, NoNewMessage),
      NonBlankOr(req.studentName, DefaultStudent),
      NonBlankOr(req.aiDataInterest, NotShared),
      NonBlankOr(req.deviceAccess, NotShared),
      SafeHours(req.timePerWeekHours),
      SafeRating(req.mathComfort),
      SafeRating(req.problemSolvingConfidence),
      SafeRating(req.englishComfort))
  }

  /** The variable map handed to the template; values may be null. */
  function PromptVars(req: AdviceRequest, safe: SafeTexts, ragContext: string, kgRules: string): map<string, Option<string>> {
    map[
      "education" := req.educationLevel,
      "skills" := req.currentSkills,
      "interests" := req.interests,
      "language" := Some(safe.language),
      "rag_context" := Some(ragContext),
      "conversation_context" := Some(safe.conversationContext),
      "user_message" := Some(safe.userMessage),
      "student_name" := Some(safe.studentName),
      "ai_interest" := Some(safe.aiInterest),
      "device_access" := Some(safe.deviceAccess),
      "time_per_week" := Some(safe.timePerWeek),
      "math_comfort" := Some(safe.mathComfort),
      "problem_solving" := Some(safe.problemSolving),
      "english_comfort" := Some(safe.englishComfort),
      "kg_rules" := Some(kgRules)
    ]
  }

  /** Every variable of either template is bound, and no other. */
  lemma PromptVarsBindEveryPlaceholder(req: AdviceRequest, safe: SafeTexts, ragContext: string, kgRules: string)
    ensures PromptVars(req, safe, ragContext, kgRules).Keys == Placeholders(TemplateFor(req.roadmapRequested))
  {
  }

  /**
   * Only the three raw profile fields can be null in the map; every other
   * variable has a value.
   */
  lemma OnlyRawFieldsMayBeNull(req: AdviceRequest, safe: SafeTexts, ragContext: string, kgRules: string, key: string)
    requires key in VarNames && key !in {"education", "skills", "interests"}
    ensures PromptVars(req, safe, ragContext, kgRules)[key].Some?
  {
  }

  /** The student's name in the map is never blank. */
  lemma StudentNameNeverBlank(req: AdviceRequest, ragContext: string, kgRules: string)
    ensures var name := PromptVars(req, Safe(req), ragContext, kgRules)["student_name"];
      name.Some? && !IsBlank(name.value)
  {
  }

  class CareerAdvisorService {
    /** The vector search: a query and a count give the texts of similar profiles. */
    const search: (string, nat) -> seq<string>
    /** The rule text, read once when the service is built. */
    const knowledgeGraphRules: string

    constructor (search: (string, nat) -> seq<string>, rules: RulesSource)
      ensures this.search == search
      ensures knowledgeGraphRules == KnowledgeGraphRules(rules)
    {
      this.search := search;
      var text := LoadKnowledgeGraphRules(rules);
      knowledgeGraphRules := text;
    }

    /**
     * `getOrDefault(key, "Unknown")` assigned to a String local: None when the
     * cast of the value fails.
     */
    static method ReadField(rule: map<string, RuleValue>, key: string) returns (r: Option<string>)
      ensures r.None? <==> !CastsAt(rule, key)
      ensures r.Some? ==> r.value == Field(rule, key)
    {
      if key !in rule {
        return Some(UnknownField);
      }
      match rule[key]
      case Text(t) => return Some(t);
      case Null => return Some("null");
      case NotText => return None;
    }

    /**
     * loadKnowledgeGraphRules: one line per rule, appended in list order; the
     * first element that is not an object, or whose value under one of the
     * four keys is not text, ends the loop with the fixed text.
     */
    static method LoadKnowledgeGraphRules(rules: RulesSource) returns (r: string)
      ensures r == KnowledgeGraphRules(rules)
    {
      if rules.Unavailable? {
        return NotAvailable;
      }
      var entries := rules.entries;
      var lines: seq<string> := [];
      var i := 0;
      while i < |entries|
        invariant 0 <= i <= |entries|
        invariant AllUsable(entries[..i])
        invariant lines == RuleLines(entries[..i])
      {
        if !entries[i].RuleObject? {
          return NotAvailable;
        }
        var rule := entries[i].fields;
        var interest := ReadField(rule, "interest");
        var traitText := ReadField(rule, "trait");
        var skill := ReadField(rule, "skill");
        var role := ReadField(rule, "role");
        if interest.None? || traitText.None? || skill.None? || role.None? {
          return NotAvailable;
        }
        lines := lines + ["Interest: " + interest.value + " -> Trait: " + traitText.value + " -> Skill: " + skill.value + " -> Role: " + role.value];
        assert entries[..i + 1] == entries[..i] + [entries[i]];
        RuleLinesAppend(entries[..i], entries[i]);
        i := i + 1;
      }
      assert entries[..i] == entries;
      return Join(lines, "\n");
    }

    /**
     * getCareerAdvice up to the model call: the template and the variables
     * the prompt is rendered from.
     */
    method PreparePrompt(req: AdviceRequest) returns (template: Template, vars: map<string, Option<string>>)
      ensures template == TemplateFor(req.roadmapRequested)
      ensures vars == PromptVars(req, Safe(req), RagContext(search(SearchQuery(req.currentSkills, req.interests), StoryCount)),
                                 knowledgeGraphRules)
    {
      var stories := search(Show(req.currentSkills) + " " + Show(req.interests), 3);
      var ragContext := Join(stories, "\n---\n");

      var languageInstruction := English;
      if Prefers(req.preferredLanguage, "Hindi") {
        languageInstruction := Hindi;
      } else if Prefers(req.preferredLanguage, "Marathi") {
        languageInstruction := Marathi;
      }

      template := if req.roadmapRequested then Roadmap else Discovery;

      var safeConversationContext := OrDefault(req.conversationContext, NoPriorMessages);
      var safeUserMessage := OrDefault(req.userMessage, NoNewMessage);
      var safeStudentName := NonBlankOr(req.studentName, DefaultStudent);
      var safeAiInterest := NonBlankOr(req.aiDataInterest, NotShared);
      var safeDeviceAccess := NonBlankOr(req.deviceAccess, NotShared);
      var safeTimePerWeek := SafeHours(req.timePerWeekHours);
      var safeMathComfort := SafeRating(req.mathComfort);
      var safeProblemSolving := SafeRating(req.problemSolvingConfidence);
      var safeEnglishComfort := SafeRating(req.englishComfort);

      vars := map[];
      vars := vars["education" := req.educationLevel];
      vars := vars["skills" := req.currentSkills];
      vars := vars["interests" := req.interests];
      vars := vars["language" := Some(languageInstruction)];
      vars := vars["rag_context" := Some(ragContext)];
      vars := vars["conversation_context" := Some(safeConversationContext)];
      vars := vars["user_message" := Some(safeUserMessage)];
      vars := vars["student_name" := Some(safeStudentName)];
      vars := vars["ai_interest" := Some(safeAiInterest)];
      vars := vars["device_access" := Some(safeDeviceAccess)];
      vars := vars["time_per_week" := Some(safeTimePerWeek)];
      vars := vars["math_comfort" := Some(safeMathComfort)];
      vars := vars["problem_solving" := Some(safeProblemSolving)];
      vars := vars["english_comfort" := Some(safeEnglishComfort)];
      vars := vars["kg_rules" := Some(knowledgeGraphRules)];
    }
  }

  lemma RuleLinesAppend(entries: seq<RuleEntry>, e: RuleEntry)
    requires AllUsable(entries) && Usable(e)
    ensures AllUsable(entries + [e])
    ensures RuleLines(entries + [e]) == RuleLines(entries) + [RuleLine(e)]
  {
    assert AllUsable(entries + [e]);
  }
}

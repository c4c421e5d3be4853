/**
 * `buildSOP` (app.js): the SOP document the builder generates. It is pure string assembly; the
 * date text (`toLocaleDateString()`) and the random draw behind the document id are inputs.
 * The sections of the document are kept as data (a heading and its lines) so that the facts
 * about the document's structure can be stated about the data and carried over to the text.
 */
module Template {
  import opened Wrappers
  import opened Text
  import Ids

  /** The form values `buildSOP` destructures. */
  datatype SopInput = SopInput(
    firstName: string, lastName: string, company: string, category: string, title: string,
    brief: Option<string>, length: string)

  /** A numbered section: its heading line followed by its body lines. */
  datatype Section = Section(heading: string, lines: seq<string>)

  /** Each line followed by a line break. */
  function Lines(ls: seq<string>): string {
    if ls == [] then "" else ls[0] + "\n" + Lines(ls[1..])
  }

  function RenderSection(s: Section): string {
    Lines([s.heading] + s.lines)
  }

  function SectionTexts(ss: seq<Section>): (ts: seq<string>)
    ensures |ts| == |ss|
    ensures forall k :: 0 <= k < |ss| ==> ts[k] == RenderSection(ss[k])
  {
    if ss == [] then [] else [RenderSection(ss[0])] + SectionTexts(ss[1..])
  }

  /** Sections separated by one blank line. */
  function RenderSections(ss: seq<Section>): string {
    Join(SectionTexts(ss), "\n")
  }

  function Headings(ss: seq<Section>): (hs: seq<string>)
    ensures |hs| == |ss|
    ensures forall k :: 0 <= k < |ss| ==> hs[k] == ss[k].heading
  {
    if ss == [] then [] else [ss[0].heading] + Headings(ss[1..])
  }

  const REGION := "United Kingdom, Europe, North America"
  const DEFAULT_BRIEF := "Digital Marketing"

  /** `(brief || "").trim() || "Digital Marketing"` */
  function BriefClean(brief: Option<string>): string {
    var t := Trim(brief.GetOr(""));
    if t == [] then DEFAULT_BRIEF else t
  }

  /** The fixed sentences of the template, apart from the section headings. The document's layout
      is defined for any wording; `WORDING` is the one the application ships. */
  datatype Wording = Wording(
    summaryTail: string,                 // 0.0, after the company name
    impact26: string, impactOther: string, // 0.0, "Strategic Value"
    scopeTail: string,                   // 1.0, after the theme
    context: seq<string>,                // 2.0
    rolesTail: seq<string>,              // 3.0, after Owner and Accountable
    toolsTail: string, skills: string,   // 4.0
    techTail: seq<string>,               // 5.0, after Primary Systems
    procedure13: seq<(string, string)>,  // step titles and actions
    procedure26: seq<(string, string)>,
    controlLine: string, outcomeLine: string,
    governance26: seq<seq<string>>,      // the lines of sections 8.0 to 12.0
    governanceOther: seq<seq<string>>)   // the lines of sections 8.0 and 9.0
  {
    /** The number of lines and rows the layout expects. */
    predicate WellFormed() {
      && |procedure13| == 13 && |procedure26| == 33
      && |governance26| == 5 && |governanceOther| == 2
    }
  }

  const SUMMARY_TAIL := ". It converts intent into controlled execution, reduces delivery variance, and improves outcomes through defined roles, controls, and measurable outputs. The process is designed to be deployable across "

  const CONTEXT := [
    "Market Context: Increasing competition rewards operational speed with quality control.",
    "Business Problem: Inconsistent execution creates rework, missed targets, and performance volatility.",
    "Strategic Imperative: Standardised delivery improves profitability, predictability, and stakeholder confidence."]

  const ROLES_TAIL := [
    "Responsible: Delivery Team Members executing steps",
    "Consulted: IT / Data / Compliance (as applicable)",
    "Informed: Leadership stakeholders via reporting cadence"]

  const TECH_TAIL := [
    "Integration Points: Data flows and handoffs between tools (APIs / exports / dashboards).",
    "Security Protocols: Least-privilege access, audit logs where available, and documented approvals for change."]

  /** `procedure13` */
  const PROCEDURE_13_A: seq<(string, string)> := [
    ("Intake & objective definition", "Confirm goal, constraints, and success criteria."),
    ("Inputs collection", "Gather required access, assets, data, and historical context."),
    ("Baseline check", "Validate current state performance and identify constraints."),
    ("Plan & sequencing", "Define the step order, dependencies, and timeline."),
    ("Execution step 1", "Run the first operational action with controls."),
    ("Execution step 2", "Run the second operational action with controls."),
    ("Quality check", "Validate against acceptance criteria; fix obvious defects.")]
  const PROCEDURE_13_B: seq<(string, string)> := [
    ("Exception handling", "Define escalation triggers and response owners."),
    ("Documentation", "Record outputs, decisions, and rationale for auditability."),
    ("Handoff", "Transfer outputs to next role/team with clear acceptance criteria."),
    ("Measurement", "Capture KPIs, logs, and evidence of completion."),
    ("Review cadence", "Weekly or monthly review of results and issues."),
    ("Continuous improvement", "Submit change request and update SOP when needed.")]

  /** `procedure26`: seven preparatory steps, then "Step 1" to "Step 26" (the dash is U+2014). */
  const PROCEDURE_26_A: seq<(string, string)> := [
    ("Initial audit & baseline", "Audit current state across systems, channels, or teams; identify discrepancies."),
    ("Define objectives & KPIs", "Set measurable targets, tolerances, and reporting definitions."),
    ("Stakeholder alignment", "Confirm owners, decision rights, and escalation pathway."),
    ("Access validation", "Verify permissions, integrations, and data availability."),
    ("Risk pre-assessment", "Identify operational, financial, and compliance risks."),
    ("Architecture overview", "Document systems, integrations, and data flows."),
    ("Control design", "Define controls, checklists, and acceptance criteria.")]
  const PROCEDURE_26_B: seq<(string, string)> := [
    ("Step 1 \U{2014} setup", "Configure required settings, templates, and guardrails."),
    ("Step 2 \U{2014} data validation", "Validate inputs and data integrity before execution."),
    ("Step 3 \U{2014} execution", "Execute the primary workflow action with logging."),
    ("Step 4 \U{2014} secondary execution", "Execute downstream actions with dependency checks."),
    ("Step 5 \U{2014} monitoring", "Monitor logs, errors, and early signals of variance."),
    ("Step 6 \U{2014} QA gate", "Run QA checks against tolerances and standards."),
    ("Step 7 \U{2014} exception workflow", "Handle exceptions; escalate if thresholds exceeded.")]
  const PROCEDURE_26_C: seq<(string, string)> := [
    ("Step 8 \U{2014} reconciliation", "Reconcile outputs with source-of-truth systems."),
    ("Step 9 \U{2014} reporting", "Generate and distribute performance report."),
    ("Step 10 \U{2014} financial impact", "Estimate cost drivers, savings opportunities, and payback."),
    ("Step 11 \U{2014} compliance mapping", "Map relevant obligations (e.g., GDPR) and record controls."),
    ("Step 12 \U{2014} audit trail", "Store evidence, approvals, and changes in repository."),
    ("Step 13 \U{2014} SLA targets", "Define response times, accuracy targets, and penalties/escalations."),
    ("Step 14 \U{2014} governance cadence", "Quarterly/bi-annual governance reviews and audits.")]
  const PROCEDURE_26_D: seq<(string, string)> := [
    ("Step 15 \U{2014} training plan", "Role-based training, refresh cycle, and competency checks."),
    ("Step 16 \U{2014} change request", "Submit change request with impact assessment."),
    ("Step 17 \U{2014} approval workflow", "Obtain approvals (Owner, IT, Compliance as needed)."),
    ("Step 18 \U{2014} implementation", "Roll out change with communication plan."),
    ("Step 19 \U{2014} post-implementation review", "Validate results against baseline; log learnings."),
    ("Step 20 \U{2014} automation layer", "Identify AI/automation opportunities to reduce manual work."),
    ("Step 21 \U{2014} maturity model", "Assess current maturity and target state.")]
  const PROCEDURE_26_E: seq<(string, string)> := [
    ("Step 22 \U{2014} business continuity", "Define RTO/RPO and fallback manual process."),
    ("Step 23 \U{2014} supplier/partner dependencies", "Document dependencies and mitigations."),
    ("Step 24 \U{2014} stakeholder engagement", "Engage leadership with review cadence and outcomes."),
    ("Step 25 \U{2014} continuous improvement", "Backlog improvements; prioritise by impact."),
    ("Step 26 \U{2014} appendices", "Cross references, templates, and related SOPs.")]

  const GOVERNANCE_26 := [
    [ "- Audit cadence: Quarterly process audit; bi-annual compliance review.",
      "- Tolerances: KPI deviation thresholds defined by the Process Owner.",
      "- Escalation: L1 Team Lead (2h), L2 Manager (4h), L3 Director (12h)."],
    [ "Applicable: GDPR (data protection), relevant ISO-aligned quality practices, internal change control.",
      "Obligations: Maintain accurate records, keep approvals, and retain evidence."],
    [ "Risk: Execution variance (High) \U{2192} Mitigation: QA gates + reporting.",
      "Risk: Data integrity issues (High) \U{2192} Mitigation: validation + reconciliation.",
      "Risk: Knowledge dependency (Medium) \U{2192} Mitigation: training + SOP standardisation."],
    [ "Cost drivers: time, rework, operational variance.",
      "Savings opportunity: reduced cycle time and fewer defects.",
      "Payback: faster onboarding and more consistent delivery."],
    [ "Changes require a formal request, impact assessment, approval, and documented rollout."]]

  const GOVERNANCE_OTHER := [
    [ "- Acceptance criteria defined at intake.",
      "- QA gate before handoff.",
      "- Exceptions escalated to the Process Owner."],
    [ "Update this SOP via a documented change request and brief compiler review."]]

  /** The wording of app.js:553-673. */
  const WORDING := Wording(
    SUMMARY_TAIL,
    "\U{A3}2 million annual impact, 25% efficiency gain, 10 FTE optimisation.",
    "Measured impact through reduced variance, faster onboarding, and consistent execution.",
    ". Exclusions: activities outside approved platforms and tools.",
    CONTEXT,
    ROLES_TAIL,
    ", documentation repository, analytics / tracking where relevant.",
    "Skills & Access: Role-based access to required systems and competency to execute steps reliably.",
    TECH_TAIL,
    PROCEDURE_13_A + PROCEDURE_13_B,
    PROCEDURE_26_A + PROCEDURE_26_B + PROCEDURE_26_C + PROCEDURE_26_D + PROCEDURE_26_E,
    "   - Control: Document evidence and confirm acceptance criteria.",
    "   - Outcome: Clear deliverable produced for next step.",
    GOVERNANCE_26,
    GOVERNANCE_OTHER)

  lemma WordingWellFormed()
    ensures WORDING.WellFormed()
  {
    assert |PROCEDURE_13_A| == 7 && |PROCEDURE_13_B| == 6;
    assert |PROCEDURE_26_A| == 7 && |PROCEDURE_26_B| == 7 && |PROCEDURE_26_C| == 7;
    assert |PROCEDURE_26_D| == 7 && |PROCEDURE_26_E| == 5;
  }

  function StrategicValue(w: Wording, length: string): string {
    if length == "26" then w.impact26 else w.impactOther
  }

  /** Sections 0.0 to 4.0 (`exec`). */
  function ExecSections(w: Wording, p: SopInput): seq<Section> {
    var theme := p.category + ": " + p.title;
    [ Section("0.0 EXECUTIVE SUMMARY", [
        "This SOP establishes a repeatable operating method for \"" + p.title + "\" within " + p.company
          + w.summaryTail + REGION + ".",
        "Strategic Value: " + StrategicValue(w, p.length),
        "Input Signal: " + BriefClean(p.brief)]),
      Section("1.0 PURPOSE & SCOPE", [
        "Purpose: Provide a consistent, auditable method to execute " + theme + ".",
        "Scope: Applies to all relevant teams and workflows associated with " + theme + w.scopeTail]),
      Section("2.0 STRATEGIC CONTEXT & BUSINESS CASE", w.context),
      Section("3.0 ROLES & RESPONSIBILITIES", [
        "Owner: " + p.firstName + " " + p.lastName + " (Process Owner)",
        "Accountable: Department Lead (Category: " + p.category + ")"] + w.rolesTail),
      Section("4.0 PREREQUISITES", [
        "Tools & Systems: Core work tools for " + p.category + w.toolsTail,
        w.skills]) ]
  }

  /** Section 5.0 (`tech`). */
  function TechSection(w: Wording, p: SopInput): Section {
    Section("5.0 TECHNOLOGY ARCHITECTURE & SYSTEMS",
      ["Primary Systems: Systems used to execute " + p.category + ": " + p.title + "."] + w.techTail)
  }

  function Procedure(w: Wording, length: string): seq<(string, string)> {
    if length == "26" then w.procedure26 else w.procedure13
  }

  /** `String(i + 1).padStart(2, "0")` */
  function Numbering(i: nat): string {
    PadStart(NatToString(i + 1, 10), 2, '0')
  }

  /** The text the `map` callback returns for step `s` at index `i`. */
  function StepEntry(w: Wording, i: nat, s: (string, string)): string {
    Numbering(i) + ". " + s.0 + "\n   - Action: " + s.1 + "\n" + w.controlLine + "\n" + w.outcomeLine + "\n"
  }

  /** `table.map((s, i) => ...)` */
  function StepEntries(w: Wording, table: seq<(string, string)>): (es: seq<string>)
    ensures |es| == |table|
    ensures forall i :: 0 <= i < |table| ==> es[i] == StepEntry(w, i, table[i])
  {
    seq(|table|, i requires 0 <= i < |table| => StepEntry(w, i, table[i]))
  }

  /** `steps`: the entries joined with a line break (so a blank line between entries). */
  function Steps(w: Wording, length: string): string {
    Join(StepEntries(w, Procedure(w, length)), "\n")
  }

  const POLICY_HEADING := "9.0 POLICY & COMPLIANCE REFERENCE MATRIX"
  const RISK_HEADING := "10.0 RISK & CONTROL MATRIX"
  const FINANCIAL_HEADING := "11.0 FINANCIAL IMPACT ANALYSIS"
  const CHANGE_MANAGEMENT_HEADING := "12.0 CHANGE MANAGEMENT"

  /** `governance`: sections 8.0 to 12.0 for length "26", 8.0 and 9.0 otherwise. */
  function GovernanceSections(w: Wording, length: string): seq<Section>
    requires w.WellFormed()
  {
    if length == "26" then
      [ Section("8.0 QUALITY ASSURANCE & GOVERNANCE", w.governance26[0]),
        Section(POLICY_HEADING, w.governance26[1]),
        Section(RISK_HEADING, w.governance26[2]),
        Section(FINANCIAL_HEADING, w.governance26[3]),
        Section(CHANGE_MANAGEMENT_HEADING, w.governance26[4]) ]
    else
      [ Section("8.0 QUALITY ASSURANCE & CONTROLS", w.governanceOther[0]),
        Section("9.0 CHANGE CONTROL", w.governanceOther[1]) ]
  }

  /** The last line of the document. */
  function GeneratedLine(dateText: string, docId: string): string {
    "Generated: " + dateText + " \U{B7} Document ID: " + docId
  }

  /** `footer` */
  function Footer(dateText: string, docId: string): string {
    "\nDocument Metadata\n" + GeneratedLine(dateText, docId) + "\n"
  }

  /** `body`, before trimming: the five blocks joined with a line break. */
  function Body(w: Wording, p: SopInput, dateText: string, idDraw: nat): string
    requires w.WellFormed() && idDraw < 900000
  {
    Join([
      RenderSections(ExecSections(w, p)),
      RenderSections([TechSection(w, p)]),
      "6.0 DETAILED PROCEDURE\n" + Steps(w, p.length),
      RenderSections(GovernanceSections(w, p.length)),
      Footer(dateText, Ids.DocumentId(idDraw))], "\n")
  }

  /** The document for a given wording. */
  function Document(w: Wording, p: SopInput, dateText: string, idDraw: nat): string
    requires w.WellFormed() && idDraw < 900000
  {
    Trim(Body(w, p, dateText, idDraw))
  }

  /** `buildSOP(form)`, with `dateText` for `today.toLocaleDateString()` and `idDraw` for
      `Math.floor(Math.random() * 900000)`. */
  function BuildSop(p: SopInput, dateText: string, idDraw: nat): string
    requires idDraw < 900000
  {
    WordingWellFormed();
    Document(WORDING, p, dateText, idDraw)
  }

  // ---------------------------------------------------------------------------------------------
  // The procedure section

  /** Step numbers are two decimal digits whose value is the one-based position. */
  lemma NumberingDigits(i: nat)
    requires i < 99
    ensures |Numbering(i)| == 2
    ensures IsDigitOf(Numbering(i)[0], 10) && IsDigitOf(Numbering(i)[1], 10)
    ensures ValueOf(Numbering(i), 10) == i + 1
  {
    var m := i + 1;
    TwoDigitNumeral(m, 10);
    SmallQuotient(m, 10);
    DigitRoundTrip(m / 10);
    DigitRoundTrip(m % 10);
    TwoDigitValue(m / 10, m % 10, 10);
  }

  /** An entry is four lines: number and title, then the Action, Control and Outcome lines. */
  lemma StepEntryLines(w: Wording, i: nat, s: (string, string))
    ensures StepEntry(w, i, s)
      == Lines([Numbering(i) + ". " + s.0, "   - Action: " + s.1, w.controlLine, w.outcomeLine])
  {
    LinesFour(Numbering(i) + ". " + s.0, "   - Action: " + s.1, w.controlLine, w.outcomeLine);
  }

  lemma LinesFour(a: string, b: string, c: string, d: string)
    ensures Lines([a, b, c, d]) == a + "\n" + b + "\n" + c + "\n" + d + "\n"
  {
    assert [d][1..] == [];
    assert Lines([d]) == d + "\n";
    assert [c, d][1..] == [d];
    assert Lines([c, d]) == c + "\n" + (d + "\n");
    assert [b, c, d][1..] == [c, d];
    assert Lines([b, c, d]) == b + "\n" + (c + "\n" + d + "\n");
    assert [a, b, c, d][1..] == [b, c, d];
  }

  /** The procedure has one entry per row of the table `length` selects: the long table for
      "26", the 13-row table for every other value. Entry `i` starts with the two-digit number
      `i + 1` and a full stop, and consists of the title line and its Action, Control and Outcome
      lines. */
  lemma ProcedureEntries(w: Wording, length: string)
    requires w.WellFormed()
    ensures var es := StepEntries(w, Procedure(w, length));
      && |es| == (if length == "26" then 33 else 13)
      && forall i :: 0 <= i < |es| ==>
        && ValueOf(es[i][..2], 10) == i + 1
        && IsDigitOf(es[i][0], 10) && IsDigitOf(es[i][1], 10)
        && es[i][2..4] == ". "
        && es[i] == Lines([Numbering(i) + ". " + Procedure(w, length)[i].0,
                           "   - Action: " + Procedure(w, length)[i].1, w.controlLine, w.outcomeLine])
  {
    var table := Procedure(w, length);
    var es := StepEntries(w, table);
    forall i | 0 <= i < |es|
      ensures ValueOf(es[i][..2], 10) == i + 1
      ensures IsDigitOf(es[i][0], 10) && IsDigitOf(es[i][1], 10)
      ensures es[i][2..4] == ". "
      ensures es[i] == Lines([Numbering(i) + ". " + table[i].0, "   - Action: " + table[i].1,
                              w.controlLine, w.outcomeLine])
    {
      EntryStart(w, i, table[i]);
      StepEntryLines(w, i, table[i]);
    }
  }

  /** An entry opens with its two-digit number and ". ". */
  lemma EntryStart(w: Wording, i: nat, s: (string, string))
    requires i < 99
    ensures var e := StepEntry(w, i, s);
      && |e| >= 4 && e[..2] == Numbering(i) && e[2..4] == ". "
      && ValueOf(e[..2], 10) == i + 1 && IsDigitOf(e[0], 10) && IsDigitOf(e[1], 10)
  {
    NumberingDigits(i);
    var n := Numbering(i);
    var e := StepEntry(w, i, s);
    var e1 := n + ". " + s.0;
    var e2 := e1 + "\n   - Action: " + s.1;
    var e3 := e2 + "\n" + w.controlLine;
    assert e == e3 + "\n" + w.outcomeLine + "\n";
    PrefixOfConcat(n, ". ", e);
  }

  lemma PrefixOfConcat(n: string, dot: string, e: string)
    requires |n| == 2 && dot == ". " && n + dot <= e
    ensures |e| >= 4 && e[..2] == n && e[2..4] == ". "
  {
    assert e[..4] == n + dot;
  }

  /** The shipped template: 33 numbered entries for "26" (the seven preparatory steps and
      "Step 1" to "Step 26"), 13 for any other length. */
  lemma BuildSopEntryCount(length: string)
    ensures |StepEntries(WORDING, Procedure(WORDING, length))| == if length == "26" then 33 else 13
  {
    WordingWellFormed();
    ProcedureEntries(WORDING, length);
  }

  // ---------------------------------------------------------------------------------------------
  // Governance variants

  /** Sections 9.0 Policy & Compliance, 10.0 Risk, 11.0 Financial Impact and 12.0 Change
      Management appear exactly for length "26"; any other length gets 8.0 Quality Assurance &
      Controls and 9.0 Change Control. */
  lemma GovernanceVariants(w: Wording, length: string)
    requires w.WellFormed()
    ensures var hs := Headings(GovernanceSections(w, length));
      && (POLICY_HEADING in hs <==> length == "26")
      && (RISK_HEADING in hs <==> length == "26")
      && (FINANCIAL_HEADING in hs <==> length == "26")
      && (CHANGE_MANAGEMENT_HEADING in hs <==> length == "26")
      && (length != "26" ==> hs == ["8.0 QUALITY ASSURANCE & CONTROLS", "9.0 CHANGE CONTROL"])
      && (length == "26" ==> |hs| == 5 && hs[0] == "8.0 QUALITY ASSURANCE & GOVERNANCE")
  {
    var hs := Headings(GovernanceSections(w, length));
    if length != "26" {
      assert hs == ["8.0 QUALITY ASSURANCE & CONTROLS", "9.0 CHANGE CONTROL"];
      assert |POLICY_HEADING| != |hs[0]| && POLICY_HEADING != hs[1] by {
        assert POLICY_HEADING[4] == 'P' && hs[1][4] == 'C';
      }
      assert |RISK_HEADING| != |hs[0]| && |RISK_HEADING| != |hs[1]|;
      assert |FINANCIAL_HEADING| != |hs[0]| && |FINANCIAL_HEADING| != |hs[1]|;
      assert |CHANGE_MANAGEMENT_HEADING| != |hs[0]| && |CHANGE_MANAGEMENT_HEADING| != |hs[1]|;
    } else {
      assert hs[1] == POLICY_HEADING && hs[2] == RISK_HEADING;
      assert hs[3] == FINANCIAL_HEADING && hs[4] == CHANGE_MANAGEMENT_HEADING;
    }
  }

  // ---------------------------------------------------------------------------------------------
  // The brief

  /** A missing or blank brief becomes "Digital Marketing"; any other brief is used trimmed. */
  lemma BriefCleanCases(brief: Option<string>)
    ensures brief.None? || IsBlank(brief.value) ==> BriefClean(brief) == DEFAULT_BRIEF
    ensures brief.Some? && !IsBlank(brief.value) ==>
      BriefClean(brief) == Trim(brief.value) && BriefClean(brief) != [] && IsTrimmed(BriefClean(brief))
  {
  }

  /** The executive summary heads the document and its third line carries the cleaned brief. */
  lemma InputSignalLine(w: Wording, p: SopInput)
    ensures ExecSections(w, p)[0].lines[2] == "Input Signal: " + BriefClean(p.brief)
    ensures Headings(ExecSections(w, p)) == ["0.0 EXECUTIVE SUMMARY", "1.0 PURPOSE & SCOPE",
      "2.0 STRATEGIC CONTEXT & BUSINESS CASE", "3.0 ROLES & RESPONSIBILITIES", "4.0 PREREQUISITES"]
  {
  }

  // ---------------------------------------------------------------------------------------------
  // The document as a whole

  lemma JoinStartsWith(parts: seq<string>, sep: string)
    requires |parts| >= 1
    ensures parts[0] <= Join(parts, sep)
  {
  }

  lemma LinesStartWith(ls: seq<string>)
    requires |ls| >= 1
    ensures ls[0] + "\n" <= Lines(ls)
  {
  }

  /** The untrimmed document starts with the executive-summary heading and ends with the
      footer. */
  lemma BodyEnds(w: Wording, p: SopInput, dateText: string, idDraw: nat)
    requires w.WellFormed() && idDraw < 900000
    ensures var body := Body(w, p, dateText, idDraw);
      && "0.0 EXECUTIVE SUMMARY\n" <= body
      && var f := Footer(dateText, Ids.DocumentId(idDraw));
         |f| <= |body| && body == body[..|body| - |f|] + f
  {
    var exec := ExecSections(w, p);
    var e := RenderSections(exec);
    var hd := "0.0 EXECUTIVE SUMMARY\n";
    LinesStartWith([exec[0].heading] + exec[0].lines);
    assert hd <= RenderSection(exec[0]);
    JoinStartsWith(SectionTexts(exec), "\n");
    assert hd <= e;
    var t, pr, g, f := RenderSections([TechSection(w, p)]), "6.0 DETAILED PROCEDURE\n" + Steps(w, p.length),
      RenderSections(GovernanceSections(w, p.length)), Footer(dateText, Ids.DocumentId(idDraw));
    JoinFive(e, t, pr, g, f, "\n");
    var body := Body(w, p, dateText, idDraw);
    var x := e + "\n" + t + "\n" + pr + "\n" + g + "\n";
    assert body == x + f;
    assert e <= x;
  }

  /** The document is the assembled text minus its final line break: it starts with the
      executive-summary heading, its last line is "Generated: <date> · Document ID: SOP-nnnnnn",
      and it has no white space at either end. */
  lemma DocumentLayout(w: Wording, p: SopInput, dateText: string, idDraw: nat)
    requires w.WellFormed() && idDraw < 900000
    ensures var body := Body(w, p, dateText, idDraw);
      var doc := Document(w, p, dateText, idDraw);
      && body == doc + "\n"
      && "0.0 EXECUTIVE SUMMARY\n" <= doc
      && EndsWith(doc, GeneratedLine(dateText, Ids.DocumentId(idDraw)))
      && IsTrimmed(doc)
  {
    BodyEnds(w, p, dateText, idDraw);
    TrimAfterDocumentId(Body(w, p, dateText, idDraw), dateText, idDraw);
  }

  lemma TrimAfterDocumentId(body: string, dateText: string, idDraw: nat)
    requires idDraw < 900000
    requires "0.0 EXECUTIVE SUMMARY\n" <= body
    requires var f := Footer(dateText, Ids.DocumentId(idDraw)); |f| <= |body| && body == body[..|body| - |f|] + f
    ensures body == Trim(body) + "\n"
    ensures "0.0 EXECUTIVE SUMMARY\n" <= Trim(body)
    ensures EndsWith(Trim(body), GeneratedLine(dateText, Ids.DocumentId(idDraw)))
  {
    var id := Ids.DocumentId(idDraw);
    assert IsDigitOf(id[9], 10);
    TrimAfterFooter(body, dateText, id);
  }

  /** Trimming a text that starts with a non-space and ends with the footer removes just the
      footer's final line break. */
  lemma TrimAfterFooter(body: string, dateText: string, id: string)
    requires "0.0 EXECUTIVE SUMMARY\n" <= body
    requires |id| >= 1 && !IsSpace(id[|id| - 1])
    requires var f := Footer(dateText, id); |f| <= |body| && body == body[..|body| - |f|] + f
    ensures body == Trim(body) + "\n"
    ensures "0.0 EXECUTIVE SUMMARY\n" <= Trim(body)
    ensures EndsWith(Trim(body), GeneratedLine(dateText, id))
  {
    var last := GeneratedLine(dateText, id);
    var f := Footer(dateText, id);
    var x := body[..|body| - |f|];
    var head := x + ("\nDocument Metadata\n" + last);
    assert body == head + "\n";
    assert last[|last| - 1] == id[|id| - 1];
    assert body[0] == '0';
    TrimOneTrailing(body);
    assert body[..|body| - 1] == head;
    assert head[|head| - |last|..] == last;
  }

  /** `buildSOP` itself: the layout above, for the shipped wording. */
  lemma BuildSopLayout(p: SopInput, dateText: string, idDraw: nat)
    requires idDraw < 900000
    ensures "0.0 EXECUTIVE SUMMARY\n" <= BuildSop(p, dateText, idDraw)
    ensures EndsWith(BuildSop(p, dateText, idDraw), GeneratedLine(dateText, Ids.DocumentId(idDraw)))
    ensures IsTrimmed(BuildSop(p, dateText, idDraw))
  {
    WordingWellFormed();
    DocumentLayout(WORDING, p, dateText, idDraw);
  }
}

/**
 * `PromptEngineering` of services/prompt_engineering.py: builds the
 * presentation prompt for a request from one of three templates (chosen by
 * the business type), the context items as a bulleted list, the framework's
 * points (tailored for AIDA in TECH, a default list otherwise) and the
 * action items for the business type and domain.
 */
module Prompts {
  import opened Common

  datatype BusinessType = B2C | B2B | RESEARCH
  datatype Framework = AIDA | PAS | FAB | STAR | BAB | PASTOR | QUEST

  /** The enum member's `.name`. */
  function BusinessName(b: BusinessType): string
  {
    match b
    case B2C => "B2C"
    case B2B => "B2B"
    case RESEARCH => "RESEARCH"
  }

  function FrameworkName(f: Framework): string
  {
    match f
    case AIDA => "AIDA"
    case PAS => "PAS"
    case FAB => "FAB"
    case STAR => "STAR"
    case BAB => "BAB"
    case PASTOR => "PASTOR"
    case QUEST => "QUEST"
  }

  datatype PresentationRequest = PresentationRequest(
    companyName: string, personName: string, businessType: BusinessType,
    domainType: string, framework: Framework)

  // ---------------------------------------------------------------------
  // Bulleted lists: `"\n".join([f"• {item}" for item in items])`
  // ---------------------------------------------------------------------

  const Bullet := "\U{2022} "

  predicate NoNewline(s: string)
  {
    '\n' !in s
  }

  /** Python's `"\n".join(parts)`. */
  function JoinLines(parts: seq<string>): (r: string)
    ensures parts != [] ==> IsPrefix(parts[0], r)
  {
    if |parts| == 0 then ""
    else if |parts| == 1 then parts[0]
    else parts[0] + "\n" + JoinLines(parts[1..])
  }

  /** Python's `s.split("\n")`: the pieces between newlines, never an empty list. */
  function SplitLines(s: string): (r: seq<string>)
    ensures |r| >= 1
  {
    if s == [] then [""]
    else
      var rest := SplitLines(s[1..]);
      if s[0] == '\n' then [""] + rest
      else [[s[0]] + rest[0]] + rest[1..]
  }

  function Bulleted(items: seq<string>): (r: seq<string>)
    ensures |r| == |items|
    ensures forall i :: 0 <= i < |items| ==> r[i] == Bullet + items[i]
  {
    seq(|items|, i requires 0 <= i < |items| => Bullet + items[i])
  }

  /** Every part of the joined text appears in it. */
  lemma {:induction false} JoinLinesShows(parts: seq<string>, i: nat)
    requires i < |parts|
    ensures Contains(JoinLines(parts), parts[i])
    decreases |parts|
  {
    var r := JoinLines(parts);
    if i == 0 {
      assert OccursAt(r, parts[0], 0);
    } else {
      var rest := JoinLines(parts[1..]);
      JoinLinesShows(parts[1..], i - 1);
      var k :| 0 <= k <= |rest| && OccursAt(rest, parts[i], k);
      var off := |parts[0]| + 1;
      assert r == parts[0] + "\n" + rest;
      assert r[off + k..off + k + |parts[i]|] == rest[k..k + |parts[i]|];
      assert OccursAt(r, parts[i], off + k);
    }
  }

  /** Each item, behind its bullet, appears in the joined lines. */
  lemma {:induction false} BulletsShown(items: seq<string>)
    ensures forall i :: 0 <= i < |items| ==> Contains(JoinLines(Bulleted(items)), Bullet + items[i])
  {
    forall i | 0 <= i < |items|
      ensures Contains(JoinLines(Bulleted(items)), Bullet + items[i])
    {
      JoinLinesShows(Bulleted(items), i);
    }
  }

  /**
   * `format_context(context_list)`: every item appears behind a bullet,
   * the first one opening the text; empty exactly when there are no items.
   */
  function FormatContext(items: seq<string>): (r: string)
    ensures r == "" <==> items == []
    ensures forall i :: 0 <= i < |items| ==> Contains(r, Bullet + items[i])
    ensures items != [] ==> IsPrefix(Bullet + items[0], r)
  {
    BulletsShown(items);
    JoinLines(Bulleted(items))
  }

  lemma {:induction false} SplitWithoutNewline(a: string)
    requires NoNewline(a)
    ensures SplitLines(a) == [a]
    decreases |a|
  {
    if a != [] {
      SplitWithoutNewline(a[1..]);
      assert [a[0]] + a[1..] == a;
    }
  }

  lemma {:induction false} SplitAfterLine(a: string, b: string)
    requires NoNewline(a)
    ensures SplitLines(a + "\n" + b) == [a] + SplitLines(b)
    decreases |a|
  {
    var s := a + "\n" + b;
    if a == [] {
      assert s[1..] == b;
    } else {
      assert s[1..] == a[1..] + "\n" + b;
      SplitAfterLine(a[1..], b);
      assert [a[0]] + a[1..] == a;
    }
  }

  /** Splitting the joined lines at newlines gives the lines back, when none holds a newline. */
  lemma {:induction false} SplitJoinLines(parts: seq<string>)
    requires parts != [] && forall i :: 0 <= i < |parts| ==> NoNewline(parts[i])
    ensures SplitLines(JoinLines(parts)) == parts
    decreases |parts|
  {
    if |parts| == 1 {
      SplitWithoutNewline(parts[0]);
    } else {
      SplitAfterLine(parts[0], JoinLines(parts[1..]));
      SplitJoinLines(parts[1..]);
    }
  }

  /**
   * The context summary has one line per item, that item behind a bullet,
   * as long as the items hold no newline themselves.
   */
  lemma {:induction false} FormatContextLines(items: seq<string>)
    requires items != [] && forall i :: 0 <= i < |items| ==> NoNewline(items[i])
    ensures SplitLines(FormatContext(items)) == Bulleted(items)
    ensures |SplitLines(FormatContext(items))| == |items|
  {
    var b := Bulleted(items);
    forall i | 0 <= i < |b|
      ensures NoNewline(b[i])
    {
      assert b[i] == Bullet + items[i];
      assert NoNewline(Bullet);
    }
    SplitJoinLines(b);
  }

  // ---------------------------------------------------------------------
  // Framework points and action items
  // ---------------------------------------------------------------------

  /** `framework_content[AIDA][B2C]["TECH"]`. */
  const AidaConsumerTech := [
    "Attention: Cutting-edge AI solutions for daily needs",
    "Interest: Personalized technology adaptation",
    "Desire: Seamless integration with lifestyle",
    "Action: Start with a free trial"]

  /** `framework_content[AIDA][B2B]["TECH"]`. */
  const AidaBusinessTech := [
    "Attention: Enterprise-grade AI infrastructure",
    "Interest: Scalable business solutions",
    "Desire: Competitive advantage through technology",
    "Action: Schedule a demo"]

  /** `default_points[AIDA]`. */
  const AidaDefaults := [
    "Attention: Capture interest with our innovative solution",
    "Interest: Demonstrate unique value proposition and relevance",
    "Desire: Highlight specific benefits and advantages",
    "Action: Clear next steps and engagement path"]

  /** `default_points[PAS]`. */
  const PasDefaults := [
    "Problem: Identify current challenges and pain points",
    "Agitation: Explore implications and consequences",
    "Solution: Present our comprehensive approach"]

  /** The default of `default_points.get`. */
  const NumberedDefaults := ["Point 1", "Point 2", "Point 3"]

  /** `default_points.get(framework, ["Point 1", "Point 2", "Point 3"])`. */
  function DefaultPointList(f: Framework): (r: seq<string>)
    ensures |r| == if f == AIDA then 4 else 3
  {
    if f == AIDA then AidaDefaults
    else if f == PAS then PasDefaults
    else NumberedDefaults
  }

  /**
   * `get_default_framework_points(framework)`: every default point of the
   * framework, behind a bullet, the first one opening the text.
   */
  function GetDefaultFrameworkPoints(f: Framework): (r: string)
    ensures forall i :: 0 <= i < |DefaultPointList(f)| ==> Contains(r, Bullet + DefaultPointList(f)[i])
    ensures IsPrefix(Bullet + DefaultPointList(f)[0], r)
  {
    FormatContext(DefaultPointList(f))
  }

  /**
   * The points `get_framework_points` formats: the tailored ones when the
   * nested lookup finds them, the framework's defaults when it raises
   * KeyError. Only AIDA for B2C or B2B in the "TECH" domain is tailored,
   * and AIDA always has four points, every other framework three.
   */
  function PointList(f: Framework, b: BusinessType, domain: string): (r: seq<string>)
    ensures |r| == if f == AIDA then 4 else 3
    ensures (f != AIDA || b == RESEARCH || domain != "TECH") ==> r == DefaultPointList(f)
  {
    if f == AIDA && domain == "TECH" then
      match b
      case B2C => AidaConsumerTech
      case B2B => AidaBusinessTech
      case RESEARCH => DefaultPointList(f)
    else DefaultPointList(f)
  }

  /** `get_framework_points(framework, business_type, domain)`. */
  function GetFrameworkPoints(f: Framework, b: BusinessType, domain: string): (r: string)
    ensures forall i :: 0 <= i < |PointList(f, b, domain)| ==> Contains(r, Bullet + PointList(f, b, domain)[i])
    ensures (f != AIDA || b == RESEARCH || domain != "TECH") ==> r == GetDefaultFrameworkPoints(f)
  {
    FormatContext(PointList(f, b, domain))
  }

  /** `action_items[B2C]["TECH"]` of `generate_action_items`. */
  const ConsumerTechActions := ["Schedule a personal demo", "Start free trial", "Join user community"]
  /** `action_items[B2B]["TECH"]`. */
  const BusinessTechActions := ["Book technical consultation", "Request pricing proposal", "Schedule integration assessment"]
  /** The default of the second `.get`. */
  const GenericActions := ["Contact us", "Request more information"]

  /**
   * `action_items.get(business_type, {}).get(domain, [...])`: three tailored
   * items for B2C or B2B in "TECH", the two generic ones otherwise.
   */
  function ActionItemList(b: BusinessType, domain: string): (r: seq<string>)
    ensures |r| == if b != RESEARCH && domain == "TECH" then 3 else 2
    ensures (b == RESEARCH || domain != "TECH") ==> r == GenericActions
  {
    if domain == "TECH" then
      match b
      case B2C => ConsumerTechActions
      case B2B => BusinessTechActions
      case RESEARCH => GenericActions
    else GenericActions
  }

  /** `generate_action_items(business_type, domain)`. */
  function GenerateActionItems(b: BusinessType, domain: string): (r: string)
    ensures forall i :: 0 <= i < |ActionItemList(b, domain)| ==> Contains(r, Bullet + ActionItemList(b, domain)[i])
    ensures (b == RESEARCH || domain != "TECH") ==> r == FormatContext(GenericActions)
  {
    FormatContext(ActionItemList(b, domain))
  }

  // ---------------------------------------------------------------------
  // Templates and `str.format`
  // ---------------------------------------------------------------------

  /** The keyword arguments `generate_presentation_prompt` passes to `format`. */
  datatype Placeholder =
    | CompanyName | PersonName | DomainType | ContextSummary
    | KeyBenefits | FrameworkLabel | FrameworkPoints | ActionItems

  datatype Arguments = Arguments(
    companyName: string, personName: string, domainType: string, contextSummary: string,
    keyBenefits: string, framework: string, frameworkPoints: string, actionItems: string)

  function Arg(a: Arguments, p: Placeholder): string
  {
    match p
    case CompanyName => a.companyName
    case PersonName => a.personName
    case DomainType => a.domainType
    case ContextSummary => a.contextSummary
    case KeyBenefits => a.keyBenefits
    case FrameworkLabel => a.framework
    case FrameworkPoints => a.frameworkPoints
    case ActionItems => a.actionItems
  }

  /** A template is literal text interleaved with `{name}` fields. */
  datatype Piece = Text(text: string) | Slot(field: Placeholder)

  function Render(piece: Piece, a: Arguments): string
  {
    match piece
    case Text(t) => t
    case Slot(p) => Arg(a, p)
  }

  /** `template.format(**a)`: each field replaced by its argument, the text kept as it is. */
  function Format(t: seq<Piece>, a: Arguments): string
  {
    if t == [] then "" else Render(t[0], a) + Format(t[1..], a)
  }

  predicate Mentions(t: seq<Piece>, p: Placeholder)
  {
    exists i :: 0 <= i < |t| && t[i] == Slot(p)
  }

  lemma {:induction false} FormatAround(t: seq<Piece>, a: Arguments, i: nat)
    requires i < |t|
    ensures Format(t, a) == Format(t[..i], a) + Render(t[i], a) + Format(t[i + 1..], a)
    decreases i
  {
    if i > 0 {
      FormatAround(t[1..], a, i - 1);
      assert t[1..][..i - 1] == t[1..i];
      assert t[1..][i - 1] == t[i];
      assert t[1..][i..] == t[i + 1..];
      assert Format(t[..i], a) == Render(t[0], a) + Format(t[1..i], a) by {
        assert t[..i][1..] == t[1..i];
      }
    }
  }

  /** Every field a template mentions shows its argument in the formatted text. */
  lemma {:induction false} FormatShows(t: seq<Piece>, a: Arguments, p: Placeholder)
    requires Mentions(t, p)
    ensures Contains(Format(t, a), Arg(a, p))
  {
    var i :| 0 <= i < |t| && t[i] == Slot(p);
    FormatAround(t, a, i);
    var before := Format(t[..i], a);
    var s := Format(t, a);
    assert s[|before|..|before| + |Arg(a, p)|] == Arg(a, p);
    assert OccursAt(s, Arg(a, p), |before|);
  }

  const Indent := "            "

  const B2CHeading := "\n" + Indent + "Strategic Pitch for Direct Consumers:"
  const B2BHeading := "\n" + Indent + "Enterprise Solution Presentation:"
  const ResearchHeading := "\n" + Indent + "Research & Innovation Brief:"

  const B2CTemplate: seq<Piece> := [
    Text(B2CHeading), Text("\n" + Indent + "Company: "), Slot(CompanyName),
    Text("\n" + Indent + "\n" + Indent + "Welcome Message:\n" + Indent + "Greetings "), Slot(PersonName),
    Text(", let me introduce "), Slot(CompanyName),
    Text("'s unique value proposition.\n" + Indent + "\n" + Indent + "Industry Context ("), Slot(DomainType),
    Text("):\n" + Indent), Slot(ContextSummary),
    Text("\n" + Indent + "\n" + Indent + "Value Points:\n" + Indent + "1. Consumer-Focused Solutions: "), Slot(KeyBenefits),
    Text("\n" + Indent + "2. Accessible Technology: Bringing enterprise-grade AI to everyday users\n"
      + Indent + "3. Personalized Experience: Tailored to individual consumer needs\n"
      + Indent + "\n" + Indent + "Framework ("), Slot(FrameworkLabel),
    Text("):\n" + Indent), Slot(FrameworkPoints),
    Text("\n" + Indent + "\n" + Indent + "Next Steps:\n" + Indent), Slot(ActionItems),
    Text("\n" + Indent)]

  const B2BTemplate: seq<Piece> := [
    Text(B2BHeading), Text("\n" + Indent + "Partner: "), Slot(CompanyName),
    Text("\n" + Indent + "\n" + Indent + "Executive Summary:\n" + Indent + "Attention "), Slot(PersonName),
    Text(", I'm presenting a transformative B2B partnership opportunity.\n" + Indent + "\n" + Indent + "Market Position ("), Slot(DomainType),
    Text("):\n" + Indent), Slot(ContextSummary),
    Text("\n" + Indent + "\n" + Indent + "Enterprise Value Proposition:\n" + Indent + "1. Scalable Infrastructure: "), Slot(KeyBenefits),
    Text("\n" + Indent + "2. Integration Capabilities: Seamless connection with existing systems\n"
      + Indent + "3. ROI Focus: Clear metrics and performance indicators\n"
      + Indent + "\n" + Indent + "Strategic Framework ("), Slot(FrameworkLabel),
    Text("):\n" + Indent), Slot(FrameworkPoints),
    Text("\n" + Indent + "\n" + Indent + "Partnership Roadmap:\n" + Indent), Slot(ActionItems),
    Text("\n" + Indent)]

  const ResearchTemplate: seq<Piece> := [
    Text(ResearchHeading), Text("\n" + Indent + "Institution: "), Slot(CompanyName),
    Text("\n" + Indent + "\n" + Indent + "Research Context:\n" + Indent + "Esteemed "), Slot(PersonName),
    Text(", presenting our research-focused capabilities.\n" + Indent + "\n" + Indent + "Domain Specifics ("), Slot(DomainType),
    Text("):\n" + Indent), Slot(ContextSummary),
    Text("\n" + Indent + "\n" + Indent + "Research Applications:\n" + Indent + "1. Data Analysis: "), Slot(KeyBenefits),
    Text("\n" + Indent + "2. Methodology Integration: Advanced research tools and frameworks\n"
      + Indent + "3. Academic Collaboration: Research partnership opportunities\n"
      + Indent + "\n" + Indent + "Analytical Framework ("), Slot(FrameworkLabel),
    Text("):\n" + Indent), Slot(FrameworkPoints),
    Text("\n" + Indent + "\n" + Indent + "Research Directions:\n" + Indent), Slot(ActionItems),
    Text("\n" + Indent)]

  /** `self.presentation_templates`, keyed by the business type's name. */
  const PresentationTemplates: map<string, seq<Piece>> :=
    map["B2C" := B2CTemplate, "B2B" := B2BTemplate, "RESEARCH" := ResearchTemplate]

  /**
   * `presentation_templates.get(req.business_type.name, presentation_templates['B2C'])`:
   * every business type's name is a key, so the fallback is never taken.
   */
  function TemplateFor(b: BusinessType): seq<Piece>
  {
    match b
    case B2C => B2CTemplate
    case B2B => B2BTemplate
    case RESEARCH => ResearchTemplate
  }

  /** The lookup by name finds each business type's own template. */
  lemma {:induction false} TemplateByName(b: BusinessType)
    ensures BusinessName(b) in PresentationTemplates && TemplateFor(b) == PresentationTemplates[BusinessName(b)]
  {
  }

  /** `key_benefits=context[0] if context else "Customized solutions"`. */
  function KeyBenefitsOf(context: seq<string>): string
  {
    if context != [] then context[0] else "Customized solutions"
  }

  function PromptArguments(req: PresentationRequest, context: seq<string>): Arguments
  {
    Arguments(
      req.companyName, req.personName, req.domainType, FormatContext(context),
      KeyBenefitsOf(context), FrameworkName(req.framework),
      GetFrameworkPoints(req.framework, req.businessType, req.domainType),
      GenerateActionItems(req.businessType, req.domainType))
  }

  /**
   * `generate_presentation_prompt(req, context)`: the business type's
   * template filled in. The prompt opens with that template's heading and
   * shows every keyword argument `format` is given.
   */
  function GeneratePresentationPrompt(req: PresentationRequest, context: seq<string>): (r: string)
    ensures IsPrefix(Heading(req.businessType), r)
    ensures forall p: Placeholder :: Contains(r, Arg(PromptArguments(req, context), p))
  {
    var a := PromptArguments(req, context);
    TemplateFilled(req.businessType, a);
    Format(TemplateFor(req.businessType), a)
  }

  /** Every template has a field for every keyword argument `format` is given. */
  lemma {:induction false} TemplateMentionsAll(b: BusinessType, p: Placeholder)
    ensures Mentions(TemplateFor(b), p)
  {
    var t := TemplateFor(b);
    var i := match p
      case CompanyName => 2
      case PersonName => 4
      case DomainType => if b == B2C then 8 else 6
      case ContextSummary => if b == B2C then 10 else 8
      case KeyBenefits => if b == B2C then 12 else 10
      case FrameworkLabel => if b == B2C then 14 else 12
      case FrameworkPoints => if b == B2C then 16 else 14
      case ActionItems => if b == B2C then 18 else 16;
    assert t[i] == Slot(p);
  }

  /** A formatted template opens with its leading text. */
  lemma {:induction false} FormatOpensWith(t: seq<Piece>, a: Arguments)
    requires t != [] && t[0].Text?
    ensures IsPrefix(t[0].text, Format(t, a))
  {
    var rest := Format(t[1..], a);
    assert (t[0].text + rest)[..|t[0].text|] == t[0].text;
  }

  lemma {:induction false} FormatShowsAll(t: seq<Piece>, a: Arguments)
    requires forall p: Placeholder :: Mentions(t, p)
    ensures forall p: Placeholder :: Contains(Format(t, a), Arg(a, p))
  {
    forall p: Placeholder
      ensures Contains(Format(t, a), Arg(a, p))
    {
      FormatShows(t, a, p);
    }
  }

  lemma {:induction false} ArgumentsShown(prompt: string, a: Arguments)
    requires forall p: Placeholder :: Contains(prompt, Arg(a, p))
    ensures Contains(prompt, a.companyName) && Contains(prompt, a.personName)
    ensures Contains(prompt, a.domainType) && Contains(prompt, a.contextSummary)
    ensures Contains(prompt, a.keyBenefits) && Contains(prompt, a.framework)
    ensures Contains(prompt, a.frameworkPoints) && Contains(prompt, a.actionItems)
  {
    assert Contains(prompt, Arg(a, CompanyName)) && Contains(prompt, Arg(a, PersonName));
    assert Contains(prompt, Arg(a, DomainType)) && Contains(prompt, Arg(a, ContextSummary));
    assert Contains(prompt, Arg(a, KeyBenefits)) && Contains(prompt, Arg(a, FrameworkLabel));
    assert Contains(prompt, Arg(a, FrameworkPoints)) && Contains(prompt, Arg(a, ActionItems));
  }

  /**
   * Whatever the arguments, a business type's filled-in template opens
   * with its heading and shows every argument.
   */
  lemma {:induction false} TemplateFilled(b: BusinessType, a: Arguments)
    ensures IsPrefix(Heading(b), Format(TemplateFor(b), a))
    ensures forall p: Placeholder :: Contains(Format(TemplateFor(b), a), Arg(a, p))
  {
    var t := TemplateFor(b);
    forall p: Placeholder
      ensures Mentions(t, p)
    {
      TemplateMentionsAll(b, p);
    }
    FormatShowsAll(t, a);
    assert t[0] == Text(Heading(b));
    FormatOpensWith(t, a);
  }

  /**
   * The prompt shows everything the request and the context supply: the
   * company, the person, the domain, the bulleted context, the key
   * benefit, the framework's name, its points and the action items.
   */
  lemma {:induction false} PromptShowsRequest(req: PresentationRequest, context: seq<string>)
    ensures var prompt := GeneratePresentationPrompt(req, context);
      && Contains(prompt, req.companyName)
      && Contains(prompt, req.personName)
      && Contains(prompt, req.domainType)
      && Contains(prompt, FormatContext(context))
      && Contains(prompt, KeyBenefitsOf(context))
      && Contains(prompt, FrameworkName(req.framework))
      && Contains(prompt, GetFrameworkPoints(req.framework, req.businessType, req.domainType))
      && Contains(prompt, GenerateActionItems(req.businessType, req.domainType))
  {
    ArgumentsShown(GeneratePresentationPrompt(req, context), PromptArguments(req, context));
  }

  /** The heading each business type's template opens with. */
  function Heading(b: BusinessType): string
  {
    match b
    case B2C => B2CHeading
    case B2B => B2BHeading
    case RESEARCH => ResearchHeading
  }
}

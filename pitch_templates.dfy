/**
 * The section catalogue of the pitch-script viewer (`pitchSections` in
 * src/components/SalesPitchScript.tsx): six fixed sections whose bodies are
 * templates over the viewer's three props. A body uses the props in exactly
 * three ways: `industry` lower-cased, `clientType` lower-cased (the template
 * itself then writes a literal "s"), and `productService` verbatim.
 *
 * The long prose between the insertions is kept apart, in a `SectionCopy`
 * record whose one value, `SourceCopy`, holds the component's text; the
 * template shapes, titles, durations and tips are fixed here. The lemmas hold
 * for every copy, so in particular for the component's own.
 */
module PitchTemplates {
  import opened Wrappers
  import opened Text

  /** The three free-text props of the viewer. */
  datatype Inputs = Inputs(productService: string, clientType: string, industry: string)

  /** One piece of a section body: literal text, or one of the three insertions. */
  datatype Piece =
    | Lit(text: string)
    | IndustryLower    // `${industry.toLowerCase()}`
    | ClientTypeLower  // `${clientType.toLowerCase()}`
    | ProductVerbatim  // `${productService}`

  type Template = seq<Piece>

  /** One section of the script, as the viewer lists it. */
  datatype PitchSection = PitchSection(title: string, content: string, duration: string, tips: seq<string>)

  const DefaultProductService := "AI Digital Marketing Services"
  const DefaultClientType := "Mid-Market Company"
  const DefaultIndustry := "Technology"

  /**
   * The props after destructuring defaults: a default replaces only an absent prop;
   * a supplied one, even the empty string, is kept as it is.
   */
  function ResolveInputs(productService: Option<string>, clientType: Option<string>, industry: Option<string>): (inp: Inputs)
    ensures productService.Some? ==> inp.productService == productService.value
    ensures productService.None? ==> inp.productService == DefaultProductService
    ensures clientType.Some? ==> inp.clientType == clientType.value
    ensures clientType.None? ==> inp.clientType == DefaultClientType
    ensures industry.Some? ==> inp.industry == industry.value
    ensures industry.None? ==> inp.industry == DefaultIndustry
  {
    Inputs(productService.GetOr(DefaultProductService), clientType.GetOr(DefaultClientType), industry.GetOr(DefaultIndustry))
  }

  /**
   * The text one piece contributes: a literal and the product verbatim; the industry
   * and the client type lower-cased, character by character in place.
   */
  function Insert(p: Piece, inp: Inputs): (r: string)
    ensures p.Lit? ==> r == p.text
    ensures p.ProductVerbatim? ==> r == inp.productService
    ensures p.IndustryLower? ==> LoweredFrom(inp.industry, r)
    ensures p.ClientTypeLower? ==> LoweredFrom(inp.clientType, r)
  {
    match p
    case Lit(text) => text
    case IndustryLower => Lower(inp.industry)
    case ClientTypeLower => Lower(inp.clientType)
    case ProductVerbatim => inp.productService
  }

  /** A template literal evaluated: its pieces' texts, in order, from the first to the last. */
  function Fill(t: Template, inp: Inputs): string
  {
    if t == [] then "" else Insert(t[0], inp) + Fill(t[1..], inp)
  }

  /** The insertions of a template, in order, with the literal text dropped. */
  function Holes(t: Template): seq<Piece> {
    if t == [] then [] else (if t[0].Lit? then [] else [t[0]]) + Holes(t[1..])
  }

  // ---------------------------------------------------------------------------
  // The six section bodies
  // ---------------------------------------------------------------------------

  /** The prose of the bodies, cut at the insertions. */
  datatype SectionCopy = SectionCopy(
    openingGreeting: string,   // up to the first industry insertion
    openingQuestion: string,   // up to the client-type insertion
    problem: string,
    solutionApproach: string,  // after "comes in.", up to the industry insertion
    solutionCaseStudy: string,
    value: string,
    objections: string,
    closing: string)

  function OpeningTemplate(c: SectionCopy): Template {
    [Lit(c.openingGreeting), IndustryLower, Lit(c.openingQuestion), ClientTypeLower,
     Lit("s in the "), IndustryLower, Lit(" space overcome similar challenges.")]
  }

  function SolutionTemplate(c: SectionCopy): Template {
    [Lit("This is where our "), ProductVerbatim, Lit(" comes in."), Lit(c.solutionApproach),
     IndustryLower, Lit(c.solutionCaseStudy)]
  }

  /** The six body templates in section order. */
  function Templates(c: SectionCopy): (ts: seq<Template>)
    ensures |ts| == 6
  {
    [OpeningTemplate(c), [Lit(c.problem)], SolutionTemplate(c), [Lit(c.value)], [Lit(c.objections)], [Lit(c.closing)]]
  }

  // ---------------------------------------------------------------------------
  // The catalogue
  // ---------------------------------------------------------------------------

  /** What a section shows besides its body: title, duration and tips. */
  datatype SectionHead = SectionHead(title: string, duration: string, tips: seq<string>)

  const OpeningHead := SectionHead("Opening & Rapport Building", "2-3 minutes",
    ["Use their name frequently", "Reference their industry specifically",
     "Ask open-ended questions", "Show genuine interest in their responses"])
  const ProblemHead := SectionHead("Problem Identification", "3-4 minutes",
    ["Use specific statistics", "Relate to their industry",
     "Confirm understanding before proceeding", "Create urgency without pressure"])
  const SolutionHead := SectionHead("Solution Presentation", "5-7 minutes",
    ["Address each pain point specifically", "Use relevant case studies",
     "Include specific metrics and results", "Keep technical details simple"])
  const ValueHead := SectionHead("Value Proposition & ROI", "3-4 minutes",
    ["Use conservative projections", "Relate investment to their current spending",
     "Provide clear ROI timeline", "Frame as opportunity cost"])
  const ObjectionsHead := SectionHead("Objection Handling", "2-3 minutes",
    ["Address objections proactively", "Reframe price as investment",
     "Ask clarifying questions", "Stay consultative, not pushy"])
  const ClosingHead := SectionHead("Closing & Next Steps", "2-3 minutes",
    ["Offer clear options", "Assume the sale",
     "Set specific next steps", "End on a positive, forward-looking note"])

  /** The heads in the order the sections are shown. */
  const SectionHeads: seq<SectionHead> := [OpeningHead, ProblemHead, SolutionHead, ValueHead, ObjectionsHead, ClosingHead]

  /**
   * `pitchSections`: the six sections in their fixed order, each with four tips,
   * each body its template filled from the props.
   */
  function PitchSections(c: SectionCopy, inp: Inputs): (r: seq<PitchSection>)
    ensures |r| == 6
    ensures forall i :: 0 <= i < 6 ==> |r[i].tips| == 4 && r[i].content == Fill(Templates(c)[i], inp)
    ensures forall i :: 0 <= i < 6 ==>
      r[i].title == SectionHeads[i].title && r[i].duration == SectionHeads[i].duration && r[i].tips == SectionHeads[i].tips
    ensures r[0].title == "Opening & Rapport Building" && r[1].title == "Problem Identification"
    ensures r[2].title == "Solution Presentation" && r[3].title == "Value Proposition & ROI"
    ensures r[4].title == "Objection Handling" && r[5].title == "Closing & Next Steps"
  {
    var t := Templates(c);
    seq(6, i requires 0 <= i < 6 =>
      PitchSection(SectionHeads[i].title, Fill(t[i], inp), SectionHeads[i].duration, SectionHeads[i].tips))
  }

  /** The component's catalogue: its own prose filled from the props. */
  function ScriptSections(inp: Inputs): seq<PitchSection> {
    PitchSections(SourceCopy, inp)
  }

  /**
   * The component's six sections: titles, durations and tips from the fixed heads;
   * the opening and the solution carry the insertions; the other four bodies are
   * the prose as it is.
   */
  lemma ScriptBodies(inp: Inputs)
    ensures |ScriptSections(inp)| == 6
    ensures forall i :: 0 <= i < 6 ==>
      ScriptSections(inp)[i].title == SectionHeads[i].title
      && ScriptSections(inp)[i].duration == SectionHeads[i].duration && ScriptSections(inp)[i].tips == SectionHeads[i].tips
    ensures ScriptSections(inp)[0].content == SourceCopy.openingGreeting + Lower(inp.industry) + SourceCopy.openingQuestion
      + Lower(inp.clientType) + "s in the " + Lower(inp.industry) + " space overcome similar challenges."
    ensures ScriptSections(inp)[2].content == "This is where our " + inp.productService + " comes in."
      + SourceCopy.solutionApproach + Lower(inp.industry) + SourceCopy.solutionCaseStudy
    ensures ScriptSections(inp)[1].content == SourceCopy.problem && ScriptSections(inp)[3].content == SourceCopy.value
    ensures ScriptSections(inp)[4].content == SourceCopy.objections && ScriptSections(inp)[5].content == SourceCopy.closing
  {
    SectionBodies(SourceCopy, inp);
  }

  /** The six bodies for any prose: the two with insertions and the four without. */
  lemma SectionBodies(c: SectionCopy, inp: Inputs)
    ensures PitchSections(c, inp)[0].content == c.openingGreeting + Lower(inp.industry) + c.openingQuestion
      + Lower(inp.clientType) + "s in the " + Lower(inp.industry) + " space overcome similar challenges."
    ensures PitchSections(c, inp)[2].content == "This is where our " + inp.productService + " comes in."
      + c.solutionApproach + Lower(inp.industry) + c.solutionCaseStudy
    ensures PitchSections(c, inp)[1].content == c.problem && PitchSections(c, inp)[3].content == c.value
    ensures PitchSections(c, inp)[4].content == c.objections && PitchSections(c, inp)[5].content == c.closing
  {
    OpeningBody(c, inp);
    SolutionBody(c, inp);
    var ts := Templates(c);
    assert Fill(ts[1], inp) == c.problem + Fill([], inp);
    assert Fill(ts[3], inp) == c.value + Fill([], inp);
    assert Fill(ts[4], inp) == c.objections + Fill([], inp);
    assert Fill(ts[5], inp) == c.closing + Fill([], inp);
  }

  // ---------------------------------------------------------------------------
  // How the inputs reach the bodies
  // ---------------------------------------------------------------------------

  lemma HolesAt(t: Template, i: nat)
    requires i < |t|
    ensures Holes(t[i..]) == (if t[i].Lit? then [] else [t[i]]) + Holes(t[i + 1..])
  {
    assert t[i..][1..] == t[i + 1..];
  }

  /**
   * Only the opening and the solution insert anything: the opening the industry,
   * the client type and the industry again; the solution the product and then the
   * industry. The other four bodies are fixed text.
   */
  lemma TemplateInsertions(c: SectionCopy)
    ensures Holes(Templates(c)[0]) == [IndustryLower, ClientTypeLower, IndustryLower]
    ensures Holes(Templates(c)[2]) == [ProductVerbatim, IndustryLower]
    ensures forall i :: i in {1, 3, 4, 5} ==> Holes(Templates(c)[i]) == []
  {
    OpeningInsertions(c);
    SolutionInsertions(c);
  }

  lemma OpeningInsertions(c: SectionCopy)
    ensures Holes(OpeningTemplate(c)) == [IndustryLower, ClientTypeLower, IndustryLower]
  {
    var o := OpeningTemplate(c);
    assert o[7..] == [];
    HolesAt(o, 6);
    HolesAt(o, 5);
    assert Holes(o[5..]) == [IndustryLower];
    HolesAt(o, 4);
    HolesAt(o, 3);
    assert Holes(o[3..]) == [ClientTypeLower, IndustryLower];
    HolesAt(o, 2);
    HolesAt(o, 1);
    HolesAt(o, 0);
    assert o[0..] == o;
  }

  lemma SolutionInsertions(c: SectionCopy)
    ensures Holes(SolutionTemplate(c)) == [ProductVerbatim, IndustryLower]
  {
    var s := SolutionTemplate(c);
    assert s[6..] == [];
    HolesAt(s, 5);
    HolesAt(s, 4);
    assert Holes(s[4..]) == [IndustryLower];
    HolesAt(s, 3);
    HolesAt(s, 2);
    HolesAt(s, 1);
    HolesAt(s, 0);
    assert s[0..] == s;
  }

  /**
   * The bodies depend on the props only through the lower-cased industry, the
   * lower-cased client type and the verbatim product: two prop sets that agree
   * on those give the same text.
   */
  lemma {:induction false} FillUsesInputsOnlyThroughHoles(t: Template, a: Inputs, b: Inputs)
    requires Lower(a.industry) == Lower(b.industry)
    requires Lower(a.clientType) == Lower(b.clientType)
    requires a.productService == b.productService
    ensures Fill(t, a) == Fill(t, b)
  {
    if t != [] {
      FillUsesInputsOnlyThroughHoles(t[1..], a, b);
    }
  }

  /** A template without insertions gives the same text for every prop set. */
  lemma {:induction false} FillWithoutHoles(t: Template, a: Inputs, b: Inputs)
    requires Holes(t) == []
    ensures Fill(t, a) == Fill(t, b)
  {
    if t != [] {
      assert t[0].Lit?;
      FillWithoutHoles(t[1..], a, b);
    }
  }

  lemma FillDrop(t: Template, i: nat, inp: Inputs)
    requires i < |t|
    ensures Fill(t[i..], inp) == Insert(t[i], inp) + Fill(t[i + 1..], inp)
  {
    assert t[i..][1..] == t[i + 1..];
  }

  /**
   * The opening body is the fixed prose with the lower-cased industry, then the
   * lower-cased client type followed by a literal "s", then the lower-cased
   * industry again, inserted into it.
   */
  lemma OpeningBody(c: SectionCopy, inp: Inputs)
    ensures PitchSections(c, inp)[0].content ==
      c.openingGreeting + Lower(inp.industry) + c.openingQuestion + Lower(inp.clientType)
      + "s in the " + Lower(inp.industry) + " space overcome similar challenges."
  {
    var o := OpeningTemplate(c);
    assert PitchSections(c, inp)[0].content == Fill(o, inp) by {
      assert Templates(c)[0] == o;
    }
    OpeningBodyTail(c, inp);
    FillDrop(o, 1, inp);
    FillDrop(o, 0, inp);
    assert o[0..] == o;
    assert Fill(o, inp) == c.openingGreeting + (Lower(inp.industry) + Fill(o[2..], inp));
    Regroup(c.openingGreeting, Lower(inp.industry), c.openingQuestion, Lower(inp.clientType),
            "s in the ", Lower(inp.industry), " space overcome similar challenges.");
  }

  /** Proof helper: regrouping a concatenation of seven strings. */
  lemma Regroup(a: string, b: string, c: string, d: string, e: string, f: string, g: string)
    ensures a + (b + (c + d + e + f + g)) == a + b + c + d + e + f + g
  {
  }

  lemma OpeningBodyTail(c: SectionCopy, inp: Inputs)
    ensures Fill(OpeningTemplate(c)[2..], inp) ==
      c.openingQuestion + Lower(inp.clientType) + "s in the " + Lower(inp.industry) + " space overcome similar challenges."
  {
    var o := OpeningTemplate(c);
    FillFive(o[2..], inp);
  }

  /** A five-piece template is its pieces' texts in order. */
  lemma FillFive(t: Template, inp: Inputs)
    requires |t| == 5
    ensures Fill(t, inp) == Insert(t[0], inp) + Insert(t[1], inp) + Insert(t[2], inp) + Insert(t[3], inp) + Insert(t[4], inp)
  {
    assert t[5..] == [];
    FillDrop(t, 4, inp);
    FillDrop(t, 3, inp);
    FillDrop(t, 2, inp);
    FillDrop(t, 1, inp);
    FillDrop(t, 0, inp);
    assert t[0..] == t;
  }

  /** A six-piece template is its first piece's text, then the other five's. */
  lemma FillSix(t: Template, inp: Inputs)
    requires |t| == 6
    ensures Fill(t, inp)
         == Insert(t[0], inp) + Insert(t[1], inp) + Insert(t[2], inp) + Insert(t[3], inp) + Insert(t[4], inp) + Insert(t[5], inp)
  {
    FillFive(t[1..], inp);
    FillDrop(t, 0, inp);
    assert t[0..] == t;
  }

  /**
   * The solution body is the fixed prose with the product, verbatim, and then the
   * lower-cased industry inserted into it.
   */
  lemma SolutionBody(c: SectionCopy, inp: Inputs)
    ensures PitchSections(c, inp)[2].content ==
      "This is where our " + inp.productService + " comes in." + c.solutionApproach
      + Lower(inp.industry) + c.solutionCaseStudy
  {
    var s := SolutionTemplate(c);
    assert Templates(c)[2] == s;
    FillSix(s, inp);
  }

  /** The six titles are pairwise different, so a title names one section. */
  lemma SectionTitlesDistinct(c: SectionCopy, inp: Inputs, i: nat, j: nat)
    requires i < 6 && j < 6
    ensures PitchSections(c, inp)[i].title == PitchSections(c, inp)[j].title <==> i == j
  {
  }

  /**
   * Titles, durations and tips are the same for every prop set, and so are the
   * four bodies without insertions.
   */
  lemma SectionsFixedParts(c: SectionCopy, a: Inputs, b: Inputs, i: nat)
    requires i < 6
    ensures PitchSections(c, a)[i].title == PitchSections(c, b)[i].title
    ensures PitchSections(c, a)[i].duration == PitchSections(c, b)[i].duration
    ensures PitchSections(c, a)[i].tips == PitchSections(c, b)[i].tips
    ensures i !in {0, 2} ==> PitchSections(c, a)[i].content == PitchSections(c, b)[i].content
  {
    if i !in {0, 2} {
      TemplateInsertions(c);
      FillWithoutHoles(Templates(c)[i], a, b);
    }
  }

  /**
   * The whole catalogue is the same for two prop sets that agree on the
   * lower-cased industry, the lower-cased client type and the product.
   */
  lemma SectionsDependOnlyOnInsertions(c: SectionCopy, a: Inputs, b: Inputs)
    requires Lower(a.industry) == Lower(b.industry) && Lower(a.clientType) == Lower(b.clientType)
    requires a.productService == b.productService
    ensures PitchSections(c, a) == PitchSections(c, b)
  {
    var ts := Templates(c);
    forall k | 0 <= k < 6 ensures Fill(ts[k], a) == Fill(ts[k], b) {
      FillUsesInputsOnlyThroughHoles(ts[k], a, b);
    }
    var ra, rb := PitchSections(c, a), PitchSections(c, b);
    forall k | 0 <= k < 6 ensures ra[k] == rb[k] {
      SectionsFixedParts(c, a, b, k);
    }
  }

  // ---------------------------------------------------------------------------
  // The component's prose
  // ---------------------------------------------------------------------------

  const SourceCopy := SectionCopy(
    openingGreeting := "Hi [Client Name], thank you for taking the time to meet with me today. I know how valuable your time is, especially in the ",
    openingQuestion := " industry where things move so quickly.\n" +
      "\n" +
      "Before we dive in, I'd love to learn a bit more about your current marketing challenges. What's been keeping you up at night when it comes to reaching your target customers?\n" +
      "\n" +
      "[Listen actively and take notes]\n" +
      "\n" +
      "That's exactly why I wanted to speak with you today. We've helped several ",
    problem := "Based on what you've shared and our experience with similar companies, I'm hearing three main challenges:\n" +
      "\n" +
      "1. **Lead Quality**: You're getting leads, but they're not converting at the rate you need\n" +
      "2. **Marketing ROI**: It's difficult to track which marketing efforts are actually driving revenue\n" +
      "3. **Scalability**: Your current approach works, but it's hard to scale without proportionally increasing costs\n" +
      "\n" +
      "Does that align with what you're experiencing? \n" +
      "\n" +
      "[Pause for confirmation]\n" +
      "\n" +
      "Here's what's interesting - 73% of companies your size face these exact same challenges. The difference between those who thrive and those who struggle isn't the size of their marketing budget - it's how intelligently they deploy their resources.",
    solutionApproach := " We've developed a comprehensive approach that addresses each of these challenges:\n" +
      "\n" +
      "**For Lead Quality**: Our AI-powered targeting system analyzes over 200 data points to identify prospects who match your ideal customer profile. We're not just casting a wide net - we're using precision targeting.\n" +
      "\n" +
      "**For Marketing ROI**: Every campaign comes with real-time analytics and attribution modeling. You'll know exactly which channels, messages, and audiences are driving revenue - not just clicks or impressions.\n" +
      "\n" +
      "**For Scalability**: Our automated systems handle the heavy lifting while maintaining personalization. As your business grows, our platform scales with you without requiring proportional increases in your team or budget.\n" +
      "\n" +
      "Let me show you a quick example of how this worked for [Similar Company Name], a ",
    solutionCaseStudy := " company similar to yours...\n" +
      "\n" +
      "[Share specific case study with metrics]",
    value := "Here's what this means for your business specifically:\n" +
      "\n" +
      "**Conservative Projections** (based on companies similar to yours):\n" +
      "- 40-60% improvement in lead quality within 90 days\n" +
      "- 25-35% increase in marketing ROI within 6 months  \n" +
      "- 50-70% reduction in cost per acquisition\n" +
      "\n" +
      "**Investment**: Our comprehensive package is $X per month, which typically represents 15-20% of what companies your size spend on marketing.\n" +
      "\n" +
      "**ROI Timeline**: Most clients see positive ROI within 3-4 months, with full ROI typically achieved by month 6.\n" +
      "\n" +
      "To put this in perspective - if we help you achieve just a 30% improvement in lead conversion (which is conservative based on our track record), that would represent approximately $X in additional revenue annually.\n" +
      "\n" +
      "The question isn't whether you can afford to invest in this - it's whether you can afford not to.",
    objections := "I imagine you might have some questions or concerns. The most common ones I hear are:\n" +
      "\n" +
      "**\"The investment seems high\"**: I understand. When you break it down, it's about $X per day - less than most companies spend on coffee for their team. And unlike coffee, this investment generates measurable returns.\n" +
      "\n" +
      "**\"We need to think about it\"**: Absolutely, this is an important decision. What specific aspects would help you feel more confident moving forward? Is it the implementation process, the timeline, or something else?\n" +
      "\n" +
      "**\"We're already working with another provider\"**: That's great that you're investing in marketing. What prompted you to take this meeting? Often, companies find that while their current solution handles some aspects well, there are gaps in [specific area based on their pain points].\n" +
      "\n" +
      "What questions do you have for me?",
    closing := "Based on our conversation, I believe we can help you achieve the growth you're looking for. Here's what I'd recommend as next steps:\n" +
      "\n" +
      "**Option 1 - Full Implementation**: We start with a comprehensive audit of your current marketing efforts, then implement our full system. This gives you the fastest path to results.\n" +
      "\n" +
      "**Option 2 - Pilot Program**: We begin with a focused 90-day pilot targeting your highest-value customer segment. This lets you see results before making a larger commitment.\n" +
      "\n" +
      "Which approach feels right for your situation?\n" +
      "\n" +
      "[Based on their response]\n" +
      "\n" +
      "Perfect. I'll send you a detailed proposal by [specific date] that outlines exactly what we discussed today, including timeline, investment, and projected outcomes.\n" +
      "\n" +
      "I'd also like to schedule a follow-up call for [specific date] to review the proposal and answer any additional questions. Does [day/time] work for you?\n" +
      "\n" +
      "Thank you again for your time today. I'm excited about the possibility of helping [Company Name] achieve its growth goals."
  )
}

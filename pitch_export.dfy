/**
 * The plain-text export of the pitch-script viewer (`downloadScript` in
 * src/components/SalesPitchScript.tsx): every section written as a block
 * (title, an underline of '=' as long as the title, the duration, the body and
 * the bulleted tips), the blocks joined by newlines, and the download file name
 * derived from the product prop.
 */
module PitchExport {
  import opened Text
  import opened PitchTemplates

  const NL: char := '\n'

  /** Each tip as the export writes it: a bullet and a space in front. */
  function Bullets(tips: seq<string>): (r: seq<string>)
    ensures |r| == |tips|
    ensures forall i :: 0 <= i < |tips| ==> r[i] == "\U{2022} " + tips[i]
  {
    seq(|tips|, i requires 0 <= i < |tips| => "\U{2022} " + tips[i])
  }

  /** The tips part of a block: the bulleted tips, one per line, the first tip first. */
  function TipLines(tips: seq<string>): (r: string)
    ensures tips == [] ==> r == ""
    ensures |tips| > 0 ==> |r| == TotalLength(Bullets(tips)) + |tips| - 1
    ensures |tips| > 0 ==> r[..|tips[0]| + 2] == "\U{2022} " + tips[0]
  {
    Join(Bullets(tips), "\n")
  }

  /**
   * One section as the export writes it: it starts with the title, is the title twice
   * (once as '=' underline), the duration, the body and the tips plus 28 characters of
   * fixed text long, and ends with two newlines.
   */
  function Block(s: PitchSection): (r: string)
    ensures |r| == 2 * |s.title| + |s.duration| + |s.content| + |TipLines(s.tips)| + 28
    ensures r[..|s.title|] == s.title
    ensures r[|r| - 2..] == "\n\n"
  {
    s.title + "\n" + Repeat('=', |s.title|) + "\nDuration: " + s.duration + "\n\n" + s.content
    + "\n\nKey Tips:\n" + TipLines(s.tips) + "\n\n"
  }

  function Blocks(secs: seq<PitchSection>): (r: seq<string>)
    ensures |r| == |secs|
    ensures forall i :: 0 <= i < |secs| ==> r[i] == Block(secs[i])
  {
    seq(|secs|, i requires 0 <= i < |secs| => Block(secs[i]))
  }

  /** `fullScript`: the blocks in catalogue order, joined by "\n"; the first block comes first. */
  function FullScript(secs: seq<PitchSection>): (r: string)
    ensures secs == [] ==> r == ""
    ensures |secs| > 0 ==> |Block(secs[0])| <= |r| && r[..|Block(secs[0])|] == Block(secs[0])
  {
    Join(Blocks(secs), "\n")
  }

  // ---------------------------------------------------------------------------
  // Line structure of the export
  // ---------------------------------------------------------------------------

  /** A line of a block: no newline inside. */
  predicate IsLine(s: string) {
    NL !in s
  }

  /**
   * The tips part, tip by tip: one tip gives its bulleted line alone; more give the first
   * bulleted tip, a newline and the tips part of the rest.
   */
  lemma TipLinesCons(tips: seq<string>)
    requires |tips| > 0
    ensures |tips| == 1 ==> TipLines(tips) == "\U{2022} " + tips[0]
    ensures |tips| > 1 ==> TipLines(tips) == "\U{2022} " + tips[0] + "\n" + TipLines(tips[1..])
  {
    assert Bullets(tips)[1..] == Bullets(tips[1..]);
  }

  /** The tips come back, each exactly once and in order, one bulleted tip per line. */
  lemma TipLinesSplit(tips: seq<string>)
    requires forall i :: 0 <= i < |tips| ==> IsLine(tips[i])
    ensures Split(TipLines(tips), NL) == if tips == [] then [""] else Bullets(tips)
  {
    if tips != [] {
      var b := Bullets(tips);
      forall i | 0 <= i < |b| ensures NL !in b[i] {
        assert b[i] == "\U{2022} " + tips[i];
      }
      SplitJoinRoundTrip(b, NL);
    }
  }

  /** Proof helper: the block's text regrouped around its newlines. */
  lemma BlockRegroup(t: string, u: string, d: string, c: string, tl: string)
    ensures t + "\n" + u + "\nDuration: " + d + "\n\n" + c + "\n\nKey Tips:\n" + tl + "\n\n"
         == t + [NL] + (u + [NL] + (("Duration: " + d) + [NL] + ("" + [NL] + (c + [NL]
            + ("" + [NL] + ("Key Tips:" + [NL] + (tl + [NL] + ("" + [NL] + ""))))))))
  {
  }

  /**
   * The lines a section's block is made of: the title; an underline of as many '=' as
   * the title has characters; "Duration: " and the duration; an empty line; the lines
   * of the body; an empty line; "Key Tips:"; one bulleted line per tip; two empty lines.
   */
  function SectionLines(s: PitchSection): seq<string> {
    [s.title, Repeat('=', |s.title|), "Duration: " + s.duration, ""] + Split(s.content, NL)
    + ["", "Key Tips:"] + Bullets(s.tips) + ["", ""]
  }

  /**
   * Read back line by line, a block is: the title; an underline of exactly as many
   * '=' as the title has characters; "Duration: " and the duration; an empty line;
   * the lines of the body; an empty line; "Key Tips:"; one bulleted line per tip,
   * in order; and two empty lines.
   */
  lemma BlockLines(s: PitchSection)
    requires SingleLineHead(s)
    ensures Split(Block(s), NL) == SectionLines(s)
  {
    var u, d, tl := Repeat('=', |s.title|), "Duration: " + s.duration, TipLines(s.tips);
    BlockRegroup(s.title, u, s.duration, s.content, tl);
    var tail := "" + [NL] + ("Key Tips:" + [NL] + (tl + [NL] + ("" + [NL] + "")));
    assert IsLine("Key Tips:");
    TailLines("Key Tips:", tl);
    TipLinesSplit(s.tips);
    SplitConcat(s.content, tail, NL);
    HeadLines(s.title, u, d, "", s.content + [NL] + tail);
    LinesRegroup([s.title, u, d, ""], Split(s.content, NL), ["", "Key Tips:"], Bullets(s.tips), ["", ""]);
  }

  /** The four one-line fields in front of the body. */
  lemma HeadLines(a: string, b: string, c: string, d: string, rest: string)
    requires IsLine(a) && IsLine(b) && IsLine(c) && IsLine(d)
    ensures Split(a + [NL] + (b + [NL] + (c + [NL] + (d + [NL] + rest))), NL) == [a, b, c, d] + Split(rest, NL)
  {
    var r3 := d + [NL] + rest;
    var r2 := c + [NL] + r3;
    var r1 := b + [NL] + r2;
    LineThenRest(d, rest);
    LineThenRest(c, r3);
    LineThenRest(b, r2);
    LineThenRest(a, r1);
    var sr := Split(rest, NL);
    assert [a] + ([b] + ([c] + ([d] + sr))) == [a, b, c, d] + sr;
  }

  /** A line, its newline and more text: the line, then the lines of the rest. */
  lemma LineThenRest(a: string, rest: string)
    requires IsLine(a)
    ensures Split(a + [NL] + rest, NL) == [a] + Split(rest, NL)
  {
    SplitConcat(a, rest, NL);
    SplitNoSeparator(a, NL);
  }

  /** What follows the body: an empty line, the "Key Tips:" heading, the tip lines and two empty lines. */
  lemma TailLines(k: string, tl: string)
    requires IsLine(k)
    ensures Split("" + [NL] + (k + [NL] + (tl + [NL] + ("" + [NL] + ""))), NL)
         == ["", k] + Split(tl, NL) + ["", ""]
  {
    SplitConcat("", k + [NL] + (tl + [NL] + ("" + [NL] + "")), NL);
    SplitConcat(k, tl + [NL] + ("" + [NL] + ""), NL);
    SplitConcat(tl, "" + [NL] + "", NL);
    SplitConcat("", "", NL);
    SplitNoSeparator(k, NL);
  }

  /** Proof helper: regrouping a concatenation of line lists. */
  lemma LinesRegroup(a: seq<string>, b: seq<string>, c: seq<string>, d: seq<string>, e: seq<string>)
    ensures a + (b + (c + d + e)) == a + b + c + d + e
  {
  }

  /**
   * The lines of the whole export are the lines of the blocks, block after block in
   * catalogue order: every section is written once, where its position says.
   */
  lemma FullScriptLines(secs: seq<PitchSection>)
    requires |secs| > 0
    ensures Split(FullScript(secs), NL) == SplitEach(Blocks(secs), NL)
  {
    SplitJoin(Blocks(secs), NL);
  }

  /** The fixed titles, durations and tips of the catalogue are single lines; there are four tips each. */
  lemma CatalogueHeadsAreLines(i: nat)
    requires i < 6
    ensures IsLine(SectionHeads[i].title) && IsLine(SectionHeads[i].duration)
    ensures |SectionHeads[i].tips| == 4 && forall j :: 0 <= j < 4 ==> IsLine(SectionHeads[i].tips[j])
  {
    if i == 0 { HeadLines0(); }
    else if i == 1 { HeadLines1(); }
    else if i == 2 { HeadLines2(); }
    else if i == 3 { HeadLines3(); }
    else if i == 4 { HeadLines4(); }
    else { HeadLines5(); }
  }

  /** Proof helper: the opening head's title, duration and tips are single lines. */
  lemma HeadLines0()
    ensures IsLine(OpeningHead.title) && IsLine(OpeningHead.duration) && |OpeningHead.tips| == 4
    ensures IsLine(OpeningHead.tips[0]) && IsLine(OpeningHead.tips[1])
    ensures IsLine(OpeningHead.tips[2]) && IsLine(OpeningHead.tips[3])
  {
    TipsAreLines0();
  }

  /** Proof helper: the last two tips of one head, proved apart from the rest to keep each proof small. */
  lemma TipsAreLines0()
    ensures |OpeningHead.tips| == 4 && IsLine(OpeningHead.tips[2]) && IsLine(OpeningHead.tips[3])
  {
  }

  /** Proof helper: the problem head's title, duration and tips are single lines. */
  lemma HeadLines1()
    ensures IsLine(ProblemHead.title) && IsLine(ProblemHead.duration) && |ProblemHead.tips| == 4
    ensures IsLine(ProblemHead.tips[0]) && IsLine(ProblemHead.tips[1])
    ensures IsLine(ProblemHead.tips[2]) && IsLine(ProblemHead.tips[3])
  {
    TipsAreLines1();
  }

  /** Proof helper: the last two tips of one head, proved apart from the rest to keep each proof small. */
  lemma TipsAreLines1()
    ensures |ProblemHead.tips| == 4 && IsLine(ProblemHead.tips[2]) && IsLine(ProblemHead.tips[3])
  {
  }

  /** Proof helper: the solution head's title, duration and tips are single lines. */
  lemma HeadLines2()
    ensures IsLine(SolutionHead.title) && IsLine(SolutionHead.duration) && |SolutionHead.tips| == 4
    ensures IsLine(SolutionHead.tips[0]) && IsLine(SolutionHead.tips[1])
    ensures IsLine(SolutionHead.tips[2]) && IsLine(SolutionHead.tips[3])
  {
    TipsAreLines2();
  }

  /** Proof helper: the last two tips of one head, proved apart from the rest to keep each proof small. */
  lemma TipsAreLines2()
    ensures |SolutionHead.tips| == 4 && IsLine(SolutionHead.tips[2]) && IsLine(SolutionHead.tips[3])
  {
  }

  /** Proof helper: the value head's title, duration and tips are single lines. */
  lemma HeadLines3()
    ensures IsLine(ValueHead.title) && IsLine(ValueHead.duration) && |ValueHead.tips| == 4
    ensures IsLine(ValueHead.tips[0]) && IsLine(ValueHead.tips[1])
    ensures IsLine(ValueHead.tips[2]) && IsLine(ValueHead.tips[3])
  {
    TipsAreLines3();
  }

  /** Proof helper: the last two tips of one head, proved apart from the rest to keep each proof small. */
  lemma TipsAreLines3()
    ensures |ValueHead.tips| == 4 && IsLine(ValueHead.tips[2]) && IsLine(ValueHead.tips[3])
  {
  }

  /** Proof helper: the objections head's title, duration and tips are single lines. */
  lemma HeadLines4()
    ensures IsLine(ObjectionsHead.title) && IsLine(ObjectionsHead.duration) && |ObjectionsHead.tips| == 4
    ensures IsLine(ObjectionsHead.tips[0]) && IsLine(ObjectionsHead.tips[1])
    ensures IsLine(ObjectionsHead.tips[2]) && IsLine(ObjectionsHead.tips[3])
  {
    TipsAreLines4();
  }

  /** Proof helper: the last two tips of one head, proved apart from the rest to keep each proof small. */
  lemma TipsAreLines4()
    ensures |ObjectionsHead.tips| == 4 && IsLine(ObjectionsHead.tips[2]) && IsLine(ObjectionsHead.tips[3])
  {
  }

  /** Proof helper: the closing head's title, duration and tips are single lines. */
  lemma HeadLines5()
    ensures IsLine(ClosingHead.title) && IsLine(ClosingHead.duration) && |ClosingHead.tips| == 4
    ensures IsLine(ClosingHead.tips[0]) && IsLine(ClosingHead.tips[1])
    ensures IsLine(ClosingHead.tips[2]) && IsLine(ClosingHead.tips[3])
  {
    TipsAreLines5();
  }

  /** Proof helper: the last two tips of one head, proved apart from the rest to keep each proof small. */
  lemma TipsAreLines5()
    ensures |ClosingHead.tips| == 4 && IsLine(ClosingHead.tips[2]) && IsLine(ClosingHead.tips[3])
  {
  }

  /** A section whose title, duration and tips are single lines, with at least one tip. */
  predicate SingleLineHead(s: PitchSection) {
    IsLine(s.title) && IsLine(s.duration) && |s.tips| > 0 && forall j :: 0 <= j < |s.tips| ==> IsLine(s.tips[j])
  }

  /** The lines of every section, one section after the other. */
  function AllSectionLines(secs: seq<PitchSection>): seq<string> {
    if secs == [] then [] else SectionLines(secs[0]) + AllSectionLines(secs[1..])
  }

  /**
   * An export of sections with single-line heads reads back as the sections' lines,
   * section after section in catalogue order.
   */
  lemma {:induction false} ExportLines(secs: seq<PitchSection>)
    requires |secs| > 0 && forall i :: 0 <= i < |secs| ==> SingleLineHead(secs[i])
    ensures Split(FullScript(secs), NL) == AllSectionLines(secs)
  {
    FullScriptLines(secs);
    BlocksLines(secs);
  }

  lemma {:induction false} BlocksLines(secs: seq<PitchSection>)
    requires forall i :: 0 <= i < |secs| ==> SingleLineHead(secs[i])
    ensures SplitEach(Blocks(secs), NL) == AllSectionLines(secs)
  {
    if secs != [] {
      BlockLines(secs[0]);
      assert Blocks(secs)[1..] == Blocks(secs[1..]);
      BlocksLines(secs[1..]);
    }
  }

  /** Each block of the component's own export reads back as its section's lines. */
  lemma ScriptBlockLines(inp: Inputs, i: nat)
    requires i < 6
    ensures |ScriptSections(inp)| == 6
    ensures Split(Block(ScriptSections(inp)[i]), NL) == SectionLines(ScriptSections(inp)[i])
  {
    CatalogueBlockLines(SourceCopy, inp, i);
  }

  /** The component's own export, read back line by line: the six sections' lines in catalogue order. */
  lemma ScriptLines(inp: Inputs)
    ensures Split(FullScript(ScriptSections(inp)), NL) == AllSectionLines(ScriptSections(inp))
  {
    CatalogueLines(SourceCopy, inp);
  }

  lemma ScriptHeadsAreLines(inp: Inputs)
    ensures |ScriptSections(inp)| == 6
    ensures forall i :: 0 <= i < 6 ==> SingleLineHead(ScriptSections(inp)[i])
  {
    HeadsAreLines(SourceCopy, inp);
  }

  /** Proof helper: a block of the catalogue, for any prose, reads back as its section's lines. */
  lemma CatalogueBlockLines(c: SectionCopy, inp: Inputs, i: nat)
    requires i < 6
    ensures |PitchSections(c, inp)| == 6
    ensures Split(Block(PitchSections(c, inp)[i]), NL) == SectionLines(PitchSections(c, inp)[i])
  {
    HeadsAreLines(c, inp);
    BlockLines(PitchSections(c, inp)[i]);
  }

  /** Proof helper: the catalogue's export, for any prose, reads back as its sections' lines. */
  lemma CatalogueLines(c: SectionCopy, inp: Inputs)
    ensures Split(FullScript(PitchSections(c, inp)), NL) == AllSectionLines(PitchSections(c, inp))
  {
    HeadsAreLines(c, inp);
    ExportLines(PitchSections(c, inp));
  }

  /** Proof helper: the catalogue's heads, for any prose, are single lines. */
  lemma HeadsAreLines(c: SectionCopy, inp: Inputs)
    ensures |PitchSections(c, inp)| == 6
    ensures forall i :: 0 <= i < 6 ==> SingleLineHead(PitchSections(c, inp)[i])
  {
    forall i | 0 <= i < 6
      ensures SingleLineHead(PitchSections(c, inp)[i])
    {
      CatalogueHeadsAreLines(i);
    }
  }

  /**
   * The export, section by section: one section gives its block alone; more give the
   * first block, a newline and the export of the rest. So the export is as long as its
   * blocks plus one separating newline between neighbours.
   */
  lemma FullScriptLength(secs: seq<PitchSection>)
    requires |secs| > 0
    ensures |secs| == 1 ==> FullScript(secs) == Block(secs[0])
    ensures |secs| > 1 ==> FullScript(secs) == Block(secs[0]) + "\n" + FullScript(secs[1..])
    ensures |FullScript(secs)| == TotalLength(Blocks(secs)) + |secs| - 1
  {
    assert Blocks(secs)[1..] == Blocks(secs[1..]);
  }

  // ---------------------------------------------------------------------------
  // The download file name
  // ---------------------------------------------------------------------------

  /**
   * `.replace(/\s+/g, '-')` read left to right: a whitespace character that starts a
   * run writes one "-", the rest of the run writes nothing, every other character
   * is copied. `inRun` says that the character before `s` was whitespace.
   */
  function CollapseSpaces(s: string, inRun: bool): (r: string)
    ensures forall i :: 0 <= i < |r| ==> !IsSpace(r[i])
    ensures IsLowered(s) ==> IsLowered(r)
  {
    if s == [] then []
    else if IsSpace(s[0]) then
      (if inRun then CollapseSpaces(s[1..], true) else "-" + CollapseSpaces(s[1..], true))
    else [s[0]] + CollapseSpaces(s[1..], false)
  }

  /**
   * `productService.toLowerCase().replace(/\s+/g, '-')`: no whitespace and no upper-case
   * letter left.
   */
  function Slug(productService: string): (slug: string)
    ensures forall i :: 0 <= i < |slug| ==> !IsSpace(slug[i]) && !IsUpper(slug[i])
  {
    CollapseSpaces(Lower(productService), false)
  }

  /** `sales-pitch-script-<slug>.txt`: the `download` attribute of the anchor. */
  function Filename(productService: string): (name: string)
    ensures |name| == 23 + |Slug(productService)|
    ensures name[..19] == "sales-pitch-script-" && name[|name| - 4..] == ".txt"
    ensures name[19..|name| - 4] == Slug(productService)
    ensures forall i :: 0 <= i < |name| ==> !IsSpace(name[i]) && !IsUpper(name[i])
  {
    var slug := Slug(productService);
    assert forall i :: 0 <= i < |slug| ==> !IsSpace(slug[i]) && !IsUpper(slug[i]);
    "sales-pitch-script-" + slug + ".txt"
  }

  /** A slug is never longer than the product name: a run of whitespace shrinks to one hyphen. */
  lemma SlugNotLonger(productService: string)
    ensures |Slug(productService)| <= |productService|
  {
    CollapseNotLonger(Lower(productService), false);
  }

  lemma {:induction false} CollapseNotLonger(s: string, inRun: bool)
    ensures |CollapseSpaces(s, inRun)| <= |s|
  {
    if s != [] {
      CollapseNotLonger(s[1..], IsSpace(s[0]));
    }
  }

  /** Text with no whitespace passes through unchanged. */
  lemma {:induction false} CollapseWithoutSpaces(s: string, inRun: bool)
    requires forall i :: 0 <= i < |s| ==> !IsSpace(s[i])
    ensures CollapseSpaces(s, inRun) == s
  {
    if s != [] {
      CollapseWithoutSpaces(s[1..], false);
      assert [s[0]] + s[1..] == s;
    }
  }

  /** A maximal run of whitespace becomes exactly one "-" (none when it continues a run). */
  lemma {:induction false} CollapseRun(w: string, y: string)
    requires |w| > 0 && forall i :: 0 <= i < |w| ==> IsSpace(w[i])
    requires y == [] || !IsSpace(y[0])
    ensures CollapseSpaces(w + y, false) == "-" + CollapseSpaces(y, false)
    ensures CollapseSpaces(w + y, true) == CollapseSpaces(y, false)
  {
    assert (w + y)[1..] == w[1..] + y;
    if |w| == 1 {
      assert w[1..] + y == y;
      if y != [] {
        assert !IsSpace(y[0]);
      }
    } else {
      CollapseRun(w[1..], y);
    }
  }

  /** Text that ends in a non-space collapses independently of what follows it. */
  lemma {:induction false} CollapseAppend(x: string, y: string, inRun: bool)
    requires |x| > 0 && !IsSpace(x[|x| - 1])
    ensures CollapseSpaces(x + y, inRun) == CollapseSpaces(x, inRun) + CollapseSpaces(y, false)
  {
    assert (x + y)[1..] == x[1..] + y;
    if |x| == 1 {
      assert x[1..] + y == y;
      assert CollapseSpaces(x, inRun) == [x[0]] + CollapseSpaces([], false);
    } else {
      CollapseAppend(x[1..], y, IsSpace(x[0]));
    }
  }

  /** Slugging a slug changes nothing. */
  lemma SlugIdempotent(productService: string)
    ensures Slug(Slug(productService)) == Slug(productService)
  {
    var s := Slug(productService);
    LowerOfLowered(s);
    CollapseWithoutSpaces(s, false);
  }

  /** Words separated by single spaces come out separated by single hyphens. */
  lemma {:induction false} CollapseWords(words: seq<string>)
    requires |words| > 0
    requires forall i :: 0 <= i < |words| ==> |words[i]| > 0 && forall j :: 0 <= j < |words[i]| ==> !IsSpace(words[i][j])
    ensures CollapseSpaces(Join(words, " "), false) == Join(words, "-")
  {
    if |words| == 1 {
      CollapseWithoutSpaces(words[0], false);
    } else {
      var rest := Join(words[1..], " ");
      CollapseWords(words[1..]);
      assert rest[..|words[1]|] == words[1];
      assert IsSpace(' ') && " " == [' '];
      CollapseWordStep(words[0], ' ', rest, Join(words[1..], "-"));
    }
  }

  /** One word, one whitespace character and collapsed text that starts with a non-space. */
  lemma CollapseWordStep(w: string, sp: char, rest: string, restOut: string)
    requires |w| > 0 && forall j :: 0 <= j < |w| ==> !IsSpace(w[j])
    requires IsSpace(sp) && |rest| > 0 && !IsSpace(rest[0])
    requires CollapseSpaces(rest, false) == restOut
    ensures CollapseSpaces(w + [sp] + rest, false) == w + "-" + restOut
  {
    var gap := [sp] + rest;
    assert w + [sp] + rest == w + gap;
    CollapseRun([sp], rest);
    CollapseAppend(w, gap, false);
    CollapseWithoutSpaces(w, false);
  }

  /** Each word lowered. */
  function LowerEach(words: seq<string>): (r: seq<string>)
    ensures |r| == |words|
    ensures forall i :: 0 <= i < |words| ==> r[i] == Lower(words[i])
  {
    seq(|words|, i requires 0 <= i < |words| => Lower(words[i]))
  }

  lemma {:induction false} LowerJoin(words: seq<string>, sep: string)
    ensures Lower(Join(words, sep)) == Join(LowerEach(words), Lower(sep))
  {
    if |words| >= 2 {
      var rest := Join(words[1..], sep);
      LowerAppend(words[0] + sep, rest);
      LowerAppend(words[0], sep);
      LowerJoin(words[1..], sep);
      assert LowerEach(words)[1..] == LowerEach(words[1..]);
    }
  }

  /**
   * A product name made of words separated by single spaces slugs to the lowered
   * words separated by single hyphens; every other character (such as '&') is kept.
   */
  lemma SlugWords(words: seq<string>)
    requires |words| > 0
    requires forall i :: 0 <= i < |words| ==> |words[i]| > 0 && forall j :: 0 <= j < |words[i]| ==> !IsSpace(words[i][j])
    ensures Slug(Join(words, " ")) == Join(LowerEach(words), "-")
  {
    LowerJoin(words, " ");
    assert Lower(" ") == " ";
    CollapseWords(LowerEach(words));
  }

  /**
   * Nothing is trimmed: a whitespace character at either end of the product name
   * becomes a hyphen at that end of the slug.
   */
  lemma SlugKeepsEdges(word: string, sp: char)
    requires |word| > 0 && forall j :: 0 <= j < |word| ==> !IsSpace(word[j])
    requires IsSpace(sp)
    ensures Slug([sp] + word + [sp]) == "-" + Lower(word) + "-"
  {
    LowerPadded(word, sp);
    CollapsePadded(Lower(word), sp);
  }

  /**
   * Nothing is trimmed, for any non-empty product name: a slug starts with a hyphen
   * exactly where the name starts with whitespace and otherwise with the name's first
   * character lowered, and likewise at the end.
   */
  lemma SlugEdges(productService: string)
    requires |productService| > 0
    ensures |Slug(productService)| > 0
    ensures IsSpace(productService[0]) ==> Slug(productService)[0] == '-'
    ensures !IsSpace(productService[0]) ==> Slug(productService)[0] == LowerChar(productService[0])
    ensures IsSpace(productService[|productService| - 1]) ==> Slug(productService)[|Slug(productService)| - 1] == '-'
    ensures !IsSpace(productService[|productService| - 1]) ==>
      Slug(productService)[|Slug(productService)| - 1] == LowerChar(productService[|productService| - 1])
  {
    var low := Lower(productService);
    assert low[0] == LowerChar(productService[0]);
    assert low[|low| - 1] == LowerChar(productService[|productService| - 1]);
    CollapseFirst(low);
    if IsSpace(low[|low| - 1]) {
      CollapseEndsWithHyphen(low, false);
    } else {
      CollapseKeepsLast(low, false);
    }
  }

  /** The first character of a collapsed text: a hyphen for whitespace, else the character. */
  lemma CollapseFirst(s: string)
    requires |s| > 0
    ensures |CollapseSpaces(s, false)| > 0
    ensures CollapseSpaces(s, false)[0] == if IsSpace(s[0]) then '-' else s[0]
  {
  }

  /** Text that is all whitespace: nothing is left of it inside a run. */
  lemma {:induction false} CollapseSpacesInRun(s: string)
    requires forall i :: 0 <= i < |s| ==> IsSpace(s[i])
    ensures CollapseSpaces(s, true) == ""
  {
    if s != [] {
      CollapseSpacesInRun(s[1..]);
    }
  }

  /**
   * Text that ends in whitespace ends in a hyphen once collapsed, unless it is all
   * whitespace continuing an earlier run.
   */
  lemma {:induction false} CollapseEndsWithHyphen(s: string, inRun: bool)
    requires |s| > 0 && IsSpace(s[|s| - 1])
    requires inRun ==> exists k :: 0 <= k < |s| && !IsSpace(s[k])
    ensures |CollapseSpaces(s, inRun)| > 0
    ensures CollapseSpaces(s, inRun)[|CollapseSpaces(s, inRun)| - 1] == '-'
  {
    var rest := s[1..];
    if |s| > 1 {
      assert rest[|rest| - 1] == s[|s| - 1];
    }
    if !IsSpace(s[0]) {
      CollapseEndsWithHyphen(rest, false);
    } else if inRun {
      var k :| 0 <= k < |s| && !IsSpace(s[k]);
      assert rest[k - 1] == s[k];
      CollapseEndsWithHyphen(rest, true);
    } else if |s| == 1 {
      assert CollapseSpaces(s, false) == "-" + CollapseSpaces([], true);
    } else if k :| 0 <= k < |rest| && !IsSpace(rest[k]) {
      CollapseEndsWithHyphen(rest, true);
    } else {
      CollapseSpacesInRun(rest);
    }
  }

  /** Text that ends in a non-space keeps that character last. */
  lemma {:induction false} CollapseKeepsLast(s: string, inRun: bool)
    requires |s| > 0 && !IsSpace(s[|s| - 1])
    ensures |CollapseSpaces(s, inRun)| > 0
    ensures CollapseSpaces(s, inRun)[|CollapseSpaces(s, inRun)| - 1] == s[|s| - 1]
  {
    if |s| > 1 {
      var rest := s[1..];
      assert rest[|rest| - 1] == s[|s| - 1];
      CollapseKeepsLast(rest, IsSpace(s[0]));
    }
  }

  lemma LowerPadded(word: string, sp: char)
    requires IsSpace(sp)
    ensures Lower([sp] + word + [sp]) == [sp] + (Lower(word) + [sp])
  {
    LowerAppend([sp] + word, [sp]);
    LowerAppend([sp], word);
    assert Lower([sp]) == [sp];
  }

  lemma CollapsePadded(w: string, sp: char)
    requires |w| > 0 && forall j :: 0 <= j < |w| ==> !IsSpace(w[j])
    requires IsSpace(sp)
    ensures CollapseSpaces([sp] + (w + [sp]), false) == "-" + w + "-"
  {
    var tail := w + [sp];
    assert tail[0] == w[0];
    CollapseRun([sp], tail);
    CollapseWordThenSpace(w, sp);
    assert CollapseSpaces([sp] + tail, false) == "-" + (w + "-");
  }

  /** A word followed by one whitespace character: the word and a hyphen. */
  lemma CollapseWordThenSpace(w: string, sp: char)
    requires |w| > 0 && forall j :: 0 <= j < |w| ==> !IsSpace(w[j])
    requires IsSpace(sp)
    ensures CollapseSpaces(w + [sp], false) == w + "-"
  {
    CollapseOneSpace(sp);
    CollapseAppend(w, [sp], false);
    CollapseWithoutSpaces(w, false);
  }

  /** A lone whitespace character becomes a hyphen. */
  lemma CollapseOneSpace(sp: char)
    requires IsSpace(sp)
    ensures CollapseSpaces([sp], false) == "-"
  {
    assert [sp][1..] == [];
  }
}

/** The prompts `RequirementsBuilder` (`prompt_builder.py`) sends to the text
    model: the single-screen prompt built from one analysis and a template,
    the multi-screen prompt, the refinement prompt, the built-in template and
    its fallback, and where `save_output` writes. */
module Prompts {
  import opened Text
  import opened Errors
  import opened Files
  import opened Gateway
  import opened Components

  /** `RequirementsBuilder.SYSTEM_PROMPT`, sent as the system instruction
      with every request. */
  const SystemPrompt: string :=
    @"You are an expert software requirements analyst and technical writer.
Your task is to convert UI mockup analysis into clear, actionable requirements and implementation guidance.
Be specific, structured, and focus on both functional and technical aspects."

  // ----- Inputs -----

  /** An analysis mapping as the builder reads it: each entry may be absent
      (`dict.get` then supplies the default). The components are the mapping
      `category -> items`, in its iteration order. */
  datatype AnalysisDict = AnalysisDict(
    imageName: Option<string>,
    rawAnalysis: Option<string>,
    parsedComponents: Option<seq<Category>>)

  /** A template configuration, with the entries the builder reads. */
  datatype TemplateConfig = TemplateConfig(
    name: Option<string>,
    description: Option<string>,
    sections: Option<seq<string>>,
    techStack: Option<seq<string>>)

  /** `_get_default_template`. */
  function DefaultTemplate(): TemplateConfig {
    TemplateConfig(
      Some("Default Template"),
      Some("Basic requirements structure"),
      Some(["UI Components Overview", "Functional Requirements", "Technical Recommendations", "Implementation Guide"]),
      None)
  }

  /** Where `_load_template` looks for template `name`: joined under the
      templates directory, unless the name is itself an absolute path, which
      a path join keeps as it is. */
  function TemplatePath(templatesDir: string, name: string): string {
    if name != [] && name[0] == '/' then name + ".yaml"
    else templatesDir + "/" + name + ".yaml"
  }

  /** A relative template name is looked up inside the templates directory;
      an absolute one is looked up where it points, whatever the directory. */
  lemma TemplatePathPlacement(templatesDir: string, name: string)
    ensures EndsWith(TemplatePath(templatesDir, name), ".yaml")
    ensures (name == [] || name[0] != '/') ==> StartsWith(TemplatePath(templatesDir, name), templatesDir + "/")
    ensures name != [] && name[0] == '/' ==>
      StartsWith(TemplatePath(templatesDir, name), name) &&
      forall otherDir :: TemplatePath(otherDir, name) == TemplatePath(templatesDir, name)
  {
    if name != [] && name[0] == '/' {
      Ends(name, ".yaml");
    } else {
      MiddleOccurs(templatesDir + "/", name, ".yaml");
    }
  }

  /** `_load_template`: the built-in template when no file exists at the
      path, otherwise the file's contents read by `parse` (the YAML loader);
      opening a directory raises. */
  function LoadTemplate(fs: FileSystem, templatesDir: string, name: string, parse: Blob -> TemplateConfig): (r: Result<TemplateConfig>)
    ensures !Exists(fs, TemplatePath(templatesDir, name)) ==> r == Ok(DefaultTemplate())
    ensures r.Err? <==> TemplatePath(templatesDir, name) in fs.dirs - fs.files.Keys
    ensures TemplatePath(templatesDir, name) in fs.files ==>
      r == Ok(parse(fs.files[TemplatePath(templatesDir, name)]))
  {
    var path := TemplatePath(templatesDir, name);
    if !Exists(fs, path) then Ok(DefaultTemplate())
    else if path in fs.files then Ok(parse(fs.files[path]))
    else Err(IsADirectory(path))
  }

  // ----- Category labels -----

  /** ASCII letters, the characters `str.title` treats as cased here. */
  predicate IsLetter(c: char) {
    'a' <= c <= 'z' || 'A' <= c <= 'Z'
  }

  predicate IsUpper(c: char) {
    'A' <= c <= 'Z'
  }

  function UpperChar(c: char): char {
    if 'a' <= c <= 'z' then (c as int - 32) as char else c
  }

  /** `s.replace(from, to)` for single characters. */
  function Replace(s: string, from: char, to: char): (r: string)
    ensures |r| == |s|
    ensures forall i :: 0 <= i < |s| ==> r[i] == (if s[i] == from then to else s[i])
  {
    seq(|s|, i requires 0 <= i < |s| => if s[i] == from then to else s[i])
  }

  /** `s.title()`: a letter right after a letter is lowered, any other
      letter is raised; other characters are kept. */
  function Title(s: string): (r: string)
    ensures |r| == |s|
  {
    seq(|s|, i requires 0 <= i < |s| =>
      if i > 0 && IsLetter(s[i - 1]) then LowerChar(s[i]) else UpperChar(s[i]))
  }

  /** What `title` does, letter by letter: every character keeps its letter
      (up to case) and its letterhood, and a letter is upper case exactly
      when it starts a run of letters. */
  lemma TitleCases(s: string)
    ensures var r := Title(s);
      forall i :: 0 <= i < |s| ==>
        LowerChar(r[i]) == LowerChar(s[i]) && (IsLetter(r[i]) <==> IsLetter(s[i])) &&
        (IsUpper(r[i]) <==> IsLetter(s[i]) && (i == 0 || !IsLetter(s[i - 1])))
  {
    var r := Title(s);
    forall i | 0 <= i < |s|
      ensures LowerChar(r[i]) == LowerChar(s[i]) && (IsLetter(r[i]) <==> IsLetter(s[i]))
      ensures IsUpper(r[i]) <==> IsLetter(s[i]) && (i == 0 || !IsLetter(s[i - 1]))
    {
      if i > 0 && IsLetter(s[i - 1]) {
        assert r[i] == LowerChar(s[i]);
      } else {
        assert r[i] == UpperChar(s[i]);
      }
    }
  }

  /** Title-casing twice is title-casing once. */
  lemma TitleIdempotent(s: string)
    ensures Title(Title(s)) == Title(s)
  {
    var r := Title(s);
    TitleCases(s);
    forall i | 0 <= i < |s|
      ensures Title(r)[i] == r[i]
    {
      if i > 0 {
        assert IsLetter(r[i - 1]) <==> IsLetter(s[i - 1]);
      }
    }
  }

  /** The label line of a category: `key.replace('_', ' ').title()`. */
  function Label(key: string): (text: string)
    ensures |text| == |key| && '_' !in text
  {
    Title(Replace(key, '_', ' '))
  }

  /** The labels of the parser's categories. */
  lemma CategoryLabels()
    ensures Label("ui_elements") == "Ui Elements"
  {
    assert Replace("ui_elements", '_', ' ') == "ui elements";
  }

  // ----- The single-screen prompt -----

  /** The list line of one entry. */
  function BulletLine(x: string): string {
    "- " + x + "\n"
  }

  function BulletLines(xs: seq<string>): (lines: seq<string>)
    ensures |lines| == |xs|
  {
    seq(|xs|, j requires 0 <= j < |xs| => BulletLine(xs[j]))
  }

  /** One `- x` line per entry, in order. */
  function Bullets(xs: seq<string>): string {
    Concat(BulletLines(xs))
  }

  /** The block of one category: nothing when it has no items, otherwise its
      label line followed by its items. */
  function CategoryBlock(c: Category): string {
    if c.items == [] then "" else LabelLine(c.key) + Bullets(c.items)
  }

  /** The line that opens a category's block. */
  function LabelLine(key: string): string {
    "\n" + Label(key) + ":\n"
  }

  function CategoryBlocks(cs: seq<Category>): (blocks: seq<string>)
    ensures |blocks| == |cs|
  {
    seq(|cs|, k requires 0 <= k < |cs| => CategoryBlock(cs[k]))
  }

  /** The first line of the prompt, which names the output format. */
  function OpeningLine(outputFormat: string): string {
    "Convert this UI mockup analysis into structured " + outputFormat + " requirements."
  }

  function ImageLine(imageName: string): string {
    "**Image Analyzed**: " + imageName
  }

  function AnalysisLines(rawAnalysis: string): string {
    "**Vision Analysis**:\n" + rawAnalysis
  }

  /** The opening of the prompt, up to the components, as its pieces. */
  function OpeningParts(outputFormat: string, imageName: string, rawAnalysis: string): seq<string> {
    [OpeningLine(outputFormat), "\n\n", ImageLine(imageName), "\n\n", AnalysisLines(rawAnalysis),
     "\n\n**Extracted Components**:\n"]
  }

  function Opening(outputFormat: string, imageName: string, rawAnalysis: string): string {
    Concat(OpeningParts(outputFormat, imageName, rawAnalysis))
  }

  /** The header of the template part. */
  function StructureHeader(templateName: string): string {
    "\n\n**Output Structure** (use " + templateName + " format):\n"
  }

  const SectionsLine: string := "Please organize the requirements into these sections:\n"

  const TechHeader: string := "\n**Recommended Tech Stack**:\n"

  /** The technology block: present only for a non-empty list. */
  function TechBlock(tech: seq<string>): string {
    if tech == [] then "" else TechHeader + Bullets(tech)
  }

  /** The fixed closing instructions. */
  const ClosingInstructions: string :=
    "\n\nGenerate clear, actionable requirements that a developer can use to implement this UI.\n" +
    "Include specific details about:\n" +
    "1. What components need to be built\n" +
    "2. How they should behave\n" +
    "3. What data they need\n" +
    "4. Any important UX considerations\n\n"

  function FinalSentence(outputFormat: string): string {
    "Format the output as well-structured " + outputFormat + "."
  }

  /** The end of the prompt: the instructions, then the format sentence. */
  function Closing(outputFormat: string): string {
    ClosingInstructions + FinalSentence(outputFormat)
  }

  /** The entries `_build_prompt` reads, with their defaults. */
  function ImageNameOf(a: AnalysisDict): string { a.imageName.GetOr("mockup") }
  function RawOf(a: AnalysisDict): string { a.rawAnalysis.GetOr("") }
  function ComponentsOf(a: AnalysisDict): seq<Category> { a.parsedComponents.GetOr([]) }
  function TemplateNameOf(t: TemplateConfig): string { t.name.GetOr("Default") }
  function SectionsOf(t: TemplateConfig): seq<string> { t.sections.GetOr([]) }
  function TechOf(t: TemplateConfig): seq<string> { t.techStack.GetOr([]) }

  /** The prompt `_build_prompt` returns: the opening, the component
      blocks, the template's sections, its technology block and the closing. */
  function PromptText(a: AnalysisDict, t: TemplateConfig, outputFormat: string): string {
    Opening(outputFormat, ImageNameOf(a), RawOf(a)) +
    Concat(CategoryBlocks(ComponentsOf(a))) +
    StructureHeader(TemplateNameOf(t)) + SectionsLine + Bullets(SectionsOf(t)) +
    TechBlock(TechOf(t)) +
    Closing(outputFormat)
  }

  /** One more element of a sequence adds its block at the end. */
  lemma ConcatGrows(blocks: seq<string>, i: nat)
    requires i < |blocks|
    ensures Concat(blocks[..i + 1]) == Concat(blocks[..i]) + blocks[i]
  {
    assert blocks[..i + 1][..i] == blocks[..i];
  }

  /** The inner loops of `_build_prompt`: one `- x` line per entry. */
  method AppendBullets(prompt: string, xs: seq<string>) returns (out: string)
    ensures out == prompt + Bullets(xs)
  {
    out := prompt;
    ghost var lines := BulletLines(xs);
    for j := 0 to |xs|
      invariant out == prompt + Concat(lines[..j])
    {
      ConcatGrows(lines, j);
      out := out + "- " + xs[j] + "\n";
    }
    assert lines[..|xs|] == lines;
  }

  /** The component loop of `_build_prompt`: a label line and the items of
      every category that has items. */
  method AppendComponents(prompt: string, components: seq<Category>) returns (out: string)
    ensures out == prompt + Concat(CategoryBlocks(components))
  {
    out := prompt;
    ghost var blocks := CategoryBlocks(components);
    for k := 0 to |components|
      invariant out == prompt + Concat(blocks[..k])
    {
      ConcatGrows(blocks, k);
      var items := components[k].items;
      if items != [] {
        out := out + LabelLine(components[k].key);
        out := AppendBullets(out, items);
      }
    }
    assert blocks[..|components|] == blocks;
  }

  /** `_build_prompt`. */
  method BuildPrompt(a: AnalysisDict, t: TemplateConfig, outputFormat: string) returns (prompt: string)
    ensures prompt == PromptText(a, t, outputFormat)
  {
    var imageName := ImageNameOf(a);
    var rawAnalysis := RawOf(a);
    var components := ComponentsOf(a);
    prompt := Opening(outputFormat, imageName, rawAnalysis);
    prompt := AppendComponents(prompt, components);
    var templateName := TemplateNameOf(t);
    var sections := SectionsOf(t);
    var tech := TechOf(t);
    prompt := prompt + StructureHeader(templateName);
    prompt := prompt + SectionsLine;
    prompt := AppendBullets(prompt, sections);
    prompt := AppendTech(prompt, tech);
    prompt := prompt + Closing(outputFormat);
  }

  /** The technology part of `_build_prompt`: the header and one line per
      entry, only when the list is not empty. */
  method AppendTech(prompt: string, tech: seq<string>) returns (out: string)
    ensures out == prompt + TechBlock(tech)
  {
    out := prompt;
    if tech != [] {
      out := out + TechHeader;
      out := AppendBullets(out, tech);
      assert out == prompt + (TechHeader + Bullets(tech));
    }
  }

  // ----- What the single-screen prompt contains -----

  /** The prompt as its seven parts, in order. */
  function PromptParts(a: AnalysisDict, t: TemplateConfig, outputFormat: string): (parts: seq<string>)
    ensures |parts| == 7
  {
    [Opening(outputFormat, ImageNameOf(a), RawOf(a)),
     Concat(CategoryBlocks(ComponentsOf(a))),
     StructureHeader(TemplateNameOf(t)),
     SectionsLine,
     Bullets(SectionsOf(t)),
     TechBlock(TechOf(t)),
     Closing(outputFormat)]
  }

  /** Seven blocks in a row are their concatenation. */
  lemma ConcatSeven(p0: string, p1: string, p2: string, p3: string, p4: string, p5: string, p6: string)
    ensures Concat([p0, p1, p2, p3, p4, p5, p6]) == p0 + p1 + p2 + p3 + p4 + p5 + p6
  {
    var parts := [p0, p1, p2, p3, p4, p5, p6];
    assert parts[..0] == [];
    ConcatGrows(parts, 0);
    ConcatGrows(parts, 1);
    ConcatGrows(parts, 2);
    ConcatGrows(parts, 3);
    ConcatGrows(parts, 4);
    ConcatGrows(parts, 5);
    ConcatGrows(parts, 6);
    assert parts[..7] == parts;
  }

  lemma PromptIsParts(a: AnalysisDict, t: TemplateConfig, outputFormat: string)
    ensures PromptText(a, t, outputFormat) == Concat(PromptParts(a, t, outputFormat))
  {
    ConcatSeven(Opening(outputFormat, ImageNameOf(a), RawOf(a)),
      Concat(CategoryBlocks(ComponentsOf(a))),
      StructureHeader(TemplateNameOf(t)),
      SectionsLine,
      Bullets(SectionsOf(t)),
      TechBlock(TechOf(t)),
      Closing(outputFormat));
  }

  /** Part `k` of the prompt, whole, at its place in the prompt. */
  lemma PartInPrompt(a: AnalysisDict, t: TemplateConfig, outputFormat: string, k: nat)
    requires k < 7
    ensures var parts := PromptParts(a, t, outputFormat);
      Occurs(PromptText(a, t, outputFormat), parts[k], |Concat(parts[..k])|)
  {
    PromptIsParts(a, t, outputFormat);
    ConcatOccurs(PromptParts(a, t, outputFormat), k);
  }

  /** Order inside one part of the prompt is order in the prompt. */
  lemma PartOrder(a: AnalysisDict, t: TemplateConfig, outputFormat: string, k: nat, w1: string, w2: string)
    requires k < 7 && InOrder(PromptParts(a, t, outputFormat)[k], w1, w2)
    ensures InOrder(PromptText(a, t, outputFormat), w1, w2)
  {
    PromptIsParts(a, t, outputFormat);
    InOrderInBlock(PromptParts(a, t, outputFormat), k, w1, w2);
  }

  /** The prompt opens with the line naming the output format and ends with
      the sentence asking for that format. */
  lemma PromptFraming(a: AnalysisDict, t: TemplateConfig, outputFormat: string)
    ensures StartsWith(PromptText(a, t, outputFormat), OpeningLine(outputFormat))
    ensures EndsWith(PromptText(a, t, outputFormat), FinalSentence(outputFormat))
  {
    var parts := PromptParts(a, t, outputFormat);
    PromptIsParts(a, t, outputFormat);
    ConcatEnds(parts);
    ConcatEnds(OpeningParts(outputFormat, ImageNameOf(a), RawOf(a)));
    StartsWithin(PromptText(a, t, outputFormat), parts[0], OpeningLine(outputFormat));
    EndsWithin(PromptText(a, t, outputFormat), parts[6], FinalSentence(outputFormat));
  }

  /** The image name (by default `mockup`) comes first, then the vision
      analysis, both verbatim. */
  lemma PromptCarriesAnalysis(a: AnalysisDict, t: TemplateConfig, outputFormat: string)
    ensures InOrder(PromptText(a, t, outputFormat), ImageLine(ImageNameOf(a)), AnalysisLines(RawOf(a)))
  {
    var opening := OpeningParts(outputFormat, ImageNameOf(a), RawOf(a));
    OccursSelf(ImageLine(ImageNameOf(a)));
    OccursSelf(AnalysisLines(RawOf(a)));
    InOrderInConcat(opening, 2, ImageLine(ImageNameOf(a)), 0, 4, AnalysisLines(RawOf(a)), 0);
    PartOrder(a, t, outputFormat, 0, ImageLine(ImageNameOf(a)), AnalysisLines(RawOf(a)));
  }

  /** Line `j` of a list, at its place. */
  lemma BulletInList(xs: seq<string>, j: nat)
    requires j < |xs|
    ensures Occurs(Bullets(xs), BulletLine(xs[j]), |Concat(BulletLines(xs)[..j])|)
  {
    OccursSelf(BulletLine(xs[j]));
    OccursInConcat(BulletLines(xs), j, BulletLine(xs[j]), 0);
  }

  /** A list keeps its order. */
  lemma BulletsInOrder(xs: seq<string>, j1: nat, j2: nat)
    requires j1 < j2 < |xs|
    ensures InOrder(Bullets(xs), BulletLine(xs[j1]), BulletLine(xs[j2]))
  {
    OccursSelf(BulletLine(xs[j1]));
    OccursSelf(BulletLine(xs[j2]));
    InOrderInConcat(BulletLines(xs), j1, BulletLine(xs[j1]), 0, j2, BulletLine(xs[j2]), 0);
  }

  /** A list that follows a header shows every line after the header. */
  lemma HeaderThenBullets(header: string, xs: seq<string>, j: nat)
    requires j < |xs|
    ensures InOrder(header + Bullets(xs), header, BulletLine(xs[j]))
  {
    OccursSelf(header);
    OccursInPrefix(header, Bullets(xs), header, 0);
    BulletInList(xs, j);
    OccursInSuffix(header, Bullets(xs), BulletLine(xs[j]), |Concat(BulletLines(xs)[..j])|);
  }

  /** Categories are rendered in the mapping's order. */
  lemma CategoriesInOrder(a: AnalysisDict, t: TemplateConfig, outputFormat: string, k1: nat, k2: nat)
    requires k1 < k2 < |ComponentsOf(a)|
    ensures var cs := ComponentsOf(a);
      InOrder(PromptText(a, t, outputFormat), CategoryBlock(cs[k1]), CategoryBlock(cs[k2]))
  {
    var blocks := CategoryBlocks(ComponentsOf(a));
    OccursSelf(blocks[k1]);
    OccursSelf(blocks[k2]);
    InOrderInConcat(blocks, k1, blocks[k1], 0, k2, blocks[k2], 0);
    PartOrder(a, t, outputFormat, 1, blocks[k1], blocks[k2]);
  }

  /** Inside a category's block, every item follows the label line. */
  lemma BlockItemListed(c: Category, j: nat)
    requires j < |c.items|
    ensures InOrder(CategoryBlock(c), LabelLine(c.key), BulletLine(c.items[j]))
  {
    HeaderThenBullets(LabelLine(c.key), c.items, j);
  }

  /** Inside a category's block: its label line, then its items in order. */
  lemma BlockItemsInOrder(c: Category, j1: nat, j2: nat)
    requires j1 < j2 < |c.items|
    ensures InOrder(CategoryBlock(c), LabelLine(c.key), BulletLine(c.items[j1]))
    ensures InOrder(CategoryBlock(c), BulletLine(c.items[j1]), BulletLine(c.items[j2]))
  {
    var heading := LabelLine(c.key);
    HeaderThenBullets(heading, c.items, j1);
    BulletsInOrder(c.items, j1, j2);
    OccursSelf(Bullets(c.items));
    OccursInSuffix(heading, Bullets(c.items), Bullets(c.items), 0);
    InOrderWithin(heading + Bullets(c.items), Bullets(c.items), |heading|, BulletLine(c.items[j1]), BulletLine(c.items[j2]));
  }

  /** A category with items shows its label line, then its items in order. */
  lemma CategoryItemsInOrder(a: AnalysisDict, t: TemplateConfig, outputFormat: string, k: nat, j1: nat, j2: nat)
    requires k < |ComponentsOf(a)|
    requires j1 < j2 < |ComponentsOf(a)[k].items|
    ensures var c := ComponentsOf(a)[k];
      InOrder(PromptText(a, t, outputFormat), LabelLine(c.key), BulletLine(c.items[j1])) &&
      InOrder(PromptText(a, t, outputFormat), BulletLine(c.items[j1]), BulletLine(c.items[j2]))
  {
    var c := ComponentsOf(a)[k];
    var blocks := CategoryBlocks(ComponentsOf(a));
    BlockItemsInOrder(c, j1, j2);
    InOrderInBlock(blocks, k, LabelLine(c.key), BulletLine(c.items[j1]));
    InOrderInBlock(blocks, k, BulletLine(c.items[j1]), BulletLine(c.items[j2]));
    PartOrder(a, t, outputFormat, 1, LabelLine(c.key), BulletLine(c.items[j1]));
    PartOrder(a, t, outputFormat, 1, BulletLine(c.items[j1]), BulletLine(c.items[j2]));
  }

  /** Every item of a category follows that category's label line. */
  lemma CategoryItemListed(a: AnalysisDict, t: TemplateConfig, outputFormat: string, k: nat, j: nat)
    requires k < |ComponentsOf(a)|
    requires j < |ComponentsOf(a)[k].items|
    ensures var c := ComponentsOf(a)[k];
      InOrder(PromptText(a, t, outputFormat), LabelLine(c.key), BulletLine(c.items[j]))
  {
    var c := ComponentsOf(a)[k];
    BlockItemListed(c, j);
    InOrderInBlock(CategoryBlocks(ComponentsOf(a)), k, LabelLine(c.key), BulletLine(c.items[j]));
    PartOrder(a, t, outputFormat, 1, LabelLine(c.key), BulletLine(c.items[j]));
  }

  /** The categories that have items, in order. */
  function NonEmpty(cs: seq<Category>): (kept: seq<Category>)
    ensures forall k :: 0 <= k < |kept| ==> kept[k].items != []
  {
    if cs == [] then []
    else NonEmpty(cs[..|cs| - 1]) + (if cs[|cs| - 1].items == [] then [] else [cs[|cs| - 1]])
  }

  lemma CategoryBlocksAppend(cs: seq<Category>, ds: seq<Category>)
    ensures CategoryBlocks(cs + ds) == CategoryBlocks(cs) + CategoryBlocks(ds)
  {
  }

  /** Categories without items contribute nothing: leaving them out of the
      mapping gives the same prompt. */
  lemma {:induction false} EmptyCategoriesVanish(cs: seq<Category>)
    ensures Concat(CategoryBlocks(NonEmpty(cs))) == Concat(CategoryBlocks(cs))
  {
    if cs != [] {
      var init := cs[..|cs| - 1];
      var last := cs[|cs| - 1];
      EmptyCategoriesVanish(init);
      assert cs == init + [last];
      CategoryBlocksAppend(init, [last]);
      ConcatAppend(CategoryBlocks(init), CategoryBlocks([last]));
      var tail := if last.items == [] then [] else [last];
      CategoryBlocksAppend(NonEmpty(init), tail);
      ConcatAppend(CategoryBlocks(NonEmpty(init)), CategoryBlocks(tail));
      assert Concat(CategoryBlocks([last])) == CategoryBlock(last) by {
        assert CategoryBlocks([last])[..0] == [];
      }
      if last.items != [] {
        assert CategoryBlocks(tail) == CategoryBlocks([last]);
      }
    }
  }

  lemma PromptWithoutEmptyCategories(a: AnalysisDict, t: TemplateConfig, outputFormat: string)
    ensures PromptText(a.(parsedComponents := Some(NonEmpty(ComponentsOf(a)))), t, outputFormat) ==
      PromptText(a, t, outputFormat)
  {
    EmptyCategoriesVanish(ComponentsOf(a));
  }

  /** Every section of the template is listed after the structure header. */
  lemma SectionAfterHeader(a: AnalysisDict, t: TemplateConfig, outputFormat: string, j: nat)
    requires j < |SectionsOf(t)|
    ensures InOrder(PromptText(a, t, outputFormat), StructureHeader(TemplateNameOf(t)), BulletLine(SectionsOf(t)[j]))
  {
    var sections := SectionsOf(t);
    var parts := PromptParts(a, t, outputFormat);
    PromptIsParts(a, t, outputFormat);
    BulletInList(sections, j);
    OccursSelf(parts[2]);
    InOrderInConcat(parts, 2, parts[2], 0, 4, BulletLine(sections[j]), |Concat(BulletLines(sections)[..j])|);
  }

  /** Each section is listed after the structure header, in template order. */
  lemma SectionsListed(a: AnalysisDict, t: TemplateConfig, outputFormat: string, j1: nat, j2: nat)
    requires j1 < j2 < |SectionsOf(t)|
    ensures var sections := SectionsOf(t);
      InOrder(PromptText(a, t, outputFormat), StructureHeader(TemplateNameOf(t)), BulletLine(sections[j1])) &&
      InOrder(PromptText(a, t, outputFormat), BulletLine(sections[j1]), BulletLine(sections[j2]))
  {
    var sections := SectionsOf(t);
    var parts := PromptParts(a, t, outputFormat);
    PromptIsParts(a, t, outputFormat);
    BulletInList(sections, j1);
    OccursSelf(parts[2]);
    InOrderInConcat(parts, 2, parts[2], 0, 4, BulletLine(sections[j1]), |Concat(BulletLines(sections)[..j1])|);
    BulletsInOrder(sections, j1, j2);
    InOrderInBlock(parts, 4, BulletLine(sections[j1]), BulletLine(sections[j2]));
  }

  /** The technology block is there exactly when the template lists a
      technology: dropping the entry changes the prompt exactly then. */
  lemma TechBlockIff(a: AnalysisDict, t: TemplateConfig, outputFormat: string)
    ensures PromptText(a, t, outputFormat) == PromptText(a, t.(techStack := None), outputFormat) <==>
      TechOf(t) == []
  {
    if TechOf(t) != [] {
      assert |PromptText(a, t, outputFormat)| > |PromptText(a, t.(techStack := None), outputFormat)|;
    }
  }

  /** A listed technology follows the tech header, which follows the sections. */
  lemma TechListed(a: AnalysisDict, t: TemplateConfig, outputFormat: string, j: nat)
    requires j < |TechOf(t)|
    ensures InOrder(PromptText(a, t, outputFormat), SectionsLine, TechHeader)
    ensures InOrder(PromptText(a, t, outputFormat), TechHeader, BulletLine(TechOf(t)[j]))
  {
    var tech := TechOf(t);
    var parts := PromptParts(a, t, outputFormat);
    PromptIsParts(a, t, outputFormat);
    assert parts[5] == TechHeader + Bullets(tech);
    OccursSelf(SectionsLine);
    OccursSelf(TechHeader);
    OccursInPrefix(TechHeader, Bullets(tech), TechHeader, 0);
    InOrderInConcat(parts, 3, SectionsLine, 0, 5, TechHeader, 0);
    HeaderThenBullets(TechHeader, tech, j);
    InOrderInBlock(parts, 5, TechHeader, BulletLine(tech[j]));
  }

  /** With the built-in template the prompt lists its four sections, in
      order, after the header naming it, and has no technology block. */
  lemma DefaultTemplatePrompt(a: AnalysisDict, outputFormat: string)
    ensures var t := DefaultTemplate();
      var prompt := PromptText(a, t, outputFormat);
      |SectionsOf(t)| == 4 && TechOf(t) == [] &&
      InOrder(prompt, StructureHeader("Default Template"), BulletLine("UI Components Overview")) &&
      InOrder(prompt, BulletLine("UI Components Overview"), BulletLine("Functional Requirements")) &&
      InOrder(prompt, BulletLine("Functional Requirements"), BulletLine("Technical Recommendations")) &&
      InOrder(prompt, BulletLine("Technical Recommendations"), BulletLine("Implementation Guide"))
  {
    var t := DefaultTemplate();
    SectionsListed(a, t, outputFormat, 0, 1);
    SectionsListed(a, t, outputFormat, 1, 2);
    SectionsListed(a, t, outputFormat, 2, 3);
  }

  // ----- The multi-screen prompt -----

  /** The name a screen is shown under: its image name, or `Screen <idx>`. */
  function ScreenName(a: AnalysisDict, idx: nat): string {
    a.imageName.GetOr("Screen " + Decimal(idx))
  }

  function ScreenHeading(idx: nat, name: string): string {
    "\n### Screen " + Decimal(idx) + ": " + name + "\n"
  }

  /** Screen `idx` (counting from 1): its heading, then its raw analysis. */
  function ScreenBlock(a: AnalysisDict, idx: nat): string {
    ScreenHeading(idx, ScreenName(a, idx)) + RawOf(a) + "\n"
  }

  function ScreenBlocks(analyses: seq<AnalysisDict>): (blocks: seq<string>)
    ensures |blocks| == |analyses|
  {
    seq(|analyses|, i requires 0 <= i < |analyses| => ScreenBlock(analyses[i], i + 1))
  }

  function MultiOpening(count: nat): string {
    "Convert these " + Decimal(count) + " " + ScreensIntro
  }

  const ScreensIntro: string :=
    "UI mockup analyses into comprehensive requirements for a multi-screen application.\n\n**Screens Analyzed**:\n"

  const MultiRequest: string :=
    @"

Please generate comprehensive requirements that:
1. Cover all screens and their relationships
2. Identify shared components and patterns
3. Define navigation and user flows
4. Specify data requirements across screens
5. Suggest overall architecture and tech stack

"

  const MarkdownRequest: string := "Format as well-structured markdown with clear sections."

  const MultiClosing: string := MultiRequest + MarkdownRequest

  /** `_build_multi_screen_prompt`, as a value. The template plays no part. */
  function MultiScreenText(analyses: seq<AnalysisDict>): string {
    MultiOpening(|analyses|) + Concat(ScreenBlocks(analyses)) + MultiClosing
  }

  /** `_build_multi_screen_prompt`. */
  method BuildMultiScreenPrompt(analyses: seq<AnalysisDict>, t: TemplateConfig) returns (prompt: string)
    ensures prompt == MultiScreenText(analyses)
  {
    var opening := MultiOpening(|analyses|);
    var screens := "";
    ghost var blocks := ScreenBlocks(analyses);
    for i := 0 to |analyses|
      invariant screens == Concat(blocks[..i])
    {
      var idx := i + 1;
      var name := ScreenName(analyses[i], idx);
      var raw := RawOf(analyses[i]);
      screens := screens + ScreenHeading(idx, name);
      screens := screens + (raw + "\n");
      ConcatGrows(blocks, i);
    }
    assert blocks[..|analyses|] == blocks;
    prompt := opening + screens + MultiClosing;
  }

  /** The prompt opens by giving the number of screens and closes with the
      request for markdown. */
  lemma MultiFraming(analyses: seq<AnalysisDict>)
    ensures StartsWith(MultiScreenText(analyses), "Convert these " + Decimal(|analyses|) + " ")
    ensures EndsWith(MultiScreenText(analyses), MarkdownRequest)
  {
    var opening := MultiOpening(|analyses|);
    MiddleOccurs(opening, Concat(ScreenBlocks(analyses)), MultiClosing);
    Ends("Convert these " + Decimal(|analyses|) + " ", ScreensIntro);
    StartsWithin(MultiScreenText(analyses), opening, "Convert these " + Decimal(|analyses|) + " ");
    Ends(MultiRequest, MarkdownRequest);
    EndsWithin(MultiScreenText(analyses), MultiClosing, MarkdownRequest);
  }

  /** The screens are numbered from 1 and listed in the order given. */
  lemma ScreensInOrder(analyses: seq<AnalysisDict>, i1: nat, i2: nat)
    requires i1 < i2 < |analyses|
    ensures InOrder(MultiScreenText(analyses), ScreenBlock(analyses[i1], i1 + 1), ScreenBlock(analyses[i2], i2 + 1))
  {
    var blocks := ScreenBlocks(analyses);
    BlocksInOrder(blocks, i1, i2);
    MiddleOccurs(MultiOpening(|analyses|), Concat(blocks), MultiClosing);
    InOrderWithin(MultiScreenText(analyses), Concat(blocks), |MultiOpening(|analyses|)|, blocks[i1], blocks[i2]);
  }

  /** Every screen's block is in the prompt, numbered from 1, after the
      blocks of the screens before it. */
  lemma ScreenInPrompt(analyses: seq<AnalysisDict>, i: nat)
    requires i < |analyses|
    ensures var blocks := ScreenBlocks(analyses);
      Occurs(MultiScreenText(analyses), ScreenBlock(analyses[i], i + 1),
        |MultiOpening(|analyses|)| + |Concat(blocks[..i])|)
  {
    ConcatOccursAmid(MultiOpening(|analyses|), ScreenBlocks(analyses), MultiClosing, i);
  }

  lemma BlocksInOrder(blocks: seq<string>, i1: nat, i2: nat)
    requires i1 < i2 < |blocks|
    ensures InOrder(Concat(blocks), blocks[i1], blocks[i2])
  {
    OccursSelf(blocks[i1]);
    OccursSelf(blocks[i2]);
    InOrderInConcat(blocks, i1, blocks[i1], 0, i2, blocks[i2], 0);
  }

  /** Each screen's raw analysis appears verbatim right after its heading. */
  lemma ScreenCarriesAnalysis(a: AnalysisDict, idx: nat)
    ensures Occurs(ScreenBlock(a, idx), ScreenHeading(idx, ScreenName(a, idx)), 0)
    ensures Occurs(ScreenBlock(a, idx), RawOf(a), |ScreenHeading(idx, ScreenName(a, idx))|)
    ensures a.imageName.None? ==> ScreenName(a, idx) == "Screen " + Decimal(idx)
  {
    var heading := ScreenHeading(idx, ScreenName(a, idx));
    var block := ScreenBlock(a, idx);
    assert block[0..|heading|] == heading;
    assert block[|heading|..|heading| + |RawOf(a)|] == RawOf(a);
  }

  // ----- The refinement prompt -----

  const RefineIntro: string := "Here are the current requirements:\n\n"

  const FeedbackIntro: string := "\n\nThe user has provided this feedback:\n"

  const RefineRequest: string :=
    "\n\nPlease update the requirements to incorporate this feedback. Maintain the same structure and format."

  /** The prompt `refine_requirements` sends. */
  function RefinePrompt(requirements: string, feedback: string): string {
    RefineIntro + requirements + FeedbackIntro + feedback + RefineRequest
  }

  /** The current requirements and the feedback both appear verbatim, the
      requirements first, each right after its introduction. */
  lemma RefineCarriesBoth(requirements: string, feedback: string)
    ensures Occurs(RefinePrompt(requirements, feedback), requirements, |RefineIntro|)
    ensures Occurs(RefinePrompt(requirements, feedback), feedback, |RefineIntro| + |requirements| + |FeedbackIntro|)
    ensures InOrder(RefinePrompt(requirements, feedback), requirements, feedback)
  {
    var front := RefineIntro + requirements + FeedbackIntro;
    MiddleOccurs(RefineIntro, requirements, FeedbackIntro);
    OccursInPrefix(front, feedback + RefineRequest, requirements, |RefineIntro|);
    assert RefinePrompt(requirements, feedback) == front + (feedback + RefineRequest);
    MiddleOccurs(front, feedback, RefineRequest);
  }

  // ----- Requests to the text model -----

  /** Every request sends the system prompt first, then the prompt. */
  lemma SystemPromptFirst(svc: Service, prompt: string, model: string)
    requires Available(svc, model)
    ensures var ex := TextExchange(svc, prompt, model, SystemPrompt);
      ex.calls[|ex.calls| - 1] ==
        ChatCall(model, [ChatMessage(SystemRole, SystemPrompt), ChatMessage(UserRole, prompt)])
  {
    assert SystemPrompt != "";
    TextSent(svc, prompt, model, SystemPrompt);
  }

  /** `build_requirements`, as a value: a template that cannot be read stops
      it before any request; otherwise the built prompt goes to the model. */
  function RequirementsExchange(svc: Service, fs: FileSystem, templatesDir: string, parse: Blob -> TemplateConfig,
                                analysis: AnalysisDict, template: string, model: string, outputFormat: string): Exchange
  {
    match LoadTemplate(fs, templatesDir, template, parse)
    case Err(e) => Exchange(Err(e), [])
    case Ok(t) => TextExchange(svc, PromptText(analysis, t, outputFormat), model, SystemPrompt)
  }

  /** `build_requirements`. */
  method BuildRequirements(svc: Service, fs: FileSystem, templatesDir: string, parse: Blob -> TemplateConfig,
                           analysis: AnalysisDict, template: string, model: string, outputFormat: string)
    returns (result: Result<string>, calls: seq<Call>)
    ensures Exchange(result, calls) ==
      RequirementsExchange(svc, fs, templatesDir, parse, analysis, template, model, outputFormat)
  {
    var loaded := LoadTemplate(fs, templatesDir, template, parse);
    if loaded.Err? {
      return Err(loaded.error), [];
    }
    var prompt := BuildPrompt(analysis, loaded.value, outputFormat);
    result, calls := GenerateText(svc, prompt, model, SystemPrompt);
  }

  /** `build_multi_screen_requirements`, as a value: the template is loaded,
      and can fail, but does not shape the prompt. */
  function MultiExchange(svc: Service, fs: FileSystem, templatesDir: string, parse: Blob -> TemplateConfig,
                         analyses: seq<AnalysisDict>, template: string, model: string): Exchange
  {
    match LoadTemplate(fs, templatesDir, template, parse)
    case Err(e) => Exchange(Err(e), [])
    case Ok(_) => TextExchange(svc, MultiScreenText(analyses), model, SystemPrompt)
  }

  /** `build_multi_screen_requirements`. */
  method BuildMultiScreenRequirements(svc: Service, fs: FileSystem, templatesDir: string, parse: Blob -> TemplateConfig,
                                      analyses: seq<AnalysisDict>, template: string, model: string)
    returns (result: Result<string>, calls: seq<Call>)
    ensures Exchange(result, calls) == MultiExchange(svc, fs, templatesDir, parse, analyses, template, model)
  {
    var loaded := LoadTemplate(fs, templatesDir, template, parse);
    if loaded.Err? {
      return Err(loaded.error), [];
    }
    var prompt := BuildMultiScreenPrompt(analyses, loaded.value);
    result, calls := GenerateText(svc, prompt, model, SystemPrompt);
  }

  /** `refine_requirements`. */
  method RefineRequirements(svc: Service, requirements: string, feedback: string, model: string)
    returns (result: Result<string>, calls: seq<Call>)
    ensures Exchange(result, calls) == TextExchange(svc, RefinePrompt(requirements, feedback), model, SystemPrompt)
  {
    var prompt := RefinePrompt(requirements, feedback);
    result, calls := GenerateText(svc, prompt, model, SystemPrompt);
  }

  /** A template that cannot be read ends `build_requirements` with its error
      and no request; a readable one leads to the text request for the
      prompt it shapes, sent with the system prompt. */
  lemma RequirementsFlow(svc: Service, fs: FileSystem, templatesDir: string, parse: Blob -> TemplateConfig,
                         analysis: AnalysisDict, template: string, model: string, outputFormat: string)
    ensures var loaded := LoadTemplate(fs, templatesDir, template, parse);
      var ex := RequirementsExchange(svc, fs, templatesDir, parse, analysis, template, model, outputFormat);
      (loaded.Err? ==> ex == Exchange(Err(loaded.error), [])) &&
      (loaded.Ok? && Available(svc, model) ==>
        ex.calls[|ex.calls| - 1] == ChatCall(model, ChatMessages(SystemPrompt, PromptText(analysis, loaded.value, outputFormat))))
  {
    var loaded := LoadTemplate(fs, templatesDir, template, parse);
    if loaded.Ok? && Available(svc, model) {
      TextSent(svc, PromptText(analysis, loaded.value, outputFormat), model, SystemPrompt);
    }
  }

  /** The same for `build_multi_screen_requirements`, whose prompt the template
      does not shape. */
  lemma MultiFlow(svc: Service, fs: FileSystem, templatesDir: string, parse: Blob -> TemplateConfig,
                  analyses: seq<AnalysisDict>, template: string, model: string)
    ensures var loaded := LoadTemplate(fs, templatesDir, template, parse);
      var ex := MultiExchange(svc, fs, templatesDir, parse, analyses, template, model);
      (loaded.Err? ==> ex == Exchange(Err(loaded.error), [])) &&
      (loaded.Ok? ==> ex == TextExchange(svc, MultiScreenText(analyses), model, SystemPrompt))
  {
  }

  // ----- Saving the output -----

  /** Where `save_output` writes: the path as given when it has a suffix,
      otherwise the path with `.format` added, which `with_suffix` refuses
      for a suffix holding a separator or made of the dot alone, and for a
      path without a name. */
  function OutputTarget(path: string, format: string): (r: Result<string>)
    ensures Suffix(path) != "" ==> r == Ok(path)
    ensures r.Err? <==> Suffix(path) == "" && ('/' in format || format == "" || Name(path) == "")
    ensures r.Err? ==> r.error == InvalidSuffix("." + format) || r.error == EmptyName(path)
  {
    if Suffix(path) != "" then Ok(path)
    else
      var suffix := "." + format;
      if '/' in suffix || suffix == "." then Err(InvalidSuffix(suffix))
      else if Name(path) == "" then Err(EmptyName(path))
      else Ok(path + suffix)
  }

  /** A path without a suffix gets `.format` as its suffix. */
  lemma OutputGetsFormat(path: string, format: string)
    requires Suffix(path) == "" && Name(path) != ""
    requires format != "" && '/' !in format && '.' !in format
    ensures OutputTarget(path, format) == Ok(path + "." + format)
    ensures Suffix(OutputTarget(path, format).value) == "." + format
  {
    var suffix := "." + format;
    assert suffix[1..] == format;
    assert '/' !in suffix;
    assert suffix != ".";
    assert path + suffix == path + "." + format;
    AppendedSuffix(path, format);
  }

  /** Choosing the target twice changes nothing more. */
  lemma OutputTargetIdempotent(path: string, format: string)
    requires OutputTarget(path, format).Ok? && '.' !in format
    ensures OutputTarget(OutputTarget(path, format).value, format) == OutputTarget(path, format)
  {
    if Suffix(path) == "" {
      OutputGetsFormat(path, format);
    }
  }

  /** `write_text` to `target`: refused for a directory; otherwise the file
      holds the text and nothing else changes. */
  function WriteText(fs: FileSystem, target: string, content: string): (r: Result<FileSystem>)
    ensures r.Ok? <==> target !in fs.dirs
    ensures r.Ok? ==>
      r.value.dirs == fs.dirs && r.value.files.Keys == fs.files.Keys + {target} &&
      r.value.files[target] == WrittenText(content) &&
      forall q :: q in fs.files && q != target ==> r.value.files[q] == fs.files[q]
  {
    if target in fs.dirs then Err(IsADirectory(target))
    else Ok(fs.(files := fs.files[target := WrittenText(content)]))
  }

  /** `save_output`: the content is written, as text, to the chosen target. */
  function SaveOutput(fs: FileSystem, content: string, path: string, format: string): (r: Result<FileSystem>)
    ensures OutputTarget(path, format).Err? ==> r == Err(OutputTarget(path, format).error)
    ensures OutputTarget(path, format).Ok? ==> r == WriteText(fs, OutputTarget(path, format).value, content)
  {
    match OutputTarget(path, format)
    case Err(e) => Err(e)
    case Ok(target) => WriteText(fs, target, content)
  }
}

/**
 * The prompt that the analysis function sends to the generation call
 * (app.py lines 18-65).
 *
 * Most of the prompt is fixed text. The fixed text and the two
 * instruction tables form a `Template`; `Narration` is the one the
 * service uses, character for character. The layout lemmas below hold
 * for every template, so they never look inside the long literals. Six
 * parts vary: the narrator style and its instruction, the creativity
 * level and its instruction, the optional book-context section, and the
 * manuscript, which comes last.
 */
module Prompt {
  import opened Wrappers
  import opened Whitespace
  import opened Text

  /** The creativity table: level name to instruction. */
  const CreativityInstructions: map<string, string> := map[
    "subtle" := "You should be conservative with your annotations. Use the 'normal' type frequently and only add performance suggestions for the most impactful moments.",
    "balanced" := "You should provide a healthy mix of performance suggestions and 'normal' text, ensuring a dynamic but not overly dramatic reading.",
    "dramatic" := "You should be very liberal with your annotations. Use a wide variety of performance types and avoid using 'normal' unless absolutely necessary to create a highly emotive performance."
  ]

  /** The narrator-style table: style name to instruction. */
  const StyleInstructions: map<string, string> := map[
    "neutral storyteller" := "Your suggestions should create a clear, objective, and engaging narration without a strong character bias.",
    "grave detective" := "Your suggestions should evoke a sense of mystery, seriousness, and suspense. Favor 'lower-pitch', 'slow-down', and 'emphasize' to build tension.",
    "energetic youth" := "Your suggestions should be full of energy and excitement. Favor 'speed-up', 'raise-pitch', and exclamation.",
    "calm mentor" := "Your suggestions should create a feeling of wisdom, patience, and reassurance. Favor 'slow-down', gentle tones, and thoughtful pauses."
  ]

  /** The opening lines, up to the place of the narrator style. */
  const Intro := "\n    You are a world-class, award-winning voice actor and narration director.\n    Your task is to analyze a manuscript and provide creative performance suggestions as a JSON array.\n\n    **YOUR PERSONA:**\n    You must embody the persona of a **"

  /** What follows the style name and the creativity level alike. */
  const NameClose := "**. "

  /** The creativity heading, up to the place of the level. */
  const CreativityLead := "\n\n    **CREATIVITY GUIDELINE:**\n    Your level of annotation activity should be **"

  /** The line break before the place of the book-context section. */
  const ContextBreak := "\n    "

  /** The rules and the annotation instructions, after the context section. */
  const Rules := "\n    **CRITICAL RULE:** The concatenation of all \"text\" fields in your final JSON array must exactly match the original manuscript text, including all whitespace and newlines.\n\n    **ANALYSIS INSTRUCTIONS:**\n    1.  **Annotation Type**: Choose ONE from: 'speed-up', 'slow-down', 'emphasize', 'raise-pitch', 'lower-pitch', 'whisper', 'pause', 'normal'.\n    2.  **Feedback**: A short, one-sentence explanation for your choice, aligned with your persona.\n    3.  **Emotion Emoji**: A single emoji: \U{E05E}, \U{E05E}\U{4E2A}, \U{E05E}\U{4E10}, \U{E05E}\U{4E9E}, \U{E05E}\U{FF64} Use \"\" if no strong emotion is present.\n\n    You MUST return your response as a valid JSON array of objects. Each object must have these exact keys: \"text\", \"type\", \"feedback\", and \"emotion_emoji\"."

  /** The lead-in to the manuscript, ending with the `---` separator line. */
  const ManuscriptLead := "\n\n    Now, analyze this manuscript:\n    ---\n    "

  /** What follows the manuscript: the prompt's last line break and indentation. */
  const Closing := "\n    "

  /** The book-context section around the description. */
  const ContextLead := "\n    **BOOK CONTEXT:**\n    Use the following book description to inform your suggestions, matching the overall tone and message:\n    "
  const ContextClose := "\n    "

  /** The fixed parts of the prompt's f-string and the two instruction tables. */
  datatype Template = Template(
    intro: string,
    nameClose: string,
    creativityLead: string,
    contextBreak: string,
    rules: string,
    manuscriptLead: string,
    closing: string,
    contextLead: string,
    contextClose: string,
    styles: map<string, string>,
    levels: map<string, string>)

  /** The template of the analysis function. */
  const Narration := Template(
    Intro, NameClose, CreativityLead, ContextBreak, Rules, ManuscriptLead, Closing,
    ContextLead, ContextClose, StyleInstructions, CreativityInstructions)

  /** `dict.get(key, "")` on an instruction table. */
  function Lookup(table: map<string, string>, key: string): string {
    if key in table then table[key] else ""
  }

  /**
   * The instruction the service adds for a narrator style: the table
   * entry for one of the four known styles, and nothing for any other name.
   */
  function StyleInstruction(style: string): (r: string)
    ensures r != "" <==> style in {"neutral storyteller", "grave detective", "energetic youth", "calm mentor"}
    ensures style in StyleInstructions ==> r == StyleInstructions[style]
  {
    Lookup(StyleInstructions, style)
  }

  /**
   * The instruction the service adds for a creativity level: the table
   * entry for one of the three known levels, and nothing for any other name.
   */
  function CreativityInstruction(level: string): (r: string)
    ensures r != "" <==> level in {"subtle", "balanced", "dramatic"}
    ensures level in CreativityInstructions ==> r == CreativityInstructions[level]
  {
    Lookup(CreativityInstructions, level)
  }

  /**
   * Python's `book_description and book_description.strip()`: a
   * description is given, is not empty, and strips to something.
   */
  predicate Describes(description: Option<string>) {
    description.Some? && |description.value| > 0 && Strip(description.value) != ""
  }

  /** A description counts exactly when it is given and holds a character that is not whitespace. */
  lemma DescribesIff(description: Option<string>)
    ensures Describes(description) <==> description.Some? && !AllSpace(description.value)
  {
    if description.Some? {
      StripEmptyIff(description.value);
    }
  }

  /**
   * The book-context section: empty unless a description is given that
   * is not all whitespace; otherwise it opens with the section's lead (the
   * BOOK CONTEXT heading and its instruction), holds the description quoted
   * and untrimmed, and ends with the section's closing text.
   */
  function ContextSection(tp: Template, description: Option<string>): (r: string)
    ensures r == "" <==> !Describes(description)
    ensures Describes(description) ==>
      At(r, |tp.contextLead|, "\"" + description.value + "\"")
    ensures Describes(description) ==>
      At(r, 0, tp.contextLead) && |r| >= |tp.contextClose| && At(r, |r| - |tp.contextClose|, tp.contextClose)
    ensures Describes(description) ==>
      |r| == |tp.contextLead| + |description.value| + 2 + |tp.contextClose|
  {
    if Describes(description) then
      var quoted := "\"" + description.value + "\"";
      Framed(tp.contextLead, quoted, tp.contextClose);
      tp.contextLead + quoted + tp.contextClose
    else
      ""
  }

  /**
   * The parts of the prompt's f-string in order: fixed text at indices
   * 0, 2, 4, 6, 8, 10, 11 and 13, the replacement fields at 1, 3, 5, 7, 9
   * and 12. The context field holds the section computed beforehand.
   */
  function Parts(tp: Template, text: string, creativity: string, style: string, section: string): seq<string> {
    [ tp.intro, style, tp.nameClose, Lookup(tp.styles, style),
      tp.creativityLead, creativity, tp.nameClose, Lookup(tp.levels, creativity),
      tp.contextBreak, section,
      tp.rules, tp.manuscriptLead, text, tp.closing ]
  }

  /** The f-string of a template, filled with a manuscript, the two settings and a context section. */
  function Render(tp: Template, text: string, creativity: string, style: string, section: string): string {
    Concat(Parts(tp, text, creativity, style, section))
  }

  /** The prompt a template gives for a manuscript, the two settings and a description. */
  function Compose(tp: Template, text: string, creativity: string, style: string, description: Option<string>): string {
    Render(tp, text, creativity, style, ContextSection(tp, description))
  }

  /** The prompt of the analysis function. */
  function BuildPrompt(text: string, creativity: string, style: string, description: Option<string>): string {
    Compose(Narration, text, creativity, style, description)
  }

  /** Where the creativity level starts. */
  function LevelOffset(tp: Template, style: string): nat {
    |tp.intro| + |style| + |tp.nameClose| + |Lookup(tp.styles, style)| + |tp.creativityLead|
  }

  /** Where the book-context section starts. */
  function ContextOffset(tp: Template, creativity: string, style: string): nat {
    LevelOffset(tp, style) + |creativity| + |tp.nameClose| + |Lookup(tp.levels, creativity)| + |tp.contextBreak|
  }

  /** Where the quoted description starts inside the context section. */
  function QuoteOffset(tp: Template, creativity: string, style: string): nat {
    ContextOffset(tp, creativity, style) + |tp.contextLead|
  }

  /** The fixed text and the fields before the creativity level and before the context section. */
  lemma HeadOffsets(tp: Template, text: string, creativity: string, style: string, section: string)
    ensures var parts := Parts(tp, text, creativity, style, section);
      && Concat(parts[..1]) == tp.intro
      && |Concat(parts[..5])| == LevelOffset(tp, style)
      && |Concat(parts[..9])| == ContextOffset(tp, creativity, style)
  {
    PrefixLengths(Parts(tp, text, creativity, style, section));
  }

  /** The prompt is what comes before the manuscript lead-in, the lead-in, the manuscript and the closing. */
  lemma PromptTail(tp: Template, text: string, creativity: string, style: string, section: string)
    ensures var parts := Parts(tp, text, creativity, style, section);
      Render(tp, text, creativity, style, section) == Concat(parts[..11]) + tp.manuscriptLead + text + tp.closing
  {
    var parts := Parts(tp, text, creativity, style, section);
    ConcatAround(parts, 12);
    ConcatStep(parts, 11);
    ConcatOne(parts[13..]);
  }

  /**
   * The persona line: the prompt opens with the fixed introduction, then
   * the style name exactly as given, then `**. `, then the style's
   * instruction from the table (nothing for an unknown style), then the
   * creativity heading.
   */
  lemma PersonaLine(tp: Template, text: string, creativity: string, style: string, section: string)
    ensures var p := Render(tp, text, creativity, style, section);
      && At(p, 0, tp.intro)
      && At(p, |tp.intro|, style + tp.nameClose + Lookup(tp.styles, style) + tp.creativityLead)
  {
    var parts := Parts(tp, text, creativity, style, section);
    HeadOffsets(tp, text, creativity, style, section);
    Window(parts, 0, 1);
    assert parts[0..1] == parts[..1];
    WindowFour(parts, 1, style, tp.nameClose, Lookup(tp.styles, style), tp.creativityLead);
  }

  /** With the service's style table, the persona line holds the style name and its instruction. */
  lemma StyleInPrompt(tp: Template, text: string, creativity: string, style: string, section: string)
    requires tp.styles == StyleInstructions
    ensures At(Render(tp, text, creativity, style, section), |tp.intro|,
               style + tp.nameClose + StyleInstruction(style) + tp.creativityLead)
  {
    PersonaLine(tp, text, creativity, style, section);
  }

  /**
   * The creativity line: after the creativity heading comes the level name
   * exactly as given, then `**. `, then the level's instruction from the
   * table (nothing for an unknown level), then the line break before the
   * context section.
   */
  lemma GuidelineLine(tp: Template, text: string, creativity: string, style: string, section: string)
    ensures At(Render(tp, text, creativity, style, section), LevelOffset(tp, style),
               creativity + tp.nameClose + Lookup(tp.levels, creativity) + tp.contextBreak)
  {
    var parts := Parts(tp, text, creativity, style, section);
    HeadOffsets(tp, text, creativity, style, section);
    WindowFour(parts, 5, creativity, tp.nameClose, Lookup(tp.levels, creativity), tp.contextBreak);
  }

  /** With the service's creativity table, the creativity line holds the level name and its instruction. */
  lemma LevelInPrompt(tp: Template, text: string, creativity: string, style: string, section: string)
    requires tp.levels == CreativityInstructions
    ensures At(Render(tp, text, creativity, style, section), LevelOffset(tp, style),
               creativity + tp.nameClose + CreativityInstruction(creativity) + tp.contextBreak)
  {
    GuidelineLine(tp, text, creativity, style, section);
  }

  /** The context section sits between the creativity line and the fixed rules. */
  lemma ContextPlacement(tp: Template, text: string, creativity: string, style: string, section: string)
    ensures At(Render(tp, text, creativity, style, section), ContextOffset(tp, creativity, style),
               section + tp.rules)
  {
    var parts := Parts(tp, text, creativity, style, section);
    HeadOffsets(tp, text, creativity, style, section);
    WindowTwo(parts, 9, section, tp.rules);
  }

  /**
   * The context section changes the prompt only by being inserted at its
   * place: the prompt with any section is the prompt with an empty one,
   * cut at the context offset, with the section in between.
   */
  lemma SectionInserted(tp: Template, text: string, creativity: string, style: string, section: string)
    ensures var plain := Render(tp, text, creativity, style, "");
      var k := ContextOffset(tp, creativity, style);
      && k <= |plain|
      && Render(tp, text, creativity, style, section) == plain[..k] + section + plain[k..]
  {
    var parts := Parts(tp, text, creativity, style, section);
    var plain := Parts(tp, text, creativity, style, "");
    HeadOffsets(tp, text, creativity, style, "");
    assert forall n :: 0 <= n < |parts| && n != 9 ==> parts[n] == plain[n];
    FillEmptyPart(parts, plain, 9);
  }

  /**
   * The manuscript comes last: the prompt ends with the lead-in, the
   * manuscript exactly as given and the closing text, and nothing else
   * follows it.
   */
  lemma ManuscriptLast(tp: Template, text: string, creativity: string, style: string, section: string)
    ensures EndsWith(Render(tp, text, creativity, style, section), tp.manuscriptLead, text, tp.closing)
  {
    var parts := Parts(tp, text, creativity, style, section);
    PromptTail(tp, text, creativity, style, section);
    EndPieces(Render(tp, text, creativity, style, section), Concat(parts[..11]), tp.manuscriptLead, text, tp.closing);
  }

  /** In the service's template the manuscript lead-in ends with the `---` separator line. */
  lemma SeparatorBeforeManuscript()
    ensures |ManuscriptLead| >= 8 && ManuscriptLead[|ManuscriptLead| - 8..] == "---\n    "
  {
  }

  /** With the settings and the section fixed, the prompt determines the manuscript. */
  lemma ManuscriptDetermined(tp: Template, text1: string, text2: string, creativity: string, style: string, section: string)
    requires Render(tp, text1, creativity, style, section) == Render(tp, text2, creativity, style, section)
    ensures text1 == text2
  {
    PromptTail(tp, text1, creativity, style, section);
    PromptTail(tp, text2, creativity, style, section);
    assert Parts(tp, text1, creativity, style, section)[..11] == Parts(tp, text2, creativity, style, section)[..11];
    ManuscriptLast(tp, text1, creativity, style, section);
    ManuscriptLast(tp, text2, creativity, style, section);
  }

  /**
   * A description that is given and not blank appears in the prompt
   * verbatim, untrimmed and in double quotes, inside the context section.
   */
  lemma DescriptionInPrompt(tp: Template, text: string, creativity: string, style: string, description: Option<string>)
    requires Describes(description)
    ensures At(Compose(tp, text, creativity, style, description), QuoteOffset(tp, creativity, style),
               "\"" + description.value + "\"")
    ensures At(Compose(tp, text, creativity, style, description),
               QuoteOffset(tp, creativity, style) + 1, description.value)
  {
    QuoteInPrompt(tp, text, creativity, style, ContextSection(tp, description), description.value);
  }

  /**
   * The stripped description is in the prompt too: any `t` that is the
   * description with its surrounding whitespace removed, starting at
   * index `j` of it (by `StripUnique`, exactly `Strip`'s result), sits
   * inside the quotes.
   */
  lemma StrippedDescriptionInPrompt(tp: Template, text: string, creativity: string, style: string,
                                    description: Option<string>, j: nat, t: string)
    requires Describes(description) && StrippedAt(description.value, j, t)
    ensures At(Compose(tp, text, creativity, style, description), QuoteOffset(tp, creativity, style) + 1 + j, t)
  {
    PieceOfQuoteInPrompt(tp, text, creativity, style, ContextSection(tp, description), description.value, j, t);
  }

  /** A piece of a string quoted after the lead of the context section, in the prompt. */
  lemma PieceOfQuoteInPrompt(tp: Template, text: string, creativity: string, style: string, section: string,
                             d: string, j: nat, t: string)
    requires At(section, |tp.contextLead|, "\"" + d + "\"") && At(d, j, t)
    ensures At(Render(tp, text, creativity, style, section), QuoteOffset(tp, creativity, style) + 1 + j, t)
  {
    QuoteInPrompt(tp, text, creativity, style, section, d);
    AtTrans(Render(tp, text, creativity, style, section), QuoteOffset(tp, creativity, style) + 1, d, j, t);
  }

  /** A quoted string after the lead of the context section sits at the quote offset of the prompt. */
  lemma QuoteInPrompt(tp: Template, text: string, creativity: string, style: string, section: string, d: string)
    requires At(section, |tp.contextLead|, "\"" + d + "\"")
    ensures At(Render(tp, text, creativity, style, section), QuoteOffset(tp, creativity, style), "\"" + d + "\"")
    ensures At(Render(tp, text, creativity, style, section), QuoteOffset(tp, creativity, style) + 1, d)
  {
    var p := Render(tp, text, creativity, style, section);
    ContextPlacement(tp, text, creativity, style, section);
    AtInside(p, ContextOffset(tp, creativity, style), section, tp.rules, |tp.contextLead|, "\"" + d + "\"");
    InsideQuotes(p, QuoteOffset(tp, creativity, style), d);
  }

  /**
   * The description changes the prompt only through the context section:
   * a missing, empty or all-whitespace description gives the prompt of no
   * description at all, and any other adds its section at the context
   * offset.
   */
  lemma DescriptionOnlyAddsContext(tp: Template, text: string, creativity: string, style: string, description: Option<string>)
    ensures var p := Compose(tp, text, creativity, style, description);
      var plain := Compose(tp, text, creativity, style, None);
      var k := ContextOffset(tp, creativity, style);
      && k <= |plain|
      && p == plain[..k] + ContextSection(tp, description) + plain[k..]
      && (!Describes(description) ==> p == plain)
  {
    assert ContextSection(tp, None) == "";
    SectionInserted(tp, text, creativity, style, ContextSection(tp, description));
  }

  /** With the settings and the description fixed, the prompt determines the manuscript. */
  lemma PromptDeterminesManuscript(tp: Template, text1: string, text2: string, creativity: string, style: string, description: Option<string>)
    requires Compose(tp, text1, creativity, style, description) == Compose(tp, text2, creativity, style, description)
    ensures text1 == text2
  {
    ManuscriptDetermined(tp, text1, text2, creativity, style, ContextSection(tp, description));
  }
}

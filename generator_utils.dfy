/**
 * The pure parts of python-generator/utils.py: the two prompt templates,
 * the layout and naming of the enhanced placeholder image, and the choice
 * of the image part in a Gemini response.
 */
module GeneratorUtils {
  import opened Wrappers
  import opened Text

  /** The marketing prompt up to the user's request, which follows `**ORIGINAL REQUEST:** `; its lines are joined by newlines. */
  const MarketingHead: string := Join("\n", MarketingHeadLines)

  const MarketingHeadLines: seq<string> := [
      "",
      "You are a world-class marketing strategist and copywriter with expertise in persuasive content creation. Your task is to transform the given prompt into compelling marketing content that drives engagement and conversions.",
      "",
      "**ORIGINAL REQUEST:** "]

  /** The marketing prompt after the user's request. */
  const MarketingTail: string := Join("\n", MarketingTailLines)

  const MarketingTailLines: seq<string> := [
      "",
      "",
      "**YOUR MISSION:** Create comprehensive marketing content that includes:",
      "",
      "**1. ATTENTION-GRABBING HEADLINE**",
      "- Craft a powerful, benefit-driven headline that immediately captures attention",
      "- Use action words, emotional triggers, and clear value propositions",
      "- Make it memorable and shareable",
      "",
      "**2. COMPELLING DESCRIPTION**",
      "- Write vivid, sensory-rich descriptions that paint a clear mental picture",
      "- Use storytelling elements to create emotional connection",
      "- Include specific details that make the content tangible and relatable",
      "- Address pain points and position the solution naturally",
      "",
      "**3. KEY BENEFITS & FEATURES**",
      "- Highlight 3-5 primary benefits that matter most to the target audience",
      "- Transform features into customer-focused benefits",
      "- Use social proof indicators where relevant",
      "- Create urgency or scarcity when appropriate",
      "",
      "**4. STRATEGIC CALL-TO-ACTION**",
      "- Provide multiple CTA options for different customer journey stages",
      "- Use action-oriented, specific language",
      "- Create clear next steps for engagement",
      "",
      "Begin creating exceptional marketing content now:",
      ""]

  /** The image prompt up to the user's request, which follows `based on this concept: `. */
  const ImageHead: string := Join("\n", ImageHeadLines)

  const ImageHeadLines: seq<string> := [
      "",
      "Create a stunning, professional-grade marketing image based on this concept: "]

  /** The image prompt after the user's request. */
  const ImageTail: string := Join("\n", ImageTailLines)

  const ImageTailLines: seq<string> := [
      "",
      "",
      "**VISUAL CONCEPT REQUIREMENTS:**",
      "\U{1F3AF} **Style & Aesthetics:**",
      "- Premium commercial photography or high-end digital art style",
      "- Modern, clean, and sophisticated aesthetic",
      "- Award-winning composition with rule of thirds",
      "- Professional color grading and balanced exposure",
      "",
      "\U{1F3A8} **Color & Lighting:**",
      "- Vibrant yet sophisticated color palette",
      "- Dramatic, cinematic lighting with perfect shadows and highlights",
      "- Rich contrast and visual depth",
      "- Colors that evoke emotion and brand trust",
      "",
      "\U{1F31F} **Marketing Impact:**",
      "- Emotionally compelling and aspirational",
      "- Instantly recognizable and memorable",
      "- Social media and advertising optimized",
      "- Cross-platform compatible design",
      "",
      "Generate an exceptional, commercially-viable marketing image now:",
      ""]

  /** `head + request + tail`: a template filled with the user's request. */
  function Fill(head: string, request: string, tail: string): (r: string)
    ensures |r| == |head| + |request| + |tail|
    ensures r[..|head|] == head && r[|head|..|head| + |request|] == request && r[|r| - |tail|..] == tail
  {
    head + request + tail
  }

  /** `create_marketing_prompt(user_prompt)`. */
  function MarketingPrompt(userPrompt: string): string {
    Fill(MarketingHead, userPrompt, MarketingTail)
  }

  /** `create_image_prompt(user_prompt)`. */
  function ImagePrompt(userPrompt: string): string {
    Fill(ImageHead, userPrompt, ImageTail)
  }

  /** The text a template put between its `head` and its `tail`. */
  function Between(s: string, head: string, tail: string): string
    requires |head| + |tail| <= |s|
  {
    s[|head|..|s| - |tail|]
  }

  /** The request is inserted verbatim: it is read back from the filled template unchanged. */
  lemma FillKeepsRequest(head: string, request: string, tail: string)
    ensures Between(Fill(head, request, tail), head, tail) == request
  {
  }

  /** The user's request is read back from the marketing prompt unchanged. */
  lemma MarketingPromptKeepsRequest(userPrompt: string)
    ensures Between(MarketingPrompt(userPrompt), MarketingHead, MarketingTail) == userPrompt
  {
    FillKeepsRequest(MarketingHead, userPrompt, MarketingTail);
  }

  /** The user's request is read back from the image prompt unchanged. */
  lemma ImagePromptKeepsRequest(userPrompt: string)
    ensures Between(ImagePrompt(userPrompt), ImageHead, ImageTail) == userPrompt
  {
    FillKeepsRequest(ImageHead, userPrompt, ImageTail);
  }

  /** The request follows the `**ORIGINAL REQUEST:** ` marker and the image concept follows `based on this concept: `. */
  lemma TemplateMarkers()
    ensures var m := "**ORIGINAL REQUEST:** "; |m| <= |MarketingHead| && MarketingHead[|MarketingHead| - |m|..] == m
    ensures var m := "based on this concept: "; |m| <= |ImageHead| && ImageHead[|ImageHead| - |m|..] == m
  {
    JoinEndsWithLast("\n", MarketingHeadLines);
    JoinEndsWithLast("\n", ImageHeadLines);
    var m := "based on this concept: ";
    var last := ImageHeadLines[|ImageHeadLines| - 1];
    assert last[|last| - |m|..] == m;
  }

  /** Two different requests never give the same prompt. */
  lemma PromptsInjective(p: string, q: string)
    requires MarketingPrompt(p) == MarketingPrompt(q) || ImagePrompt(p) == ImagePrompt(q)
    ensures p == q
  {
    if MarketingPrompt(p) == MarketingPrompt(q) {
      FillInjective(MarketingHead, p, q, MarketingTail);
    } else {
      FillInjective(ImageHead, p, q, ImageTail);
    }
  }

  lemma FillInjective(head: string, p: string, q: string, tail: string)
    requires Fill(head, p, tail) == Fill(head, q, tail)
    ensures p == q
  {
    FillKeepsRequest(head, p, tail);
    FillKeepsRequest(head, q, tail);
  }

  // The enhanced placeholder

  /** The placeholder is a 1024 by 1024 image. */
  const Size := 1024

  /** Each line of text takes a 40-pixel slot. */
  const LineHeight := 40

  /** `f"Campaign: {campaign_id[:12]}"`. */
  function CampaignLabel(campaignId: string): (r: string)
    ensures |r| == 10 + Min(12, |campaignId|) && |r| <= 22
    ensures r[..10] == "Campaign: " && r[10..] == campaignId[..|r| - 10]
  {
    "Campaign: " + campaignId[..Min(12, |campaignId|)]
  }

  /** `f"Prompt: {prompt[:40]}{'...' if len(prompt) > 40 else ''}"`. */
  function PromptLabel(prompt: string): (r: string)
    ensures |r| >= 8 && r[..8] == "Prompt: "
    ensures |prompt| <= 40 ==> r[8..] == prompt
    ensures |prompt| > 40 ==> |r| == 51 && r[8..48] == prompt[..40] && r[48..] == "..."
  {
    "Prompt: " + prompt[..Min(40, |prompt|)] + (if |prompt| > 40 then "..." else "")
  }

  /** The seven lines the placeholder shows; `generatedAt` is the `strftime('%Y-%m-%d %H:%M')` of the clock. */
  function TextLines(campaignId: string, prompt: string, generatedAt: string): (r: seq<string>)
    ensures |r| == 7 && r[2] == "" && r[5] == ""
    ensures r[3] == CampaignLabel(campaignId) && r[4] == PromptLabel(prompt)
  {
    ["SOLARA AI", "Content Generation", "", CampaignLabel(campaignId), PromptLabel(prompt), "", "Generated: " + generatedAt]
  }

  /** `len([line for line in lines if line])`. */
  function NonEmptyCount(lines: seq<string>): (n: nat)
    ensures n <= |lines|
  {
    if lines == [] then 0
    else NonEmptyCount(lines[..|lines| - 1]) + (if lines[|lines| - 1] != "" then 1 else 0)
  }

  /** `start_y`: the block of non-empty lines, 40 pixels each, centred in the height (floor division). */
  function StartY(lines: seq<string>): int {
    (Size - NonEmptyCount(lines) * LineHeight) / 2
  }

  /** The placeholder always shows five non-empty lines, so its text starts at y = 412. */
  lemma PlaceholderStartY(campaignId: string, prompt: string, generatedAt: string)
    ensures NonEmptyCount(TextLines(campaignId, prompt, generatedAt)) == 5
    ensures StartY(TextLines(campaignId, prompt, generatedAt)) == 412
  {
    var lines := TextLines(campaignId, prompt, generatedAt);
    assert lines[3] != "" by { assert |lines[3]| >= 10; }
    assert lines[4] != "" by { assert lines[4][..8] == "Prompt: "; }
    assert lines[6] != "" by { assert |lines[6]| >= 11; }
    assert NonEmptyCount(lines[..1]) == 1 by { assert lines[..1][..0] == []; }
    assert NonEmptyCount(lines[..2]) == 2 by { assert lines[..2][..1] == lines[..1]; }
    assert NonEmptyCount(lines[..3]) == 2 by { assert lines[..3][..2] == lines[..2]; }
    assert NonEmptyCount(lines[..4]) == 3 by { assert lines[..4][..3] == lines[..3]; }
    assert NonEmptyCount(lines[..5]) == 4 by { assert lines[..5][..4] == lines[..4]; }
    assert NonEmptyCount(lines[..6]) == 4 by { assert lines[..6][..5] == lines[..5]; }
    assert lines[..7][..6] == lines[..6] && lines[..7] == lines;
  }

  /** A colour as `ImageDraw` is given it: an RGB triple or a `#rrggbb` string. */
  datatype Color = Rgb(r: int, g: int, b: int) | Hex(code: string)

  /** One drawing call on the image. */
  datatype DrawOp =
    | Line(x0: int, y0: int, x1: int, y1: int, fill: Color)
    | Text(x: int, y: int, text: string, fill: Color)

  /** `int(240 + (y / 1024) * 15)`: the quotient and the product are exact in binary floating point, so this is the integer floor. */
  function GradientShade(y: int): int {
    240 + (15 * y) / Size
  }

  /** Down the image the shade runs from 240 to 254 without ever getting darker. */
  lemma GradientShadeRange(y: int, y': int)
    requires 0 <= y <= y' < Size
    ensures 240 <= GradientShade(y) <= GradientShade(y') <= 254
  {
  }

  /** The horizontal line drawn for row `y`. */
  function GradientLine(y: int): DrawOp {
    var shade := GradientShade(y);
    Line(0, y, Size, y, Rgb(shade, shade + 8, 255))
  }

  /** The lines drawn for the rows above `rows`. */
  function GradientOps(rows: nat): (r: seq<DrawOp>)
    ensures |r| == rows && forall y :: 0 <= y < rows ==> r[y] == GradientLine(y)
  {
    seq(rows, y requires 0 <= y < rows => GradientLine(y))
  }

  /** `(img.width - text_width) // 2`. */
  function CenteredX(textWidth: int): int {
    (Size - textWidth) / 2
  }

  /** A line no wider than the image is centred: the margins left and right differ by at most one pixel. */
  lemma CenteredXBalanced(textWidth: int)
    requires 0 <= textWidth <= Size
    ensures var x := CenteredX(textWidth);
      0 <= x && x + textWidth <= Size && 0 <= (Size - x - textWidth) - x <= 1
  {
  }

  /** The shadow and the text drawn for line `i`, an empty line drawing nothing; `measure` is the width `textbbox` gives. */
  function LineOps(i: int, line: string, startY: int, measure: string -> int): seq<DrawOp> {
    if line == "" then []
    else
      var x := CenteredX(measure(line));
      var y := startY + i * LineHeight;
      [Text(x + 2, y + 2, line, Hex("#cccccc")), Text(x, y, line, Hex("#333333"))]
  }

  /** What the text loop draws for `lines`. */
  function TextOps(lines: seq<string>, startY: int, measure: string -> int): seq<DrawOp> {
    if lines == [] then []
    else TextOps(lines[..|lines| - 1], startY, measure) + LineOps(|lines| - 1, lines[|lines| - 1], startY, measure)
  }

  /**
   * Line `i` is drawn at `start_y + 40 * i`, its shadow first: empty lines
   * draw nothing yet keep their slot, and two calls are made per
   * non-empty line, in order.
   */
  lemma TextOpsPlacement(lines: seq<string>, startY: int, measure: string -> int, i: int)
    requires 0 <= i < |lines| && lines[i] != ""
    ensures |TextOps(lines, startY, measure)| == 2 * NonEmptyCount(lines)
    ensures var k := 2 * NonEmptyCount(lines[..i]);
      var ops := TextOps(lines, startY, measure);
      && k + 2 <= |ops|
      && ops[k] == Text(CenteredX(measure(lines[i])) + 2, startY + 40 * i + 2, lines[i], Hex("#cccccc"))
      && ops[k + 1] == Text(CenteredX(measure(lines[i])), startY + 40 * i, lines[i], Hex("#333333"))
  {
    TextOpsLength(lines, startY, measure);
    LineOpsAt(lines, startY, measure, i);
    var k := 2 * NonEmptyCount(lines[..i]);
    var ops := TextOps(lines, startY, measure);
  }

  /** The two calls for a non-empty line `i` follow those of the non-empty lines before it. */
  lemma {:induction false} LineOpsAt(lines: seq<string>, startY: int, measure: string -> int, i: int)
    requires 0 <= i < |lines| && lines[i] != ""
    ensures var k := 2 * NonEmptyCount(lines[..i]);
      var ops := TextOps(lines, startY, measure);
      var line := LineOps(i, lines[i], startY, measure);
      k + 2 <= |ops| && ops[k] == line[0] && ops[k + 1] == line[1]
  {
    var n := |lines| - 1;
    var init := lines[..n];
    var front := TextOps(init, startY, measure);
    assert TextOps(lines, startY, measure) == front + LineOps(n, lines[n], startY, measure);
    TextOpsLength(init, startY, measure);
    if i < n {
      assert init[..i] == lines[..i] && init[i] == lines[i];
      LineOpsAt(init, startY, measure, i);
    } else {
      assert init == lines[..i];
    }
  }

  lemma {:induction false} TextOpsLength(lines: seq<string>, startY: int, measure: string -> int)
    ensures |TextOps(lines, startY, measure)| == 2 * NonEmptyCount(lines)
  {
    if lines != [] {
      TextOpsLength(lines[..|lines| - 1], startY, measure);
    }
  }

  /** `f"enhanced_placeholder_{campaign_id}_{uuid.uuid4().hex[:8]}.png"`. */
  function PlaceholderFilename(campaignId: string, uuidHex: UuidHex): string {
    "enhanced_placeholder_" + campaignId + "_" + uuidHex[..8] + ".png"
  }

  /** `f"campaign_{campaign_id}_{uuid.uuid4().hex[:8]}.png"`. */
  function ImageFilename(campaignId: string, uuidHex: UuidHex): string {
    "campaign_" + campaignId + "_" + uuidHex[..8] + ".png"
  }

  predicate IsHexDigit(c: char) {
    '0' <= c <= '9' || 'a' <= c <= 'f'
  }

  /** `uuid.uuid4().hex`: 32 lower-case hexadecimal digits. */
  type UuidHex = s: string | |s| == 32 && forall i :: 0 <= i < |s| ==> IsHexDigit(s[i])
    witness "00000000000000000000000000000000"

  /** The campaign id a placeholder's file name was made from: what lies between the fixed prefix and the `_` + 8 digits + `.png`. */
  function PlaceholderCampaignId(filename: string): string
    requires |filename| >= 34
  {
    filename[21..|filename| - 13]
  }

  /** The file name gives back the campaign id and the 8 random digits it was made from. */
  lemma PlaceholderFilenameRoundTrip(campaignId: string, uuidHex: UuidHex)
    ensures var f := PlaceholderFilename(campaignId, uuidHex);
      && |f| == 34 + |campaignId|
      && f[..21] == "enhanced_placeholder_" && f[|f| - 4..] == ".png"
      && PlaceholderCampaignId(f) == campaignId
      && f[|f| - 12..|f| - 4] == uuidHex[..8]
  {
  }

  /** `str(output_dir / filename)` for a relative file name without separators in front. */
  function JoinPath(dir: string, filename: string): (r: string)
    ensures dir == "" ==> r == filename
    ensures |r| >= |dir| + |filename|
    ensures dir != "" ==> r[..|dir|] == dir && r[|r| - |filename|..] == filename
  {
    if dir == "" then filename
    else if dir[|dir| - 1] == '/' then dir + filename
    else dir + "/" + filename
  }

  /** The image being drawn on: its size, its background colour and the drawing calls made on it so far. */
  class Canvas {
    const width: int
    const height: int
    const background: Color
    var ops: seq<DrawOp>

    /** `Image.new('RGB', (width, height), color=background)`. */
    constructor (width: int, height: int, background: Color)
      ensures this.width == width && this.height == height && this.background == background && ops == []
    {
      this.width := width;
      this.height := height;
      this.background := background;
      ops := [];
    }

    method Draw(op: DrawOp)
      modifies this
      ensures ops == old(ops) + [op]
    {
      ops := ops + [op];
    }
  }

  /** The gradient loop: one horizontal line per row, from the top. */
  method DrawGradient(img: Canvas)
    requires img.ops == [] && img.width == Size && img.height == Size
    modifies img
    ensures img.ops == GradientOps(Size)
  {
    var y := 0;
    while y < img.height
      invariant 0 <= y <= img.height
      invariant img.ops == GradientOps(y)
    {
      var shade := GradientShade(y);
      img.Draw(Line(0, y, img.width, y, Rgb(shade, shade + 8, 255)));
      assert GradientOps(y + 1) == GradientOps(y) + [GradientLine(y)];
      y := y + 1;
    }
  }

  /** The text loop: each non-empty line, shadow first, in its slot below `startY`. */
  method DrawLines(img: Canvas, lines: seq<string>, startY: int, measure: string -> int)
    requires img.width == Size
    modifies img
    ensures img.ops == old(img.ops) + TextOps(lines, startY, measure)
  {
    var i := 0;
    while i < |lines|
      invariant 0 <= i <= |lines|
      invariant img.ops == old(img.ops) + TextOps(lines[..i], startY, measure)
    {
      var line := lines[i];
      if line != "" {
        var x := (img.width - measure(line)) / 2;
        var lineY := startY + i * LineHeight;
        img.Draw(Text(x + 2, lineY + 2, line, Hex("#cccccc")));
        img.Draw(Text(x, lineY, line, Hex("#333333")));
      }
      assert lines[..i + 1][..i] == lines[..i];
      i := i + 1;
    }
    assert lines[..|lines|] == lines;
  }

  /**
   * `create_enhanced_placeholder(campaign_id, output_dir, prompt)`: draws
   * the gradient row by row, then each non-empty line with its shadow, and
   * returns the saved file's path, or "" when saving failed. The clock's
   * reading, the font's text widths, the uuid and whether `save` succeeded
   * are given.
   */
  method CreateEnhancedPlaceholder(campaignId: string, outputDir: string, prompt: string, generatedAt: string,
                                   measure: string -> int, uuidHex: UuidHex, saved: bool)
    returns (path: string, img: Canvas)
    ensures fresh(img) && img.width == Size && img.height == Size && img.background == Hex("#f0f8ff")
    ensures var lines := TextLines(campaignId, prompt, generatedAt);
      img.ops == GradientOps(Size) + TextOps(lines, StartY(lines), measure)
    ensures path == if saved then JoinPath(outputDir, PlaceholderFilename(campaignId, uuidHex)) else ""
  {
    img := new Canvas(Size, Size, Hex("#f0f8ff"));
    DrawGradient(img);
    var lines := TextLines(campaignId, prompt, generatedAt);
    var startY := (img.height - NonEmptyCount(lines) * LineHeight) / 2;
    DrawLines(img, lines, startY, measure);
    if saved {
      path := JoinPath(outputDir, PlaceholderFilename(campaignId, uuidHex));
    } else {
      path := "";
    }
  }

  // The image part of a Gemini response

  /** One part of a candidate's content: its `text` and its `inline_data` bytes. */
  datatype Part = Part(text: Option<string>, inlineData: Option<seq<bv8>>)

  /** A candidate; `parts` is `None` when the content or its parts are missing. */
  datatype Candidate = Candidate(parts: Option<seq<Part>>)

  datatype ImageResponse = ImageResponse(candidates: Option<seq<Candidate>>)

  /** The branch taken for a part: not a text part, and carrying image data. */
  predicate IsImagePart(p: Part) {
    p.text.None? && p.inlineData.Some?
  }

  /** The index of the first image part. */
  function FirstImagePart(parts: seq<Part>): (r: Option<nat>)
    ensures r.Some? ==> r.value < |parts| && IsImagePart(parts[r.value])
    ensures r.Some? ==> forall j :: 0 <= j < r.value ==> !IsImagePart(parts[j])
    ensures r.None? ==> forall j :: 0 <= j < |parts| ==> !IsImagePart(parts[j])
  {
    if parts == [] then None
    else if IsImagePart(parts[0]) then Some(0)
    else
      var rest := FirstImagePart(parts[1..]);
      if rest.Some? then Some(rest.value + 1) else None
  }

  /** The parts `process_image_response` walks through, when the response has a first candidate with parts. */
  function ResponseParts(response: ImageResponse): Option<seq<Part>> {
    if response.candidates.None? || response.candidates.value == [] then None
    else
      var parts := response.candidates.value[0].parts;
      if parts.None? || parts.value == [] then None else parts
  }

  /**
   * `process_image_response`: the path of the image saved from the first
   * image part, or `None` when there is no such part, or when decoding or
   * saving that part's image raised (`saves` tells which data can be
   * decoded and saved).
   */
  method ProcessImageResponse(response: ImageResponse, campaignId: string, outputDir: string,
                              uuidHex: UuidHex, saves: seq<bv8> -> bool)
    returns (r: Option<string>)
    ensures ResponseParts(response).None? ==> r.None?
    ensures ResponseParts(response).Some? ==>
      var parts := ResponseParts(response).value;
      match FirstImagePart(parts)
      case None => r.None?
      case Some(k) =>
        r == if saves(parts[k].inlineData.value) then Some(JoinPath(outputDir, ImageFilename(campaignId, uuidHex))) else None
  {
    if response.candidates.None? || response.candidates.value == [] {
      return None;
    }
    var content := response.candidates.value[0].parts;
    if content.None? || content.value == [] {
      return None;
    }
    var parts := content.value;
    var i := 0;
    while i < |parts|
      invariant 0 <= i <= |parts|
      invariant forall j :: 0 <= j < i ==> !IsImagePart(parts[j])
    {
      var part := parts[i];
      if part.text.Some? {
        // the description is only logged
      } else if part.inlineData.Some? {
        if !saves(part.inlineData.value) {
          return None;
        }
        return Some(JoinPath(outputDir, ImageFilename(campaignId, uuidHex)));
      }
      i := i + 1;
    }
    return None;
  }
}

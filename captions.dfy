/**
 * The captions the bot attaches to a generated image: the Telegram photo
 * captions of the three handlers and the Instagram captions built with
 * triple-quoted f-strings and `.strip()`.
 */
module Captions {
  import opened Wrappers
  import opened Text
  import opened Decimal
  import opened Seeds
  import Prompt

  /** How much of the prompt a Telegram caption shows, and how much of the user's text an Instagram caption shows. */
  const PromptExcerpt: nat := 100
  const InputExcerpt: nat := 50

  const Hashtags: string := "#AbstractArt #DigitalArt #AIArt #ContemporaryArt #ModernArt #ArtisticExpression #CreativeAI #AbstractExpressionism #DigitalCreativity #ArtDaily"

  /** The line break after the opening quotes and the line break and indentation before the closing quotes. */
  const TemplateLead: string := "\n"
  const TemplateTrail: string := "\n        "

  /** The palette emoji every caption begins with. */
  const Palette: string := "🎨"

  const GenerateHead: string := Palette + " Abstract Art Generated!\n\nPrompt: "

  /**
   * The Telegram caption of `generate_command`: after its heading, the first
   * 100 code points of the prompt, then `...` and the seed's line.
   */
  function GenerateCaption(prompt: string, seed: int): (c: string)
    ensures var e := Take(prompt, PromptExcerpt);
      StartsWith(c, GenerateHead) && |GenerateHead| + |e| <= |c| && c[|GenerateHead| .. |GenerateHead| + |e|] == e
    ensures EndsWith(c, "...\nSeed: " + Show(seed))
  {
    var e := Take(prompt, PromptExcerpt);
    SliceOfConcat(GenerateHead, e, "...\nSeed: ", Show(seed));
    EndsOfConcat(GenerateHead + e, "...\nSeed: ", Show(seed));
    GenerateHead + e + "...\nSeed: " + Show(seed)
  }

  const SeedHeadLead: string := Palette + " Abstract Art (Seed: "
  const SeedHeadTrail: string := ")\n\nPrompt: "

  /**
   * The Telegram caption of `seed_command`: a heading naming the seed, then
   * the first 100 code points of the prompt, then `...`.
   */
  function SeedCaption(prompt: string, seed: int): (c: string)
    ensures var h := SeedHeadLead + Show(seed) + SeedHeadTrail; var e := Take(prompt, PromptExcerpt);
      StartsWith(c, h) && |h| + |e| <= |c| && c[|h| .. |h| + |e|] == e && EndsWith(c, "...")
  {
    var h := SeedHeadLead + Show(seed) + SeedHeadTrail;
    var e := Take(prompt, PromptExcerpt);
    SliceOfConcat(h, e, "...", "");
    h + e + "..."
  }

  const MessageHead: string := Palette + " Inspired by: \""

  /**
   * The Telegram caption of `handle_message`: it quotes the whole message,
   * and ends with the seed's line.
   */
  function MessageCaption(userInput: string, seed: int): (c: string)
    ensures StartsWith(c, MessageHead) && |MessageHead| + |userInput| <= |c|
    ensures c[|MessageHead| .. |MessageHead| + |userInput|] == userInput
    ensures EndsWith(c, "\"\n\nSeed: " + Show(seed))
  {
    SliceOfConcat(MessageHead, userInput, "\"\n\nSeed: ", Show(seed));
    EndsOfConcat(MessageHead + userInput, "\"\n\nSeed: ", Show(seed));
    MessageHead + userInput + "\"\n\nSeed: " + Show(seed)
  }

  /** The text between the template's first and last lines, for each Instagram caption. */
  const GenerateInstagramBody: string :=
    Palette + " Abstract Digital Art\n\nGenerated with AI using advanced algorithms\nStyle: Contemporary Abstract Expression\n\n" + Hashtags

  const SeedInstagramTitle: string := Palette + " Abstract Digital Art - Seed "
  const SeedInstagramMiddle: string :=
    "\n\nAI-generated abstract expressionist artwork\nUnique algorithmic composition\n\n" + Hashtags

  /**
   * The `/seed` body: its title names the seed and it ends with the seed's
   * hashtag; it begins with the palette and ends with a digit, so neither end is white space.
   */
  function SeedInstagramBody(seed: int): (r: string)
    ensures StartsWith(r, SeedInstagramTitle + Show(seed)) && EndsWith(r, " #Seed" + Show(seed))
    ensures r != [] && !IsSpace(r[0]) && !IsSpace(r[|r| - 1])
  {
    var n := Show(seed);
    ShowEndsWithDigit(seed);
    assert SeedInstagramTitle[0] == '🎨';
    FramedByNumeral(SeedInstagramTitle, n, SeedInstagramMiddle, " #Seed");
    SeedInstagramTitle + n + SeedInstagramMiddle + " #Seed" + n
  }

  /** A text that repeats a numeral at its end begins with its title and numeral and ends with the numeral's last digit. */
  lemma FramedByNumeral(title: string, n: string, middle: string, tag: string)
    requires title != [] && n != []
    ensures var x := title + n + middle + tag + n;
      StartsWith(x, title + n) && EndsWith(x, tag + n) && x[0] == title[0] && x[|x| - 1] == n[|n| - 1]
  {
    EndsOfConcat(title + n + middle, tag, n);
  }

  const MessageInstagramHead: string := Palette + " Abstract Digital Art\n\nInspired by the concept: \""
  const MessageInstagramMiddle: string := "...\"\nAI-generated contemporary abstract expression\n\n"

  /**
   * The message body: it quotes the first 50 code points of the message after
   * its heading and nothing else of the message (its length is fixed by the
   * excerpt's), and neither end is white space.
   */
  function MessageInstagramBody(userInput: string): (r: string)
    ensures var e := Take(userInput, InputExcerpt);
      |MessageInstagramHead| + |e| <= |r| && r[|MessageInstagramHead| .. |MessageInstagramHead| + |e|] == e
    ensures |r| == |MessageInstagramHead| + |Take(userInput, InputExcerpt)| + |MessageInstagramMiddle| + |Hashtags|
    ensures r != [] && !IsSpace(r[0]) && !IsSpace(r[|r| - 1])
  {
    var e := Take(userInput, InputExcerpt);
    SliceOfConcat(MessageInstagramHead, e, MessageInstagramMiddle, Hashtags);
    HashtagsEnd();
    MessageInstagramHead + e + MessageInstagramMiddle + Hashtags
  }

  /** The Instagram caption of `generate_command`: the stripped template. */
  const GenerateInstagramCaption: string := Strip(TemplateLead + GenerateInstagramBody + TemplateTrail)

  /** The Instagram caption of `seed_command`. */
  function SeedInstagramCaption(seed: int): string
  {
    Strip(TemplateLead + SeedInstagramBody(seed) + TemplateTrail)
  }

  /** The Instagram caption of `handle_message`. */
  function MessageInstagramCaption(userInput: string): string
  {
    Strip(TemplateLead + MessageInstagramBody(userInput) + TemplateTrail)
  }

  lemma TemplateFrameIsSpace()
    ensures AllSpace(TemplateLead) && AllSpace(TemplateTrail)
  {
  }

  lemma HashtagsEnd()
    ensures |Hashtags| > 0 && !IsSpace(Hashtags[|Hashtags| - 1])
  {
  }

  /** `.strip()` removes only the template's framing: the caption is the body between the quotes' lines. */
  lemma GenerateInstagramCaptionIsBody()
    ensures GenerateInstagramCaption == GenerateInstagramBody
  {
    var body := GenerateInstagramBody;
    TemplateFrameIsSpace();
    HashtagsEnd();
    assert body[0] == Palette[0] == '🎨';
    assert body[|body| - 1] == Hashtags[|Hashtags| - 1];
    StripFramed(TemplateLead, body, TemplateTrail);
  }

  /** `.strip()` leaves the `/seed` template's body whole. */
  lemma SeedInstagramCaptionIsBody(seed: int)
    ensures SeedInstagramCaption(seed) == SeedInstagramBody(seed)
  {
    TemplateFrameIsSpace();
    StripFramed(TemplateLead, SeedInstagramBody(seed), TemplateTrail);
  }

  /**
   * The `/seed` Instagram caption begins with the art title and the seed and
   * ends with the seed's hashtag, from which the seed reads back.
   */
  lemma SeedInstagramCaptionTagsSeed(seed: int)
    ensures StartsWith(SeedInstagramCaption(seed), SeedInstagramTitle + Show(seed))
    ensures EndsWith(SeedInstagramCaption(seed), " #Seed" + Show(seed))
    ensures var c := SeedInstagramCaption(seed); Parse(c[|c| - |Show(seed)|..]) == Some(seed)
  {
    SeedInstagramCaptionIsBody(seed);
    var c, n := SeedInstagramCaption(seed), Show(seed);
    assert c[|c| - |n|..] == (" #Seed" + n)[6..];
    ParseShow(seed);
  }

  lemma EndsOfConcat(x: string, t: string, n: string)
    ensures EndsWith(x + t + n, t + n)
    ensures var c := x + t + n; c[|c| - |n|..] == n
  {
  }

  /** `.strip()` leaves the message template's body whole, whatever the message. */
  lemma MessageInstagramCaptionIsBody(userInput: string)
    ensures MessageInstagramCaption(userInput) == MessageInstagramBody(userInput)
  {
    TemplateFrameIsSpace();
    StripFramed(TemplateLead, MessageInstagramBody(userInput), TemplateTrail);
  }

  /**
   * The message's Instagram caption quotes at most the first 50 code points of
   * the message: the excerpt after the heading, and otherwise only fixed text.
   */
  lemma MessageInstagramCaptionQuotesExcerpt(userInput: string)
    ensures var h := |MessageInstagramHead|;
      var e := Take(userInput, InputExcerpt);
      |e| <= InputExcerpt && StartsWith(userInput, e) &&
      h + |e| <= |MessageInstagramCaption(userInput)| &&
      MessageInstagramCaption(userInput)[h .. h + |e|] == e
    ensures |MessageInstagramCaption(userInput)|
         == |MessageInstagramHead| + |Take(userInput, InputExcerpt)| + |MessageInstagramMiddle| + |Hashtags|
  {
    MessageInstagramCaptionIsBody(userInput);
  }

  lemma SliceOfConcat(a: string, e: string, m: string, z: string)
    ensures |a| + |e| <= |a + e + m + z|
    ensures (a + e + m + z)[|a| .. |a| + |e|] == e
  {
  }

  /**
   * For a prompt the bot synthesized and a seed it drew, the `/generate`
   * Telegram caption shows exactly the first 100 code points of the prompt and
   * has a fixed length of 152 code points.
   */
  lemma GenerateCaptionOfSynthesizedPrompt(userInput: string, p: Prompt.Picks, seed: int)
    requires Prompt.InRange(p) && SeedMin <= seed <= SeedMax
    ensures var prompt := Prompt.AbstractPrompt(userInput, p);
      var c := GenerateCaption(prompt, seed);
      |prompt| > PromptExcerpt && |c| == 152 && c[|GenerateHead| .. |GenerateHead| + PromptExcerpt] == prompt[..PromptExcerpt]
  {
    var prompt := Prompt.AbstractPrompt(userInput, p);
    Prompt.PromptLongerThanExcerpt(userInput, p);
    SevenDigits(seed);
    var c := GenerateCaption(prompt, seed);
    assert c == GenerateHead + prompt[..PromptExcerpt] + ("...\nSeed: " + Show(seed));
  }

  /**
   * For a synthesized prompt, the `/seed` Telegram caption shows exactly the
   * first 100 code points of the prompt after the seed's line.
   */
  lemma SeedCaptionOfSynthesizedPrompt(userInput: string, p: Prompt.Picks, seed: int)
    requires Prompt.InRange(p)
    ensures var prompt := Prompt.AbstractPrompt(userInput, p);
      var h := |Palette + " Abstract Art (Seed: " + Show(seed) + ")\n\nPrompt: "|;
      var c := SeedCaption(prompt, seed);
      |prompt| > PromptExcerpt && |c| == h + PromptExcerpt + 3 && c[h .. h + PromptExcerpt] == prompt[..PromptExcerpt] && EndsWith(c, "...")
  {
    var prompt := Prompt.AbstractPrompt(userInput, p);
    Prompt.PromptLongerThanExcerpt(userInput, p);
  }
}

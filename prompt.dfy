/**
 * Prompt synthesis (`AIImageBot.create_abstract_prompt`): four draws from
 * fixed vocabularies, in the order style, colour theme, texture, mood, and
 * a comma-separated prompt built from them and the user's text.
 */
module Prompt {
  import opened Wrappers
  import opened Text
  import opened Seeds
  import PyRandom

  const StylePrompts: seq<string> := [
    "abstract expressionist painting with bold brushstrokes and vibrant colors",
    "minimalist geometric composition with flowing organic shapes",
    "surreal dreamscape with floating elements and ethereal lighting",
    "contemporary digital art with gradient textures and modern aesthetics",
    "abstract landscape with atmospheric depth and rich color palette",
    "fluid art with marbled patterns and iridescent surfaces",
    "cubist-inspired composition with fragmented forms and bold contrasts",
    "psychedelic abstract art with swirling patterns and neon colors",
    "watercolor abstract with soft blending and translucent layers",
    "mixed media collage with textural elements and artistic depth"
  ]

  const ColorThemes: seq<string> := [
    "warm sunset colors of orange, pink, and gold",
    "cool ocean blues and turquoise with white accents",
    "earth tones of brown, beige, and forest green",
    "monochromatic black and white with gray gradients",
    "vibrant rainbow spectrum with bold saturation",
    "pastel palette of soft pink, lavender, and mint",
    "metallic tones of silver, copper, and bronze",
    "jewel tones of emerald, sapphire, and ruby",
    "autumn colors of burgundy, amber, and deep orange",
    "arctic palette of ice blue, silver, and pristine white"
  ]

  const Textures: seq<string> := ["smooth", "textured", "rough", "silky", "crystalline", "organic"]

  const Moods: seq<string> := ["serene", "dynamic", "mysterious", "energetic", "contemplative", "bold"]

  /** The quality enhancers appended to every prompt. */
  const QualitySuffix: string := ", high resolution, artistic masterpiece, professional digital art"

  /** The indices drawn into the four vocabularies. */
  datatype Picks = Picks(style: nat, color: nat, texture: nat, mood: nat)

  predicate InRange(p: Picks)
  {
    p.style < |StylePrompts| && p.color < |ColorThemes| && p.texture < |Textures| && p.mood < |Moods|
  }

  /** The four picks and the generator state they leave behind. */
  datatype Drawn = Drawn(picks: Picks, after: PyRandom.State)

  /**
   * The four `random.choice` draws from state `s`, each from the state the
   * previous one left: style, then colour theme, then texture, then mood.
   */
  function DrawPicks(g: PyRandom.Generator, s: PyRandom.State): (d: Drawn)
    requires PyRandom.WellFormed(g)
    ensures InRange(d.picks)
  {
    var (style, s1) := PyRandom.Draw(g, s, |StylePrompts|);
    var (color, s2) := PyRandom.Draw(g, s1, |ColorThemes|);
    var (texture, s3) := PyRandom.Draw(g, s2, |Textures|);
    var (mood, s4) := PyRandom.Draw(g, s3, |Moods|);
    Drawn(Picks(style, color, texture, mood), s4)
  }

  /** The state the draws start from: a truthy seed reseeds, any other seed keeps the current state. */
  function StartState(g: PyRandom.Generator, current: PyRandom.State, seed: Option<int>): (s: PyRandom.State)
    ensures seed == None || seed == Some(0) ==> s == current
    ensures seed.Some? && seed.value != 0 ==> s == g.seeded(seed.value)
  {
    if Truthy(seed) then g.seeded(seed.value) else current
  }

  /**
   * The f-string of the prompt before the quality enhancers, with and without
   * the user's text: it begins with the text, a comma and the style when there is text,
   * with the style otherwise, and ends with the mood's atmosphere.
   */
  function Compose(userInput: string, style: string, colorTheme: string, texture: string, mood: string): (r: string)
    ensures userInput != "" ==> StartsWith(r, userInput + ", " + style)
    ensures userInput == "" ==> StartsWith(r, style)
    ensures EndsWith(r, mood + " atmosphere")
  {
    if userInput != "" then
      userInput + ", " + style + ", featuring " + colorTheme + ", with " + texture + " textures, creating a " + mood + " atmosphere"
    else
      style + ", featuring " + colorTheme + ", with " + texture + " textures, creating a " + mood + " atmosphere"
  }

  /**
   * The comma-separated fields of a prompt: the user's text when there is
   * any, then the style, the colour theme, the texture and the mood.
   */
  function Fields(userInput: string, style: string, colorTheme: string, texture: string, mood: string): (r: seq<string>)
    ensures |r| == if userInput == "" then 4 else 5
    ensures style != "" ==> forall k :: 0 <= k < |r| ==> r[k] != ""
    ensures r[0] == if userInput == "" then style else userInput
    ensures userInput != "" ==> r[1] == style
  {
    (if userInput == "" then [] else [userInput])
    + [style,
       "featuring " + colorTheme,
       "with " + texture + " textures",
       "creating a " + mood + " atmosphere"]
  }

  /** The fields for the user's text and the picks. */
  function PickedFields(userInput: string, p: Picks): seq<string>
    requires InRange(p)
  {
    Fields(userInput, StylePrompts[p.style], ColorThemes[p.color], Textures[p.texture], Moods[p.mood])
  }

  /**
   * The prompt for the user's text and the picks: its fields joined by `", "`,
   * then the quality enhancers, with which every prompt ends.
   */
  function AbstractPrompt(userInput: string, p: Picks): (r: string)
    requires InRange(p)
    ensures EndsWith(r, QualitySuffix)
  {
    Join(", ", PickedFields(userInput, p)) + QualitySuffix
  }

  /** Gluing a separator to the literal that follows it. */
  lemma Glue(x: string, sep: string, lead: string, glued: string, y: string)
    requires sep + lead == glued
    ensures x + sep + (lead + y) == x + glued + y
  {
  }

  /** Four fields joined by `", "`. */
  lemma JoinFour(x: string, f: string, w: string, m: string)
    ensures Join(", ", [x, f, w, m]) == x + ", " + f + ", " + w + ", " + m
  {
    assert [x, f, w, m] == [x, f, w] + [m];
    assert [x, f, w] == [x, f] + [w];
    assert [x, f] == [x] + [f];
    JoinSnoc(", ", [x, f, w], m);
    JoinSnoc(", ", [x, f], w);
    JoinSnoc(", ", [x], f);
  }

  /** Joining the colour, texture and mood fields after a leading text `x`. */
  lemma JoinedTail(x: string, colorTheme: string, texture: string, mood: string)
    ensures Join(", ", [x, "featuring " + colorTheme, "with " + texture + " textures", "creating a " + mood + " atmosphere"])
         == x + ", featuring " + colorTheme + ", with " + texture + " textures, creating a " + mood + " atmosphere"
  {
    var f, w, m := "featuring " + colorTheme, "with " + texture + " textures", "creating a " + mood + " atmosphere";
    JoinFour(x, f, w, m);
    Glue(x, ", ", "featuring ", ", featuring ", colorTheme);
    var a := x + ", featuring " + colorTheme;
    Glue(a, ", ", "with ", ", with ", texture);
    var b := a + ", with " + texture;
    assert a + ", " + w == b + " textures" by {
      assert "with " + texture + " textures" == ("with " + texture) + " textures";
    }
    var c := b + " textures";
    assert c + ", " + m == c + ", creating a " + mood + " atmosphere" by {
      Glue(c, ", ", "creating a ", ", creating a ", mood + " atmosphere");
    }
    assert c + ", creating a " + mood == b + " textures, creating a " + mood by {
      assert c + ", creating a " == b + (" textures" + ", creating a ");
    }
  }

  /** Two leading fields join like one field holding both and the separator. */
  lemma JoinMergeHead(a: string, b: string, rest: seq<string>)
    requires rest != []
    ensures Join(", ", [a, b] + rest) == Join(", ", [a + ", " + b] + rest)
  {
  }

  /** The f-strings of `create_abstract_prompt` join the fields with `", "`. */
  lemma ComposeIsJoinedFields(userInput: string, style: string, colorTheme: string, texture: string, mood: string)
    ensures Compose(userInput, style, colorTheme, texture, mood) == Join(", ", Fields(userInput, style, colorTheme, texture, mood))
  {
    var tail := ["featuring " + colorTheme, "with " + texture + " textures", "creating a " + mood + " atmosphere"];
    if userInput != "" {
      assert Fields(userInput, style, colorTheme, texture, mood) == [userInput, style] + tail;
      JoinMergeHead(userInput, style, tail);
      assert [userInput + ", " + style] + tail == [userInput + ", " + style, tail[0], tail[1], tail[2]];
      JoinedTail(userInput + ", " + style, colorTheme, texture, mood);
    } else {
      assert Fields(userInput, style, colorTheme, texture, mood) == [style] + tail;
      JoinedTail(style, colorTheme, texture, mood);
    }
  }

  /** Every style is at least 55 code points long. */
  lemma StyleLength(i: nat)
    requires i < |StylePrompts|
    ensures |StylePrompts[i]| >= 55
  {
  }

  /**
   * With text, the prompt begins with the text, a comma and the style; without
   * text, it begins with the style itself: the style is the first field, and no field is empty.
   */
  lemma PromptLeadingSegment(userInput: string, p: Picks)
    requires InRange(p)
    ensures userInput != "" ==> StartsWith(AbstractPrompt(userInput, p), userInput + ", " + StylePrompts[p.style])
    ensures userInput == "" ==> StartsWith(AbstractPrompt(userInput, p), StylePrompts[p.style])
    ensures userInput == "" ==> PickedFields(userInput, p)[0] == StylePrompts[p.style]
    ensures forall k :: 0 <= k < |PickedFields(userInput, p)| ==> PickedFields(userInput, p)[k] != ""
  {
    var style, color, texture, mood := StylePrompts[p.style], ColorThemes[p.color], Textures[p.texture], Moods[p.mood];
    ComposeIsJoinedFields(userInput, style, color, texture, mood);
    StyleLength(p.style);
    var c := Compose(userInput, style, color, texture, mood);
    assert c <= c + QualitySuffix;
  }

  /** Every prompt is longer than the 100 code points a Telegram caption shows. */
  lemma PromptLongerThanExcerpt(userInput: string, p: Picks)
    requires InRange(p)
    ensures |AbstractPrompt(userInput, p)| > 100
  {
    ComposeIsJoinedFields(userInput, StylePrompts[p.style], ColorThemes[p.color], Textures[p.texture], Moods[p.mood]);
    StyleLength(p.style);
  }

  /**
   * Reproducibility: under a truthy seed the prompt depends on the text and
   * the seed alone, not on the generator state before the call.
   */
  lemma SeededPromptIgnoresHistory(g: PyRandom.Generator, s1: PyRandom.State, s2: PyRandom.State,
                                   userInput: string, seed: Option<int>)
    requires PyRandom.WellFormed(g) && Truthy(seed)
    ensures AbstractPrompt(userInput, DrawPicks(g, StartState(g, s1, seed)).picks)
         == AbstractPrompt(userInput, DrawPicks(g, StartState(g, s2, seed)).picks)
  {
  }
}

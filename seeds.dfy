/**
 * Seeds: the seven-digit range the bot draws from, Python's truthiness test
 * on an optional seed, and the seed tag added to the generation request.
 */
module Seeds {
  import opened Wrappers
  import opened Text
  import opened Decimal

  /** The bounds of `random.randint` in `generate_random_seed`. */
  const SeedMin: int := 1000000
  const SeedMax: int := 9999999

  /** Python's `if seed:` for `Optional[int]`: `None` and `0` are false. */
  predicate Truthy(seed: Option<int>)
    ensures Truthy(seed) <==> seed != None && seed != Some(0)
  {
    seed.Some? && seed.value != 0
  }

  /** The length of the tag's text before the numeral. */
  const TagLead: nat := |" (style seed: "|

  /** The text `f" (style seed: {seed})"`: the seed's numeral in its frame, from which the seed reads back. */
  function StyleSeedTag(seed: int): (r: string)
    ensures StartsWith(r, " (style seed: ") && EndsWith(r, ")")
    ensures TagLead < |r| - 1 && Parse(r[TagLead .. |r| - 1]) == Some(seed)
  {
    ParseShow(seed);
    SliceOfTag([], " (style seed: ", Show(seed), ")");
    " (style seed: " + Show(seed) + ")"
  }

  /**
   * The prompt `generate_image` sends: the prompt with the seed tag appended
   * when the seed is truthy, the prompt itself otherwise.
   */
  function RequestPrompt(prompt: string, seed: Option<int>): (r: string)
    ensures StartsWith(r, prompt)
    ensures Truthy(seed) <==> |r| > |prompt|
    ensures Truthy(seed) ==> r[|prompt|..] == StyleSeedTag(seed.value)
  {
    if Truthy(seed) then prompt + StyleSeedTag(seed.value) else prompt
  }

  /** A tagged request names its seed: the numeral inside the tag reads back as the seed. */
  lemma RequestNamesSeed(prompt: string, seed: int)
    requires seed != 0
    ensures var r := RequestPrompt(prompt, Some(seed));
      |prompt| + TagLead < |r| && Parse(r[|prompt| + TagLead .. |r| - 1]) == Some(seed)
  {
    var r := RequestPrompt(prompt, Some(seed));
    var n := Show(seed);
    assert r == prompt + " (style seed: " + n + ")";
    SliceOfTag(prompt, " (style seed: ", n, ")");
    ParseShow(seed);
  }

  lemma SliceOfTag(a: string, b: string, n: string, c: string)
    ensures (a + b + n + c)[|a| + |b| .. |a + b + n + c| - |c|] == n
  {
  }
}

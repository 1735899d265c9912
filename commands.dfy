/**
 * The arguments of the chat commands: the free text of `/generate` and the
 * seed and description of `/seed`.
 */
module Commands {
  import opened Wrappers
  import opened Text
  import opened Decimal

  /** `' '.join(context.args) if context.args else ""` in `generate_command`. */
  function ArgsText(args: seq<string>): (r: string)
    ensures r == Join(" ", args)
    ensures args == [] ==> r == ""
  {
    if args != [] then Join(" ", args) else ""
  }

  /** What `seed_command` makes of its arguments. */
  datatype SeedArgs =
    | MissingSeed
    | InvalidSeed
    | SeedRequest(seed: int, description: string)

  /**
   * `seed_command`'s argument handling: no arguments is a usage error, a
   * first argument that `int()` rejects is an invalid seed, and otherwise the
   * seed is that integer and the description the remaining arguments joined
   * by single spaces (empty when there are none).
   */
  function ParseSeedArgs(args: seq<string>): (r: SeedArgs)
    ensures r.MissingSeed? <==> args == []
    ensures r.InvalidSeed? <==> args != [] && !IsIntLiteral(args[0])
    ensures r.SeedRequest? ==> Parse(args[0]) == Some(r.seed) && r.description == Join(" ", args[1..])
    ensures r.SeedRequest? && |args| == 1 ==> r.description == ""
  {
    if args == [] then MissingSeed
    else
      ParseAccepts(args[0]);
      match Parse(args[0])
      case None => InvalidSeed
      case Some(seed) => SeedRequest(seed, if |args| > 1 then Join(" ", args[1..]) else "")
  }

  const SeedUsage: string := "/seed 1234567 [description]"
  const MissingSeedLead: string := "Please provide a seed number: "
  const InvalidSeedLead: string := "Invalid seed number. Please use: "

  /**
   * The reply to each rejected `/seed` command: both end with the usage, and
   * each rejection has its own opening sentence.
   */
  function SeedErrorReply(r: SeedArgs): (reply: string)
    requires !r.SeedRequest?
    ensures EndsWith(reply, SeedUsage)
    ensures StartsWith(reply, MissingSeedLead) <==> r.MissingSeed?
    ensures StartsWith(reply, InvalidSeedLead) <==> r.InvalidSeed?
  {
    assert MissingSeedLead[0] != InvalidSeedLead[0];
    match r
    case MissingSeed => MissingSeedLead + SeedUsage
    case InvalidSeed => InvalidSeedLead + SeedUsage
  }

  /**
   * A command written from a seed and description words gives back that seed
   * and the words joined by spaces.
   */
  lemma SeedArgsRoundTrip(seed: int, words: seq<string>)
    ensures ParseSeedArgs([Show(seed)] + words) == SeedRequest(seed, Join(" ", words))
  {
    ParseShow(seed);
    assert ([Show(seed)] + words)[1..] == words;
  }
}

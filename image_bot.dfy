/**
 * The bot object (`AIImageBot`): its seed and prompt steps, the handlers of
 * `/generate`, `/seed` and plain messages, and the start-up check.
 *
 * The services a handler calls (image generation, download, Instagram
 * upload) are parameters; the Telegram replies are not modelled.
 */
module ImageBot {
  import opened Wrappers
  import opened Seeds
  import opened Prompt
  import opened Commands
  import opened Captions
  import opened Config
  import PyRandom

  /**
   * What `download_image` leaves: the name of the temporary file it returns
   * (none when it fails), and the files it created on disk. The file is
   * created before the image is written, so a failed write still leaves one.
   */
  datatype Saved = Saved(path: Option<string>, created: set<string>)

  /**
   * The outside world as a handler sees it: the URL the image API returns for
   * a prompt (or none when it fails), what a download of a URL leaves, and
   * whether an upload of a file with a caption succeeds.
   */
  datatype Services = Services(
    generate: string -> Option<string>,
    download: string -> Saved,
    upload: (string, string) -> bool)

  /** Python's `if not x:` on an optional string: `None` and `""` are false. */
  predicate Present(x: Option<string>)
  {
    x.Some? && x.value != ""
  }

  /** How one image request ends, with the files the download created. */
  datatype Outcome =
    | GenerationFailed
    | DownloadFailed(created: set<string>)
    | Delivered(path: string, photoCaption: string, instagramCaption: string, uploaded: bool, created: set<string>)

  /** What a handler computed for one request, and how it ended. */
  datatype Job = Job(seed: int, prompt: string, request: string, outcome: Outcome)

  /** A `/seed` command is either rejected with a reply or runs a job. */
  datatype SeedReply =
    | Rejected(error: SeedArgs, reply: string)
    | Accepted(job: Job)

  datatype Startup = Started | MissingConfig(missing: seq<string>)

  /**
   * The steps after the prompt: generate, download, then upload with the
   * Instagram caption. A missing or empty URL ends the request before the
   * download, and a missing or empty path ends it before the upload.
   */
  function Pipeline(svc: Services, request: string, photoCaption: string, instagramCaption: string): (o: Outcome)
    ensures o.GenerationFailed? <==> !Present(svc.generate(request))
    ensures o.DownloadFailed? <==> Present(svc.generate(request)) && !Present(svc.download(svc.generate(request).value).path)
    ensures o.Delivered? ==>
      var saved := svc.download(svc.generate(request).value);
      saved.path == Some(o.path) && o.path != "" && o.created == saved.created
      && o.photoCaption == photoCaption && o.instagramCaption == instagramCaption
      && o.uploaded == svc.upload(o.path, instagramCaption)
    ensures o.DownloadFailed? ==> o.created == svc.download(svc.generate(request).value).created
  {
    var url := svc.generate(request);
    if !Present(url) then GenerationFailed
    else
      var saved := svc.download(url.value);
      if !Present(saved.path) then DownloadFailed(saved.created)
      else Delivered(saved.path.value, photoCaption, instagramCaption, svc.upload(saved.path.value, instagramCaption), saved.created)
  }

  /**
   * The temporary files after a request: a failed download leaves the files
   * it created, and a delivered image's file is removed by the upload step.
   */
  function FilesAfter(files: set<string>, o: Outcome): set<string>
  {
    match o
    case GenerationFailed => files
    case DownloadFailed(created) => files + created
    case Delivered(path, _, _, _, created) => files + created - {path}
  }

  /**
   * A request leaves no new temporary file exactly when its download did not
   * fail after creating one: a delivered image whose download created only
   * its own file leaves the files as they were, less that one.
   */
  lemma FilesAfterRequest(files: set<string>, o: Outcome)
    ensures o.GenerationFailed? ==> FilesAfter(files, o) == files
    ensures o.Delivered? && o.created <= {o.path} ==> FilesAfter(files, o) == files - {o.path}
    ensures o.DownloadFailed? ==> (FilesAfter(files, o) <= files <==> o.created <= files)
  {
  }

  class AIImageBot {
    const openaiApiKey: Option<string>
    const telegramBotToken: Option<string>
    const instagramUsername: Option<string>
    const instagramPassword: Option<string>

    /** Python's process-wide `random` module, which every handler shares. */
    const random: PyRandom.Random

    /** The temporary image files on disk. */
    var tempFiles: set<string>

    constructor (env: Env, random: PyRandom.Random)
      ensures this.random == random && tempFiles == {}
      ensures openaiApiKey == Getenv(env, "OPENAI_API_KEY")
      ensures telegramBotToken == Getenv(env, "TELEGRAM_BOT_TOKEN")
      ensures instagramUsername == Getenv(env, "INSTAGRAM_USERNAME")
      ensures instagramPassword == Getenv(env, "INSTAGRAM_PASSWORD")
    {
      openaiApiKey := Getenv(env, "OPENAI_API_KEY");
      telegramBotToken := Getenv(env, "TELEGRAM_BOT_TOKEN");
      instagramUsername := Getenv(env, "INSTAGRAM_USERNAME");
      instagramPassword := Getenv(env, "INSTAGRAM_PASSWORD");
      this.random := random;
      tempFiles := {};
    }

    /** `generate_random_seed`: one `randint` draw in the seven-digit range. */
    method GenerateRandomSeed() returns (seed: int)
      requires PyRandom.WellFormed(random.gen)
      modifies random
      ensures SeedMin <= seed <= SeedMax
      ensures var d := PyRandom.Draw(random.gen, old(random.state), SeedMax - SeedMin + 1);
        seed == SeedMin + d.0 && random.state == d.1
    {
      seed := random.RandInt(SeedMin, SeedMax);
    }

    /**
     * `create_abstract_prompt`: a truthy seed reseeds the shared generator,
     * then four draws pick the style, colour theme, texture and mood, in that
     * order, and the prompt is those fields after the user's text, joined by
     * commas, with the quality enhancers at the end.
     */
    method CreateAbstractPrompt(userInput: string, seed: Option<int>) returns (prompt: string)
      requires PyRandom.WellFormed(random.gen)
      modifies random
      ensures var d := DrawPicks(random.gen, StartState(random.gen, old(random.state), seed));
        prompt == AbstractPrompt(userInput, d.picks) && random.state == d.after
    {
      if Truthy(seed) {
        random.Seed(seed.value);
      }
      var style := random.Choice(StylePrompts);
      var colorTheme := random.Choice(ColorThemes);
      var texture := random.Choice(Textures);
      var mood := random.Choice(Moods);
      prompt := Compose(userInput, style, colorTheme, texture, mood);
      prompt := prompt + QualitySuffix;
      ComposeIsJoinedFields(userInput, style, colorTheme, texture, mood);
    }

    /** The prompt `generate_image` sends: tagged with the seed when the seed is truthy. */
    method GenerationPrompt(prompt: string, seed: Option<int>) returns (sent: string)
      ensures sent == RequestPrompt(prompt, seed)
    {
      sent := prompt;
      if Truthy(seed) {
        sent := sent + StyleSeedTag(seed.value);
      }
    }

    /**
     * Generate, download and upload one image. The downloaded file is removed
     * again by the upload step on success and failure alike; a download that
     * fails after creating its file leaves that file behind.
     */
    method Deliver(svc: Services, request: string, photoCaption: string, instagramCaption: string)
      returns (outcome: Outcome)
      modifies this
      ensures outcome == Pipeline(svc, request, photoCaption, instagramCaption)
      ensures tempFiles == FilesAfter(old(tempFiles), outcome)
    {
      var url := svc.generate(request);
      if !Present(url) {
        return GenerationFailed;
      }
      var saved := svc.download(url.value);
      tempFiles := tempFiles + saved.created;
      if !Present(saved.path) {
        return DownloadFailed(saved.created);
      }
      var path := saved.path.value;
      var uploaded := svc.upload(path, instagramCaption);
      tempFiles := tempFiles - {path};
      outcome := Delivered(path, photoCaption, instagramCaption, uploaded, saved.created);
    }

    /**
     * `generate_command`: the arguments joined by spaces, a fresh seven-digit
     * seed, and a prompt that is a function of that text and that seed alone.
     */
    method GenerateCommand(args: seq<string>, svc: Services) returns (job: Job)
      requires PyRandom.WellFormed(random.gen)
      modifies this, random
      ensures SeedMin <= job.seed <= SeedMax
      ensures job.seed == SeedMin + PyRandom.Draw(random.gen, old(random.state), SeedMax - SeedMin + 1).0
      ensures var d := DrawPicks(random.gen, random.gen.seeded(job.seed));
        job.prompt == AbstractPrompt(ArgsText(args), d.picks) && random.state == d.after
      ensures job.request == job.prompt + StyleSeedTag(job.seed)
      ensures job.outcome == Pipeline(svc, job.request, GenerateCaption(job.prompt, job.seed), GenerateInstagramCaption)
      ensures tempFiles == FilesAfter(old(tempFiles), job.outcome)
    {
      var userInput := ArgsText(args);
      var seed := GenerateRandomSeed();
      var prompt := CreateAbstractPrompt(userInput, Some(seed));
      var request := GenerationPrompt(prompt, Some(seed));
      var outcome := Deliver(svc, request, GenerateCaption(prompt, seed), GenerateInstagramCaption);
      job := Job(seed, prompt, request, outcome);
    }

    /**
     * `seed_command`: a missing or non-integer seed is rejected before any
     * generation, leaving the generator and the files as they were; otherwise
     * the prompt uses the given seed (reseeding only when it is non-zero) and
     * the description.
     */
    method SeedCommand(args: seq<string>, svc: Services) returns (reply: SeedReply)
      requires PyRandom.WellFormed(random.gen)
      modifies this, random
      ensures !ParseSeedArgs(args).SeedRequest? ==>
        reply == Rejected(ParseSeedArgs(args), SeedErrorReply(ParseSeedArgs(args)))
        && random.state == old(random.state) && tempFiles == old(tempFiles)
      ensures ParseSeedArgs(args).SeedRequest? ==>
        var SeedRequest(seed, description) := ParseSeedArgs(args);
        var d := DrawPicks(random.gen, StartState(random.gen, old(random.state), Some(seed)));
        reply.Accepted? && reply.job.seed == seed
        && reply.job.prompt == AbstractPrompt(description, d.picks) && random.state == d.after
        && reply.job.request == RequestPrompt(reply.job.prompt, Some(seed))
        && reply.job.outcome == Pipeline(svc, reply.job.request, SeedCaption(reply.job.prompt, seed), SeedInstagramCaption(seed))
        && tempFiles == FilesAfter(old(tempFiles), reply.job.outcome)
    {
      var parsed := ParseSeedArgs(args);
      if !parsed.SeedRequest? {
        return Rejected(parsed, SeedErrorReply(parsed));
      }
      var job := SeededJob(parsed.seed, parsed.description, svc);
      reply := Accepted(job);
    }

    /** The accepted path of `seed_command`. */
    method SeededJob(seed: int, userInput: string, svc: Services) returns (job: Job)
      requires PyRandom.WellFormed(random.gen)
      modifies this, random
      ensures var d := DrawPicks(random.gen, StartState(random.gen, old(random.state), Some(seed)));
        job.seed == seed
        && job.prompt == AbstractPrompt(userInput, d.picks) && random.state == d.after
        && job.request == RequestPrompt(job.prompt, Some(seed))
        && job.outcome == Pipeline(svc, job.request, SeedCaption(job.prompt, seed), SeedInstagramCaption(seed))
        && tempFiles == FilesAfter(old(tempFiles), job.outcome)
    {
      var prompt := CreateAbstractPrompt(userInput, Some(seed));
      var request := GenerationPrompt(prompt, Some(seed));
      var outcome := Deliver(svc, request, SeedCaption(prompt, seed), SeedInstagramCaption(seed));
      job := Job(seed, prompt, request, outcome);
    }

    /** `handle_message`: like `/generate`, with the whole message as the text. */
    method HandleMessage(text: string, svc: Services) returns (job: Job)
      requires PyRandom.WellFormed(random.gen)
      modifies this, random
      ensures SeedMin <= job.seed <= SeedMax
      ensures job.seed == SeedMin + PyRandom.Draw(random.gen, old(random.state), SeedMax - SeedMin + 1).0
      ensures var d := DrawPicks(random.gen, random.gen.seeded(job.seed));
        job.prompt == AbstractPrompt(text, d.picks) && random.state == d.after
      ensures job.request == job.prompt + StyleSeedTag(job.seed)
      ensures job.outcome == Pipeline(svc, job.request, MessageCaption(text, job.seed), MessageInstagramCaption(text))
      ensures tempFiles == FilesAfter(old(tempFiles), job.outcome)
    {
      var seed := GenerateRandomSeed();
      var prompt := CreateAbstractPrompt(text, Some(seed));
      var request := GenerationPrompt(prompt, Some(seed));
      var outcome := Deliver(svc, request, MessageCaption(text, seed), MessageInstagramCaption(text));
      job := Job(seed, prompt, request, outcome);
    }

    /** `run_bot`'s check: the bot starts only when no required variable is unset or empty. */
    method RunBot(env: Env) returns (startup: Startup)
      ensures startup.Started? <==> forall x :: x in RequiredVars ==> IsSet(env, x)
      ensures startup.MissingConfig? ==> startup.missing == MissingVars(RequiredVars, env) && startup.missing != []
    {
      var missing := MissingVars(RequiredVars, env);
      NothingMissing(env);
      if missing != [] {
        return MissingConfig(missing);
      }
      return Started;
    }
  }

  /**
   * Reproducibility across requests: the same text and a non-zero seed give
   * the same prompt, whatever was drawn from the shared generator in between.
   */
  method SameSeedSamePrompt(bot: AIImageBot, userInput: string, seed: int) returns (first: string, second: string)
    requires PyRandom.WellFormed(bot.random.gen) && seed != 0
    modifies bot.random
    ensures first == second
  {
    first := bot.CreateAbstractPrompt(userInput, Some(seed));
    var other := bot.GenerateRandomSeed();
    var unrelated := bot.CreateAbstractPrompt("", Some(other));
    second := bot.CreateAbstractPrompt(userInput, Some(seed));
  }
}

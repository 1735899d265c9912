# AI abstract-image bot: prompt, seed, argument and caption logic

A Dafny model of the text-building and argument-handling core of the
Telegram bot in `image.py` (class `AIImageBot`). The bot turns a user's
text and a seed into a DALL·E prompt, tags the prompt with the seed, sends
the picture back with a caption, and posts it to Instagram with another
caption. The model covers these parts:

- the prompt synthesis of `create_abstract_prompt`. Python's process-wide
  `random` module is a class (`PyRandom.Random`) over an abstract generator.
  A generator has a seeding function, a `_randbelow` draw and a state
  transition, so `random.seed`, `random.choice` and `random.randint` are
  explicit, ordered updates of one shared state;
- the seven-digit seed range of `generate_random_seed`, the truthiness
  gates on the seed, and the `" (style seed: …)"` tag of `generate_image`;
- the argument handling of `/generate` and `/seed`, with Python's `int()`
  and `str()` for decimal numerals;
- the Telegram and Instagram captions, including `prompt[:100]`,
  `user_input[:50]`, the `#Seed…` hashtag and the `.strip()` of the
  triple-quoted templates;
- the `missing_vars` check of `run_bot`;
- the control flow of the three handlers. Generation, download and upload
  are function parameters (`ImageBot.Services`). The temporary image file
  is tracked as a set of paths.

Modules: `Wrappers` (Option), `Text` (join, slice, strip), `Decimal`
(`str`/`int` of integers), `PyRandom` (the `random` module), `Seeds`,
`Prompt`, `Commands`, `Captions`, `Config`, and `ImageBot`, which holds
the class `AIImageBot`.

Facts about the bot that shape the model:

- The bot draws from Python's shared generator and reseeds it only for a
  truthy seed. A seed of `0` therefore neither reseeds nor tags the prompt,
  and the prompt of `/seed 0 …` depends on earlier draws.
- Only the `/seed` Instagram caption carries the seed. The `/generate` and
  message captions do not.
- The Telegram caption of a plain message quotes the whole message. Only
  the Instagram caption truncates the message, to 50 code points.
- A request ends with the failure reply when the image URL or the
  downloaded file's path is missing or empty (`if not image_url:`,
  `if not image_path:`).
- `download_image` creates its temporary file before writing the image, so
  a download that fails during the write leaves that file on disk. Only a
  file whose path reaches the upload step is removed again.

## Model

| member | source | states |
|---|---|---|
| `PyRandom.Random.Seed` | image.py:79-80 | `random.seed(a)` makes the shared state a function of `a` alone |
| `PyRandom.Random.Choice` | image.py:82-90 | `random.choice` returns the element at the index `_randbelow(len)` draws, which lies in the list, and advances the state by that draw |
| `PyRandom.Random.RandBelow` | image.py:82-90 | `_randbelow(n)` returns a value below `n` and moves the shared state by exactly that one draw |
| `PyRandom.Random.RandInt` | image.py:75 | `random.randint(a, b)` returns `a + _randbelow(b - a + 1)`, so the result lies in the closed range [a, b] |
| `PyRandom.Draw` | image.py:82-90 | a draw below `n` is an index smaller than `n` for every generator state |
| `ImageBot.AIImageBot.GenerateRandomSeed` | image.py:73-75 | the seed lies in [1000000, 9999999] and costs exactly one draw from the shared generator |
| `Decimal.SevenDigits` | image.py:75 | the seed range contains exactly the non-negative integers whose numeral has seven digits |
| `Prompt.DrawPicks` | image.py:82-90 | four draws, each from the state the previous one left, in the order style, colour theme, texture, mood; each index is within its vocabulary (10, 10, 6, 6 entries) |
| `Prompt.StartState` | image.py:79-80 | a seed of `None` or `0` keeps the current generator state; any other seed starts from the state that seed selects |
| `Prompt.Compose` | image.py:93-96 | with text the f-string begins with the text, `", "` and the style; without text it begins with the style; both end with the mood and `" atmosphere"` |
| `ImageBot.AIImageBot.CreateAbstractPrompt` | image.py:77-101 | a truthy seed reseeds and a seed of `0` or `None` does not; then comes the prompt drawn from that state: the comma-separated fields followed by the quality enhancers; the generator ends in the state after the four draws |
| `Prompt.ComposeIsJoinedFields` | image.py:93-96 | both f-strings equal the fields joined by `", "`; the fields are the user's text if it is non-empty, then the style, colour, texture and mood phrases |
| `Prompt.AbstractPrompt` | image.py:93-99 | the prompt is its fields joined by `", "` followed by the quality enhancers, so every prompt ends with `", high resolution, artistic masterpiece, professional digital art"` |
| `Prompt.PromptLeadingSegment` | image.py:93-96 | with text, the prompt begins with text + `", "` + style; with empty text, it begins with the style, which is the first field, and no field is empty |
| `Prompt.PromptLongerThanExcerpt` | image.py:223 | every synthesized prompt is longer than 100 code points, so `prompt[:100]` always cuts it |
| `Prompt.SeededPromptIgnoresHistory` | image.py:74-80 | under a truthy seed the prompt depends on the text and the seed only, not on the earlier generator state |
| `ImageBot.SameSeedSamePrompt` | image.py:74 | two prompts for the same text and the same non-zero seed are equal, even with unrelated draws in between |
| `Seeds.Truthy` | image.py:79 | `if seed:` on an optional integer is false exactly for `None` and `0` |
| `Seeds.StyleSeedTag` | image.py:108 | the tag is the seed's numeral between `" (style seed: "` and `")"`, and that numeral reads back as the seed |
| `Seeds.RequestPrompt` | image.py:106-108 | the prompt sent keeps the prompt as its prefix; it is longer exactly when the seed is truthy, and the added part is `" (style seed: {seed})"` |
| `Seeds.RequestNamesSeed` | image.py:106-108 | the numeral inside the tag of a tagged request reads back as the seed |
| `ImageBot.AIImageBot.GenerationPrompt` | image.py:103-108 | the `prompt +=` step of `generate_image` computes exactly that request prompt |
| `Commands.ArgsText` | image.py:197 | the guarded join of the `/generate` arguments equals a plain space join, and is `""` for no arguments |
| `Commands.ParseSeedArgs` | image.py:245-254 | no arguments gives the usage error; a first argument that `int()` rejects gives the invalid-seed error; otherwise the seed is `int(args[0])` and the description is the remaining arguments joined by single spaces, `""` for one argument |
| `Commands.SeedArgsRoundTrip` | image.py:250-251 | writing a seed as a numeral followed by words and parsing it gives back the seed and the words joined by spaces |
| `Commands.SeedErrorReply` | image.py:245-254 | both rejections end with the usage `/seed 1234567 [description]`, and each has its own opening sentence |
| `Decimal.ParseAccepts` | image.py:250 | `int(s)` succeeds exactly on an optional sign followed by one or more decimal digits |
| `Decimal.Parse` | image.py:250 | when `int(s)` succeeds, `s` is non-empty, and the value is negative only after a leading minus sign, never positive after one |
| `Decimal.Show` | image.py:223 | `str(n)` is non-empty and begins with a minus sign exactly when `n` is negative |
| `Decimal.ParseShow` | image.py:250 | `int(str(n)) == n` for every integer |
| `Decimal.ShowNat` | image.py:223 | the numeral of a natural number is a non-empty digit string with no leading zero |
| `Text.Join` | image.py:197 | `sep.join(parts)` is `""` for no parts and otherwise begins with the first part |
| `Text.Take` | image.py:223 | `s[:n]` is the prefix of `s` of length `min(len(s), n)` |
| `Text.StripLeft` | image.py:234 | `lstrip` never makes the text longer |
| `Text.StripLeftRemovesSpace` | image.py:234 | `lstrip` removes a prefix made of white space only, and leaves text that does not begin with white space |
| `Text.StripRightRemovesSpace` | image.py:234 | `rstrip` removes a suffix made of white space only, and leaves text that does not end with white space |
| `Text.StripFramed` | image.py:227-234 | `strip()` of white space, a body and white space is the body, when the body has no white space at either end |
| `Text.Strip` | image.py:234 | `strip()` leaves the part of the text between a white-space prefix and a white-space suffix, and that part neither begins nor ends with white space |
| `Captions.GenerateCaption` | image.py:223 | the `/generate` photo caption shows `prompt[:100]` right after its heading, followed by `...` and the seed line |
| `Captions.GenerateCaptionOfSynthesizedPrompt` | image.py:223 | for a synthesized prompt and a drawn seed, the `/generate` photo caption shows exactly the prompt's first 100 code points and is 152 code points long |
| `Captions.SeedCaption` | image.py:279 | the `/seed` photo caption begins with a heading naming the seed, shows `prompt[:100]` right after it, and ends with `...` |
| `Captions.SeedCaptionOfSynthesizedPrompt` | image.py:279 | the `/seed` photo caption shows exactly the prompt's first 100 code points after the seed line, and ends with `...` |
| `Captions.MessageCaption` | image.py:327 | the message photo caption quotes the whole message right after `Inspired by: "`, and ends with the seed line |
| `Captions.GenerateInstagramCaptionIsBody` | image.py:227-234 | `.strip()` removes only the template's first line break and last-line indentation |
| `Captions.SeedInstagramBody` | image.py:284-289 | the `/seed` Instagram text begins with the title and the seed, ends with `" #Seed{seed}"`, and has no white space at either end |
| `Captions.SeedInstagramCaptionIsBody` | image.py:283-290 | the same for the `/seed` template, for every seed |
| `Captions.SeedInstagramCaptionTagsSeed` | image.py:284-289 | the `/seed` Instagram caption begins with the title and seed, ends with `" #Seed{seed}"`, and its last numeral reads back as the seed |
| `Captions.MessageInstagramBody` | image.py:332-337 | the message Instagram text shows `user_input[:50]` right after its heading, its length is the fixed text's plus that excerpt's, and it has no white space at either end |
| `Captions.MessageInstagramCaptionIsBody` | image.py:331-338 | `.strip()` leaves the message template's body whole, whatever the message |
| `Captions.MessageInstagramCaptionQuotesExcerpt` | image.py:334 | the message's Instagram caption quotes a prefix of the message of at most 50 code points right after its heading, and is exactly as long as the fixed text plus that prefix, so no more of the message appears |
| `Config.Getenv` | image.py:34-37 | `os.getenv` gives a value exactly for variables that are set |
| `Config.IsSet` | image.py:355 | `os.getenv(var)` is truthy exactly when it is neither `None` nor `""` |
| `Config.MissingVars` | image.py:355 | a name is listed exactly when it is required and unset or empty; the list is no longer than the required list |
| `Config.MissingVarsAppend` | image.py:355 | the filter keeps order: filtering a concatenation concatenates the filtered parts |
| `Config.NothingMissing` | image.py:350-358 | nothing is missing exactly when every required variable is set and non-empty |
| `ImageBot.AIImageBot.RunBot` | image.py:347-358 | the bot starts exactly when every required variable is set and non-empty; otherwise it reports the non-empty list of missing names |
| `ImageBot.AIImageBot.constructor` | image.py:32-43 | the credentials are the environment values of the four variables, and no temporary file exists |
| `ImageBot.Pipeline` | image.py:206-241 | a missing or empty URL ends the request before the download; a missing or empty path ends it before the upload; otherwise the upload gets that path and the Instagram caption, and the photo keeps its caption |
| `ImageBot.FilesAfterRequest` | image.py:131-137 | a failed generation changes no file; a delivered image whose download created only its own file leaves the files as they were, less that one; a failed download leaves no new file exactly when every file it created was already there |
| `ImageBot.AIImageBot.Deliver` | image.py:124-157 | generate, download, then upload, with the outcome `Pipeline` gives; the files the download created stay on disk when it fails, and the delivered file is removed by the upload step whether the upload succeeds or not |
| `ImageBot.AIImageBot.GenerateCommand` | image.py:195-241 | the seed is the `randint` draw from the shared state before the call, in the seven-digit range; the prompt depends on the joined arguments and that seed only; the request is tagged; the captions are the `/generate` ones; the files are those the request leaves (`FilesAfter`) |
| `ImageBot.AIImageBot.SeedCommand` | image.py:243-297 | a missing or invalid seed is rejected with its reply, and neither the generator nor the files change; otherwise the job uses the given seed and description, reseeding only for a non-zero seed |
| `ImageBot.AIImageBot.SeededJob` | image.py:259-297 | the accepted `/seed` path: the prompt is drawn from the state the given seed selects, the request is tagged only for a non-zero seed, and the `/seed` captions are used |
| `ImageBot.AIImageBot.HandleMessage` | image.py:299-345 | as `/generate`, with the whole message as the text and the message captions |

## Left out

- The Mersenne Twister behind Python's `random` is out of scope, because its algorithm cannot be modelled faithfully here. The generator is abstract. Its seeding function, draw and transition are parameters of `PyRandom.Random`.
- `PyRandom.Random.Choice` requires a non-empty list. It does not model the `IndexError` that `random.choice` raises on an empty list, because every call site passes a fixed non-empty vocabulary.
- `Decimal.ParseAccepts`: `Decimal.Parse` accepts only an optional sign followed by ASCII digits, as a weaker stand-in for `int()`. It does not model that `int()` also accepts surrounding white space, underscores between digits (`1_000`) and non-ASCII decimal digits. Telegram's arguments are split at white space, so the white-space case cannot arise.
- `Text.IsSpace` lists Python's white-space characters by hand. No other Unicode handling is modelled.
- The OpenAI call, the HTTP download, the temporary-file write, the Instagram login and upload, and `os.unlink` are left out, because they are network and file-system I/O. They appear only as the `ImageBot.Services` functions, where a download reports the path it returns and the files it created, and as the `tempFiles` set.
- `ImageBot.AIImageBot.Deliver` does not model exceptions outside the services. An exception raised while the photo is sent to Telegram, before the upload step, would leave the temporary file behind; the model does not show this.
- `ImageBot.AIImageBot.GenerateCommand`, `SeedCommand`, `SeededJob` and `HandleMessage` state the generator's final state as the state after the prompt's draws. This assumes that the image API, the download and the Instagram client never draw from Python's shared `random` generator. The services are pure functions here, so they cannot; the program itself gives no such guarantee.
- The Telegram replies (`reply_text`, `reply_photo`), the `/start` and `/help` texts, `Application` set-up and `run_polling` are left out, because they are chat transport. Only the two `/seed` error replies are kept (`Commands.SeedErrorReply`), because they tell the rejection paths apart.
- Logging configuration and log messages are left out.
- The async execution of the handlers is left out. Each handler is one sequential method on the shared generator.

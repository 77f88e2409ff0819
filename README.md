# LinkedIn post generator: a Dafny model of its sequential core

This project models the deterministic logic around the foreign calls (crewai agents, web scraping, search, LLMs) of a LinkedIn post generator:

- **Content fetch** (`agents.py`). `CachedResearchTool.fetch` resolves a URL or topic to text:
  - it checks a cache directory keyed by the SHA-256 of the key;
  - on a miss it tries scraping, then search, and writes a successful result through to the cache;
  - if both fail it returns a fixed sentinel, which is never cached.
- **Style profile** (`agents.py`). `config/writing_style.json` is loaded with a fallback to the empty profile and overwritten wholesale on save.
- **Pipeline** (`agents.py`). `create_tasks` builds the five crew tasks with their context lists. `generate_post` picks the profile, pre-fetches the content once and builds the tasks from the fetched text.
- **Web-app state** (`linkedin_post_generator/linkedin_post_generator.py`):
  - the history file, newest post first, with prepend and delete-by-id;
  - the page `State`: loading the history and its statistics, generating a post (validate, busy, success or failure, not busy), clearing the input and deleting a post;
  - the previews on a history card.
- **Console style trainer** (`style_trainer.py`):
  - the reader that takes lines until two consecutive empty ones;
  - the loop that collects three to five example posts, skipping posts whose text is empty;
  - reading the guidelines and saving the profile with its summary.

Modules:

| module | file | contents |
|---|---|---|
| `Common` | common.dfy | `Option`, `Min` |
| `Strings` | strings.dfy | Python's `str.strip()`, `str.lower()` and `sep.join()` with their laws |
| `StyleProfile` | style_profile.dfy | the profile record and the `StyleStore` file object |
| `ResearchTool` | research_tool.dfy | the cache directory and `CachedResearchTool` |
| `Pipeline` | pipeline.dfy | the task list and `GeneratePost` |
| `PostGenerator` | post_generator.dfy | `PostHistory`, `State` and the card previews |
| `StyleTrainer` | style_trainer.dfy | the line reader, the sample loop, `save_style_data` and `main` |

How the outside world is represented:

- **Files** are fields of small objects that the methods reassign:
  - the cache directory is a `map` from path to content;
  - the profile file and the history file are `Option` values, `None` while the file does not exist.
- **Foreign calls** are parameters:
  - scraping and search are functions from the key to `Ok(text)` or `Fail` (the call raised);
  - the generator call is `Generated(post)` or `Raised(message)`;
  - SHA-256 is a digest function required to be injective.
- **Clock values** (record id, timestamp, elapsed seconds) are parameters.
- **Standard input** for the trainer is a sequence of lines plus a cursor. Reading past the last line (Python's `EOFError`) is the result `Eof`.

## Model

| member | source | states |
|---|---|---|
| ResearchTool.CacheFile | agents.py:48-50 | `_cache_file`: the path is `cache/`, then the key's digest, then `.json`, and the digest can be read back out of it |
| ResearchTool.CacheFileInjective | agents.py:48-50 | with an injective digest, two keys share a cache file only if they are the same key |
| ResearchTool.Lookup | agents.py:53-56 | a cache file's content is found exactly when the file exists, and it is that file's content |
| ResearchTool.Resolve | agents.py:52-74 | by its definition, the text `fetch` returns: the cached content if there is any, else the scraped text, else the searched text, else the sentinel |
| ResearchTool.CachedResearchTool.constructor | agents.py:42-46 | the tool works over the given cache directory, left as it is (`mkdir(exist_ok=True)`) |
| ResearchTool.CachedResearchTool.Fetch | agents.py:52-74 | a hit returns the stored content, calls no strategy and changes nothing. On a miss, scraping is tried first; if it returns, its text is cached and returned and search is never called. If scraping raised, search is tried the same way. If both raised, the sentinel is returned and the cache is unchanged. Afterwards the key is served from the cache unless both failed, and no other key's entry changes |
| StyleProfile.EmptyProfile | agents.py:82 | the fallback profile has no examples and empty guidelines |
| StyleProfile.StyleStore.Current | agents.py:77-82 | the profile a load returns: the file's, or the empty one while there is no file |
| StyleProfile.StyleStore.Load | agents.py:77-82 | `load_writing_style` returns the saved profile, or exactly the empty profile (no examples, empty guidelines, no metadata) when nothing is saved |
| StyleProfile.StyleStore.Save | agents.py:84-91 | `save_writing_style(e, g)` replaces the file, so a later load returns exactly `e` and `g` |
| Pipeline.CreateTasks | agents.py:142-175 | exactly five tasks in the order research, style, writer, validator, optimization. Their contexts are [], [research], [research, style], [writer] and [validator]; every context names only earlier tasks and each task has its predecessor in its context. Research gets the content; style gets the profile's examples and guidelines; the others get no substitution. The agents are, in order, content researcher, style analyzer, viral writer, viral validator and engagement optimizer |
| Pipeline.ChainReaches | agents.py:155-173 | in a task list where every task reads its predecessor, every task's output reaches every later task |
| Pipeline.FinalTaskSeesAll | agents.py:142-175 | the optimization task depends, directly or transitively, on every task of `create_tasks` |
| Pipeline.GeneratePost | agents.py:177-187 | the content is fetched exactly once: the returned strategy trace is that of one `fetch` (none on a hit, scrape alone when it returned, scrape then search otherwise), and the cache ends as that fetch leaves it (the new text written under the key's file unless it came from the cache or both strategies failed). The tasks are `create_tasks` of the fetched text (not the raw input) and of the saved profile when asked for, the empty profile otherwise |
| PostGenerator.TotalTime | linkedin_post_generator/linkedin_post_generator.py:68 | by its definition, the sum of the records' generation times, a missing time counting 0 |
| PostGenerator.TotalTimeConcat | linkedin_post_generator/linkedin_post_generator.py:68 | the generation-time sum of two lists concatenated is the sum of their sums |
| PostGenerator.Recount | linkedin_post_generator/linkedin_post_generator.py:62-69 | the post count is the list's length. For a non-empty list the total is the sum of the times (a missing time counts 0) and the average times the count is the total. For an empty list the total and the average keep their old values |
| PostGenerator.WithoutId | linkedin_post_generator/linkedin_post_generator.py:147 | the delete filter: keeps the records whose id differs from the given one; it never lengthens the list (its meaning is proved by the four lemmas below) |
| PostGenerator.WithoutIdKeeps | linkedin_post_generator/linkedin_post_generator.py:147 | every record kept by the delete filter has another id and was in the list |
| PostGenerator.WithoutIdConcat | linkedin_post_generator/linkedin_post_generator.py:147 | filtering a concatenation filters each part, so the kept records stay in order |
| PostGenerator.WithoutIdCounts | linkedin_post_generator/linkedin_post_generator.py:144-148 | deleting removes every copy of every record with the id (several may share one) and keeps every other record as many times as it occurred |
| PostGenerator.WithoutAbsentId | linkedin_post_generator/linkedin_post_generator.py:147 | deleting an id no record carries leaves the list as it was |
| PostGenerator.DeleteUndoesAdd | linkedin_post_generator/linkedin_post_generator.py:144-148 | deleting the id of a post just put first, when no older post shares it, gives back the previous history |
| PostGenerator.DeleteLowersTotal | linkedin_post_generator/linkedin_post_generator.py:144-149 | with non-negative times, deleting never raises the total generation time |
| PostGenerator.NewRecord | linkedin_post_generator/linkedin_post_generator.py:110-122 | the saved record carries the input, the post and the elapsed time; it is not posted and has zero likes, comments and shares |
| PostGenerator.Preview | linkedin_post_generator/linkedin_post_generator.py:428-431 | a text within the limit is shown unchanged; a longer one as its first `limit` characters followed by "..." |
| PostGenerator.ContentPreview | linkedin_post_generator/linkedin_post_generator.py:427-428 | the input preview is at most 103 characters and starts with the input's first 100 |
| PostGenerator.PostPreview | linkedin_post_generator/linkedin_post_generator.py:430-431 | the post preview is at most 203 characters and starts with the post's first 200 |
| PostGenerator.TimestampPreview | linkedin_post_generator/linkedin_post_generator.py:421-422 | the card's date is a prefix of the timestamp of length min(length, 10) |
| PostGenerator.PostHistory.constructor | linkedin_post_generator/linkedin_post_generator.py:17-19 | creating the store leaves an existing history file as it is |
| PostGenerator.PostHistory.Load | linkedin_post_generator/linkedin_post_generator.py:21-25 | the saved records, or none while the file does not exist |
| PostGenerator.PostHistory.Save | linkedin_post_generator/linkedin_post_generator.py:27-29 | the file becomes exactly the given records |
| PostGenerator.PostHistory.AddPost | linkedin_post_generator/linkedin_post_generator.py:31-34 | the new record is at index 0 and every older record follows in its old order |
| PostGenerator.State.constructor | linkedin_post_generator/linkedin_post_generator.py:41-60 | the class defaults: empty texts, not generating, empty history, zero statistics |
| PostGenerator.State.LoadHistory | linkedin_post_generator/linkedin_post_generator.py:62-69 | the history becomes the file's records and the statistics are recounted from them; nothing else changes |
| PostGenerator.State.GenerateNewPost | linkedin_post_generator/linkedin_post_generator.py:71-134 | blank or whitespace input only sets the error message. Otherwise the page always ends not busy. On success one record (input, post, time, not posted, no engagement) goes first in the file, the page reloads from it and shows the post. On failure the file is untouched, the post stays empty and the error carries the exception text |
| PostGenerator.State.Start | linkedin_post_generator/linkedin_post_generator.py:77-81 | the page goes busy, the old post and error are cleared and the first agent is announced; nothing else changes |
| PostGenerator.State.Attempt | linkedin_post_generator/linkedin_post_generator.py:83-131 | the `try`/`except` block: success as above; failure changes only the error and progress texts and leaves the file alone |
| PostGenerator.State.Succeed | linkedin_post_generator/linkedin_post_generator.py:100-125 | the post and its time are shown, the record is put first in the file and history and statistics are reloaded from it |
| PostGenerator.State.ClearInput | linkedin_post_generator/linkedin_post_generator.py:136-142 | the input, post, error and progress texts become empty; history and statistics are untouched |
| PostGenerator.State.DeletePost | linkedin_post_generator/linkedin_post_generator.py:144-149 | the file keeps exactly the records with another id, in order, and the page reloads from it |
| StyleTrainer.BlockEnd | style_trainer.py:34-40 | where the reader started at a line stops: at least two lines on and within the input, or nowhere (end of input) |
| StyleTrainer.NonEmpty | style_trainer.py:36-40 | the lines the reader keeps: the non-empty ones, in order, never more than were read |
| StyleTrainer.BlockEndIsFirstBlankPair | style_trainer.py:34-40 | the reader stops right after the first two consecutive empty lines, and reaches the end of input exactly when there are none |
| StyleTrainer.NonEmptyKeeps | style_trainer.py:36-40 | every kept line is non-empty and was read |
| StyleTrainer.NonEmptyConcat | style_trainer.py:36-40 | the lines kept from two stretches of input are those kept from each, in order |
| StyleTrainer.NonEmptyCounts | style_trainer.py:36-40 | every non-empty line is kept as often as it occurs, and no empty line is kept |
| StyleTrainer.KeptLinesAreNonEmpty | style_trainer.py:32-40 | keeping lines one at a time, as the loop does, keeps the non-empty lines of what was read |
| StyleTrainer.Block | style_trainer.py:32-42 | a block read from a position ends at least two lines further on, within the input |
| StyleTrainer.BlockTextEmpty | style_trainer.py:42-44 | a block's text is empty exactly when every line in it is blank or whitespace |
| StyleTrainer.ReadLines | style_trainer.py:32-40 | the loop reaches the end of input exactly when no blank pair follows; otherwise it stops right after the first one and holds the non-empty lines in order |
| StyleTrainer.ReadBlock | style_trainer.py:32-42 | the reader returns the kept lines joined with "\n" and stripped, and the position after the blank pair |
| StyleTrainer.CollectStyleGuidelines | style_trainer.py:84-94 | the guidelines are one block read by the same reader |
| StyleTrainer.OrPlaceholder | style_trainer.py:50-58 | an answer is stored stripped, or as the placeholder when it is blank; it is never empty |
| StyleTrainer.MakeExample | style_trainer.py:55-59 | the appended example keeps the post text, and its likes and comments are never empty |
| StyleTrainer.StopAnswer | style_trainer.py:25-26 | the continue answer ends the loop only with three examples or more, and never when it is "y" |
| StyleTrainer.ExampleWellFormed | style_trainer.py:55-59 | an example built from a non-empty stripped text has non-empty stripped text, likes and comments, whatever the answers |
| StyleTrainer.BlockStripped | style_trainer.py:42 | a block's text has no whitespace at either end |
| StyleTrainer.PostAt | style_trainer.py:29-59 | reading a post moves at least two lines on, and any example it yields is well formed |
| StyleTrainer.ReadPostInput | style_trainer.py:29-59 | a post is read as a block; for an empty text no answers are read, otherwise the likes and comments lines are read and stored with the placeholder for blanks |
| StyleTrainer.BlankPostSkipped | style_trainer.py:42-46 | a post whose lines are all blank or whitespace is skipped: nothing is appended and the loop starts over after the block |
| StyleTrainer.ContinueAnswer | style_trainer.py:24-27 | with fewer than three examples any answer reads another post; from three on only "y" or "Y" (after stripping) does, and any other answer ends the loop |
| StyleTrainer.Collect | style_trainer.py:20-65 | by its definition, one pass of the `while True` loop from its top: with examples, the continue question first, then a post |
| StyleTrainer.ReadPost | style_trainer.py:29-65 | by its definition, the rest of a pass: an empty post starts over, otherwise its example is appended and the loop stops at five |
| StyleTrainer.CollectBounds | style_trainer.py:20-65 | whenever the loop returns, it holds between 3 and 5 well-formed examples, starting with the ones it already had |
| StyleTrainer.ReadPostBounds | style_trainer.py:29-65 | the same bound holds from the point where a post is read |
| StyleTrainer.CollectWritingSamples | style_trainer.py:9-67 | the loop's result is the one defined by `Collect`; when it returns, it holds 3 to 5 well-formed examples |
| StyleTrainer.StyleData | style_trainer.py:101-108 | the saved record holds the examples and guidelines unchanged, `num_examples` is their count and `has_guidelines` says whether the guidelines are non-empty |
| StyleTrainer.SaveStyleData | style_trainer.py:96-111 | the profile file becomes that record, so a later load returns exactly the examples and the guidelines |
| StyleTrainer.TrainerMain | style_trainer.py:122-136 | the run saves exactly when both the samples and the guidelines are read in full, and then saves 3 to 5 examples; otherwise the profile is untouched. It never stops for want of examples |
| Strings.Strip | style_trainer.py:42 | `str.strip()`: never longer than its argument (its meaning is `StripSpec`) |
| Strings.Join | style_trainer.py:42 | by its definition, `sep.join(lines)`: the lines with `sep` between each two |
| Strings.Lower | style_trainer.py:25 | the model's ASCII-only `lower()`: same length as its argument |
| Strings.StripSpec | style_trainer.py:42 | `strip()` returns the infix after the leading whitespace; it has no whitespace at either end, only whitespace follows it, and it is empty exactly when the text is all whitespace |
| Strings.StripSpecDetermines | style_trainer.py:42 | those clauses determine the result: any string meeting them is `Strip(s)` |
| Strings.StrippedIsFixpoint | style_trainer.py:50 | `strip()` leaves a string unchanged exactly when it has no whitespace at either end |
| Strings.StripIdempotent | style_trainer.py:50 | stripping twice is stripping once |
| Strings.JoinAllSpace | style_trainer.py:42 | joining with a whitespace separator gives all-whitespace text exactly when every line is all whitespace |
| Strings.LowerPointwise | style_trainer.py:25 | the model's ASCII-only `Lower` maps every character on its own (Python's full `lower()` does not, for example on a final capital sigma) |
| Strings.LowerIsY | style_trainer.py:25-26 | the only answers that lower to "y" are "y" and "Y" |

## Left out

- crewai's `Crew.kickoff` and the running of the tasks (agents.py:188-194). The model stops at the task list handed to the crew; the order in which crewai runs the tasks is crewai's concern.
- LLM provider selection, the agent definitions and YAML loading (agents.py:1-139). They are configuration of foreign objects; a task's template text is represented by its stage.
- ResearchTool.CachedResearchTool.Fetch: does not model a corrupt or unreadable cache file, which raises out of `fetch`. It also does not model a cache write that fails after a successful scrape, which falls through to search. Both are file-system failures outside the model.
- SHA-256 itself is not modelled; the digest is a parameter that must be injective, as the hash is taken to be.
- JSON encoding and file errors in every store; each file is a value that is absent or holds its last save.
- `asyncio.to_thread` and the clock: the generator's outcome, the record id, the timestamp and the elapsed time are parameters. The intermediate page states shown while the generator runs are captured by `Start` and `Attempt`, not as separately observable steps.
- PostGenerator.Recount: totals and averages are exact reals, so floating-point rounding of the sum and the division is not modelled; the `:.1f` time format on the cards is left out.
- The `isinstance` checks in `post_history_card` (linkedin_post_generator/linkedin_post_generator.py:422-431): the model's fields are always strings, so the checks always pass.
- Strings.Lower: maps only ASCII letters. That is enough for the comparison with "y", since `LowerIsY` only needs "Y" to map to "y" and no other character to.
- `copy_post`, the Reflex layout components, linkedin_poster.py and rxconfig.py: UI, an HTTP client and configuration, with no logic of their own here.
- Console output of every file.
- `main`'s "no posts" branch (style_trainer.py:128-130) is kept in `TrainerMain`, but it cannot be taken: collecting returns three examples or more whenever it returns.

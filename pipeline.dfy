/**
 * The generation pipeline of agents.py:142-194: `create_tasks` builds a fixed
 * list of five tasks, each with its role, the values substituted into its
 * description template, and the earlier tasks whose outputs form its
 * context; `generate_post` picks the style profile, pre-fetches the content
 * once and builds the tasks from the fetched text.
 *
 * Running the tasks (crewai's `Crew.kickoff`) is not modelled: the model
 * stops at the task list handed to the crew.
 */
module Pipeline {
  import opened StyleProfile
  import opened ResearchTool

  /** The task entries of `tasks.yaml`, in the order `create_tasks` lists them. */
  datatype Stage = ResearchTask | StyleTask | WriterTask | ViralValidatorTask | OptimizationTask

  /** The agents of `agents.yaml` the tasks are bound to. */
  datatype Role = ContentResearcher | StyleAnalyzer | ViralWriter | ViralValidator | EngagementOptimizer

  /** What is substituted into a task's description template. */
  datatype Fill =
    | ContentInput(content: string)                            // `{content_input}`
    | StyleInput(examples: seq<Example>, guidelines: string)   // `{style_examples}`, `{style_guidelines}`
    | NoFill                                                   // the template is used as it is

  /** A task: its stage, its agent, its description's substitutions and its context (indices of earlier tasks). */
  datatype Task = Task(stage: Stage, agent: Role, description: Fill, context: seq<nat>)

  function Stages(tasks: seq<Task>): (names: seq<Stage>)
    ensures |names| == |tasks|
    ensures forall i :: 0 <= i < |tasks| ==> names[i] == tasks[i].stage
  {
    seq(|tasks|, i requires 0 <= i < |tasks| => tasks[i].stage)
  }

  /** Every context names only tasks listed earlier, so the list order is an execution order. */
  predicate ContextsPrecede(tasks: seq<Task>) {
    forall i, k :: 0 <= i < |tasks| && 0 <= k < |tasks[i].context| ==> tasks[i].context[k] < i
  }

  /** Every task after the first has its predecessor in its context: the stages form a chain. */
  predicate Chained(tasks: seq<Task>) {
    forall i :: 0 < i < |tasks| ==> i - 1 in tasks[i].context
  }

  /** Task `j`'s output flows, directly or through other tasks, into task `i`. */
  ghost predicate Reaches(tasks: seq<Task>, i: nat, j: nat)
    requires ContextsPrecede(tasks) && i < |tasks|
    decreases i
  {
    i == j || exists k :: 0 <= k < |tasks[i].context| && Reaches(tasks, tasks[i].context[k], j)
  }

  /**
   * `create_tasks(content, style)`: research, style, writer, validator and
   * optimization, in that order. Research has no context; style reads
   * research; writer reads research and style; validator reads writer;
   * optimization reads validator. Only research and style fill their templates.
   */
  function CreateTasks(content: string, style: StyleFile): (tasks: seq<Task>)
    ensures Stages(tasks) == [ResearchTask, StyleTask, WriterTask, ViralValidatorTask, OptimizationTask]
    ensures tasks[0].agent == ContentResearcher && tasks[1].agent == StyleAnalyzer && tasks[2].agent == ViralWriter
    ensures tasks[3].agent == ViralValidator && tasks[4].agent == EngagementOptimizer
    ensures tasks[0].context == [] && tasks[1].context == [0] && tasks[2].context == [0, 1]
    ensures tasks[3].context == [2] && tasks[4].context == [3]
    ensures ContextsPrecede(tasks) && Chained(tasks)
    ensures tasks[0].description == ContentInput(content)
    ensures tasks[1].description == StyleInput(style.examples, style.guidelines)
    ensures forall i :: 2 <= i < |tasks| ==> tasks[i].description == NoFill
  {
    [ Task(ResearchTask, ContentResearcher, ContentInput(content), []),
      Task(StyleTask, StyleAnalyzer, StyleInput(style.examples, style.guidelines), [0]),
      Task(WriterTask, ViralWriter, NoFill, [0, 1]),
      Task(ViralValidatorTask, ViralValidator, NoFill, [2]),
      Task(OptimizationTask, EngagementOptimizer, NoFill, [3]) ]
  }

  /** In a chained task list every task's output reaches every later task. */
  lemma {:induction false} ChainReaches(tasks: seq<Task>, i: nat, j: nat)
    requires ContextsPrecede(tasks) && Chained(tasks)
    requires j <= i < |tasks|
    ensures Reaches(tasks, i, j)
  {
    if i != j {
      var k :| 0 <= k < |tasks[i].context| && tasks[i].context[k] == i - 1;
      ChainReaches(tasks, i - 1, j);
    }
  }

  /**
   * The final (optimization) task depends on every other task: the fetched
   * content and the style profile both reach the artifact.
   */
  lemma FinalTaskSeesAll(content: string, style: StyleFile)
    ensures var tasks := CreateTasks(content, style);
      forall j :: 0 <= j < |tasks| ==> Reaches(tasks, 4, j)
  {
    var tasks := CreateTasks(content, style);
    forall j | 0 <= j < |tasks| ensures Reaches(tasks, 4, j) {
      ChainReaches(tasks, 4, j);
    }
  }

  /**
   * `generate_post(content_input, use_existing_style)`: the saved profile is
   * used only when asked for, the empty one otherwise; the content is fetched
   * exactly once, before the tasks exist, and `calls` is the strategy trace
   * of that one fetch; the cache ends as that fetch leaves it; the research
   * task receives the fetched text, not the raw input.
   */
  method GeneratePost(contentInput: string, useExistingStyle: bool, store: StyleStore,
                      cache: CacheDirectory, sha256: string -> string,
                      scrape: string -> Outcome, search: string -> Outcome)
    returns (tasks: seq<Task>, researchContent: string, calls: seq<Strategy>)
    requires Injective(sha256)
    modifies cache
    ensures researchContent == Resolve(Lookup(old(cache.files), CacheFile(sha256, contentInput)),
                                       scrape(contentInput), search(contentInput))
    ensures CacheFile(sha256, contentInput) in old(cache.files) ==>
      calls == [] && cache.files == old(cache.files)
    ensures CacheFile(sha256, contentInput) !in old(cache.files) && scrape(contentInput).Ok? ==>
      calls == [Scrape] && cache.files == old(cache.files)[CacheFile(sha256, contentInput) := researchContent]
    ensures CacheFile(sha256, contentInput) !in old(cache.files) && scrape(contentInput).Fail?
            && search(contentInput).Ok? ==>
      calls == [Scrape, Search] && cache.files == old(cache.files)[CacheFile(sha256, contentInput) := researchContent]
    ensures CacheFile(sha256, contentInput) !in old(cache.files) && scrape(contentInput).Fail?
            && search(contentInput).Fail? ==>
      calls == [Scrape, Search] && cache.files == old(cache.files)
    ensures tasks == CreateTasks(researchContent, if useExistingStyle then store.Current() else EmptyProfile())
    ensures tasks[0].description == ContentInput(researchContent)
  {
    var writingStyle := EmptyProfile();
    if useExistingStyle {
      writingStyle := store.Load();
    }
    var researcher := new CachedResearchTool(cache, sha256);
    researchContent, calls := researcher.Fetch(contentInput, scrape, search);
    tasks := CreateTasks(researchContent, writingStyle);
  }
}

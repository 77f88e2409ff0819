/**
 * The post-generator web app's state (linkedin_post_generator/linkedin_post_generator.py):
 * the history file `data/post_history.json` (`PostHistory`, newest post
 * first), the page state `State` with its generate / clear / delete actions
 * and statistics, and the previews shown on a history card.
 *
 * The generator call (`generate_post` on a worker thread) is an outcome
 * passed in: the post text it returned or the message of the exception it
 * raised. The clock is passed in as the record id, the timestamp and the
 * elapsed seconds.
 */
module PostGenerator {
  import opened Common
  import opened Strings

  datatype Engagement = Engagement(likes: nat, comments: nat, shares: nat)

  /**
   * One history entry. `generationTime` is `None` when the stored object has
   * no `generation_time` field, which the statistics count as 0.
   */
  datatype PostRecord = PostRecord(
    id: string,
    contentInput: string,
    generatedPost: string,
    generationTime: Option<real>,
    timestamp: string,
    postedToLinkedin: bool,
    engagement: Engagement)

  /** What the generator call did: returned a post, or raised with a message. */
  datatype Generation = Generated(post: string) | Raised(message: string)

  /** `total_posts`, `total_generation_time`, `avg_generation_time`. */
  datatype Stats = Stats(totalPosts: int, totalGenerationTime: real, avgGenerationTime: real)

  const EmptyInputError: string := "❌ אנא הזן URL או נושא"
  const FailurePrefix: string := "❌ שגיאה ביצירת הפוסט: "
  const StartingAgent: string := "מתחיל..."
  const StartingProgress: string := "מכין את ה-AI Agents..."
  const ResearchAgent: string := "🔍 Content Researcher"
  const ResearchProgress: string := "חוקר את התוכן..."
  const DoneAgent: string := "✅ הושלם"
  const DoneProgress: string := "הפוסט נוצר בהצלחה!"
  const FailedAgent: string := "❌ נכשל"

  /** `p.get("generation_time", 0)`. */
  function TimeOf(p: PostRecord): real {
    if p.generationTime.Some? then p.generationTime.value else 0.0
  }

  /** `sum(p.get("generation_time", 0) for p in posts)`. */
  function TotalTime(posts: seq<PostRecord>): real {
    if posts == [] then 0.0 else TimeOf(posts[0]) + TotalTime(posts[1..])
  }

  lemma {:induction false} TotalTimeConcat(a: seq<PostRecord>, b: seq<PostRecord>)
    ensures TotalTime(a + b) == TotalTime(a) + TotalTime(b)
  {
    if a != [] {
      assert (a + b)[0] == a[0] && (a + b)[1..] == a[1..] + b;
      TotalTimeConcat(a[1..], b);
    } else {
      assert a + b == b;
    }
  }

  predicate NonNegativeTimes(posts: seq<PostRecord>) {
    forall i :: 0 <= i < |posts| ==> TimeOf(posts[i]) >= 0.0
  }

  /**
   * The statistics `load_history` computes from `posts`, starting from the
   * current ones: the count always follows the list, but the totals are
   * recomputed only when the list is non-empty, so an empty history keeps
   * the stale totals.
   */
  function Recount(current: Stats, posts: seq<PostRecord>): (r: Stats)
    ensures r.totalPosts == |posts|
    ensures |posts| > 0 ==>
      r.totalGenerationTime == TotalTime(posts) && r.avgGenerationTime * (|posts| as real) == r.totalGenerationTime
    ensures |posts| == 0 ==>
      r.totalGenerationTime == current.totalGenerationTime && r.avgGenerationTime == current.avgGenerationTime
  {
    if |posts| > 0 then
      var total := TotalTime(posts);
      Stats(|posts|, total, total / (|posts| as real))
    else
      Stats(0, current.totalGenerationTime, current.avgGenerationTime)
  }

  /** `[p for p in posts if p.get("id") != post_id]`. */
  function WithoutId(posts: seq<PostRecord>, id: string): (r: seq<PostRecord>)
    ensures |r| <= |posts|
  {
    if posts == [] then []
    else if posts[0].id != id then [posts[0]] + WithoutId(posts[1..], id)
    else WithoutId(posts[1..], id)
  }

  /** Every record kept carries another id and comes from `posts`. */
  lemma {:induction false} WithoutIdKeeps(posts: seq<PostRecord>, id: string)
    ensures forall i :: 0 <= i < |WithoutId(posts, id)| ==>
      WithoutId(posts, id)[i].id != id && WithoutId(posts, id)[i] in posts
  {
    if posts != [] {
      WithoutIdKeeps(posts[1..], id);
      var rest := WithoutId(posts[1..], id);
      assert forall i :: 0 <= i < |rest| ==> rest[i] in posts;
      if posts[0].id != id {
        assert forall i :: 1 <= i < |WithoutId(posts, id)| ==> WithoutId(posts, id)[i] == rest[i - 1];
      }
    }
  }

  /** Filtering a concatenation filters each part, so the kept records stay in their order. */
  lemma {:induction false} WithoutIdConcat(a: seq<PostRecord>, b: seq<PostRecord>, id: string)
    ensures WithoutId(a + b, id) == WithoutId(a, id) + WithoutId(b, id)
  {
    if a != [] {
      assert (a + b)[0] == a[0] && (a + b)[1..] == a[1..] + b;
      WithoutIdConcat(a[1..], b, id);
    } else {
      assert a + b == b;
    }
  }

  /**
   * Deleting by id removes every copy of every record with that id (ids
   * have one-second resolution, so several records may share one) and keeps
   * every other record as many times as it occurred.
   */
  lemma {:induction false} WithoutIdCounts(posts: seq<PostRecord>, id: string, p: PostRecord)
    ensures multiset(WithoutId(posts, id))[p] == if p.id == id then 0 else multiset(posts)[p]
  {
    if posts != [] {
      WithoutIdCounts(posts[1..], id, p);
      assert posts == [posts[0]] + posts[1..];
      var rest := WithoutId(posts[1..], id);
      if posts[0].id != id {
        assert multiset(WithoutId(posts, id)) == multiset([posts[0]]) + multiset(rest);
      } else {
        assert WithoutId(posts, id) == rest;
      }
    }
  }

  /** Deleting an id no record carries changes nothing. */
  lemma {:induction false} WithoutAbsentId(posts: seq<PostRecord>, id: string)
    requires forall i :: 0 <= i < |posts| ==> posts[i].id != id
    ensures WithoutId(posts, id) == posts
  {
    if posts != [] {
      WithoutAbsentId(posts[1..], id);
    }
  }

  /** Deleting the id of a post just added, when no older post shares it, restores the history. */
  lemma DeleteUndoesAdd(p: PostRecord, posts: seq<PostRecord>)
    requires forall i :: 0 <= i < |posts| ==> posts[i].id != p.id
    ensures WithoutId([p] + posts, p.id) == posts
  {
    assert ([p] + posts)[1..] == posts;
    WithoutAbsentId(posts, p.id);
  }

  /** With non-negative times, deleting never raises the total generation time. */
  lemma {:induction false} DeleteLowersTotal(posts: seq<PostRecord>, id: string)
    requires NonNegativeTimes(posts)
    ensures TotalTime(WithoutId(posts, id)) <= TotalTime(posts)
  {
    if posts != [] {
      assert NonNegativeTimes(posts[1..]) by {
        forall i | 0 <= i < |posts[1..]| ensures TimeOf(posts[1..][i]) >= 0.0 {
          assert posts[1..][i] == posts[i + 1];
        }
      }
      DeleteLowersTotal(posts[1..], id);
      assert TimeOf(posts[0]) >= 0.0;
    }
  }

  /** The record `generate_new_post` saves after a successful generation. */
  function NewRecord(id: string, contentInput: string, post: string, elapsed: real, timestamp: string): (r: PostRecord)
    ensures r.contentInput == contentInput && r.generatedPost == post
    ensures r.generationTime == Some(elapsed) && TimeOf(r) == elapsed
    ensures !r.postedToLinkedin && r.engagement == Engagement(0, 0, 0)
  {
    PostRecord(id, contentInput, post, Some(elapsed), timestamp, false, Engagement(0, 0, 0))
  }

  /**
   * A history-card preview: the text unchanged when it has at most `limit`
   * characters, otherwise its first `limit` characters followed by "...".
   */
  function Preview(s: string, limit: nat): (r: string)
    ensures |s| <= limit ==> r == s
    ensures |s| > limit ==> |r| == limit + 3 && r[..limit] == s[..limit] && r[limit..] == "..."
  {
    if |s| > limit then s[..limit] + "..." else s
  }

  /** The card's input preview (100 characters). */
  function ContentPreview(contentInput: string): (r: string)
    ensures |r| <= 103
    ensures r[..Min(|r|, 100)] == contentInput[..Min(|contentInput|, 100)]
  {
    Preview(contentInput, 100)
  }

  /** The card's post preview (200 characters). */
  function PostPreview(post: string): (r: string)
    ensures |r| <= 203
    ensures r[..Min(|r|, 200)] == post[..Min(|post|, 200)]
  {
    Preview(post, 200)
  }

  /** The card's date: the first ten characters of the ISO timestamp, `timestamp_raw[:10]`. */
  function TimestampPreview(timestamp: string): (r: string)
    ensures |r| == Min(|timestamp|, 10)
    ensures r <= timestamp
  {
    timestamp[..Min(|timestamp|, 10)]
  }

  /** `PostHistory`: the history file, absent until the first save. */
  class PostHistory {
    var file: Option<seq<PostRecord>>

    constructor (existing: Option<seq<PostRecord>>)
      ensures file == existing
    {
      file := existing;
    }

    /** The records `load` returns for the current file. */
    function Stored(): seq<PostRecord>
      reads this
    {
      if file.Some? then file.value else []
    }

    /** `load`: the saved records, or none while the file does not exist. */
    method Load() returns (posts: seq<PostRecord>)
      ensures file.None? ==> posts == []
      ensures file.Some? ==> posts == file.value
    {
      if file.Some? {
        posts := file.value;
      } else {
        posts := [];
      }
    }

    /** `save`: overwrites the file with `posts`. */
    method Save(posts: seq<PostRecord>)
      modifies this
      ensures file == Some(posts)
    {
      file := Some(posts);
    }

    /** `add_post`: the new record first, every older record after it in its old order. */
    method AddPost(post: PostRecord)
      modifies this
      ensures file == Some([post] + old(Stored()))
      ensures Stored()[0] == post && Stored()[1..] == old(Stored())
    {
      var posts := Load();
      posts := [post] + posts;
      Save(posts);
    }
  }

  /** Every field of `State`, as one value. */
  datatype PageView = PageView(
    contentInput: string,
    isGenerating: bool,
    generatedPost: string,
    generationTime: real,
    generationError: string,
    currentAgent: string,
    agentProgress: string,
    postHistory: seq<PostRecord>,
    stats: Stats)

  /** The page state: the `State` class, over the history file `db` (`post_db`). */
  class State {
    const db: PostHistory
    var contentInput: string
    var isGenerating: bool
    var generatedPost: string
    var generationTime: real
    var generationError: string
    var currentAgent: string
    var agentProgress: string
    var postHistory: seq<PostRecord>
    var totalPosts: int
    var totalGenerationTime: real
    var avgGenerationTime: real

    ghost function View(): PageView
      reads this
    {
      PageView(contentInput, isGenerating, generatedPost, generationTime, generationError,
           currentAgent, agentProgress, postHistory,
           Stats(totalPosts, totalGenerationTime, avgGenerationTime))
    }

    /** The class defaults: every text empty, nothing generating, no history, zero statistics. */
    constructor (db: PostHistory)
      ensures this.db == db
      ensures View() == PageView("", false, "", 0.0, "", "", "", [], Stats(0, 0.0, 0.0))
    {
      this.db := db;
      contentInput, isGenerating, generatedPost, generationTime := "", false, "", 0.0;
      generationError, currentAgent, agentProgress := "", "", "";
      postHistory := [];
      totalPosts, totalGenerationTime, avgGenerationTime := 0, 0.0, 0.0;
    }

    /**
     * `load_history`: the history becomes the file's records and the
     * statistics are recounted from them (stale totals survive an empty file).
     */
    method LoadHistory()
      modifies this
      ensures View() == old(View()).(postHistory := db.Stored(),
                                     stats := Recount(old(View()).stats, db.Stored()))
    {
      postHistory := db.Load();
      totalPosts := |postHistory|;
      if totalPosts > 0 {
        totalGenerationTime := TotalTime(postHistory);
        avgGenerationTime := totalGenerationTime / (totalPosts as real);
      }
    }

    /**
     * `generate_new_post`. Blank input only sets the error message. Otherwise
     * the page goes busy, runs the generator and always ends not busy: on
     * success the post is shown and exactly one record (input, post, elapsed
     * time, not posted, no engagement) is put first in the history; on
     * failure the history is untouched, no post is shown and the error
     * message carries the exception text.
     */
    method GenerateNewPost(result: Generation, id: string, timestamp: string, elapsed: real)
      modifies this, db
      ensures Strip(old(contentInput)) == "" ==>
        View() == old(View()).(generationError := EmptyInputError) && db.file == old(db.file)
      ensures Strip(old(contentInput)) != "" && result.Generated? ==>
        var history := [NewRecord(id, old(contentInput), result.post, elapsed, timestamp)] + old(db.Stored());
        && db.file == Some(history)
        && View() == old(View()).(isGenerating := false, generatedPost := result.post,
                                  generationTime := elapsed, generationError := "",
                                  currentAgent := DoneAgent, agentProgress := DoneProgress,
                                  postHistory := history, stats := Recount(old(View()).stats, history))
      ensures Strip(old(contentInput)) != "" && result.Raised? ==>
        && db.file == old(db.file)
        && View() == old(View()).(isGenerating := false, generatedPost := "",
                                  generationError := FailurePrefix + result.message,
                                  currentAgent := FailedAgent, agentProgress := "")
    {
      if Strip(contentInput) == "" {
        generationError := EmptyInputError;
        return;
      }
      Start();
      Attempt(result, id, timestamp, elapsed);
      isGenerating := false;
    }

    /** The start of a generation: the page goes busy, the previous post and error are cleared and the first agent is announced. */
    method Start()
      modifies this
      ensures View() == old(View()).(isGenerating := true, generatedPost := "", generationError := "",
                                     currentAgent := StartingAgent, agentProgress := StartingProgress)
    {
      isGenerating := true;
      generatedPost := "";
      generationError := "";
      currentAgent := StartingAgent;
      agentProgress := StartingProgress;
    }

    /**
     * The `try`/`except` block of `generate_new_post`: on success the post is
     * shown and its record put first in the file, from which the page
     * reloads; on failure only the error and progress texts change.
     */
    method Attempt(result: Generation, id: string, timestamp: string, elapsed: real)
      modifies this, db
      ensures result.Generated? ==>
        var history := [NewRecord(id, old(contentInput), result.post, elapsed, timestamp)] + old(db.Stored());
        && db.file == Some(history)
        && View() == old(View()).(generatedPost := result.post, generationTime := elapsed,
                                  currentAgent := DoneAgent, agentProgress := DoneProgress,
                                  postHistory := history, stats := Recount(old(View()).stats, history))
      ensures result.Raised? ==>
        && db.file == old(db.file)
        && View() == old(View()).(generationError := FailurePrefix + result.message,
                                  currentAgent := FailedAgent, agentProgress := "")
    {
      currentAgent := ResearchAgent;
      agentProgress := ResearchProgress;
      match result {
        case Generated(post) =>
          Succeed(post, elapsed, NewRecord(id, contentInput, post, elapsed, timestamp));
        case Raised(message) =>
          generationError := FailurePrefix + message;
          currentAgent := FailedAgent;
          agentProgress := "";
      }
    }

    /** A successful generation: the post and its time are shown, its record is put first in the file and the page reloads from it. */
    method Succeed(post: string, elapsed: real, record: PostRecord)
      modifies this, db
      ensures db.file == Some([record] + old(db.Stored()))
      ensures View() == old(View()).(generatedPost := post, generationTime := elapsed,
                                     currentAgent := DoneAgent, agentProgress := DoneProgress,
                                     postHistory := [record] + old(db.Stored()),
                                     stats := Recount(old(View()).stats, [record] + old(db.Stored())))
    {
      currentAgent := DoneAgent;
      agentProgress := DoneProgress;
      generatedPost := post;
      generationTime := elapsed;
      db.AddPost(record);
      LoadHistory();
    }

    /** `clear_input`: empties the input, the post, the error and the progress texts; nothing else changes. */
    method ClearInput()
      modifies this
      ensures View() == old(View()).(contentInput := "", generatedPost := "", generationError := "",
                                     currentAgent := "", agentProgress := "")
    {
      contentInput := "";
      generatedPost := "";
      generationError := "";
      currentAgent := "";
      agentProgress := "";
    }

    /**
     * `delete_post`: the file keeps exactly the records whose id differs from
     * `postId`, in their order, and the page reloads from it.
     */
    method DeletePost(postId: string)
      modifies this, db
      ensures db.file == Some(WithoutId(old(db.Stored()), postId))
      ensures View() == old(View()).(postHistory := WithoutId(old(db.Stored()), postId),
                                     stats := Recount(old(View()).stats, WithoutId(old(db.Stored()), postId)))
    {
      var posts := db.Load();
      posts := WithoutId(posts, postId);
      db.Save(posts);
      LoadHistory();
    }
  }
}

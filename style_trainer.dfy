/**
 * The console trainer of style_trainer.py: it reads posts and guidelines
 * line by line, each block ending at two consecutive empty lines, collects
 * three to five example posts and saves them with the guidelines to the
 * style profile.
 *
 * Standard input is the sequence of lines `input` and a cursor into it;
 * each `input()` call takes the line at the cursor. Reading past the last
 * line is the `EOFError` Python raises, which ends the program: `Eof`.
 */
module StyleTrainer {
  import opened Common
  import opened Strings
  import opened StyleProfile

  /** "not given": stored for likes or comments the user left blank. */
  const Placeholder: string := "לא צוין"

  /** What reading from the cursor gave: a value and the cursor after it, or the end of input. */
  datatype Read<T> = Got(value: T, next: nat) | Eof

  /** Lines `j` and `j + 1` are both empty. */
  predicate BlankPairAt(input: seq<string>, j: int) {
    0 <= j && j + 1 < |input| && input[j] == "" && input[j + 1] == ""
  }

  /**
   * Where a block read from `pos` stops: just after the first two
   * consecutive empty lines at or after `pos`, or `None` if there are none.
   */
  function BlockEnd(input: seq<string>, pos: nat): (e: Option<nat>)
    ensures e.Some? ==> pos + 2 <= e.value <= |input|
    decreases |input| - pos
  {
    if pos + 1 >= |input| then None
    else if input[pos] == "" && input[pos + 1] == "" then Some(pos + 2)
    else BlockEnd(input, pos + 1)
  }

  /** A non-empty line belongs to no blank pair, so a block read from it or from just before it ends where one read after it does. */
  lemma BlockEndPastLine(input: seq<string>, k: nat)
    requires k < |input| && input[k] != ""
    ensures BlockEnd(input, k) == BlockEnd(input, k + 1)
    ensures k > 0 ==> BlockEnd(input, k - 1) == BlockEnd(input, k + 1)
  {
  }

  /** A block read from the first line of a blank pair ends right after it. */
  lemma BlockEndAtPair(input: seq<string>, k: nat)
    requires BlankPairAt(input, k)
    ensures BlockEnd(input, k) == Some(k + 2)
  {
  }

  /** The block ends right after the first blank pair, and there is none when it does not end. */
  lemma {:induction false} BlockEndIsFirstBlankPair(input: seq<string>, pos: nat)
    ensures BlockEnd(input, pos).Some? ==>
      && BlankPairAt(input, BlockEnd(input, pos).value - 2)
      && forall j :: pos <= j < BlockEnd(input, pos).value - 2 ==> !BlankPairAt(input, j)
    ensures BlockEnd(input, pos).None? <==> forall j :: pos <= j ==> !BlankPairAt(input, j)
    decreases |input| - pos
  {
    if pos + 1 >= |input| {
      assert forall j :: pos <= j ==> !BlankPairAt(input, j);
    } else if input[pos] == "" && input[pos + 1] == "" {
      assert BlankPairAt(input, pos);
    } else {
      BlockEndIsFirstBlankPair(input, pos + 1);
      assert !BlankPairAt(input, pos);
      assert BlockEnd(input, pos) == BlockEnd(input, pos + 1);
    }
  }

  /** The non-empty lines of `lines`, in order: what the reader appends to `lines`. */
  function NonEmpty(lines: seq<string>): (r: seq<string>)
    ensures |r| <= |lines|
  {
    if lines == [] then []
    else if lines[0] != "" then [lines[0]] + NonEmpty(lines[1..])
    else NonEmpty(lines[1..])
  }

  /** Every kept line is non-empty and comes from `lines`. */
  lemma {:induction false} NonEmptyKeeps(lines: seq<string>)
    ensures forall i :: 0 <= i < |NonEmpty(lines)| ==> NonEmpty(lines)[i] != "" && NonEmpty(lines)[i] in lines
  {
    if lines != [] {
      NonEmptyKeeps(lines[1..]);
      var rest := NonEmpty(lines[1..]);
      assert forall i :: 0 <= i < |rest| ==> rest[i] in lines;
      if lines[0] != "" {
        assert forall i :: 1 <= i < |NonEmpty(lines)| ==> NonEmpty(lines)[i] == rest[i - 1];
      }
    }
  }

  lemma {:induction false} NonEmptyConcat(a: seq<string>, b: seq<string>)
    ensures NonEmpty(a + b) == NonEmpty(a) + NonEmpty(b)
  {
    if a == [] {
      assert a + b == b;
    } else {
      assert (a + b)[0] == a[0] && (a + b)[1..] == a[1..] + b;
      NonEmptyConcat(a[1..], b);
    }
  }

  /** The lines the reader has kept once it has read `input[pos..i]`, built up a line at a time. */
  function KeptLines(input: seq<string>, pos: nat, i: nat): seq<string>
    requires pos <= i <= |input|
    decreases i - pos
  {
    if i == pos then []
    else if input[i - 1] == "" then KeptLines(input, pos, i - 1)
    else KeptLines(input, pos, i - 1) + [input[i - 1]]
  }

  /** Keeping lines one at a time keeps the non-empty lines of what was read. */
  lemma {:induction false} KeptLinesAreNonEmpty(input: seq<string>, pos: nat, i: nat)
    requires pos <= i <= |input|
    ensures KeptLines(input, pos, i) == NonEmpty(input[pos..i])
    decreases i - pos
  {
    if i > pos {
      KeptLinesAreNonEmpty(input, pos, i - 1);
      assert input[pos..i] == input[pos..i - 1] + [input[i - 1]];
      NonEmptyConcat(input[pos..i - 1], [input[i - 1]]);
      assert [input[i - 1]][1..] == [];
    }
  }

  /** The reader keeps every non-empty line as often as it occurs, and nothing else. */
  lemma {:induction false} NonEmptyCounts(lines: seq<string>, l: string)
    ensures multiset(NonEmpty(lines))[l] == if l == "" then 0 else multiset(lines)[l]
  {
    if lines != [] {
      NonEmptyCounts(lines[1..], l);
      assert lines == [lines[0]] + lines[1..];
      var rest := NonEmpty(lines[1..]);
      if lines[0] != "" {
        assert multiset(NonEmpty(lines)) == multiset([lines[0]]) + multiset(rest);
      } else {
        assert NonEmpty(lines) == rest;
      }
    }
  }

  /** `"\n".join(lines).strip()` over the non-empty lines of `input[pos..e]`. */
  function BlockText(input: seq<string>, pos: nat, e: nat): string
    requires pos <= e <= |input|
  {
    Strip(Join(NonEmpty(input[pos..e]), "\n"))
  }

  /** What the block reader returns when started at `pos`. */
  function Block(input: seq<string>, pos: nat): (r: Read<string>)
    ensures r.Got? ==> pos + 2 <= r.next <= |input|
  {
    match BlockEnd(input, pos)
    case None => Eof
    case Some(e) => Got(BlockText(input, pos, e), e)
  }

  /** A block's text is empty exactly when every line in it is blank or whitespace. */
  lemma BlockTextEmpty(input: seq<string>, pos: nat, e: nat)
    requires pos <= e <= |input|
    ensures BlockText(input, pos, e) == "" <==> forall j :: pos <= j < e ==> AllSpace(input[j])
  {
    var kept := NonEmpty(input[pos..e]);
    NonEmptyKeeps(input[pos..e]);
    StripSpec(Join(kept, "\n"));
    assert AllSpace("\n");
    JoinAllSpace(kept, "\n");
    if forall k :: 0 <= k < |kept| ==> AllSpace(kept[k]) {
      forall j | pos <= j < e ensures AllSpace(input[j]) {
        if input[j] != "" {
          assert input[j] == input[pos..e][j - pos];
          NonEmptyCounts(input[pos..e], input[j]);
          assert input[j] in multiset(kept);
        }
      }
    }
    if forall j :: pos <= j < e ==> AllSpace(input[j]) {
      forall k | 0 <= k < |kept| ensures AllSpace(kept[k]) {
        assert kept[k] in input[pos..e];
      }
    }
  }

  /**
   * The loop of the blank-line-terminated reader: takes lines until two
   * consecutive empty ones and keeps the non-empty ones, in order.
   */
  method ReadLines(input: seq<string>, pos: nat) returns (r: Read<seq<string>>)
    requires pos <= |input|
    ensures r.Eof? <==> BlockEnd(input, pos).None?
    ensures r.Got? ==> BlockEnd(input, pos) == Some(r.next) && r.value == NonEmpty(input[pos..r.next])
  {
    var lines: seq<string> := [];
    var emptyCount := 0;
    var i := pos;
    while emptyCount < 2
      invariant pos <= i <= |input|
      invariant 0 <= emptyCount <= 2
      invariant emptyCount == 1 ==> pos < i && input[i - 1] == ""
      invariant emptyCount < 2 ==> BlockEnd(input, pos) == BlockEnd(input, i - emptyCount)
      invariant emptyCount == 2 ==> BlockEnd(input, pos) == Some(i)
      invariant lines == KeptLines(input, pos, i)
      decreases |input| - i, 2 - emptyCount
    {
      if i >= |input| {
        return Eof;
      }
      var line := input[i];
      if line == "" {
        if emptyCount == 1 {
          BlockEndAtPair(input, i - 1);
        }
        i := i + 1;
        emptyCount := emptyCount + 1;
      } else {
        BlockEndPastLine(input, i);
        i := i + 1;
        emptyCount := 0;
        lines := lines + [line];
      }
    }
    KeptLinesAreNonEmpty(input, pos, i);
    r := Got(lines, i);
  }

  /**
   * The blank-line-terminated reader (both copies, style_trainer.py:32-42
   * and 84-94): the kept lines joined with "\n" and stripped.
   */
  method ReadBlock(input: seq<string>, pos: nat) returns (r: Read<string>)
    requires pos <= |input|
    ensures r == Block(input, pos)
  {
    var lines := ReadLines(input, pos);
    if lines.Eof? {
      return Eof;
    }
    r := Got(Strip(Join(lines.value, "\n")), lines.next);
  }

  /** `collect_style_guidelines`: one block, read with the same reader. */
  method CollectStyleGuidelines(input: seq<string>, pos: nat) returns (r: Read<string>)
    requires pos <= |input|
    ensures r == Block(input, pos)
  {
    r := ReadBlock(input, pos);
  }

  /** A stripped answer, or the placeholder when it is blank. */
  function OrPlaceholder(answer: string): (r: string)
    ensures r != ""
    ensures Strip(answer) != "" ==> r == Strip(answer)
    ensures Strip(answer) == "" ==> r == Placeholder
  {
    var a := Strip(answer);
    if a != "" then a else Placeholder
  }

  /** The example appended for a post, from the lines answering "likes?" and "comments?". */
  function MakeExample(text: string, likesLine: string, commentsLine: string): (x: Example)
    ensures x.text == text && x.likes != "" && x.comments != ""
  {
    Example(text, OrPlaceholder(likesLine), OrPlaceholder(commentsLine))
  }

  /** An example as the loop appends it: its text and both answers are stripped and non-empty. */
  predicate WellFormed(x: Example) {
    && x.text != "" && Stripped(x.text)
    && x.likes != "" && Stripped(x.likes)
    && x.comments != "" && Stripped(x.comments)
  }

  /** An example made from a stripped text that is not empty is well formed, whatever the answers. */
  lemma ExampleWellFormed(text: string, likesLine: string, commentsLine: string)
    requires text != "" && Stripped(text)
    ensures WellFormed(MakeExample(text, likesLine, commentsLine))
  {
    StripSpec(likesLine);
    StripSpec(commentsLine);
  }

  /** A block's text has no whitespace at either end. */
  lemma BlockStripped(input: seq<string>, j: nat)
    ensures Block(input, j).Got? ==> Stripped(Block(input, j).value)
  {
    if BlockEnd(input, j).Some? {
      StripSpec(Join(NonEmpty(input[j..BlockEnd(input, j).value]), "\n"));
    }
  }

  /**
   * One post as the loop reads it from `j`: a block of text, then, unless
   * the text is empty, the answers about likes and comments. An empty text
   * gives `None` and no questions are asked; an example that is read is
   * well formed.
   */
  function PostAt(input: seq<string>, j: nat): (r: Read<Option<Example>>)
    ensures r.Got? ==> j + 2 <= r.next <= |input|
    ensures r.Got? && r.value.Some? ==> WellFormed(r.value.value)
  {
    match Block(input, j)
    case Eof => Eof
    case Got(text, e) =>
      if text == "" then Got(None, e)
      else if e + 1 >= |input| then Eof
      else
        BlockStripped(input, j);
        ExampleWellFormed(text, input[e], input[e + 1]);
        Got(Some(MakeExample(text, input[e], input[e + 1])), e + 2)
  }

  /**
   * Reading one post: the block, and when its text is not empty, the likes
   * and comments lines, stripped, with the placeholder for blank answers.
   */
  method ReadPostInput(input: seq<string>, i: nat) returns (post: Read<Option<Example>>)
    requires i <= |input|
    ensures post == PostAt(input, i)
  {
    var block := ReadBlock(input, i);
    if block.Eof? {
      return Eof;
    }
    var e := block.next;
    if block.value == "" {
      return Got(None, e);
    }
    if e + 1 >= |input| {
      return Eof;
    }
    var likes := Strip(input[e]);
    var comments := Strip(input[e + 1]);
    var example := Example(block.value, if likes != "" then likes else Placeholder,
                                        if comments != "" then comments else Placeholder);
    post := Got(Some(example), e + 2);
  }

  /** The answer to "another post? (y/n)" ends the loop: it is not "y" once lowered and stripped, and there are 3 examples or more. */
  predicate StopAnswer(answer: string, count: nat)
    ensures StopAnswer(answer, count) ==> count >= 3 && answer != "y"
  {
    Lower(Strip(answer)) != "y" && count >= 3
  }

  /**
   * One pass of `collect_writing_samples`'s `while True` from its top, with
   * the examples collected so far: the continue question when there are
   * examples, then a post.
   */
  function Collect(input: seq<string>, i: nat, examples: seq<Example>): Read<seq<Example>>
    decreases |input| - i, 1
  {
    if examples == [] then ReadPost(input, i, examples)
    else if i >= |input| then Eof
    else if StopAnswer(input[i], |examples|) then Got(examples, i + 1)
    else ReadPost(input, i + 1, examples)
  }

  /**
   * The rest of the pass: read a post; skip it when its text is empty;
   * otherwise append its example, and stop at five.
   */
  function ReadPost(input: seq<string>, j: nat, examples: seq<Example>): Read<seq<Example>>
    decreases |input| - j, 0
  {
    match PostAt(input, j)
    case Eof => Eof
    case Got(None, e) => Collect(input, e, examples)
    case Got(Some(x), e) =>
      if |examples| + 1 >= 5 then Got(examples + [x], e) else Collect(input, e, examples + [x])
  }

  /**
   * A post whose lines are all blank or whitespace is skipped: no likes or
   * comments are asked for, nothing is appended and the loop starts over
   * right after the block.
   */
  lemma BlankPostSkipped(input: seq<string>, j: nat, examples: seq<Example>)
    requires BlockEnd(input, j).Some?
    requires forall k :: j <= k < BlockEnd(input, j).value ==> AllSpace(input[k])
    ensures ReadPost(input, j, examples) == Collect(input, BlockEnd(input, j).value, examples)
  {
    BlockTextEmpty(input, j, BlockEnd(input, j).value);
  }

  /** Every example is well formed. */
  predicate AllWellFormed(xs: seq<Example>) {
    forall k :: 0 <= k < |xs| ==> WellFormed(xs[k])
  }

  /**
   * What the loop may return, having started from `examples`: between 3 and
   * 5 examples, beginning with the ones it already had, all well formed.
   */
  predicate Bounded(r: Read<seq<Example>>, examples: seq<Example>) {
    r.Got? ==> 3 <= |r.value| <= 5 && examples <= r.value && AllWellFormed(r.value)
  }

  /** Whenever the loop returns, it holds between 3 and 5 well-formed examples, starting with the ones it already had. */
  lemma {:induction false} CollectBounds(input: seq<string>, i: nat, examples: seq<Example>)
    requires |examples| < 5 && AllWellFormed(examples)
    ensures Bounded(Collect(input, i, examples), examples)
    decreases |input| - i, 1
  {
    if examples == [] {
      ReadPostBounds(input, i, examples);
    } else if i < |input| && !StopAnswer(input[i], |examples|) {
      ReadPostBounds(input, i + 1, examples);
    }
  }

  lemma {:induction false} ReadPostBounds(input: seq<string>, j: nat, examples: seq<Example>)
    requires |examples| < 5 && AllWellFormed(examples)
    ensures Bounded(ReadPost(input, j, examples), examples)
    decreases |input| - j, 0
  {
    var post := PostAt(input, j);
    if post.Got? {
      if post.value.None? {
        CollectBounds(input, post.next, examples);
      } else {
        var more := examples + [post.value.value];
        assert AllWellFormed(more) by {
          assert forall k :: 0 <= k < |examples| ==> more[k] == examples[k];
        }
        if |more| < 5 {
          CollectBounds(input, post.next, more);
        }
      }
    }
  }

  /**
   * The continue answer: with fewer than three examples any answer reads
   * another post; from three on, only "y" or "Y" (after stripping) does, and
   * every other answer ends the loop.
   */
  lemma ContinueAnswer(input: seq<string>, i: nat, examples: seq<Example>)
    requires examples != [] && i < |input|
    ensures Collect(input, i, examples) ==
      if |examples| < 3 || Strip(input[i]) == "y" || Strip(input[i]) == "Y"
      then ReadPost(input, i + 1, examples)
      else Got(examples, i + 1)
  {
    LowerIsY(Strip(input[i]));
  }

  /**
   * `collect_writing_samples`: loops until the user declines another post
   * with at least three collected or until five are collected, skipping
   * posts whose text is empty.
   */
  method CollectWritingSamples(input: seq<string>, pos: nat) returns (r: Read<seq<Example>>)
    requires pos <= |input|
    ensures r == Collect(input, pos, [])
    ensures r.Got? ==> 3 <= |r.value| <= 5 && r.next <= |input| && AllWellFormed(r.value)
  {
    CollectBounds(input, pos, []);
    var examples: seq<Example> := [];
    var i := pos;
    while true
      invariant pos <= i <= |input|
      invariant |examples| < 5
      invariant Collect(input, pos, []) == Collect(input, i, examples)
      decreases |input| - i
    {
      if examples != [] {
        if i >= |input| {
          return Eof;
        }
        var answer := Strip(input[i]);
        answer := Lower(answer);
        ContinueAnswer(input, i, examples);
        LowerIsY(Strip(input[i]));
        i := i + 1;
        if answer != "y" && |examples| >= 3 {
          r := Got(examples, i);
          break;
        }
      }
      assert Collect(input, pos, []) == ReadPost(input, i, examples);
      var post := ReadPostInput(input, i);
      if post.Eof? {
        return Eof;
      }
      i := post.next;
      if post.value.None? {
        continue;
      }
      examples := examples + [post.value.value];
      if |examples| >= 5 {
        r := Got(examples, i);
        break;
      }
    }
  }

  /** The file `save_style_data` writes: the examples and guidelines as given, with their summary. */
  function StyleData(examples: seq<Example>, guidelines: string): (d: StyleFile)
    ensures d.examples == examples && d.guidelines == guidelines
    ensures d.metadata == Some(Metadata(|examples|, guidelines != ""))
  {
    StyleFile(examples, guidelines, Some(Metadata(|examples|, guidelines != "")))
  }

  /** `save_style_data`: overwrites the profile file with the examples, guidelines and summary. */
  method SaveStyleData(store: StyleStore, examples: seq<Example>, guidelines: string)
    modifies store
    ensures store.file == Some(StyleData(examples, guidelines))
    ensures store.Current().examples == examples && store.Current().guidelines == guidelines
  {
    store.file := Some(StyleData(examples, guidelines));
  }

  /** How a run of the trainer ended. */
  datatype Ending = Saved | NoExamples | EndOfInput

  /**
   * `main`: collects the samples, and saves them with the guidelines only
   * when there are some. Since collecting returns three examples or more,
   * the run either saves or ends at the end of input; it never stops for
   * want of examples.
   */
  method TrainerMain(input: seq<string>, store: StyleStore) returns (ending: Ending)
    modifies store
    ensures ending != NoExamples
    ensures ending == EndOfInput ==> store.file == old(store.file)
    ensures ending == Saved <==>
      Collect(input, 0, []).Got? && Block(input, Collect(input, 0, []).next).Got?
    ensures ending == Saved ==>
      var samples := Collect(input, 0, []);
      && store.file == Some(StyleData(samples.value, Block(input, samples.next).value))
      && 3 <= |samples.value| <= 5
  {
    var samples := CollectWritingSamples(input, 0);
    if samples.Eof? {
      return EndOfInput;
    }
    if samples.value == [] {
      return NoExamples;
    }
    var guidelines := CollectStyleGuidelines(input, samples.next);
    if guidelines.Eof? {
      return EndOfInput;
    }
    SaveStyleData(store, samples.value, guidelines.value);
    ending := Saved;
  }
}

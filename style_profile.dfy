/**
 * The writing-style profile kept in `config/writing_style.json`
 * (agents.py:77-91). It is written wholesale, either by the generator's
 * `save_writing_style` or by the trainer's `save_style_data`, and read back
 * by `load_writing_style`, which falls back to an empty profile while the
 * file does not exist.
 */
module StyleProfile {
  import opened Common

  /** One example post: its text and the engagement the user reported for it. */
  datatype Example = Example(text: string, likes: string, comments: string)

  /** The summary the trainer adds to the file it writes. */
  datatype Metadata = Metadata(numExamples: nat, hasGuidelines: bool)

  /**
   * The stored JSON object: `examples`, `style_guidelines` and, when the
   * trainer wrote it, `metadata`.
   */
  datatype StyleFile = StyleFile(examples: seq<Example>, guidelines: string, metadata: Option<Metadata>)

  /** `{"examples": [], "style_guidelines": ""}`: the profile used when nothing is saved or the saved one is not wanted. */
  function EmptyProfile(): (p: StyleFile)
    ensures p.examples == [] && p.guidelines == "" && p.metadata.None?
  {
    StyleFile([], "", None)
  }

  /** The profile file: absent until the first save, then overwritten by every save. */
  class StyleStore {
    var file: Option<StyleFile>

    constructor (existing: Option<StyleFile>)
      ensures file == existing
    {
      file := existing;
    }

    /** The profile `load_writing_style` returns for the current file. */
    function Current(): (p: StyleFile)
      reads this
      ensures file.None? ==> p == EmptyProfile()
      ensures file.Some? ==> p == file.value
    {
      if file.Some? then file.value else EmptyProfile()
    }

    /** `load_writing_style`: the saved profile, or the empty one when there is none. */
    method Load() returns (p: StyleFile)
      ensures file.None? ==> p == EmptyProfile()
      ensures file.Some? ==> p == file.value
      ensures p == Current()
    {
      if file.Some? {
        p := file.value;
      } else {
        p := EmptyProfile();
      }
    }

    /**
     * `save_writing_style(examples, guidelines)`: replaces the whole file, so
     * that a later load gives back exactly these examples and guidelines.
     */
    method Save(examples: seq<Example>, guidelines: string)
      modifies this
      ensures file == Some(StyleFile(examples, guidelines, None))
      ensures Current().examples == examples && Current().guidelines == guidelines
    {
      file := Some(StyleFile(examples, guidelines, None));
    }
  }
}

/**
 * `PromptContext` (prompt_context.py): two layers of context, a background briefing and the
 * current context, framed into a block placed before the user's query.
 */
module PromptContext {

  const Header := "--- CONTEXT ---\n"
  const Footer := "--- USER QUERY ---\n"

  const BackgroundHeading := "--- Background Briefing ---\n"
  const CurrentHeading := "--- Current Context ---\n"

  /** A block under its heading line, present only when its text is non-empty. */
  function Section(heading: string, text: string): string {
    if text == "" then "" else heading + text + "\n\n"
  }

  /**
   * What `format_for_prompt` returns for the two fields: nothing when both are empty;
   * otherwise the header, the background block, the current block and the footer, each
   * block present exactly when its field is non-empty.
   */
  function Format(background: string, current: string): (r: string)
    ensures r == "" <==> background == "" && current == ""
    ensures r != "" ==>
      && |r| >= |Header| + |Footer|
      && r[..|Header|] == Header
      && r[|r| - |Footer|..] == Footer
      && r[|Header|..|r| - |Footer|] == Section(BackgroundHeading, background) + Section(CurrentHeading, current)
  {
    var fullContext := Section(BackgroundHeading, background) + Section(CurrentHeading, current);
    if fullContext == "" then ""
    else
      var r := Header + fullContext + Footer;
      assert r[|Header|..|r| - |Footer|] == fullContext;
      r
  }

  class PromptContext {
    var backgroundBriefing: string
    var currentContext: string

    /** `__init__`: both layers empty, so the prompt block is empty. */
    constructor ()
      ensures backgroundBriefing == "" && currentContext == ""
      ensures Format(backgroundBriefing, currentContext) == ""
    {
      backgroundBriefing := "";
      currentContext := "";
    }

    /** `format_for_prompt`, accumulating the blocks in a local; the fields are only read. */
    method FormatForPrompt() returns (r: string)
      ensures r == Format(backgroundBriefing, currentContext)
    {
      var fullContext := "";
      if backgroundBriefing != "" {
        fullContext := fullContext + BackgroundHeading + backgroundBriefing + "\n\n";
      }
      assert fullContext == Section(BackgroundHeading, backgroundBriefing);
      if currentContext != "" {
        fullContext := fullContext + CurrentHeading + currentContext + "\n\n";
      }
      assert fullContext == Section(BackgroundHeading, backgroundBriefing) + Section(CurrentHeading, currentContext);
      if fullContext != "" {
        return Header + fullContext + Footer;
      }
      return "";
    }

    /** `clear`: both layers emptied, so the prompt block is empty again. */
    method Clear()
      modifies this
      ensures backgroundBriefing == "" && currentContext == ""
      ensures Format(backgroundBriefing, currentContext) == ""
    {
      backgroundBriefing := "";
      currentContext := "";
    }
  }
}

/** The session store shared by every screen (PromptsProvider): the ordered
    prompt slugs, the current prompt position and the history of answered
    prompts.  The store checks nothing: any index can be stored, and every
    `AddToHistory` appends, even for a prompt already answered. */
module PromptsContext {
  import opened Js

  /** One answered prompt.  `prompt` is `None` when the screen looked its slug
      up at an index outside the prompt list (JavaScript's `undefined`). */
  datatype ResponseRecord = ResponseRecord(
    prompt: Option<string>,
    userResponse: string,
    aiResponse: string,
    stars: int)

  class PromptsStore {
    var prompts: seq<string>
    var currentPromptIndex: int
    var responseHistory: seq<ResponseRecord>

    /** The provider on mount: no prompts yet, index 0, no history. */
    constructor ()
      ensures prompts == [] && currentPromptIndex == 0 && responseHistory == []
    {
      prompts := [];
      currentPromptIndex := 0;
      responseHistory := [];
    }

    /** The result of the prompt-list request: on success the list replaces
        `prompts` wholesale; on failure nothing changes.  Nothing else is
        touched either way. */
    method LoadPrompts(fetched: Option<seq<string>>)
      modifies this
      ensures prompts == (if fetched.Some? then fetched.value else old(prompts))
      ensures currentPromptIndex == old(currentPromptIndex)
      ensures responseHistory == old(responseHistory)
    {
      if fetched.Some? {
        prompts := fetched.value;
      }
    }

    /** The raw state setter: any integer is stored, unchecked. */
    method SetCurrentPromptIndex(index: int)
      modifies this
      ensures currentPromptIndex == index
      ensures prompts == old(prompts) && responseHistory == old(responseHistory)
    {
      currentPromptIndex := index;
    }

    /** Appends exactly one record at the end; earlier records are kept as
        they were, and no duplicate is suppressed. */
    method AddToHistory(prompt: Option<string>, userResponse: string, aiResponse: string, stars: int)
      modifies this
      ensures responseHistory == old(responseHistory) + [ResponseRecord(prompt, userResponse, aiResponse, stars)]
      ensures prompts == old(prompts) && currentPromptIndex == old(currentPromptIndex)
    {
      responseHistory := responseHistory + [ResponseRecord(prompt, userResponse, aiResponse, stars)];
    }

    /** Clears the history and the index; the prompt list stays loaded. */
    method Reset()
      modifies this
      ensures responseHistory == [] && currentPromptIndex == 0
      ensures prompts == old(prompts)
    {
      responseHistory := [];
      currentPromptIndex := 0;
    }
  }
}

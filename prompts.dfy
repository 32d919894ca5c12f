/**
 * System-prompt resolution (`getSystemPrompt`), written identically in the
 * Groq and the Gemini adapter. The prompt table itself (`prompts.json`) is a
 * parameter: it maps a prompt type to its entry, and an entry may lack
 * `content` (None). A `content` of "" is falsy like a missing one.
 */
module Prompts {
  import opened Wrappers
  import opened Conversation
  import Config

  type PromptTable = map<string, Option<string>>

  /** `systemPrompts[promptType]?.content` is truthy. */
  predicate HasContent(table: PromptTable, promptType: string)
  {
    promptType in table && table[promptType].Some? && table[promptType].value != ""
  }

  /**
   * `systemPrompts[promptType]?.content || systemPrompts[default].content`.
   * Reading `.content` of a missing default entry throws; a default entry
   * whose content is missing or empty is returned as it is.
   */
  function GetSystemPrompt(table: PromptTable, promptType: string): (r: Result<Option<string>, AdapterError>)
    ensures HasContent(table, promptType) ==> r == Success(table[promptType])
    ensures !HasContent(table, promptType) && Config.DefaultPromptType in table ==>
              r == Success(table[Config.DefaultPromptType])
    ensures r.Failure? <==> !HasContent(table, promptType) && Config.DefaultPromptType !in table
    ensures r.Failure? ==> r.error == MissingDefaultPrompt
  {
    if promptType in table && table[promptType].Some? && table[promptType].value != "" then
      Success(table[promptType])
    else if Config.DefaultPromptType in table then
      Success(table[Config.DefaultPromptType])
    else
      Failure(MissingDefaultPrompt)
  }

  /** The `promptType = AppConfig.api.defaultPromptType` default parameter. */
  function PromptTypeOf(req: ConversationRequest): string
  {
    if req.promptType.Some? then req.promptType.value else Config.DefaultPromptType
  }

  /**
   * Every prompt type without usable content resolves to the same thing as
   * the default prompt type itself, so the fallback does not depend on which
   * unknown key was asked for.
   */
  lemma FallbackIsDefault(table: PromptTable, promptType: string)
    requires !HasContent(table, promptType)
    ensures GetSystemPrompt(table, promptType) == GetSystemPrompt(table, Config.DefaultPromptType)
  {
  }

  /** A table that holds the default entry never makes resolution fail. */
  lemma DefaultEntryPreventsFailure(table: PromptTable, promptType: string)
    requires Config.DefaultPromptType in table
    ensures GetSystemPrompt(table, promptType).Success?
    ensures GetSystemPrompt(table, promptType).value
              == if HasContent(table, promptType) then table[promptType] else table[Config.DefaultPromptType]
  {
  }

  /** A request without a prompt type resolves the default prompt type. */
  lemma OmittedPromptTypeIsDefault(req: ConversationRequest, table: PromptTable)
    requires req.promptType.None?
    ensures GetSystemPrompt(table, PromptTypeOf(req)) == GetSystemPrompt(table, Config.DefaultPromptType)
  {
  }
}

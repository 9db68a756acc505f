/** The transcript record of Schema.py. */
module Schema {
  /** The two role names the application writes into `who`. */
  const HUMAN: string := "human"
  const AI: string := "ai"

  /**
   * One finished turn. The constructor in Schema.py annotates `who` as
   * "ai" or "human" but never checks it, so any string is allowed here.
   */
  datatype ChatMessage = ChatMessage(who: string, content: string)
}

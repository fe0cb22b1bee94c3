/** The entries of a conversation transcript: `{"role": ..., "content": ...}`
    dictionaries in Chatbot.py. */
module Messages {

  datatype Role = System | User | Assistant

  datatype Message = Message(role: Role, content: string)

  /** One user's conversation, oldest message first. */
  type Transcript = seq<Message>

  /** The shape every transcript the program creates has: index 0 is a system message. */
  predicate StartsWithSystem(t: Transcript)
  {
    |t| > 0 && t[0].role == System
  }
}

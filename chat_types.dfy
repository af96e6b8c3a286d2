/** The shapes the chat pages exchange with the backend: users, conversation
    summaries ("contacts") and messages. Timestamps are kept as the ISO
    strings the backend sends; nothing here interprets them. */
module ChatTypes {

  datatype User = User(id: string, username: string, firstname: string, lastname: string, createdAt: string)

  /** A conversation summary: one per conversation the signed-in user takes
      part in, as the contacts endpoint returns it. */
  datatype Contact = Contact(id: string, sender: User, receiver: User, lastMessage: string, lastMessageTime: string)

  /** A message of the conversation buffer. Only the ids of its two users are
      kept: an inbound delivery carries nothing more. */
  datatype Message = Message(senderId: string, receiverId: string, text: string, createdAt: string)

  /** What the chat page holds as its selected peer: a row of the contact
      list or a user picked from the search results. Both are read only
      through their `_id`. */
  datatype Selection = ContactRow(contact: Contact) | SearchedUser(user: User)
  {
    function Id(): string {
      match this
      case ContactRow(c) => c.id
      case SearchedUser(u) => u.id
    }
  }
}

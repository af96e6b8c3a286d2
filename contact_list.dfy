/** What the contact list shows for each conversation summary: who the
    other participant is, the label before the last message, the shortened
    last message, and whether the row is highlighted as selected. */
module ContactList {
  import opened Base
  import opened ChatTypes

  const PreviewLimit := 25
  const Ellipsis := "..."
  const OwnLabel := "Vous : "

  /** The signed-in user sent the conversation's last message. A missing
      user id matches no sender. */
  predicate IsSender(c: Contact, userId: Option<string>) {
    userId.Some? && c.sender.id == userId.value
  }

  function OtherUser(c: Contact, userId: Option<string>): User {
    if IsSender(c, userId) then c.receiver else c.sender
  }

  /** The other user is always one of the two participants, and never the
      sender when the signed-in user is the sender. */
  lemma OtherUserIsParticipant(c: Contact, userId: Option<string>)
    ensures OtherUser(c, userId) == c.sender || OtherUser(c, userId) == c.receiver
    ensures IsSender(c, userId) ==> OtherUser(c, userId) == c.receiver
    ensures !IsSender(c, userId) ==> OtherUser(c, userId) == c.sender
  {
  }

  /** When the signed-in user is one of two distinct participants, the row
      shows the other one. */
  lemma OtherUserIsCounterpart(c: Contact, me: string)
    requires c.sender.id != c.receiver.id
    requires me == c.sender.id || me == c.receiver.id
    ensures OtherUser(c, Some(me)).id != me
    ensures OtherUser(c, Some(me)).id == c.sender.id || OtherUser(c, Some(me)).id == c.receiver.id
  {
  }

  /** The caption before the last message: "Vous : " for the signed-in
      user's own message, the other participant's username otherwise. */
  function Label(c: Contact, userId: Option<string>): (r: string)
    ensures IsSender(c, userId) ==> r == OwnLabel
    ensures !IsSender(c, userId) ==> r == c.sender.username + " : "
  {
    if IsSender(c, userId) then OwnLabel else OtherUser(c, userId).username + " : "
  }

  /** The last message shown in at most 28 characters: unchanged when it has
      25 characters or fewer, otherwise its first 25 characters followed by
      an ellipsis. */
  function Preview(text: string): (r: string)
    ensures |r| <= PreviewLimit + |Ellipsis|
    ensures |text| <= PreviewLimit ==> r == text
    ensures |text| > PreviewLimit ==> |r| == PreviewLimit + |Ellipsis| && r[..PreviewLimit] == text[..PreviewLimit] && r[PreviewLimit..] == Ellipsis
  {
    if |text| > PreviewLimit then text[..PreviewLimit] + Ellipsis else text
  }

  /** Two messages that agree on their first 25 characters and are both
      longer than that share a preview: the preview only tells them apart
      up to the cut. */
  lemma PreviewSharedPrefix(a: string, b: string)
    requires |a| > PreviewLimit && |b| > PreviewLimit
    requires a[..PreviewLimit] == b[..PreviewLimit]
    ensures Preview(a) == Preview(b)
  {
  }

  /** The text is a prefix of its preview or the preview is cut: no
      character of the preview before the ellipsis differs from the text. */
  lemma PreviewKeepsPrefix(text: string)
    ensures var r := Preview(text);
      var n := if |text| <= PreviewLimit then |text| else PreviewLimit;
      n <= |r| && r[..n] == text[..n]
  {
  }

  predicate IsSelected(selected: Option<Selection>, c: Contact) {
    selected.Some? && selected.value.Id() == c.id
  }

  /** One rendered row. */
  datatype Row = Row(key: string, other: User, caption: string, preview: string, highlighted: bool)

  function RenderRow(c: Contact, userId: Option<string>, selected: Option<Selection>): Row {
    Row(c.id, OtherUser(c, userId), Label(c, userId), Preview(c.lastMessage), IsSelected(selected, c))
  }

  /** The list maps the contacts one to one, in order; a row is highlighted
      exactly when its contact's id is the selection's id, so none is
      without a selection. */
  function Rows(contacts: seq<Contact>, userId: Option<string>, selected: Option<Selection>): (r: seq<Row>)
    ensures |r| == |contacts|
    ensures forall i :: 0 <= i < |r| ==> r[i] == RenderRow(contacts[i], userId, selected)
    ensures forall i :: 0 <= i < |r| ==> (r[i].highlighted <==> selected.Some? && selected.value.Id() == contacts[i].id)
    ensures selected.None? ==> forall i :: 0 <= i < |r| ==> !r[i].highlighted
    decreases |contacts|
  {
    if contacts == [] then []
    else [RenderRow(contacts[0], userId, selected)] + Rows(contacts[1..], userId, selected)
  }

  /** Contact ids are unique in the list the backend sends; then at most one
      row is highlighted. */
  lemma AtMostOneHighlighted(contacts: seq<Contact>, userId: Option<string>, selected: Option<Selection>, i: nat, j: nat)
    requires forall a, b :: 0 <= a < b < |contacts| ==> contacts[a].id != contacts[b].id
    requires i < j < |contacts|
    ensures !(Rows(contacts, userId, selected)[i].highlighted && Rows(contacts, userId, selected)[j].highlighted)
  {
  }
}

/** The chat page's reconciliation logic: the selected peer, the
    conversation buffer, the contacts list, the error shown, and the toggle
    that makes the contacts effect refetch. Every network round trip is
    split into the call the page issues (logged in `requests`) and a
    separate method for its completion, which receives the outcome. */
module ChatPage {
  import opened Base
  import opened ChatTypes

  const MissingSessionError := "Token manquant ou utilisateur non connecté."
  const ContactsLoadError := "Erreur lors de la récupération des contacts."
  const MissingTokenError := "Token manquant."
  const ConversationLoadError := "Erreur lors de la récupération des messages."
  const SendFailedError := "Le message n'a pas pu être envoyé."

  /** The body of an outbound message, identical over the socket and over HTTP. */
  datatype MessageData = MessageData(senderId: Option<string>, receiverId: string, message: string)

  /** The payload of an inbound `receiveMessage` event. */
  datatype Delivery = Delivery(senderId: string, receiverId: string, message: string)

  /** An inbound delivery together with the clock reading taken when it is handled. */
  datatype Arrival = Arrival(delivery: Delivery, at: string)

  /** The relay's acknowledgement of an emitted message: `success` with the
      stored message, or anything else. */
  datatype Ack = Delivered(message: Message) | Rejected

  /** The outbound calls the page makes, in the order it makes them. */
  datatype Request =
    | LoadContacts                      // the contacts fetch made at mount; its failure is shown
    | RefreshContacts                   // a contacts refetch; its failure is only logged
    | LoadConversation(peerId: string)
    | EmitMessage(data: MessageData)    // `sendMessage` over the socket
    | PostMessage(data: MessageData)    // `POST /messages`

  /** What a send leaves for its HTTP continuation: the payload and the
      selection the continuation closes over. */
  datatype PendingSend = PendingSend(data: MessageData, selection: Selection)

  /** A snapshot of every field of the page, so that a handler's contract
      can say what changed and that nothing else did. */
  datatype PageState = PageState(
    contacts: seq<Contact>,
    conversation: seq<Message>,
    selected: Option<Selection>,
    newMessage: string,
    loading: bool,
    error: Option<string>,
    userId: Option<string>,
    token: Option<string>,
    refreshContacts: bool,
    requests: seq<Request>)

  // ---------------------------------------------------------------------
  // Inbound deliveries

  predicate FromSelectedPeer(selected: Option<Selection>, d: Delivery) {
    selected.Some? && d.senderId == selected.value.Id()
  }

  /** The buffer entry built from an inbound event. */
  function Formatted(d: Delivery, at: string): Message {
    Message(d.senderId, d.receiverId, d.message, at)
  }

  /** The buffer after one delivery: grown by one exactly when the sender is
      the selected peer, earlier entries untouched, and the new entry
      carrying the event's sender, receiver and text. */
  function Deliver(buffer: seq<Message>, selected: Option<Selection>, d: Delivery, at: string): (r: seq<Message>)
    ensures |r| == |buffer| + (if FromSelectedPeer(selected, d) then 1 else 0)
    ensures r[..|buffer|] == buffer
    ensures FromSelectedPeer(selected, d) ==>
      r[|buffer|].senderId == d.senderId && r[|buffer|].receiverId == d.receiverId &&
      r[|buffer|].text == d.message && r[|buffer|].createdAt == at
  {
    if FromSelectedPeer(selected, d) then buffer + [Formatted(d, at)] else buffer
  }

  /** The buffer after several deliveries handled one after another while
      the selection stays the same. */
  function DeliverAll(buffer: seq<Message>, selected: Option<Selection>, arrivals: seq<Arrival>): seq<Message>
    decreases |arrivals|
  {
    if arrivals == [] then buffer
    else DeliverAll(Deliver(buffer, selected, arrivals[0].delivery, arrivals[0].at), selected, arrivals[1..])
  }

  /** Reference definition: the formatted deliveries whose sender is the
      selected peer, in arrival order. */
  function FromPeer(selected: Option<Selection>, arrivals: seq<Arrival>): (r: seq<Message>)
    ensures |r| <= |arrivals|
    ensures selected.None? ==> r == []
    ensures forall i :: 0 <= i < |r| ==> r[i].senderId == selected.value.Id()
    decreases |arrivals|
  {
    if arrivals == [] then []
    else
      (if FromSelectedPeer(selected, arrivals[0].delivery)
       then [Formatted(arrivals[0].delivery, arrivals[0].at)] else [])
      + FromPeer(selected, arrivals[1..])
  }

  /** Handling deliveries appends exactly the ones from the selected peer,
      in order, and never touches what the buffer already held. */
  lemma {:induction false} DeliverAllAppendsFromPeer(buffer: seq<Message>, selected: Option<Selection>, arrivals: seq<Arrival>)
    ensures DeliverAll(buffer, selected, arrivals) == buffer + FromPeer(selected, arrivals)
    decreases |arrivals|
  {
    if arrivals != [] {
      var a := arrivals[0];
      var next := Deliver(buffer, selected, a.delivery, a.at);
      DeliverAllAppendsFromPeer(next, selected, arrivals[1..]);
      var head := if FromSelectedPeer(selected, a.delivery) then [Formatted(a.delivery, a.at)] else [];
      assert next == buffer + head;
      assert (buffer + head) + FromPeer(selected, arrivals[1..]) == buffer + (head + FromPeer(selected, arrivals[1..]));
    }
  }

  /** With the buffer holding a conversation with the selected peer, it
      still holds only messages from or to that peer after any deliveries:
      a message from a third user never enters it. */
  lemma BufferStaysWithPeer(buffer: seq<Message>, selected: Option<Selection>, arrivals: seq<Arrival>)
    requires selected.Some?
    requires forall i :: 0 <= i < |buffer| ==>
      buffer[i].senderId == selected.value.Id() || buffer[i].receiverId == selected.value.Id()
    ensures var r := DeliverAll(buffer, selected, arrivals);
      forall i :: 0 <= i < |r| ==> r[i].senderId == selected.value.Id() || r[i].receiverId == selected.value.Id()
  {
    DeliverAllAppendsFromPeer(buffer, selected, arrivals);
    var tail := FromPeer(selected, arrivals);
    assert forall i :: |buffer| <= i < |buffer + tail| ==> (buffer + tail)[i] == tail[i - |buffer|];
  }

  // ---------------------------------------------------------------------
  // Sending

  /** The send guard and payload: nothing is sent when the text is empty,
      no peer is selected or there is no token; otherwise the payload is
      exactly sender = the signed-in user id, receiver = the selected
      peer's id, message = the text as typed. */
  function Payload(text: string, selected: Option<Selection>, token: Option<string>, userId: Option<string>): (r: Option<MessageData>)
    ensures r.None? <==> text == "" || selected.None? || !Present(token)
    ensures r.Some? ==> r.value.senderId == userId && r.value.receiverId == selected.value.Id() && r.value.message == text
  {
    if text == "" || selected.None? || !Present(token) then None
    else Some(MessageData(userId, selected.value.Id(), text))
  }

  /** Only the empty string is refused: a message of spaces is sent as is. */
  lemma BlankMessageIsSent(text: string, selected: Option<Selection>, token: Option<string>, userId: Option<string>)
    requires text != "" && IsBlank(text)
    requires selected.Some? && Present(token)
    ensures Payload(text, selected, token, userId) == Some(MessageData(userId, selected.value.Id(), text))
  {
  }

  /** The calls a send makes once its guard passes: with a socket, the emit,
      the POST, and the refetch caused by flipping the refresh toggle;
      without one, only the POST. */
  function SendRequests(data: MessageData, socket: bool): seq<Request> {
    if socket then [EmitMessage(data), PostMessage(data), RefreshContacts] else [PostMessage(data)]
  }

  // ---------------------------------------------------------------------
  // The page

  class ChatPage {
    var contacts: seq<Contact>
    var conversation: seq<Message>
    var selected: Option<Selection>
    var newMessage: string
    var loading: bool
    var error: Option<string>
    var userId: Option<string>
    var token: Option<string>
    var refreshContacts: bool
    /** Every outbound call made so far, oldest first. */
    var requests: seq<Request>
    /** Whether the shared socket exists; without it nothing is emitted and
        no inbound handler is installed. */
    const hasSocket: bool

    function State(): PageState
      reads this
    {
      PageState(contacts, conversation, selected, newMessage, loading, error, userId, token, refreshContacts, requests)
    }

    /** The page shows its controls (search box, contact list, compose box)
        only when it is neither loading nor showing an error; otherwise it
        renders the spinner or the error screen, and nothing can call the
        selection and send handlers. */
    predicate Interactive()
      reads this
    {
      !loading && error.None?
    }

    /** The inbound handler is installed only while there is a socket, a
        user id and a token. */
    predicate Listening()
      reads this
    {
      hasSocket && Present(userId) && Present(token)
    }

    /** Mounting the page: the cookie check, then the initial contacts fetch;
        setting the token also fires the contacts effect once. */
    constructor Mount(socket: bool, cookieToken: Option<string>, cookieUserId: Option<string>)
      ensures hasSocket == socket
      ensures contacts == [] && conversation == [] && selected == None && newMessage == "" && !refreshContacts
      ensures !Present(cookieToken) ==>
        token == None && userId == None && error == Some(MissingSessionError) && !loading && requests == []
      ensures Present(cookieToken) ==>
        token == cookieToken && userId == cookieUserId && error == None && loading &&
        requests == [LoadContacts, RefreshContacts]
    {
      hasSocket := socket;
      contacts, conversation, selected, newMessage := [], [], None, "";
      loading, error, userId, token := true, None, None, None;
      refreshContacts, requests := false, [];
      if !Present(cookieToken) {
        error := Some(MissingSessionError);
        loading := false;
      } else {
        token := cookieToken;
        userId := cookieUserId;
        requests := requests + [LoadContacts];
        // the contacts effect reruns because the token changed
        requests := requests + [RefreshContacts];
      }
    }

    /** Completion of the contacts fetch made at mount. */
    method ContactsLoaded(outcome: Fetch<seq<Contact>>)
      modifies this
      ensures outcome.Fetched? ==> State() == old(State()).(contacts := outcome.value, loading := false)
      ensures outcome.FetchFailed? ==> State() == old(State()).(error := Some(ContactsLoadError), loading := false)
    {
      match outcome {
        case Fetched(list) => contacts := list;
        case FetchFailed(_) => error := Some(ContactsLoadError);
      }
      loading := false;
    }

    /** Completion of any later contacts refetch: a success replaces the
        whole list, a failure is only logged. */
    method ContactsRefreshed(outcome: Fetch<seq<Contact>>)
      modifies this
      ensures outcome.Fetched? ==> State() == old(State()).(contacts := outcome.value)
      ensures outcome.FetchFailed? ==> State() == old(State())
    {
      if outcome.Fetched? {
        contacts := outcome.value;
      }
    }

    /** The `receiveMessage` handler: a refetch of the contacts, the
        delivery appended only when it comes from the selected peer, and
        the refresh toggle flipped, which makes the contacts effect fetch
        once more. */
    method ReceiveMessage(d: Delivery, now: string)
      requires Listening()
      modifies this
      ensures State() == old(State()).(
        conversation := Deliver(old(conversation), old(selected), d, now),
        refreshContacts := !old(refreshContacts),
        requests := old(requests) + [RefreshContacts, RefreshContacts])
    {
      requests := requests + [RefreshContacts];
      var formatted := Formatted(d, now);
      if selected.Some? && d.senderId == selected.value.Id() {
        conversation := conversation + [formatted];
      }
      refreshContacts := !refreshContacts;
      requests := requests + [RefreshContacts];
    }

    /** Picking a row of the contact list. The selection changes first,
        whether or not there is a token. */
    method SelectContact(s: Selection)
      modifies this
      ensures Present(token) ==> State() == old(State()).(
        selected := Some(s), requests := old(requests) + [LoadConversation(s.Id())])
      ensures !Present(token) ==> State() == old(State()).(
        selected := Some(s), error := Some(MissingTokenError))
    {
      selected := Some(s);
      if !Present(token) {
        error := Some(MissingTokenError);
        return;
      }
      requests := requests + [LoadConversation(s.Id())];
    }

    /** Opening a conversation from the search results: like selecting a
        contact, except that a missing token is ignored silently. */
    method StartConversation(s: Selection)
      modifies this
      ensures Present(token) ==> State() == old(State()).(
        selected := Some(s), requests := old(requests) + [LoadConversation(s.Id())])
      ensures !Present(token) ==> State() == old(State()).(selected := Some(s))
    {
      selected := Some(s);
      if !Present(token) {
        return;
      }
      requests := requests + [LoadConversation(s.Id())];
    }

    /** Completion of a conversation fetch: the buffer is replaced wholesale
        by the fetched list, or the error is set and the buffer kept. */
    method ConversationArrived(outcome: Fetch<seq<Message>>)
      modifies this
      ensures outcome.Fetched? ==> State() == old(State()).(conversation := outcome.value)
      ensures outcome.FetchFailed? ==> State() == old(State()).(error := Some(ConversationLoadError))
    {
      match outcome {
        case Fetched(messages) => conversation := messages;
        case FetchFailed(_) => error := Some(ConversationLoadError);
      }
    }

    /** `handleSendMessage`: refused without any effect unless the guard of
        `Payload` passes; otherwise the emit (with a socket), the toggle
        flip, and the POST, with the payload and the current selection
        handed back for the continuations. */
    method SendMessage(text: string) returns (pending: Option<PendingSend>)
      modifies this
      ensures pending.Some? <==> Payload(text, old(selected), token, userId).Some?
      ensures pending.None? ==> State() == old(State())
      ensures pending.Some? ==>
        pending.value == PendingSend(Payload(text, old(selected), token, userId).value, old(selected).value) &&
        State() == old(State()).(
          refreshContacts := if hasSocket then !old(refreshContacts) else old(refreshContacts),
          requests := old(requests) + SendRequests(pending.value.data, hasSocket))
    {
      if text == "" || selected.None? || !Present(token) {
        return None;
      }
      var data := MessageData(userId, selected.value.Id(), text);
      if hasSocket {
        requests := requests + [EmitMessage(data)];
        refreshContacts := !refreshContacts;
      }
      requests := requests + [PostMessage(data)];
      if hasSocket {
        // the contacts effect reruns because the toggle flipped
        requests := requests + [RefreshContacts];
      }
      pending := Some(PendingSend(data, selected.value));
    }

    /** The socket acknowledgement of a send: the confirmed message is
        appended, or the error is set and the buffer kept. */
    method SendAcked(ack: Ack)
      modifies this
      ensures ack.Delivered? ==> State() == old(State()).(conversation := old(conversation) + [ack.message])
      ensures ack.Rejected? ==> State() == old(State()).(error := Some(SendFailedError))
    {
      match ack {
        case Delivered(m) => conversation := conversation + [m];
        case Rejected => error := Some(SendFailedError);
      }
    }

    /** The continuation of a successful POST: the compose box is cleared,
        the selection captured at send time is selected again (which
        refetches its conversation) and the contacts are refetched. It runs
        only after a send passed the guard, so the token is present. */
    method SendPosted(p: PendingSend)
      requires Present(token)
      modifies this
      ensures State() == old(State()).(
        newMessage := "",
        selected := Some(p.selection),
        requests := old(requests) + [LoadConversation(p.selection.Id()), RefreshContacts])
    {
      newMessage := "";
      SelectContact(p.selection);
      requests := requests + [RefreshContacts];
    }

    /** A failed POST: its message becomes the page error. */
    method SendPostFailed(reason: string)
      modifies this
      ensures State() == old(State()).(error := Some(reason))
    {
      error := Some(reason);
    }
  }

  // ---------------------------------------------------------------------
  // Event orders

  /** Inbound deliveries handled one after another while the selection
      stays the same: the buffer ends as `DeliverAll` of the buffer it
      started with, which `DeliverAllAppendsFromPeer` describes. */
  method ReceiveEach(page: ChatPage, arrivals: seq<Arrival>)
    requires page.Listening()
    modifies page
    ensures page.conversation == DeliverAll(old(page.conversation), page.selected, arrivals)
    ensures page.selected == old(page.selected) && page.Listening()
    decreases |arrivals|
  {
    if arrivals != [] {
      page.ReceiveMessage(arrivals[0].delivery, arrivals[0].at);
      ReceiveEach(page, arrivals[1..]);
    }
  }

  /** After a successful send, the socket ack and the conversation reload
      race. When the reload, which already holds the sent message, lands
      first, the ack appends that message a second time. */
  method ReloadThenAck(page: ChatPage, p: PendingSend, loaded: seq<Message>, m: Message)
    requires Present(page.token)
    modifies page
    ensures page.selected == Some(p.selection)
    ensures page.conversation == loaded + [m, m]
  {
    page.SendPosted(p);
    page.ConversationArrived(Fetched(loaded + [m]));
    page.SendAcked(Delivered(m));
  }

  /** The other order is harmless: the reload replaces the buffer the ack
      appended to, so the sent message is there once. */
  method AckThenReload(page: ChatPage, p: PendingSend, loaded: seq<Message>, m: Message)
    requires Present(page.token)
    modifies page
    ensures page.selected == Some(p.selection)
    ensures page.conversation == loaded + [m]
  {
    page.SendPosted(p);
    page.SendAcked(Delivered(m));
    page.ConversationArrived(Fetched(loaded + [m]));
  }

  /** `BufferStaysWithPeer` covers deliveries only. An ack appends to
      whatever buffer is current: when another user was selected and their
      conversation loaded before the ack came back, a message that neither
      comes from nor goes to that user enters their conversation. */
  method LateAckCrossesConversations(page: ChatPage, other: User, m: Message)
    requires m.senderId != other.id && m.receiverId != other.id
    modifies page
    ensures page.selected == Some(SearchedUser(other))
    ensures page.conversation == [m]
    ensures page.conversation[0].senderId != other.id && page.conversation[0].receiverId != other.id
  {
    page.StartConversation(SearchedUser(other));
    page.ConversationArrived(Fetched([]));
    page.SendAcked(Delivered(m));
  }

  /** Nothing on the page clears the error: every handler that touches it
      sets a message. Once set, it stays set whatever completes afterwards,
      and the page keeps showing the error screen instead of its controls. */
  method ErrorIsSticky(page: ChatPage, loadedContacts: Fetch<seq<Contact>>, refreshed: Fetch<seq<Contact>>,
                       d: Delivery, now: string, s: Selection, t: Selection, loaded: Fetch<seq<Message>>,
                       text: string, ack: Ack, p: PendingSend, reason: string)
    requires page.error.Some? && page.Listening()
    modifies page
    ensures page.error.Some? && !page.Interactive()
  {
    page.ContactsLoaded(loadedContacts);
    page.ContactsRefreshed(refreshed);
    page.ReceiveMessage(d, now);
    page.SelectContact(s);
    page.StartConversation(t);
    page.ConversationArrived(loaded);
    var pending := page.SendMessage(text);
    page.SendAcked(ack);
    page.SendPosted(p);
    page.SendPostFailed(reason);
  }
}

# Chat and task client: the rules behind the components

This project models, in Dafny, the rules inside the React components of a
Next.js messaging and task-management client, and proves properties of
them. The component state becomes class fields. Every network or socket
outcome becomes a method parameter. Every call the page makes is recorded
in a `requests` log, so that "nothing is sent" can be stated.

- `chat_page.dfy` (module `ChatPage`): the chat page's reconciliation state
  machine. It covers the selected peer, the conversation buffer, the
  contacts, the error, the refresh toggle and the outbound calls. Inbound
  deliveries, sends, socket acks, HTTP continuations, contact selection and
  conversation loads are separate methods. Each ensures states the whole new
  state through the `PageState` snapshot. The buffer rules are also pure
  functions (`Deliver`, `DeliverAll`, `FromPeer`, `Payload`) with lemmas
  about them.
- `search_section.dfy` (module `SearchSection`): the user search box. It
  holds a reference to the page, whose token and `startConversation` it
  uses.
- `contact_list.dfy` (module `ContactList`): the other participant, the
  "Vous : " caption, the 25-character preview and the highlighted row.
- `message_date.dfy` (module `MessageDate`): the "Jour D - HH:MM"
  timestamp, built from weekday, day, hour and minute integers. A parser
  reads it back, and a lemma proves that nothing is lost.
- `workspace_form.dfy` (module `WorkspaceForm`): the member list (add keeps
  it duplicate-free, remove filters it), the username filter and the
  submit validator.
- `task_modal.dfy` (module `TaskModal`): populating and resetting the form,
  building the task data, the title validator, and the loading, error and
  open state around a save.
- `kanban_board.dfy` (module `KanbanBoard`): the four initial columns and
  adding a task to one of them.
- `middleware.dfy` (module `Middleware`): the route guard.
- `base.dfy` (module `Base`) and `chat_types.dfy` (module `ChatTypes`):
  `Option`, fetch outcomes, JavaScript string truthiness, ASCII
  `trim`/`toLowerCase`/`includes`, and the user, contact and message shapes.

Some behaviour of the code as written is easy to miss. The model keeps it:

- `handleSendMessage` refuses only the empty string. A message of spaces is
  sent (`ChatPage.BlankMessageIsSent`).
- An inbound message causes two contacts fetches. The handler calls
  `fetchContacts` directly. It also flips `refreshContacts`, which reruns the
  contacts effect (`ChatPage.ChatPage.ReceiveMessage`).
- A send does no local echo before the server answers. The buffer grows
  only by the message the socket ack confirms. The HTTP continuation also
  reloads the whole conversation, and the two race. If the ack comes first,
  the reload replaces the buffer and the message appears once
  (`ChatPage.AckThenReload`). If the reload lands first, already holding the
  message, the ack appends it a second time (`ChatPage.ReloadThenAck`).
- An ack appends to whatever buffer is current. If another user was selected
  and their conversation loaded before the ack came back, the sent message
  lands in that other user's conversation
  (`ChatPage.LateAckCrossesConversations`). The invariant that the buffer
  only holds messages involving the selected peer
  (`ChatPage.BufferStaysWithPeer`) therefore covers inbound deliveries only.
- A late search answer is applied even if the box was emptied after the
  request went out. It reopens the results panel under a blank query
  (`SearchSection.StaleSearchReopens`).
- Mounting with a token fetches the contacts twice: once in the mount
  effect and once in the contacts effect, which runs because the token
  changed.
- The route guard matches the protected list exactly. `/chat/x` reaches the
  middleware (its matcher is `/chat/:path*`) but passes without a token.

## Model

| member | source | states |
|---|---|---|
| `ChatPage.Deliver` | app/chat/page.tsx:81-90 | the buffer grows by one exactly when a peer is selected and the event's sender is that peer; earlier entries are unchanged; the new entry carries the event's sender id, receiver id and text |
| `ChatPage.FromPeer` | app/chat/page.tsx:88-90 | reference definition: the formatted deliveries from the selected peer, in order; none without a selection; every one has the selected peer as sender |
| `ChatPage.DeliverAllAppendsFromPeer` | app/chat/page.tsx:88-90 | handling a series of deliveries appends exactly the ones from the selected peer, in arrival order, after the untouched earlier buffer |
| `ChatPage.BufferStaysWithPeer` | app/chat/page.tsx:88-90 | if every buffered message involves the selected peer, this still holds after any deliveries: messages from third users never enter the buffer |
| `ChatPage.Payload` | app/chat/page.tsx:117-124 | no payload iff the text is empty, no peer is selected or the token is missing or empty; otherwise the payload is exactly {senderId: userId, receiverId: selected id, message: text} |
| `ChatPage.BlankMessageIsSent` | app/chat/page.tsx:118 | a non-empty all-whitespace message passes the guard and is sent unchanged |
| `ChatPage.ReceiveEach` | app/chat/page.tsx:73-93 | successive inbound events under an unchanged selection leave the buffer as `DeliverAll` of the starting buffer, so `DeliverAllAppendsFromPeer` describes the page itself; the selection and the handler stay in place |
| `ChatPage.ReloadThenAck` | app/chat/page.tsx:127-148 | after a successful send, a reload that already holds the sent message followed by the ack leaves that message in the buffer twice |
| `ChatPage.AckThenReload` | app/chat/page.tsx:127-148 | the ack followed by the reload leaves the sent message in the buffer once: the reload replaces what the ack appended to |
| `ChatPage.LateAckCrossesConversations` | app/chat/page.tsx:127-163 | with another user selected and their conversation loaded, a late ack puts a message that neither comes from nor goes to that user into their conversation |
| `ChatPage.ErrorIsSticky` | app/chat/page.tsx:28-190 | once the error is set, it stays set after any later completion, selection or send, so the page never becomes interactive again |
| `ChatPage.ChatPage.Interactive` | app/chat/page.tsx:165-190 | the controls are rendered only when the page is neither loading nor showing an error |
| `ChatPage.ChatPage.Mount` | app/chat/page.tsx:28-67 | without a token cookie: error "Token manquant ou utilisateur non connecté.", loading off, no request; with one: token and user id stored, the initial contacts fetch and the effect's refetch issued |
| `ChatPage.ChatPage.ContactsLoaded` | app/chat/page.tsx:40-50 | a successful initial fetch replaces the contacts list; a failure sets "Erreur lors de la récupération des contacts."; loading ends either way; nothing else changes |
| `ChatPage.ChatPage.ContactsRefreshed` | app/chat/page.tsx:61-67 | a successful refetch replaces the whole contacts list; a failed one changes nothing |
| `ChatPage.ChatPage.ReceiveMessage` | app/chat/page.tsx:73-93 | only while the handler is installed; the buffer becomes `Deliver` of the old buffer; the refresh toggle flips; two contacts refetches are issued whether or not the message was appended; nothing else changes |
| `ChatPage.ChatPage.SelectContact` | app/chat/page.tsx:102-115 | the selection is set first; without a token the error becomes "Token manquant." and the buffer is untouched; with one a conversation load for the selection's id is issued |
| `ChatPage.ChatPage.StartConversation` | app/chat/page.tsx:152-163 | the selection is set; without a token nothing else changes and no error is set; with one a conversation load is issued |
| `ChatPage.ChatPage.ConversationArrived` | app/chat/page.tsx:108-114 | a fetched conversation replaces the buffer wholesale; a failure sets "Erreur lors de la récupération des messages." and keeps the buffer |
| `ChatPage.ChatPage.SendMessage` | app/chat/page.tsx:117-138 | when `Payload` refuses, the whole state is unchanged and nothing is emitted or posted; otherwise, with a socket, the emit, the toggle flip, the POST and the effect's refetch happen in that order; without one only the POST; the returned pending send carries the exact payload and selection |
| `ChatPage.ChatPage.SendAcked` | app/chat/page.tsx:127-134 | a successful ack appends the confirmed message at the end with earlier entries unchanged; a failed ack sets "Le message n'a pas pu être envoyé." and leaves the buffer unchanged |
| `ChatPage.ChatPage.SendPosted` | app/chat/page.tsx:138-148 | after a successful POST the compose box is cleared, the selection captured at send time is selected again with its conversation reloaded, and the contacts are refetched |
| `ChatPage.ChatPage.SendPostFailed` | app/chat/page.tsx:149 | a failed POST sets its message as the error and changes nothing else |
| `SearchSection.AfterSearch` | app/chat/components/SearchSection.tsx:34-41 | after a search completes, the panel flag is on iff the results are non-empty; a success keeps the returned list; a failure leaves the results empty |
| `SearchSection.SearchSection.PanelVisible` | app/chat/components/SearchSection.tsx:73 | the results panel is shown only when the flag is on and there are results; the methods below state how each event leaves it |
| `SearchSection.StaleSearchReopens` | app/chat/components/SearchSection.tsx:14-41 | a search answer that arrives after the box was emptied still opens the panel, under a blank query |
| `SearchSection.SearchSection.constructor` | app/chat/components/SearchSection.tsx:10-12 | the query is empty, there are no results, the panel is closed and no search has been sent |
| `SearchSection.SearchSection.Search` | app/chat/components/SearchSection.tsx:14-32 | the query is stored; a search is sent iff the page has a token and the query is not blank; otherwise the results are cleared, the panel is closed and hidden, and no request is sent |
| `SearchSection.SearchSection.SearchArrived` | app/chat/components/SearchSection.tsx:34-41 | results and panel flag become `AfterSearch` of the outcome, so the panel shows exactly when the flag is on; the query is unchanged |
| `SearchSection.SearchSection.Focus` | app/chat/components/SearchSection.tsx:48-52 | the panel flag turns on if the query is not blank and otherwise keeps its value; with no results the panel stays hidden, and with results and a non-blank query it shows |
| `SearchSection.SearchSection.BlurElapsed` | app/chat/components/SearchSection.tsx:44-46 | when the blur timer fires the panel closes and is hidden |
| `SearchSection.SearchSection.SelectUser` | app/chat/components/SearchSection.tsx:54-59 | the page starts a conversation with the user (as `StartConversation` states); then the query is "", the results are empty and the panel is closed and hidden |
| `Base.TrimStart` | app/chat/components/SearchSection.tsx:18 | leading whitespace removal: a suffix of the input, the removed part is blank, and the rest does not start with whitespace |
| `Base.TrimEnd` | app/chat/components/SearchSection.tsx:18 | trailing whitespace removal: a prefix of the input, the removed part is blank, and the rest does not end with whitespace |
| `Base.TrimEmptyIffBlank` | app/chat/components/SearchSection.tsx:18 | `trim()` gives "" exactly when the string is all whitespace |
| `Base.ToLower` | app/tasks/components/CreateWorkspaceForm.tsx:40 | the lower-cased string has the same length, with each letter A-Z lowered and every other character kept |
| `Base.ContainsIffOccurs` | app/tasks/components/CreateWorkspaceForm.tsx:40 | `includes` holds exactly when the substring starts at some offset |
| `Base.ContainsEmpty` | app/tasks/components/CreateWorkspaceForm.tsx:40 | every string includes the empty string |
| `ContactList.OtherUserIsParticipant` | app/chat/components/ContactList.tsx:32-33 | the other user is the receiver when the signed-in user is the sender, and the sender otherwise |
| `ContactList.OtherUserIsCounterpart` | app/chat/components/ContactList.tsx:32-33 | when the signed-in user is one of two distinct participants, the row shows the other one |
| `ContactList.Label` | app/chat/components/ContactList.tsx:56 | the caption is "Vous : " when the signed-in user sent the last message, and the sender's username followed by " : " otherwise |
| `ContactList.Preview` | app/chat/components/ContactList.tsx:57-59 | at most 28 characters; unchanged when 25 characters or fewer; otherwise the first 25 characters followed by "..." |
| `ContactList.PreviewSharedPrefix` | app/chat/components/ContactList.tsx:57-59 | two long messages that agree on their first 25 characters have the same preview |
| `ContactList.PreviewKeepsPrefix` | app/chat/components/ContactList.tsx:57-59 | the preview starts with the text, or with its first 25 characters when the text is longer |
| `ContactList.Rows` | app/chat/components/ContactList.tsx:31-38 | one row per contact, in order; a row is highlighted iff a selection exists and its id equals the contact's id; with no selection no row is highlighted |
| `ContactList.AtMostOneHighlighted` | app/chat/components/ContactList.tsx:34-38 | with distinct contact ids, at most one row is highlighted |
| `MessageDate.Decimal` | app/chat/utils/formatMessageDate.ts:5 | `toString` of a number: at least one digit, all digits, a single digit iff below 10, and no leading zero |
| `MessageDate.DecimalRoundTrip` | app/chat/utils/formatMessageDate.ts:5 | reading the decimal text back gives the number |
| `MessageDate.PadStart2` | app/chat/utils/formatMessageDate.ts:6-7 | `padStart(2, '0')`: two characters or more are kept; shorter strings get '0's on the left up to two characters |
| `MessageDate.TwoDigitsExact` | app/chat/utils/formatMessageDate.ts:6-7 | a value below 100 is shown as exactly two digits that read back as the value |
| `MessageDate.WeekdayIndexInverts` | app/chat/utils/formatMessageDate.ts:3-4 | weekday index 0..6 maps to Dim, Lun, Mar, Mer, Jeu, Ven, Sam, and the names are distinct |
| `MessageDate.FormatMessageDate` | app/chat/utils/formatMessageDate.ts:1-10 | the output is the weekday name, a space, the unpadded day, " - ", the two-digit hour, ':' and the two-digit minute |
| `MessageDate.FormatRoundTrip` | app/chat/utils/formatMessageDate.ts:9 | parsing the displayed timestamp gives back weekday, day, hour and minute |
| `WorkspaceForm.WithMember` | app/tasks/components/CreateWorkspaceForm.tsx:44-48 | the id is in the result; earlier entries keep their places; the list grows by one, with the id last, only when the id was absent |
| `WorkspaceForm.WithoutMember` | app/tasks/components/CreateWorkspaceForm.tsx:51-53 | no occurrence of the id is left, and every other id keeps its number of occurrences |
| `WorkspaceForm.WithoutMemberAppend` | app/tasks/components/CreateWorkspaceForm.tsx:51-53 | removal keeps the relative order: it distributes over concatenation |
| `WorkspaceForm.AddKeepsNoDuplicates` | app/tasks/components/CreateWorkspaceForm.tsx:44-48 | adding keeps a duplicate-free list duplicate-free |
| `WorkspaceForm.RemoveKeepsNoDuplicates` | app/tasks/components/CreateWorkspaceForm.tsx:51-53 | removing keeps a duplicate-free list duplicate-free |
| `WorkspaceForm.RemoveThenAdd` | app/tasks/components/CreateWorkspaceForm.tsx:44-53 | removing then adding an id leaves it exactly once, at the end, with the other members' counts unchanged |
| `WorkspaceForm.FilterUsers` | app/tasks/components/CreateWorkspaceForm.tsx:39-41 | exactly the users whose lower-cased username includes the lower-cased query are kept |
| `WorkspaceForm.FilterUsersAppend` | app/tasks/components/CreateWorkspaceForm.tsx:39-41 | the filter keeps the original order: it distributes over concatenation |
| `WorkspaceForm.EmptyQueryKeepsAll` | app/tasks/components/CreateWorkspaceForm.tsx:39-41 | an empty query keeps every user |
| `WorkspaceForm.ToLowerIdempotent` | app/tasks/components/CreateWorkspaceForm.tsx:40 | lower-casing twice is lower-casing once |
| `WorkspaceForm.FilterIgnoresQueryCase` | app/tasks/components/CreateWorkspaceForm.tsx:39-41 | the filter gives the same list for a query and its lower-cased form |
| `WorkspaceForm.CreateWorkspaceForm.constructor` | app/tasks/components/CreateWorkspaceForm.tsx:12-18 | empty name, description, members and query; no users; loading; no error |
| `WorkspaceForm.CreateWorkspaceForm.UsersLoaded` | app/tasks/components/CreateWorkspaceForm.tsx:21-36 | fetched users replace the available list; a failure sets "Erreur lors de la récupération des utilisateurs"; loading ends either way |
| `WorkspaceForm.CreateWorkspaceForm.AddMember` | app/tasks/components/CreateWorkspaceForm.tsx:44-48 | the members become `WithMember` of the old list, and the list stays duplicate-free |
| `WorkspaceForm.CreateWorkspaceForm.RemoveMember` | app/tasks/components/CreateWorkspaceForm.tsx:51-53 | the members become `WithoutMember` of the old list, and the list stays duplicate-free |
| `WorkspaceForm.CreateWorkspaceForm.Submit` | app/tasks/components/CreateWorkspaceForm.tsx:55-61 | `onCreateWorkspace` with {name, description, members} and then `onClose` are called iff name and description are non-empty and there is a member; otherwise nothing is called |
| `TaskModal.EmptyForm` | app/tasks/components/TaskModal.tsx:54-61 | the fields of a new task: empty title, description and assignee, no date, the initial status and priority Low |
| `TaskModal.FormFor` | app/tasks/components/TaskModal.tsx:46-62 | with a selected task its title, description, status and priority are copied, a missing or empty due date gives no date and a null assignee gives ""; with none the fields are `EmptyForm` |
| `TaskModal.BuildTaskData` | app/tasks/components/TaskModal.tsx:70-79 | id is the selected task's id or ""; the untrimmed title and the other fields are copied; no date gives a null due date; an empty assignee gives null |
| `TaskModal.EditRoundTrip` | app/tasks/components/TaskModal.tsx:46-79 | populating from a task and saving without edits hands back that task, for tasks that store absent values as null; the due date survives only because its trip through `Date` is taken as the identity, which holds only for dates already in `toISOString` form |
| `TaskModal.SaveRoundTrip` | app/tasks/components/TaskModal.tsx:46-79 | the task data saved from a form populates that same form again |
| `TaskModal.TaskModal.constructor` | app/tasks/components/TaskModal.tsx:37-62 | on mount the fields are `FormFor` the selected task and initial status; loading is off and there is no error |
| `TaskModal.TaskModal.Populate` | app/tasks/components/TaskModal.tsx:46-62 | the form fields become `FormFor` the new selected task and initial status |
| `TaskModal.TaskModal.SaveTask` | app/tasks/components/TaskModal.tsx:64-84 | a blank title sets "Le titre est obligatoire." and nothing is handed to `onSave`; otherwise `BuildTaskData` of the form is handed over, loading starts and the error is cleared |
| `TaskModal.TaskModal.SaveSettled` | app/tasks/components/TaskModal.tsx:81-93 | when `onSave` succeeds the modal closes; when it fails the error is set and the modal stays open; loading ends in both cases |
| `TaskModal.TaskModal.CloseModal` | app/tasks/components/TaskModal.tsx:96-104 | the modal closes and every field returns to `EmptyForm` of the initial status |
| `KanbanBoard.WithTask` | app/tasks/components/KanbanBoard.tsx:16-19 | the chosen column grows by one, with the new task last and earlier tasks unchanged; every other column and the set of keys are unchanged |
| `KanbanBoard.WithTaskCountsOne` | app/tasks/components/KanbanBoard.tsx:16-19 | adding a task raises the board's total number of tasks by exactly one |
| `KanbanBoard.KanbanBoard.constructor` | app/tasks/components/KanbanBoard.tsx:5-10 | the board starts with exactly the columns Backlog, ToDo, InProgress and Done, all empty |
| `KanbanBoard.KanbanBoard.AddTask` | app/tasks/components/KanbanBoard.tsx:12-21 | an empty or cancelled title leaves the board unchanged; otherwise the board becomes `WithTask` with a task holding the title and the description "Nouvelle tâche"; the four columns remain |
| `Middleware.Guard` | app/middleware.ts:5-16 | redirect to /login iff the path is exactly /chat or /tasks and the token is missing or empty; every other request passes |
| `Middleware.SubpathPassesWithoutToken` | app/middleware.ts:11-20 | a subpath of a protected page is routed to the middleware but passes even without a token |
| `Middleware.TokenPassesEverything` | app/middleware.ts:11-15 | with a non-empty token every request passes |

## Left out

- Socket wiring (`joinRoom`, installing and removing the `receiveMessage` handler, reinstalling it and emitting `joinRoom` again when the selection changes, disconnect): this is transport lifecycle. An inbound event is a call to `ReceiveMessage`, allowed only while the handler would be installed. An ack is a call to `SendAcked`.
- The HTTP services and `fetch`: every request is logged in `requests`, and every response is a `Fetch` parameter of a completion method. That `createWorkspaces` sends an empty member list is service code and is not part of this model. `fetchConversation` and `sendMessage` refuse to run without a token. The page never calls them without one, so the model has no path for that.
- Interleaving of async completions: each completion is a separate sequential method. The caller chooses the order. A stale conversation load, an ack that lands after the reload (`ChatPage.ReloadThenAck`), an ack that lands after another conversation was opened (`ChatPage.LateAckCrossesConversations`) and a late search answer (`SearchSection.StaleSearchReopens`) can all be played out. Nothing deduplicates or cancels, just as in the code.
- Cookie parsing by regular expression: the page receives the cookie values as `Option<string>`.
- Clocks and browser dialogs: `new Date().toISOString()` for inbound messages, `Date.now()` task ids and the `prompt` answer are parameters. The 100 ms blur timer is the separate event `BlurElapsed`.
- `Date` parsing and time zones: `formatMessageDate` takes weekday, day, hour and minute in the ranges `Date` produces. An invalid date string, which the code would render with NaN, is not modelled. The contact list's `toLocaleDateString` timestamp is not modelled. The task modal turns a due date into a `Date` and back; the model takes that to be the identity on the ISO string. This holds only for strings already in `toISOString` form: "2025-03-01" would come back as "2025-03-01T00:00:00.000Z". A stored due date that `Date` cannot parse gives an Invalid Date, which is truthy; `toISOString` then throws before the `try` of `saveTask`. The save is then dropped with no error shown, loading unchanged and no call to `onSave`, while `TaskModal.TaskModal.SaveTask` returns the built data.
- Unicode: `trim` and `toLowerCase` are modelled on ASCII whitespace and the letters A-Z. The 25-character cut counts Dafny characters, not the UTF-16 code units of JavaScript's `length` and `substring`. The two differ for characters outside the Basic Multilingual Plane.
- When handlers can run: the page renders its controls only when `ChatPage.ChatPage.Interactive` holds, that is while neither loading nor showing an error. `ChatPage.ChatPage.SelectContact`, `ChatPage.ChatPage.StartConversation`, `ChatPage.ChatPage.SendMessage`, `SearchSection.SearchSection.Search`, `SearchSection.SearchSection.Focus` and `SearchSection.SearchSection.SelectUser` do not require it, so the model also lets them run in states the interface never offers. No handler clears the error (`ChatPage.ErrorIsSticky`), so any error ends the session, a failed ack or POST included, and there is no retry. The missing-token branches of those handlers cannot be reached from the interface: a missing token cookie sets the error at mount, and the token is never cleared. This includes the "Token manquant." error of `SelectContact`. The model keeps these branches as the code writes them.
- Rendering: the markup of the loading and error screens, avatars (including the first letter of a username, which fails on an empty username), scrolling, the emoji picker, and the task modal's delete button, which only forwards to its parent's `onDelete`.
- Text inputs: their `onChange` handlers only assign the field typed into. Callers assign the public fields directly.
- The presentation-only components (conversation view, workspace list, layout, home page) and the login, register and tasks pages: they are HTTP glue and markup.
- `ChatPage.ChatPage.SendPosted` requires a present token: the continuation exists only after a send passed the token check, and the model never clears the token.
- `KanbanBoard.KanbanBoard.AddTask` requires a column of the board: the buttons pass only the board's own keys. With any other key the code throws on spreading `undefined`.

/** The client's session store: identity, chat status, partner, message list and the
    three opaque poll cursors, with the eight actions that overwrite them.

    `State` is the store's value; each action is a member function of `State` that
    says what the action leaves behind, grouped by aspect (identity, status, messages,
    partner, cursors). `SessionStore` is the mutable store itself: one field per
    store field, one method per action, each method proved to leave exactly the
    state its member function describes. */
module Session {
  import opened Wire
  import MessageMerge

  datatype ChatStatus = Idle | Searching | Connected | Disconnected

  datatype User = User(username: string, auth: string, avatar: string)

  /** The part of the store written to browser storage by `partialize`. */
  datatype Persisted = Persisted(user: Option<User>, authToken: Option<string>, isAuthenticated: bool)

  /** The poll cursors `messageshash`, `notifierHash`, `newMessagesT`. */
  datatype Cursors = Cursors(messageshash: Option<string>, notifierHash: Option<string>, newMessagesT: Option<int>)

  const NoCursors := Cursors(None, None, None)

  datatype State = State(
    user: Option<User>,
    authToken: Option<string>,
    isAuthenticated: bool,
    chatStatus: ChatStatus,
    messages: seq<Message>,
    partnerName: Option<string>,
    partnerIdentifier: Option<string>,
    messageshash: Option<string>,
    notifierHash: Option<string>,
    newMessagesT: Option<int>)
  {
    /** The identity, as `partialize` projects it. */
    function Partialize(): Persisted {
      Persisted(user, authToken, isAuthenticated)
    }

    function Partner(): (Option<string>, Option<string>) {
      (partnerName, partnerIdentifier)
    }

    function PollCursors(): Cursors {
      Cursors(messageshash, notifierHash, newMessagesT)
    }

    /** `setUser(user, authToken)`: signs in; nothing of the chat changes. */
    function SetUser(u: User, token: string): (t: State)
      ensures t.Partialize() == Persisted(Some(u), Some(token), true)
      ensures t.chatStatus == chatStatus && t.messages == messages
      ensures t.Partner() == Partner() && t.PollCursors() == PollCursors()
    {
      this.(user := Some(u), authToken := Some(token), isAuthenticated := true)
    }

    /** `logout()`: clears identity, status, messages and partner, but not the cursors. */
    function Logout(): (t: State)
      ensures t.Partialize() == Persisted(None, None, false)
      ensures t.chatStatus == Idle && t.messages == []
      ensures t.Partner() == (None, None)
      ensures t.PollCursors() == PollCursors()
    {
      this.(user := None, authToken := None, isAuthenticated := false, chatStatus := Idle,
            messages := [], partnerName := None, partnerIdentifier := None)
    }

    /** `setChatStatus(status)`: only the status changes. */
    function SetChatStatus(status: ChatStatus): (t: State)
      ensures t.chatStatus == status
      ensures t.Partialize() == Partialize() && t.messages == messages
      ensures t.Partner() == Partner() && t.PollCursors() == PollCursors()
    {
      this.(chatStatus := status)
    }

    /** `setPartner(name, identifier)`: records the partner and forces status connected. */
    function SetPartner(name: string, identifier: string): (t: State)
      ensures t.Partner() == (Some(name), Some(identifier)) && t.chatStatus == Connected
      ensures t.Partialize() == Partialize() && t.messages == messages
      ensures t.PollCursors() == PollCursors()
    {
      this.(partnerName := Some(name), partnerIdentifier := Some(identifier), chatStatus := Connected)
    }

    /** `addMessages(incoming)`: appends the batch minus the messages whose
        (time, text) is already held; the old list stays a prefix. */
    function AddMessages(incoming: seq<Message>): (t: State)
      ensures messages <= t.messages
      ensures |t.messages| <= |messages| + |incoming|
      ensures forall i :: |messages| <= i < |t.messages| ==> t.messages[i] in incoming
      ensures forall i, m :: |messages| <= i < |t.messages| && m in messages ==>
                !MessageMerge.SameKey(t.messages[i], m)
      ensures t.Partialize() == Partialize() && t.chatStatus == chatStatus
      ensures t.Partner() == Partner() && t.PollCursors() == PollCursors()
    {
      this.(messages := MessageMerge.Merge(messages, incoming))
    }

    /** `clearMessages()`. */
    function ClearMessages(): (t: State)
      ensures t.messages == []
      ensures t.Partialize() == Partialize() && t.chatStatus == chatStatus
      ensures t.Partner() == Partner() && t.PollCursors() == PollCursors()
    {
      this.(messages := [])
    }

    /** `updatePollState(hash, notifierHash, newMessagesT)`: all three cursors are
        replaced, an absent argument overwriting the old value with absent. */
    function UpdatePollState(hash: string, nh: Option<string>, nt: Option<int>): (t: State)
      ensures t.PollCursors() == Cursors(Some(hash), nh, nt)
      ensures t.Partialize() == Partialize() && t.chatStatus == chatStatus
      ensures t.messages == messages && t.Partner() == Partner()
    {
      this.(messageshash := Some(hash), notifierHash := nh, newMessagesT := nt)
    }

    /** `resetChat()`: clears the whole chat session and keeps the identity. */
    function ResetChat(): (t: State)
      ensures t.chatStatus == Idle && t.messages == []
      ensures t.Partner() == (None, None) && t.PollCursors() == NoCursors
      ensures t.Partialize() == Partialize()
    {
      this.(chatStatus := Idle, messages := [], partnerName := None, partnerIdentifier := None,
            messageshash := None, notifierHash := None, newMessagesT := None)
    }
  }

  /** The guard `user && authToken` that every page handler starts with. */
  predicate SignedIn(s: State) {
    s.user.Some? && Truthy(s.authToken)
  }

  /** The store as created. */
  const Initial := State(None, None, false, Idle, [], None, None, None, None, None)

  /** The store after a reload: the initial state with the persisted identity merged
      over it, as the persistence layer rehydrates it. */
  function Rehydrate(p: Persisted): (t: State)
    ensures t.Partialize() == p
    ensures t.chatStatus == Idle && t.messages == []
    ensures t.Partner() == (None, None) && t.PollCursors() == NoCursors
  {
    Initial.(user := p.user, authToken := p.authToken, isAuthenticated := p.isAuthenticated)
  }

  /** Only the identity survives a reload: two stores that agree on it reload to the
      same state, whatever their chat sessions were. */
  lemma ReloadKeepsOnlyIdentity(s1: State, s2: State)
    requires s1.user == s2.user && s1.authToken == s2.authToken && s1.isAuthenticated == s2.isAuthenticated
    ensures Rehydrate(s1.Partialize()) == Rehydrate(s2.Partialize())
    ensures Rehydrate(s1.Partialize()).Partialize() == s1.Partialize()
  {
  }

  /** The mutable store. */
  class SessionStore {
    var user: Option<User>
    var authToken: Option<string>
    var isAuthenticated: bool
    var chatStatus: ChatStatus
    var messages: seq<Message>
    var partnerName: Option<string>
    var partnerIdentifier: Option<string>
    var messageshash: Option<string>
    var notifierHash: Option<string>
    var newMessagesT: Option<int>

    /** The store's current value. */
    function Snapshot(): State
      reads this
    {
      State(user, authToken, isAuthenticated, chatStatus, messages,
            partnerName, partnerIdentifier, messageshash, notifierHash, newMessagesT)
    }

    constructor ()
      ensures Snapshot() == Initial
    {
      user, authToken, isAuthenticated := None, None, false;
      chatStatus, messages := Idle, [];
      partnerName, partnerIdentifier := None, None;
      messageshash, notifierHash, newMessagesT := None, None, None;
    }

    method SetUser(u: User, token: string)
      modifies this
      ensures Snapshot() == old(Snapshot()).SetUser(u, token)
    {
      user, authToken, isAuthenticated := Some(u), Some(token), true;
    }

    method Logout()
      modifies this
      ensures Snapshot() == old(Snapshot()).Logout()
    {
      user, authToken, isAuthenticated := None, None, false;
      chatStatus, messages := Idle, [];
      partnerName, partnerIdentifier := None, None;
    }

    method SetChatStatus(status: ChatStatus)
      modifies this
      ensures Snapshot() == old(Snapshot()).SetChatStatus(status)
    {
      chatStatus := status;
    }

    method SetPartner(name: string, identifier: string)
      modifies this
      ensures Snapshot() == old(Snapshot()).SetPartner(name, identifier)
    {
      partnerName, partnerIdentifier, chatStatus := Some(name), Some(identifier), Connected;
    }

    method AddMessages(incoming: seq<Message>)
      modifies this
      ensures Snapshot() == old(Snapshot()).AddMessages(incoming)
    {
      messages := MessageMerge.Merge(messages, incoming);
    }

    method ClearMessages()
      modifies this
      ensures Snapshot() == old(Snapshot()).ClearMessages()
    {
      messages := [];
    }

    method UpdatePollState(hash: string, nh: Option<string>, nt: Option<int>)
      modifies this
      ensures Snapshot() == old(Snapshot()).UpdatePollState(hash, nh, nt)
    {
      messageshash, notifierHash, newMessagesT := Some(hash), nh, nt;
    }

    method ResetChat()
      modifies this
      ensures Snapshot() == old(Snapshot()).ResetChat()
    {
      chatStatus, messages := Idle, [];
      partnerName, partnerIdentifier := None, None;
      messageshash, notifierHash, newMessagesT := None, None, None;
    }
  }
}

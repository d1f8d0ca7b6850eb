/** The chat page's lifecycle driver: one poll tick, the start-and-search handler,
    sending a message, disconnecting and "next chat".

    Each handler is described by a function on the store's value (`PollTick`,
    `StartChatTick`, `SendTick`, `DisconnectTick`, `NextChatTick`) and carried out by a
    method of `ChatPage` that calls the store's actions in the order the page does.
    A server call is a parameter of type `Remote<T>`; the search loop is fed the
    sequence of answers its partner checks would receive. */
module ChatPage {
  import opened Wire
  import opened Session
  import MessageMerge

  /** Partner checks after the first one. */
  const SearchRetries: nat := 30

  /** Greatest number of partner checks one search performs. */
  const MaxChecks: nat := SearchRetries + 1

  /** The poll guard: signed in and connected. */
  predicate PollActive(s: State) {
    SignedIn(s) && s.chatStatus == Connected
  }

  /** The guard of sending and disconnecting: signed in with a partner identifier. */
  predicate CanMessage(s: State) {
    SignedIn(s) && Truthy(s.partnerIdentifier)
  }

  /** The lifecycle invariant that the page maintains: a connected chat has a known partner. */
  predicate PartnerKnownWhileConnected(s: State) {
    s.chatStatus == Connected ==> Truthy(s.partnerName) && Truthy(s.partnerIdentifier)
  }

  /** `response.notifier_data?.partner`, when truthy. */
  function PartnerIn(r: PollResponse): Option<string> {
    if r.notifierData.Some? && r.notifierData.value.partner != "" then Some(r.notifierData.value.partner) else None
  }

  /** The messages of a response, an absent list read as empty. */
  function Batch(r: PollResponse): seq<Message> {
    if r.messages.Some? then r.messages.value else []
  }

  /** `x || undefined` on a string. */
  function StringOrAbsent(o: Option<string>): Option<string> {
    if Truthy(o) then o else None
  }

  /** `x || undefined` on a number: zero is not sent. */
  function NumberOrAbsent(o: Option<int>): Option<int> {
    if TruthyNumber(o) then o else None
  }

  // ---------------------------------------------------------------------------
  // Poll

  /** The body of a `/random/poll` request: auth token, user secret, target, cursors. */
  datatype PollRequest = PollRequest(
    authToken: string,
    auth: string,
    target: Option<string>,
    messageshash: Option<string>,
    notifierHash: Option<string>,
    newMessagesT: Option<int>)

  /** The request one tick sends, if any: the stored cursors are echoed verbatim,
      except that empty strings and a zero timestamp are sent as absent. */
  function PollRequestFor(s: State): (req: Option<PollRequest>)
    ensures req.Some? <==> PollActive(s)
    ensures req.Some? ==> req.value.authToken == s.authToken.value && req.value.auth == s.user.value.auth
    ensures req.Some? ==> (req.value.target.Some? <==> Truthy(s.partnerIdentifier))
    ensures req.Some? ==> (req.value.target.Some? ==> req.value.target == s.partnerIdentifier)
    ensures req.Some? ==> (req.value.messageshash.Some? <==> Truthy(s.messageshash))
    ensures req.Some? ==> (req.value.messageshash.Some? ==> req.value.messageshash == s.messageshash)
    ensures req.Some? ==> (req.value.notifierHash.Some? <==> Truthy(s.notifierHash))
    ensures req.Some? ==> (req.value.notifierHash.Some? ==> req.value.notifierHash == s.notifierHash)
    ensures req.Some? ==> (req.value.newMessagesT.Some? <==> TruthyNumber(s.newMessagesT))
    ensures req.Some? ==> (req.value.newMessagesT.Some? ==> req.value.newMessagesT == s.newMessagesT)
  {
    if !PollActive(s) then None
    else Some(PollRequest(s.authToken.value, s.user.value.auth, StringOrAbsent(s.partnerIdentifier),
                          StringOrAbsent(s.messageshash), StringOrAbsent(s.notifierHash),
                          NumberOrAbsent(s.newMessagesT)))
  }

  /** One poll tick. The partner guards read `s`, the store as it was when the tick
      began. Steps: replace the cursors when the response carries a non-empty
      `messageshash`; merge the messages; adopt `notifier_data.partner` as name and
      identifier when no partner name was known; mark the chat disconnected when the
      partner is reported offline and a partner name was known. */
  function PollTick(s: State, r: Remote<PollResponse>): (t: State)
    ensures !PollActive(s) || r.Failed? ==> t == s
    ensures t.Partialize() == s.Partialize()
    ensures s.messages <= t.messages
    ensures PollActive(s) && r.Done? ==>
      t.PollCursors() == if Truthy(r.value.messageshash)
                         then Cursors(r.value.messageshash, r.value.notifierHash, r.value.newMessagesT)
                         else s.PollCursors()
    ensures PollActive(s) && r.Done? ==> t.messages == MessageMerge.Merge(s.messages, Batch(r.value))
    ensures PollActive(s) && r.Done? && PartnerIn(r.value).Some? && !Truthy(s.partnerName) ==>
      t.Partner() == (PartnerIn(r.value), PartnerIn(r.value)) && t.chatStatus == Connected
    ensures !(PollActive(s) && r.Done? && PartnerIn(r.value).Some? && !Truthy(s.partnerName)) ==>
      t.Partner() == s.Partner()
    ensures PollActive(s) && r.Done? && r.value.partnerState == "offline" && Truthy(s.partnerName) ==>
      t.chatStatus == Disconnected
    ensures PollActive(s) && r.Done? && !(r.value.partnerState == "offline" && Truthy(s.partnerName)) ==>
      t.chatStatus == Connected
    ensures t.chatStatus in {s.chatStatus, Disconnected}
    ensures PartnerKnownWhileConnected(s) ==> PartnerKnownWhileConnected(t) && t.Partner() == s.Partner()
  {
    if !PollActive(s) then s
    else match r
      case Failed(_) => s
      case Done(resp) =>
        var s1 := if Truthy(resp.messageshash)
                  then s.UpdatePollState(resp.messageshash.value, resp.notifierHash, resp.newMessagesT)
                  else s;
        var s2 := if resp.messages.Some? && |resp.messages.value| > 0 then s1.AddMessages(resp.messages.value) else s1;
        var s3 := if PartnerIn(resp).Some? && !Truthy(s.partnerName)
                  then s2.SetPartner(PartnerIn(resp).value, PartnerIn(resp).value)
                  else s2;
        if resp.partnerState == "offline" && Truthy(s.partnerName) then s3.SetChatStatus(Disconnected) else s3
  }

  /** While the chat stays connected, the next tick sends back exactly the cursors the
      previous tick received (absent when the server sent an empty or zero value). */
  lemma NextPollEchoesCursors(s: State, resp: PollResponse)
    requires PollActive(s) && Truthy(resp.messageshash)
    requires PollTick(s, Done(resp)).chatStatus == Connected
    ensures PollRequestFor(PollTick(s, Done(resp))).Some?
    ensures PollRequestFor(PollTick(s, Done(resp))).value.messageshash == resp.messageshash
    ensures PollRequestFor(PollTick(s, Done(resp))).value.notifierHash == StringOrAbsent(resp.notifierHash)
    ensures PollRequestFor(PollTick(s, Done(resp))).value.newMessagesT == NumberOrAbsent(resp.newMessagesT)
  {
  }

  // ---------------------------------------------------------------------------
  // Start and search

  /** What one `checkForPartner` call ends with. */
  datatype CheckOutcome = Found(partner: string) | NotFound | Threw

  function OutcomeOf(r: Remote<PollResponse>): CheckOutcome {
    match r
    case Failed(_) => Threw
    case Done(resp) => if PartnerIn(resp).Some? then Found(PartnerIn(resp).value) else NotFound
  }

  /** A start response status after which the page searches. */
  predicate StartsSearch(status: string) {
    status == "searching" || status == "connected"
  }

  /** Index of the first check that ends the search (an error or a partner), or `|w|`. */
  function FirstDecisive(w: seq<Remote<PollResponse>>): (k: nat)
    ensures k <= |w|
    ensures forall j :: 0 <= j < k ==> OutcomeOf(w[j]) == NotFound
    ensures k < |w| ==> OutcomeOf(w[k]) != NotFound
  {
    if w == [] then 0
    else if OutcomeOf(w[0]) != NotFound then 0
    else 1 + FirstDecisive(w[1..])
  }

  lemma FirstDecisiveIs(w: seq<Remote<PollResponse>>, k: nat)
    requires k <= |w|
    requires forall j :: 0 <= j < k ==> OutcomeOf(w[j]) == NotFound
    requires k < |w| ==> OutcomeOf(w[k]) != NotFound
    ensures FirstDecisive(w) == k
  {
  }

  /** How many partner checks a search performs: one, plus one per retry until a check
      ends the search or the thirty retries are spent. */
  function ChecksUsed(checks: seq<Remote<PollResponse>>): (n: nat)
    requires |checks| >= MaxChecks
    ensures 1 <= n <= MaxChecks
    ensures forall j :: 0 <= j < n - 1 ==> OutcomeOf(checks[j]) == NotFound
    ensures n < MaxChecks ==> OutcomeOf(checks[n - 1]) != NotFound
    ensures (forall j :: 0 <= j < MaxChecks ==> OutcomeOf(checks[j]) == NotFound) ==> n == MaxChecks
  {
    var w := checks[..MaxChecks];
    var k := FirstDecisive(w);
    if k == MaxChecks then MaxChecks else k + 1
  }

  /** The store after the search loop, from the `searching` state `s`: connected to the
      partner the last check found, otherwise idle. */
  function SearchEnd(s: State, checks: seq<Remote<PollResponse>>): (t: State)
    requires |checks| >= MaxChecks
    ensures t.Partialize() == s.Partialize() && t.messages == s.messages && t.PollCursors() == s.PollCursors()
    ensures OutcomeOf(checks[ChecksUsed(checks) - 1]).Found? ==>
      var p := OutcomeOf(checks[ChecksUsed(checks) - 1]).partner;
      p != "" && t.Partner() == (Some(p), Some(p)) && t.chatStatus == Connected
    ensures !OutcomeOf(checks[ChecksUsed(checks) - 1]).Found? ==> t.chatStatus == Idle && t.Partner() == s.Partner()
  {
    match OutcomeOf(checks[ChecksUsed(checks) - 1])
    case Found(p) => s.SetPartner(p, p)
    case _ => s.SetChatStatus(Idle)
  }

  /** `handleStartChat`: status `searching`, then the start call; a failed call ends
      idle; an unrecognised start status leaves the chat `searching`; otherwise the
      search runs. */
  function StartChatTick(s: State, start: Remote<StartResponse>, checks: seq<Remote<PollResponse>>): (t: State)
    requires |checks| >= MaxChecks
    ensures !SignedIn(s) ==> t == s
    ensures t.Partialize() == s.Partialize() && t.messages == s.messages && t.PollCursors() == s.PollCursors()
    ensures SignedIn(s) && start.Failed? ==> t.chatStatus == Idle && t.Partner() == s.Partner()
    ensures SignedIn(s) && start.Done? && !StartsSearch(start.value.randomStatus) ==>
      t.chatStatus == Searching && t.Partner() == s.Partner()
    ensures SignedIn(s) && start.Done? && StartsSearch(start.value.randomStatus) ==>
      t == SearchEnd(s.SetChatStatus(Searching), checks)
    ensures SignedIn(s) && start.Done? && StartsSearch(start.value.randomStatus) &&
            OutcomeOf(checks[ChecksUsed(checks) - 1]).Found? ==>
      var p := OutcomeOf(checks[ChecksUsed(checks) - 1]).partner;
      t.chatStatus == Connected && t.Partner() == (Some(p), Some(p))
    ensures SignedIn(s) && start.Done? && StartsSearch(start.value.randomStatus) &&
            OutcomeOf(checks[ChecksUsed(checks) - 1]) == Threw ==>
      t.chatStatus == Idle && t.Partner() == s.Partner()
    ensures SignedIn(s) && start.Done? && StartsSearch(start.value.randomStatus) &&
            (forall j :: 0 <= j < MaxChecks ==> OutcomeOf(checks[j]) == NotFound) ==>
      t.chatStatus == Idle && t.Partner() == s.Partner()
    ensures SignedIn(s) ==> t.chatStatus != Disconnected
    ensures PartnerKnownWhileConnected(s) ==> PartnerKnownWhileConnected(t)
  {
    if !SignedIn(s) then s
    else
      var searching := s.SetChatStatus(Searching);
      match start
      case Failed(_) => searching.SetChatStatus(Idle)
      case Done(resp) =>
        if StartsSearch(resp.randomStatus) then SearchEnd(searching, checks) else searching
  }

  /** Partner checks `handleStartChat` performs. */
  function ChecksPerformed(s: State, start: Remote<StartResponse>, checks: seq<Remote<PollResponse>>): (n: nat)
    requires |checks| >= MaxChecks
    ensures n <= MaxChecks
    ensures n > 0 <==> SignedIn(s) && start.Done? && StartsSearch(start.value.randomStatus)
    ensures n > 0 ==> n == ChecksUsed(checks)
  {
    if SignedIn(s) && start.Done? && StartsSearch(start.value.randomStatus) then ChecksUsed(checks) else 0
  }

  // ---------------------------------------------------------------------------
  // Send, disconnect, next

  /** The locally authored message appended after a successful send. */
  function OwnMessage(username: string, text: string, nowMs: int): Message {
    Message(username, text, nowMs / 1000, 0, 1, None)
  }

  /** `handleSendMessage(text)` at clock time `nowMs` (milliseconds): only a successful
      send appends, and then one message, unless the store already holds a message of
      the same second and text. */
  function SendTick(s: State, text: string, nowMs: int, r: Remote<SendResponse>): (t: State)
    ensures !(CanMessage(s) && r.Done?) ==> t == s
    ensures t.Partialize() == s.Partialize() && t.chatStatus == s.chatStatus
    ensures t.Partner() == s.Partner() && t.PollCursors() == s.PollCursors()
    ensures s.messages <= t.messages && |t.messages| <= |s.messages| + 1
    ensures |t.messages| == |s.messages| + 1 <==>
      CanMessage(s) && r.Done? &&
      forall held :: held in s.messages ==> !(held.time == nowMs / 1000 && held.message == text)
    ensures |t.messages| == |s.messages| + 1 ==>
      var m := t.messages[|s.messages|];
      m.hunter == s.user.value.username && m.message == text && m.time == nowMs / 1000 &&
      m.seen == 0 && m.random == 1
  {
    if CanMessage(s) && r.Done? then
      var m := OwnMessage(s.user.value.username, text, nowMs);
      MessageMerge.MergeOne(s.messages, m);
      s.AddMessages([m])
    else s
  }

  /** `handleDisconnect`: with a partner identifier the chat is reset whatever the
      remote call returned; without one nothing happens. */
  function DisconnectTick(s: State, r: Remote<()>): (t: State)
    ensures !CanMessage(s) ==> t == s
    ensures CanMessage(s) ==>
      t.chatStatus == Idle && t.messages == [] && t.Partner() == (None, None) &&
      t.PollCursors() == NoCursors && t.Partialize() == s.Partialize()
  {
    if !CanMessage(s) then s
    else match r
      case Done(_) => s.ResetChat()
      case Failed(_) => s.ResetChat()
  }

  /** `handleNextChat`: disconnect, then start a new search (the grace delay between
      the two is scheduling). A chat that had a partner identifier is searched for
      again from a cleared session; without one the disconnect does nothing and the
      search starts from the store as it was. */
  function NextChatTick(s: State, disc: Remote<()>, start: Remote<StartResponse>,
                        checks: seq<Remote<PollResponse>>): (t: State)
    requires |checks| >= MaxChecks
    ensures !CanMessage(s) ==> t == StartChatTick(s, start, checks)
    ensures CanMessage(s) ==> t == StartChatTick(s.ResetChat(), start, checks)
    ensures CanMessage(s) ==> t.messages == [] && t.PollCursors() == NoCursors
    ensures CanMessage(s) && start.Done? && StartsSearch(start.value.randomStatus) &&
            (forall j :: 0 <= j < MaxChecks ==> OutcomeOf(checks[j]) == NotFound) ==>
      t.chatStatus == Idle && t.Partner() == (None, None)
    ensures t.Partialize() == s.Partialize()
  {
    StartChatTick(DisconnectTick(s, disc), start, checks)
  }

  /** Every handler of the page, and the store's sign-in and logout, keep a connected
      chat's partner known. (The converse does not hold: a partner reported offline
      leaves the chat disconnected with the partner still recorded.) */
  lemma HandlersKeepPartnerKnown(s: State, r: Remote<PollResponse>, start: Remote<StartResponse>,
                                 checks: seq<Remote<PollResponse>>, text: string, nowMs: int,
                                 sr: Remote<SendResponse>, disc: Remote<()>, u: User, token: string)
    requires PartnerKnownWhileConnected(s)
    requires |checks| >= MaxChecks
    ensures PartnerKnownWhileConnected(PollTick(s, r))
    ensures PartnerKnownWhileConnected(StartChatTick(s, start, checks))
    ensures PartnerKnownWhileConnected(SendTick(s, text, nowMs, sr))
    ensures PartnerKnownWhileConnected(DisconnectTick(s, disc))
    ensures PartnerKnownWhileConnected(NextChatTick(s, disc, start, checks))
    ensures PartnerKnownWhileConnected(s.SetUser(u, token))
    ensures PartnerKnownWhileConnected(s.Logout())
  {
  }

  /** A partner reported offline is kept after the chat drops to disconnected. */
  lemma PartnerOutlivesConnection(s: State, resp: PollResponse)
    requires PollActive(s) && Truthy(s.partnerName) && resp.partnerState == "offline"
    ensures PollTick(s, Done(resp)).chatStatus == Disconnected
    ensures PollTick(s, Done(resp)).Partner() == s.Partner()
  {
  }

  // ---------------------------------------------------------------------------
  // The page

  class ChatPage {
    const store: SessionStore
    var isStarting: bool

    constructor (store: SessionStore)
      ensures this.store == store && !isStarting
    {
      this.store := store;
      isStarting := false;
    }

    /** One tick of the poll timer; returns the request sent, if any. */
    method Poll(r: Remote<PollResponse>) returns (req: Option<PollRequest>)
      modifies store
      ensures req == PollRequestFor(old(store.Snapshot()))
      ensures store.Snapshot() == PollTick(old(store.Snapshot()), r)
    {
      var s := store.Snapshot();
      req := PollRequestFor(s);
      if !PollActive(s) {
        return;
      }
      match r {
        case Failed(_) =>
        case Done(resp) =>
          if Truthy(resp.messageshash) {
            store.UpdatePollState(resp.messageshash.value, resp.notifierHash, resp.newMessagesT);
          }
          if resp.messages.Some? && |resp.messages.value| > 0 {
            store.AddMessages(resp.messages.value);
          }
          var partner := PartnerIn(resp);
          if partner.Some? && !Truthy(s.partnerName) {
            store.SetPartner(partner.value, partner.value);
          }
          if resp.partnerState == "offline" && Truthy(s.partnerName) {
            store.SetChatStatus(Disconnected);
          }
      }
    }

    /** `checkForPartner`: one cursor-less poll; adopts the partner it reports. */
    method CheckForPartner(r: Remote<PollResponse>) returns (outcome: CheckOutcome)
      modifies store
      ensures outcome == OutcomeOf(r)
      ensures store.Snapshot() == if outcome.Found? then old(store.Snapshot()).SetPartner(outcome.partner, outcome.partner)
                                  else old(store.Snapshot())
    {
      outcome := OutcomeOf(r);
      if outcome.Found? {
        store.SetPartner(outcome.partner, outcome.partner);
      }
    }

    /** `handleStartChat`, fed the start call's result and the answers the partner checks
        would receive; returns how many checks it performed. */
    method StartChat(start: Remote<StartResponse>, checks: seq<Remote<PollResponse>>) returns (checksUsed: nat)
      requires |checks| >= MaxChecks
      modifies this, store
      ensures store.Snapshot() == StartChatTick(old(store.Snapshot()), start, checks)
      ensures checksUsed == ChecksPerformed(old(store.Snapshot()), start, checks)
      ensures isStarting == if SignedIn(old(store.Snapshot())) then false else old(isStarting)
    {
      var s := store.Snapshot();
      checksUsed := 0;
      if !SignedIn(s) {
        return;
      }
      isStarting := true;
      store.SetChatStatus(Searching);
      var searching := store.Snapshot();
      match start {
        case Failed(_) =>
          store.SetChatStatus(Idle);
        case Done(resp) =>
          if StartsSearch(resp.randomStatus) {
            var outcome := CheckForPartner(checks[0]);
            checksUsed := 1;
            var attempts := 0;
            while outcome == NotFound && attempts < SearchRetries
              invariant 0 <= attempts <= SearchRetries
              invariant checksUsed == attempts + 1
              invariant outcome == OutcomeOf(checks[attempts])
              invariant forall j :: 0 <= j < attempts ==> OutcomeOf(checks[j]) == NotFound
              invariant store.Snapshot() == if outcome.Found? then searching.SetPartner(outcome.partner, outcome.partner)
                                            else searching
            {
              outcome := CheckForPartner(checks[attempts + 1]);
              attempts := attempts + 1;
              checksUsed := checksUsed + 1;
            }
            FirstDecisiveIs(checks[..MaxChecks], if outcome == NotFound then MaxChecks else attempts);
            if !outcome.Found? {
              store.SetChatStatus(Idle);
            }
          }
      }
      isStarting := false;
    }

    /** `handleSendMessage`; returns whether the send call was made. */
    method SendMessage(text: string, nowMs: int, r: Remote<SendResponse>) returns (called: bool)
      modifies store
      ensures called == CanMessage(old(store.Snapshot()))
      ensures store.Snapshot() == SendTick(old(store.Snapshot()), text, nowMs, r)
    {
      var s := store.Snapshot();
      called := CanMessage(s);
      if !called {
        return;
      }
      if r.Done? {
        store.AddMessages([OwnMessage(s.user.value.username, text, nowMs)]);
      }
    }

    /** `handleDisconnect`; returns whether the disconnect call was made. */
    method Disconnect(r: Remote<()>) returns (called: bool)
      modifies store
      ensures called == CanMessage(old(store.Snapshot()))
      ensures store.Snapshot() == DisconnectTick(old(store.Snapshot()), r)
    {
      called := CanMessage(store.Snapshot());
      if !called {
        return;
      }
      match r {
        case Done(_) => store.ResetChat();
        case Failed(_) => store.ResetChat();
      }
    }

    /** `handleNextChat`. */
    method NextChat(disc: Remote<()>, start: Remote<StartResponse>, checks: seq<Remote<PollResponse>>)
      returns (checksUsed: nat)
      requires |checks| >= MaxChecks
      modifies this, store
      ensures store.Snapshot() == NextChatTick(old(store.Snapshot()), disc, start, checks)
      ensures checksUsed == ChecksPerformed(DisconnectTick(old(store.Snapshot()), disc), start, checks)
    {
      var _ := Disconnect(disc);
      checksUsed := StartChat(start, checks);
    }
  }
}

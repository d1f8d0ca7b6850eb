/** A client of the model: register "alice", find partner "bob", say "hi", and see the
    partner go offline, using only the contracts of the store, the form and the page. */
module Scenario {
  import opened Wire
  import opened Session
  import UsernameEntry
  import opened ChatPage

  const Alice := User("alice", "secret", "a.png")

  /** Types "alice", learns it is available, and registers it. */
  method RegisterAlice() returns (store: SessionStore)
    ensures fresh(store) && store.Snapshot() == Initial.SetUser(Alice, "secret")
  {
    store := new SessionStore();
    var form := new UsernameEntry.UsernameForm();
    UsernameEntry.SanitizeFixedPoints("alice");
    var scheduled := form.HandleInputChange("alice");
    assert scheduled == Some("alice");
    var requested := form.CheckAvailability("alice", Done(CheckUsernameResponse(Some(true), None, None)));
    assert form.isAvailable == Some(true);
    requested := form.HandleSubmit(store, Done(RegisterResponse("secret", "ok", "alice", "a.png", "t.png")));
  }

  method AliceMeetsBob()
  {
    var store := RegisterAlice();
    var page := new ChatPage(store);
    var bob := Done(PollResponse(None, None, "online", Some(NotifierData("bob")), None, None));
    var checks := seq(MaxChecks, _ => bob);
    assert OutcomeOf(checks[0]) == Found("bob");
    assert ChecksUsed(checks) == 1;
    var used := page.StartChat(Done(StartResponse("searching")), checks);
    assert used == 1;
    assert store.chatStatus == Connected && store.partnerName == Some("bob");

    var called := page.SendMessage("hi", 1700000000123, Done(SendResponse("sent", 7)));
    assert |store.messages| == 1;
    assert store.messages[0].hunter == "alice" && store.messages[0].message == "hi";

    var gone := Done(PollResponse(None, None, "offline", None, None, None));
    assert PartnerIn(gone.value).None? && Batch(gone.value) == [];
    var req := page.Poll(gone);
    assert req.Some? && req.value.target == Some("bob");
    assert store.chatStatus == Disconnected;
    assert store.partnerName == Some("bob");
    assert |store.messages| == 1;
  }
}

/** The landing page's username entry: the input sanitiser, the availability check,
    the registration submit and the choice of a suggested name. */
module UsernameEntry {
  import opened Wire
  import opened Subsequences
  import Session

  /** Shortest username that is checked or registered. */
  const MinLength: nat := 3

  const CheckFailedMessage := "Failed to check username"

  /** The characters the input keeps: `[a-zA-Z0-9_]`. */
  predicate IsUsernameChar(c: char) {
    ('a' <= c <= 'z') || ('A' <= c <= 'Z') || ('0' <= c <= '9') || c == '_'
  }

  /** `value.replace(/[^a-zA-Z0-9_]/g, '')`. */
  function Sanitize(s: string): (r: string)
    ensures |r| <= |s|
    ensures forall i :: 0 <= i < |r| ==> IsUsernameChar(r[i])
  {
    if s == [] then [] else (if IsUsernameChar(s[0]) then [s[0]] else []) + Sanitize(s[1..])
  }

  /** Every allowed character survives as often as it occurs; every other one is removed. */
  lemma {:induction false} SanitizeCounts(s: string, c: char)
    ensures multiset(Sanitize(s))[c] == if IsUsernameChar(c) then multiset(s)[c] else 0
  {
    if s != [] {
      SanitizeCounts(s[1..], c);
      assert s == [s[0]] + s[1..];
    }
  }

  /** The survivors keep their order. */
  lemma {:induction false} SanitizeIsSubsequence(s: string)
    ensures IsSubsequence(Sanitize(s), s)
  {
    if s != [] {
      var x, rest := s[0], s[1..];
      SanitizeIsSubsequence(rest);
      assert s == [x] + rest;
      ConsSubsequence(x, Sanitize(rest), rest);
      if IsUsernameChar(x) {
        assert Sanitize(s) == [x] + Sanitize(rest);
      } else {
        assert Sanitize(s) == Sanitize(rest);
      }
    }
  }

  /** A string that is already clean is left alone, and only such strings are. */
  lemma {:induction false} SanitizeFixedPoints(s: string)
    ensures Sanitize(s) == s <==> forall i :: 0 <= i < |s| ==> IsUsernameChar(s[i])
  {
    if s != [] {
      SanitizeFixedPoints(s[1..]);
      if !IsUsernameChar(s[0]) {
        assert |Sanitize(s)| <= |s[1..]| < |s|;
      }
    }
  }

  /** Sanitising twice is sanitising once. */
  lemma SanitizeIdempotent(s: string)
    ensures Sanitize(Sanitize(s)) == Sanitize(s)
  {
    SanitizeFixedPoints(Sanitize(s));
  }

  /** The submit guard `username && username.length >= 3 && isAvailable`. */
  predicate SubmitAllowed(username: string, isAvailable: Option<bool>) {
    username != "" && |username| >= MinLength && isAvailable == Some(true)
  }

  /** A chosen suggestion is not sanitised: a name the input could never produce
      passes the submit guard once it is picked from the suggestions. */
  lemma SuggestionBypassesSanitiser()
    ensures Sanitize("ab-c") == "abc" != "ab-c"
    ensures SubmitAllowed("ab-c", Some(true))
  {
    assert Sanitize("ab-c") == ['a'] + Sanitize("b-c");
    assert Sanitize("b-c") == ['b'] + Sanitize("-c");
    assert Sanitize("-c") == Sanitize("c") == "c";
  }

  /** The form's component state. */
  class UsernameForm {
    var username: string
    var isChecking: bool
    var isAvailable: Option<bool>
    var suggestions: seq<string>
    var isSubmitting: bool
    var error: Option<string>

    constructor ()
      ensures username == "" && !isChecking && isAvailable == None
      ensures suggestions == [] && !isSubmitting && error == None
    {
      username, isChecking, isAvailable := "", false, None;
      suggestions, isSubmitting, error := [], false, None;
    }

    /** `handleInputChange`: stores the sanitised value and clears the error; returns the
        name handed to the debounced availability check, if any. */
    method HandleInputChange(raw: string) returns (scheduled: Option<string>)
      modifies this
      ensures username == Sanitize(raw) && error == None
      ensures forall i :: 0 <= i < |username| ==> IsUsernameChar(username[i])
      ensures |username| >= MinLength ==> scheduled == Some(username) && isAvailable == old(isAvailable)
      ensures |username| < MinLength ==> scheduled == None && isAvailable == None
      ensures isChecking == old(isChecking) && suggestions == old(suggestions) && isSubmitting == old(isSubmitting)
    {
      var value := Sanitize(raw);
      username := value;
      error := None;
      if |value| >= MinLength {
        scheduled := Some(value);
      } else {
        scheduled := None;
        isAvailable := None;
      }
    }

    /** `checkAvailability(name)` with the check call's result; returns whether the call was made. */
    method CheckAvailability(name: string, result: Remote<CheckUsernameResponse>) returns (requested: bool)
      modifies this
      ensures requested == (|name| >= MinLength)
      ensures !requested ==> isAvailable == None && suggestions == [] && error == old(error) && isChecking == old(isChecking)
      ensures requested && result.Done? ==>
        isAvailable == Some(result.value.available.GetOr(false)) &&
        suggestions == result.value.suggestions.GetOr([]) &&
        error == (if Truthy(result.value.error) then result.value.error else None)
      ensures requested && result.Failed? ==>
        error == Some(CheckFailedMessage) && isAvailable == None && suggestions == old(suggestions)
      ensures requested ==> !isChecking
      ensures username == old(username) && isSubmitting == old(isSubmitting)
    {
      if |name| < MinLength {
        isAvailable := None;
        suggestions := [];
        return false;
      }
      requested := true;
      isChecking := true;
      match result {
        case Done(r) =>
          isAvailable := Some(r.available.GetOr(false));
          suggestions := r.suggestions.GetOr([]);
          error := if Truthy(r.error) then r.error else None;
        case Failed(_) =>
          error := Some(CheckFailedMessage);
          isAvailable := None;
      }
      isChecking := false;
    }

    /** `handleSubmit` with the registration call's result; returns whether the call was made. */
    method HandleSubmit(store: Session.SessionStore, result: Remote<RegisterResponse>) returns (requested: bool)
      modifies this, store
      ensures requested == SubmitAllowed(old(username), old(isAvailable))
      ensures !requested ==> error == old(error) && isSubmitting == old(isSubmitting)
      ensures !requested || result.Failed? ==> store.Snapshot() == old(store.Snapshot())
      ensures requested && result.Done? ==>
        error == None &&
        store.Snapshot() == old(store.Snapshot()).SetUser(
          Session.User(result.value.username, result.value.auth, result.value.avatar), result.value.auth)
      ensures requested && result.Failed? ==> error == Some(result.detail)
      ensures requested ==> !isSubmitting
      ensures username == old(username) && isAvailable == old(isAvailable)
      ensures suggestions == old(suggestions) && isChecking == old(isChecking)
    {
      if !SubmitAllowed(username, isAvailable) {
        return false;
      }
      requested := true;
      isSubmitting := true;
      error := None;
      match result {
        case Done(r) =>
          store.SetUser(Session.User(r.username, r.auth, r.avatar), r.auth);
        case Failed(detail) =>
          error := Some(detail);
      }
      isSubmitting := false;
    }

    /** `selectSuggestion`: takes the suggestion verbatim and marks it available. */
    method SelectSuggestion(suggestion: string)
      modifies this
      ensures username == suggestion && isAvailable == Some(true) && suggestions == []
      ensures error == old(error) && isChecking == old(isChecking) && isSubmitting == old(isSubmitting)
    {
      username := suggestion;
      isAvailable := Some(true);
      suggestions := [];
    }
  }
}

/** The vault's session state as a value, and one transition per user action
    (app.py lines 80-92 and 119-373 without the rendering).

    SessionState holds the four pieces of session state the page script
    keeps: the stored records, the failed-attempt counter, the
    authentication flag and the current page. The functions below give the
    state after each button press; the class in app.dfy runs the same
    presses in place and is proved against them. Lemmas at the end state
    what the page script promises across whole sequences of presses.
 */
module Vault {
  import opened Crypto

  /** Failed retrievals that force re-authentication (app.py line 283). */
  const MaxAttempts: nat := 3

  /** One entry of stored_data (app.py lines 211-215). */
  datatype Record = Record(encryptedText: string, passkey: string, timestamp: real)

  datatype SessionState = SessionState(
    storedData: map<string, Record>,
    failedAttempts: nat,
    isAuthenticated: bool,
    page: string)

  /** The page rendered for a session. */
  datatype View = LoginView | HomeView | StoreView | RetrieveView | AdminView

  datatype StoreOutcome = EmptyInput | PasskeysDiffer | Stored(id: string)

  datatype RetrieveOutcome =
    | IncompleteInput
    | UnknownId
    | WrongPasskey
    | DecryptionFailed
    | Decrypted(plaintext: string)
  {
    /** The outcomes that count as a failed attempt. */
    predicate IsFailure()
    {
      UnknownId? || WrongPasskey? || DecryptionFailed?
    }
  }

  /** The state right after the session starts and main() sets the page:
      nothing stored, no failures, authenticated, on the home page. */
  function Initial(): (s: SessionState)
    ensures s.storedData == map[] && s.failedAttempts == 0
    ensures s.isAuthenticated && s.page == "home"
    ensures Inv(s)
  {
    SessionState(map[], 0, true, "home")
  }

  /** The lockout rule as an invariant of every reachable state: the counter
      never passes the maximum, and an authenticated session is below it. */
  ghost predicate Inv(s: SessionState)
  {
    s.failedAttempts <= MaxAttempts
    && (s.isAuthenticated ==> s.failedAttempts < MaxAttempts)
  }

  /** Page dispatch: unknown page names fall back to the home page. */
  function Dispatch(page: string): (v: View)
    ensures v != LoginView
    ensures page == "store" <==> v == StoreView
    ensures page == "retrieve" <==> v == RetrieveView
    ensures page == "admin" <==> v == AdminView
  {
    if page == "home" then HomeView
    else if page == "store" then StoreView
    else if page == "retrieve" then RetrieveView
    else if page == "admin" then AdminView
    else HomeView
  }

  /** The authentication gate in front of the dispatch: while
      unauthenticated only the login page is reachable, and the login page
      is shown for nothing else. */
  function CurrentView(s: SessionState): (v: View)
    ensures v == LoginView <==> !s.isAuthenticated
    ensures s.isAuthenticated ==> v == Dispatch(s.page)
  {
    if !s.isAuthenticated then LoginView else Dispatch(s.page)
  }

  /** Pressing "Login" on the login page. */
  function LogIn(s: SessionState, username: string, password: string): (r: SessionState)
    ensures username != [] && password != [] ==>
              r.isAuthenticated && r.failedAttempts == 0 && CurrentView(r) == HomeView
              && r.page == "home" && r.storedData == s.storedData
    ensures username == [] || password == [] ==> r == s
  {
    if username != [] && password != [] then
      s.(isAuthenticated := true, failedAttempts := 0, page := "home")
    else
      s
  }

  /** Pressing "Logout" in the sidebar: only the login page is reachable
      afterwards, and the failure count is kept. */
  function LogOut(s: SessionState): (r: SessionState)
    ensures CurrentView(r) == LoginView
    ensures r.failedAttempts == s.failedAttempts && r.storedData == s.storedData
    ensures r.page == s.page
  {
    s.(isAuthenticated := false)
  }

  /** Any navigation button: the target page is shown next (the sidebar
      exists only while authenticated) and nothing else changes. */
  function NavigateTo(s: SessionState, target: string): (r: SessionState)
    ensures r.page == target
    ensures s.isAuthenticated ==> CurrentView(r) == Dispatch(target)
    ensures r.storedData == s.storedData && r.failedAttempts == s.failedAttempts
    ensures r.isAuthenticated == s.isAuthenticated
  {
    s.(page := target)
  }

  /** Pressing "Store Data Securely". The checks run in order: data and
      passkey present, then passkey equal to its confirmation. A store under
      an id already present replaces that record. */
  function StoreData(c: Suite, s: SessionState, data: string, passkey: string, confirm: string,
                     id: string, now: real): (r: (SessionState, StoreOutcome))
    ensures r.1 == EmptyInput <==> data == [] || passkey == []
    ensures r.1 == PasskeysDiffer <==> data != [] && passkey != [] && passkey != confirm
    ensures !r.1.Stored? ==> r.0 == s
    ensures r.1.Stored? ==>
              && r.1.id == id
              && id in r.0.storedData
              && r.0 == s.(storedData := s.storedData[id := r.0.storedData[id]])
              && r.0.storedData[id].passkey == HashPasskey(c, passkey)
              && r.0.storedData[id].timestamp == now
              && (RoundTrips(c) ==> DecryptData(c, r.0.storedData[id].encryptedText) == Some(data))
  {
    if data == [] || passkey == [] then
      (s, EmptyInput)
    else if passkey != confirm then
      (s, PasskeysDiffer)
    else
      var rec := Record(EncryptData(c, data), HashPasskey(c, passkey), now);
      (s.(storedData := s.storedData[id := rec]), Stored(id))
  }

  /** What one retrieval attempt yields, in the order the page checks:
      both inputs present, id known, passkey verified, decryption giving a
      non-empty plaintext (the page tests the plaintext for truthiness). */
  function Attempt(c: Suite, stored: map<string, Record>, id: string, passkey: string): (o: RetrieveOutcome)
    ensures o == IncompleteInput <==> id == [] || passkey == []
    ensures o == UnknownId <==> id != [] && passkey != [] && id !in stored
    ensures o == WrongPasskey <==>
              id != [] && passkey != [] && id in stored
              && stored[id].passkey != HashPasskey(c, passkey)
    ensures o.Decrypted? <==>
              id != [] && passkey != [] && id in stored
              && stored[id].passkey == HashPasskey(c, passkey)
              && DecryptData(c, stored[id].encryptedText).Some?
              && DecryptData(c, stored[id].encryptedText).value != []
    ensures o.Decrypted? ==> Some(o.plaintext) == DecryptData(c, stored[id].encryptedText)
  {
    if id == [] || passkey == [] then
      IncompleteInput
    else if id !in stored then
      UnknownId
    else
      var item := stored[id];
      if VerifyPasskey(c, item.passkey, passkey) then
        match DecryptData(c, item.encryptedText)
        case Some(plain) => if plain != [] then Decrypted(plain) else DecryptionFailed
        case None => DecryptionFailed
      else
        WrongPasskey
  }

  /** Pressing "Retrieve Data": the attempt's outcome, the counter update
      (unchanged for missing input, reset on success, one more on any
      failure) and the lockout check that runs after every press. */
  function RetrieveData(c: Suite, s: SessionState, id: string, passkey: string): (r: (SessionState, RetrieveOutcome))
    ensures r.1 == Attempt(c, s.storedData, id, passkey)
    ensures r.0.storedData == s.storedData && r.0.page == s.page
    ensures r.1 == IncompleteInput ==> r.0.failedAttempts == s.failedAttempts
    ensures r.1.Decrypted? ==> r.0.failedAttempts == 0
    ensures r.1.IsFailure() ==> r.0.failedAttempts == s.failedAttempts + 1
    ensures r.0.failedAttempts >= MaxAttempts ==> !r.0.isAuthenticated
    ensures r.0.isAuthenticated ==> s.isAuthenticated
    ensures r.0.failedAttempts < MaxAttempts ==> r.0.isAuthenticated == s.isAuthenticated
  {
    var outcome := Attempt(c, s.storedData, id, passkey);
    var failed := match outcome
      case IncompleteInput => s.failedAttempts
      case Decrypted(_) => 0
      case _ => s.failedAttempts + 1;
    var s' := s.(failedAttempts := failed);
    (if failed >= MaxAttempts then s'.(isAuthenticated := false) else s', outcome)
  }

  /** One user action, as main() routes it. */
  datatype Event =
    | LoginPress(username: string, password: string)
    | LogoutPress
    | NavigatePress(target: string)
    | StorePress(data: string, passkey: string, confirm: string, newId: string, now: real)
    | RetrievePress(dataId: string, passkey: string)

  /** main(): while unauthenticated only the login page's button exists;
      otherwise the sidebar's buttons, and the store or retrieve button of
      the page the dispatch shows. A press of a button that is not on the
      screen changes nothing. */
  function Step(c: Suite, s: SessionState, e: Event): (r: SessionState)
    ensures !s.isAuthenticated && e.LoginPress? ==> r == LogIn(s, e.username, e.password)
    ensures s.isAuthenticated && e.LogoutPress? ==> r == LogOut(s)
    ensures s.isAuthenticated && e.NavigatePress? ==> r == NavigateTo(s, e.target)
    ensures e.StorePress? && CurrentView(s) == StoreView ==>
              r == StoreData(c, s, e.data, e.passkey, e.confirm, e.newId, e.now).0
    ensures e.RetrievePress? && CurrentView(s) == RetrieveView ==>
              r == RetrieveData(c, s, e.dataId, e.passkey).0
    ensures !s.isAuthenticated && !e.LoginPress? ==> r == s
    ensures s.isAuthenticated && e.LoginPress? ==> r == s
    ensures e.StorePress? && CurrentView(s) != StoreView ==> r == s
    ensures e.RetrievePress? && CurrentView(s) != RetrieveView ==> r == s
    ensures r.storedData != s.storedData ==> e.StorePress? && CurrentView(s) == StoreView
    ensures r.failedAttempts != s.failedAttempts ==>
              (e.RetrievePress? && CurrentView(s) == RetrieveView) || (e.LoginPress? && !s.isAuthenticated)
  {
    if !s.isAuthenticated then
      (if e.LoginPress? then LogIn(s, e.username, e.password) else s)
    else
      match e
      case LoginPress(_, _) => s
      case LogoutPress => LogOut(s)
      case NavigatePress(target) => NavigateTo(s, target)
      case StorePress(data, passkey, confirm, newId, now) =>
        if CurrentView(s) == StoreView then StoreData(c, s, data, passkey, confirm, newId, now).0 else s
      case RetrievePress(dataId, passkey) =>
        if CurrentView(s) == RetrieveView then RetrieveData(c, s, dataId, passkey).0 else s
  }

  /** The state after a sequence of presses. */
  function Run(c: Suite, s: SessionState, es: seq<Event>): SessionState
    decreases |es|
  {
    if es == [] then s else Run(c, Step(c, s, es[0]), es[1..])
  }

  /** Every press keeps the lockout invariant. */
  lemma StepKeepsInv(c: Suite, s: SessionState, e: Event)
    requires Inv(s)
    ensures Inv(Step(c, s, e))
  {
  }

  /** Lockout invariant: from the initial state, whatever the user presses,
      the counter stays at most 3 and an authenticated session has fewer
      than 3 failures. */
  lemma {:induction false} RunKeepsInv(c: Suite, s: SessionState, es: seq<Event>)
    requires Inv(s)
    ensures Inv(Run(c, s, es))
    decreases |es|
  {
    if es != [] {
      StepKeepsInv(c, s, es[0]);
      RunKeepsInv(c, Step(c, s, es[0]), es[1..]);
    }
  }

  lemma ReachableStatesKeepInv(c: Suite, es: seq<Event>)
    ensures Inv(Run(c, Initial(), es))
  {
    RunKeepsInv(c, Initial(), es);
  }

  /** Records are never removed: every id stored before a sequence of
      presses is still stored after it. */
  lemma {:induction false} RunKeepsIds(c: Suite, s: SessionState, es: seq<Event>)
    ensures s.storedData.Keys <= Run(c, s, es).storedData.Keys
    decreases |es|
  {
    if es != [] {
      RunKeepsIds(c, Step(c, s, es[0]), es[1..]);
    }
  }

  /** A record changes only when a store press under its own id succeeds. */
  lemma {:induction false} RunKeepsRecord(c: Suite, s: SessionState, es: seq<Event>, id: string)
    requires id in s.storedData
    requires forall i :: 0 <= i < |es| ==> !(es[i].StorePress? && es[i].newId == id)
    ensures id in Run(c, s, es).storedData
    ensures Run(c, s, es).storedData[id] == s.storedData[id]
    decreases |es|
  {
    if es != [] {
      RunKeepsRecord(c, Step(c, s, es[0]), es[1..], id);
    }
  }

  /** Round trip: data stored under an id with a passkey is retrieved with
      that id and passkey, and the success clears the failure count. */
  lemma StoreThenRetrieve(c: Suite, s: SessionState, data: string, passkey: string, id: string, now: real)
    requires RoundTrips(c)
    requires data != [] && passkey != [] && id != []
    ensures var (s1, stored) := StoreData(c, s, data, passkey, passkey, id, now);
            var (s2, got) := RetrieveData(c, s1, id, passkey);
            stored == Stored(id) && got == Decrypted(data)
            && s2.failedAttempts == 0 && s2.storedData == s1.storedData
            && s2.isAuthenticated == s.isAuthenticated
  {
  }

  /** The same round trip through main(): on the store page, store, go to
      the retrieve page and retrieve; the session stays authenticated with no
      failures, and the record is the one the store wrote. */
  lemma StoreNavigateRetrieve(c: Suite, s: SessionState, data: string, passkey: string, id: string, now: real)
    requires RoundTrips(c)
    requires s.isAuthenticated && CurrentView(s) == StoreView
    requires data != [] && passkey != [] && id != []
    ensures var es := [StorePress(data, passkey, passkey, id, now), NavigatePress("retrieve"), RetrievePress(id, passkey)];
            var r := Run(c, s, es);
            && r.isAuthenticated && r.failedAttempts == 0 && CurrentView(r) == RetrieveView
            && id in r.storedData
            && Attempt(c, r.storedData, id, passkey) == Decrypted(data)
  {
    var es := [StorePress(data, passkey, passkey, id, now), NavigatePress("retrieve"), RetrievePress(id, passkey)];
    var s1 := Step(c, s, es[0]);
    var s2 := Step(c, s1, es[1]);
    var s3 := Step(c, s2, es[2]);
    RunThree(c, s, es);
  }

  /** Run over three presses is three steps. */
  lemma RunThree(c: Suite, s: SessionState, es: seq<Event>)
    requires |es| == 3
    ensures Run(c, s, es) == Step(c, Step(c, Step(c, s, es[0]), es[1]), es[2])
  {
    var s1 := Step(c, s, es[0]);
    var s2 := Step(c, s1, es[1]);
    calc {
      Run(c, s, es);
      Run(c, s1, es[1..]);
      { assert es[1..][0] == es[1] && es[1..][1..] == es[2..]; }
      Run(c, s2, es[2..]);
      { assert es[2..][0] == es[2] && es[2..][1..] == []; }
      Step(c, s2, es[2]);
    }
  }

  /** A retrieval that fails whatever the rest of the session is: it depends
      only on the stored records, which no retrieval changes. */
  ghost predicate Rejected(c: Suite, stored: map<string, Record>, e: Event)
  {
    e.RetrievePress? && Attempt(c, stored, e.dataId, e.passkey).IsFailure()
  }

  /** Lockout: on the retrieve page of an authenticated session, as many
      failing retrievals as it takes to reach 3 failures leave the session
      unauthenticated with the counter at 3 and nothing else changed. */
  lemma {:induction false} FailuresLockOut(c: Suite, s: SessionState, es: seq<Event>)
    requires Inv(s) && s.isAuthenticated && CurrentView(s) == RetrieveView
    requires |es| == MaxAttempts - s.failedAttempts
    requires forall i :: 0 <= i < |es| ==> Rejected(c, s.storedData, es[i])
    ensures Run(c, s, es) == s.(failedAttempts := MaxAttempts, isAuthenticated := false)
    decreases |es|
  {
    var s1 := Step(c, s, es[0]);
    assert s1 == s.(failedAttempts := s.failedAttempts + 1, isAuthenticated := s.failedAttempts + 1 < MaxAttempts);
    if |es| > 1 {
      assert forall i :: 0 <= i < |es[1..]| ==> Rejected(c, s1.storedData, es[1..][i]) by {
        forall i | 0 <= i < |es[1..]| ensures Rejected(c, s1.storedData, es[1..][i]) {
          assert es[1..][i] == es[i + 1];
        }
      }
      FailuresLockOut(c, s1, es[1..]);
    }
  }

  /** Once locked out, nothing but a successful login changes the session:
      the vault cannot be reached, even with the right passkey. This names,
      as one property, what the contracts of Step (presses other than login
      are ignored while unauthenticated) and LogIn (a login with an empty
      field changes nothing) already say. */
  lemma LockedIgnoresAllButLogin(c: Suite, s: SessionState, e: Event)
    requires !s.isAuthenticated
    ensures !e.LoginPress? ==> Step(c, s, e) == s
    ensures e.LoginPress? && (e.username == [] || e.password == []) ==> Step(c, s, e) == s
  {
  }

  /** Re-authentication after a lockout: a login with both fields filled
      clears the counter, and a correct retrieval then succeeds and keeps it
      at 0. */
  lemma ReloginThenRetrieve(c: Suite, s: SessionState, username: string, password: string,
                            id: string, passkey: string, data: string)
    requires RoundTrips(c)
    requires !s.isAuthenticated && username != [] && password != []
    requires id != [] && passkey != [] && data != []
    requires id in s.storedData && s.storedData[id].passkey == HashPasskey(c, passkey)
    requires s.storedData[id].encryptedText == EncryptData(c, data)
    ensures var r := Run(c, s, [LoginPress(username, password), NavigatePress("retrieve"), RetrievePress(id, passkey)]);
            && r.isAuthenticated && r.failedAttempts == 0 && r.storedData == s.storedData
            && CurrentView(r) == RetrieveView
            && Attempt(c, r.storedData, id, passkey) == Decrypted(data)
  {
    var es := [LoginPress(username, password), NavigatePress("retrieve"), RetrievePress(id, passkey)];
    RunThree(c, s, es);
  }
}

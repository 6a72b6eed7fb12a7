/** The page script's session state as an object (app.py lines 80-373).

    VaultSession holds the fields the script keeps in st.session_state and
    changes them in place, one method per button press; each method is
    proved to leave exactly the state the matching function of Vault
    gives, so the lemmas proved there hold of the object too.
 */
module App {
  import opened Crypto
  import opened Vault
  import opened Admin

  class VaultSession {
    /** The hash function and the cipher under the key made at session start. */
    const suite: Suite
    var storedData: map<string, Record>
    var failedAttempts: nat
    var isAuthenticated: bool
    var page: string

    /** The session state as a value. */
    function State(): SessionState
      reads this
    {
      SessionState(storedData, failedAttempts, isAuthenticated, page)
    }

    /** The lockout invariant of the session. */
    ghost predicate Valid()
      reads this
    {
      Inv(State())
    }

    /** First run of the script: empty store, no failures, authenticated,
        a fresh cipher key, and main() setting the page to home. */
    constructor (suite: Suite)
      ensures this.suite == suite
      ensures State() == Initial() && Valid()
    {
      this.suite := suite;
      storedData := map[];
      failedAttempts := 0;
      isAuthenticated := true;
      page := "home";
    }

    /** The page main() renders. */
    function View(): View
      reads this
    {
      CurrentView(State())
    }

    method Login(username: string, password: string)
      requires Valid()
      modifies this
      ensures Valid()
      ensures State() == LogIn(old(State()), username, password)
    {
      if username != [] && password != [] {
        isAuthenticated := true;
        failedAttempts := 0;
        page := "home";
      }
    }

    method Logout()
      requires Valid()
      modifies this
      ensures Valid()
      ensures State() == LogOut(old(State()))
    {
      isAuthenticated := false;
    }

    method Navigate(target: string)
      requires Valid()
      modifies this
      ensures Valid()
      ensures State() == NavigateTo(old(State()), target)
    {
      page := target;
    }

    /** The store button; `id` stands for the fresh uuid4 and `now` for the
        clock reading. */
    method Store(data: string, passkey: string, confirm: string, id: string, now: real)
      returns (outcome: StoreOutcome)
      requires Valid()
      modifies this
      ensures Valid()
      ensures (State(), outcome) == StoreData(suite, old(State()), data, passkey, confirm, id, now)
    {
      if data == [] || passkey == [] {
        outcome := EmptyInput;
      } else if passkey != confirm {
        outcome := PasskeysDiffer;
      } else {
        var hashed := HashPasskey(suite, passkey);
        var encrypted := EncryptData(suite, data);
        storedData := storedData[id := Record(encrypted, hashed, now)];
        outcome := Stored(id);
      }
    }

    /** The retrieve button, which main() shows only on the retrieve page of
        an authenticated session. */
    method Retrieve(id: string, passkey: string) returns (outcome: RetrieveOutcome)
      requires Valid() && isAuthenticated && View() == RetrieveView
      modifies this
      ensures Valid()
      ensures (State(), outcome) == RetrieveData(suite, old(State()), id, passkey)
    {
      if id == [] || passkey == [] {
        outcome := IncompleteInput;
      } else if id !in storedData {
        outcome := UnknownId;
        failedAttempts := failedAttempts + 1;
      } else {
        var item := storedData[id];
        if VerifyPasskey(suite, item.passkey, passkey) {
          var decrypted := DecryptData(suite, item.encryptedText);
          if decrypted.Some? && decrypted.value != [] {
            outcome := Decrypted(decrypted.value);
            failedAttempts := 0;
          } else {
            outcome := DecryptionFailed;
            failedAttempts := failedAttempts + 1;
          }
        } else {
          outcome := WrongPasskey;
          failedAttempts := failedAttempts + 1;
        }
      }
      if failedAttempts >= MaxAttempts {
        isAuthenticated := false;
      }
    }

    /** One run of main() on a button press: the authentication gate, the
        sidebar, and the page the dispatch selects. */
    method Handle(e: Event)
      requires Valid()
      modifies this
      ensures Valid()
      ensures State() == Step(suite, old(State()), e)
    {
      if !isAuthenticated {
        if e.LoginPress? {
          Login(e.username, e.password);
        }
      } else {
        match e
        case LoginPress(_, _) =>
        case LogoutPress =>
          Logout();
        case NavigatePress(target) =>
          Navigate(target);
        case StorePress(data, passkey, confirm, newId, now) =>
          if View() == StoreView {
            var _ := Store(data, passkey, confirm, newId, now);
          }
        case RetrievePress(dataId, passkey) =>
          if View() == RetrieveView {
            var _ := Retrieve(dataId, passkey);
          }
      }
    }

    /** The admin listing: one redacted summary per stored record, every
        record listed once, nothing changed. */
    method AdminList() returns (rows: seq<Summary>)
      ensures |rows| == |storedData|
      ensures forall i :: 0 <= i < |rows| ==>
                rows[i].id in storedData && rows[i] == Summarize(rows[i].id, storedData[rows[i].id])
      ensures forall id :: id in storedData ==> exists i :: 0 <= i < |rows| && rows[i].id == id
      ensures forall i, j :: 0 <= i < j < |rows| ==> rows[i].id != rows[j].id
    {
      rows := [];
      var remaining := storedData.Keys;
      while remaining != {}
        invariant remaining <= storedData.Keys
        invariant |rows| + |remaining| == |storedData.Keys|
        invariant forall i :: 0 <= i < |rows| ==>
                    rows[i].id in storedData && rows[i].id !in remaining
                    && rows[i] == Summarize(rows[i].id, storedData[rows[i].id])
        invariant forall id :: id in storedData && id !in remaining ==>
                    exists i :: 0 <= i < |rows| && rows[i].id == id
        invariant forall i, j :: 0 <= i < j < |rows| ==> rows[i].id != rows[j].id
        decreases remaining
      {
        var id :| id in remaining;
        ghost var listed := rows;
        rows := rows + [Summarize(id, storedData[id])];
        remaining := remaining - {id};
        assert rows[|listed|].id == id;
        assert forall i :: 0 <= i < |listed| ==> rows[i] == listed[i];
      }
    }
  }
}

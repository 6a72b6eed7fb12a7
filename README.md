# Secure data vault: session state machine

A model of the in-memory vault that the Streamlit page script `app.py`
runs. Underneath the page rendering, it keeps four pieces of session state:

- `stored_data`: a map from data id to a record holding the ciphertext, the passkey digest and a timestamp.
- `failed_attempts`: a counter of failed retrievals.
- `is_authenticated`: a flag.
- `page`: the current page name.

Each button press changes this state. Storing checks that the data and the
passkey are present and that the passkey matches its confirmation. It then
writes a record under a new id. Retrieving checks, in this order: both
inputs present, id known, passkey digest equal, and decryption giving a
non-empty plaintext. Every failing check counts as one failed attempt. A
success resets the count. After every retrieve press, a count of 3 or more
clears the authentication flag. While the flag is clear, only the login page
is reachable. A login with a non-empty username and password sets the flag
again and resets the count.

The project has four modules:

- `Crypto` (crypto.dfy): the hash and the cipher as opaque function values, the `Suite`. The only assumption about them is the round trip `RoundTrips`: decrypting an encryption gives the plaintext back.
- `Vault` (vault.dfy): the session state as a value, one function per button press, the event loop of `main()` (`Step` and `Run`), and the lemmas.
- `Admin` (admin.dfy): the redacted previews of the admin listing.
- `App` (app.dfy): the class `VaultSession`. It holds the four fields and updates them in place. Each method is proved to produce the state the matching `Vault` function gives.

The model follows what the code does, including where a stricter vault might
be expected:

- A store under an id already present overwrites that record. There is no duplicate-id error.
- There is no separate locked flag and no locked error. The lockout is the cleared authentication flag, and the gate in `main()` keeps a locked session away from the vault.
- Logout clears only the flag. It does not reset the counter.
- A decryption that yields an empty plaintext counts as a failure, because the code tests the result for truthiness. No store ever holds empty data, so this failure cannot happen to a record the vault wrote.

## Model

| member | source | states |
|---|---|---|
| Crypto.HashPasskey | app.py:95-97 | no contract of its own: the session's digest function applied to the passkey, deterministic because it is a function value; what it promises to verification is stated by Crypto.VerifyOwnPasskey |
| Crypto.EncryptData | app.py:99-101 | under a cipher that round-trips, the ciphertext decrypts back to the data |
| Crypto.DecryptData | app.py:103-108 | under a cipher that round-trips, decryption never fails on a ciphertext the session made and gives back the data that was encrypted; None stands for the caught exception |
| Crypto.VerifyPasskey | app.py:110-113 | no contract of its own: a candidate is accepted when its digest equals the stored digest; the properties are stated by Crypto.VerifyOwnPasskey |
| Crypto.VerifyOwnPasskey | app.py:110-113 | the digest of a passkey always verifies that passkey, and another passkey verifies exactly when the two digests are equal |
| Vault.Dispatch | app.py:364-373 | the four page names select their pages, any other name falls back to home, and the dispatch never selects the login page |
| Vault.Initial | app.py:80-87 | the start state (with the page main() sets at app.py:323-324): nothing stored, 0 failures, authenticated, on the home page, and the lockout invariant holds |
| Vault.CurrentView | app.py:326-329 | the gate: the login page is shown exactly when the session is unauthenticated, and otherwise the page the dispatch selects |
| Vault.LogIn | app.py:133-141 | with both fields filled, the session becomes authenticated with 0 failures, the page is "home" and the store is untouched; otherwise nothing changes |
| Vault.LogOut | app.py:349-351 | afterwards only the login page is reachable; the failure count, the store and the page are kept |
| Vault.NavigateTo | app.py:120-121 | the page becomes the target, the target's page is shown next (falling back to home), and the store, counter and flag are unchanged |
| Vault.StoreData | app.py:195-215 | empty data or passkey, or a passkey unequal to its confirmation, changes nothing; otherwise only the entry under the given id changes, and it holds the passkey digest, the timestamp and a ciphertext that decrypts to the data |
| Vault.Attempt | app.py:248-280 | the outcome of a retrieval, in the order of the checks: missing input, unknown id, wrong passkey, decryption failure; success exactly when every check passes, with the decrypted plaintext |
| Vault.RetrieveData | app.py:248-289 | a retrieval never changes the store or the page; missing input keeps the counter, success resets it to 0, every failure adds exactly 1; 3 or more failures clear the flag, and the flag is otherwise unchanged |
| Vault.Step | app.py:321-373 | main()'s routing: while unauthenticated a login press does what Vault.LogIn says; while authenticated a logout press does what Vault.LogOut says and a navigation press what Vault.NavigateTo says; a store press on the store page does what Vault.StoreData says and a retrieve press on the retrieve page what Vault.RetrieveData says; while unauthenticated only a login press changes anything, and while authenticated a login press changes nothing; a store or retrieve press acts only on its own page; only a store press on the store page changes the store, and only a retrieval on the retrieve page or a login changes the counter |
| Vault.StepKeepsInv | app.py:283-287 | every press keeps the lockout invariant: at most 3 failures, and fewer than 3 while authenticated |
| Vault.RunKeepsInv | app.py:321-373 | any sequence of presses keeps the lockout invariant |
| Vault.ReachableStatesKeepInv | app.py:80-87 | every state reachable from the start of a session satisfies the lockout invariant |
| Vault.RunKeepsIds | app.py:211 | no sequence of presses removes a stored id |
| Vault.RunKeepsRecord | app.py:211-215 | a stored record stays as it is through any presses that store nothing under its id |
| Vault.StoreThenRetrieve | app.py:195-274 | round trip: data stored with a passkey is retrieved with the same id and passkey, and the counter is then 0 |
| Vault.StoreNavigateRetrieve | app.py:195-274 | the round trip through main(): store, go to the retrieve page and retrieve; the session stays authenticated with 0 failures and the record yields the data |
| Vault.FailuresLockOut | app.py:248-289 | on the retrieve page, the failing retrievals that bring the count to 3 leave the session unauthenticated with the count at 3 and nothing else changed |
| Vault.LockedIgnoresAllButLogin | app.py:326-329 | an unauthenticated session is changed by nothing but a login with both fields filled, so a retrieval with the right passkey cannot reach the vault |
| Vault.ReloginThenRetrieve | app.py:133-138 | after a lockout, a login, going to the retrieve page and a correct retrieval succeed: the retrieval yields the data, and the session is authenticated on the retrieve page with 0 failures and the store unchanged |
| Admin.Preview | app.py:310-311 | a preview is at most n leading characters of the value followed by "..." |
| Admin.Summarize | app.py:308-311 | one listing entry: the id and timestamp as stored, the first min(10, length) characters of the digest and the first min(20, length) of the ciphertext, each followed by "..." |
| Admin.PreviewHidesRest | app.py:310-311 | a preview shows the whole value only when the value has at most n characters |
| App.VaultSession.constructor | app.py:80-92 | a new session has an empty store, 0 failures, is authenticated, is on the home page and satisfies the lockout invariant |
| App.VaultSession.Login | app.py:133-141 | the fields change as Vault.LogIn says, and the lockout invariant is kept |
| App.VaultSession.Logout | app.py:349-351 | the fields change as Vault.LogOut says, and the lockout invariant is kept |
| App.VaultSession.Navigate | app.py:120-121 | the fields change as Vault.NavigateTo says, and the lockout invariant is kept |
| App.VaultSession.Store | app.py:195-215 | the fields and the outcome are those of Vault.StoreData, and the lockout invariant is kept |
| App.VaultSession.Retrieve | app.py:248-289 | called, as main() calls it, on the retrieve page of an authenticated session: the fields and the outcome are those of Vault.RetrieveData, and the lockout invariant is kept |
| App.VaultSession.Handle | app.py:321-373 | one press routed through the gate, the sidebar and the page dispatch leaves the state Vault.Step gives, and keeps the lockout invariant |
| App.VaultSession.AdminList | app.py:304-311 | read-only; one summary per stored record, every id listed exactly once, each with the timestamp and the 10- and 20-character previews of digest and ciphertext |

## Left out

- Rendering: page layout, CSS, markdown, widgets, and the success, warning and error texts. These are presentation only. The outcome datatypes stand for the messages.
- The internals of SHA-256 and of Fernet. The hash and the cipher are function values chosen when the session starts, and only the round trip is assumed of them. Tamper detection, constant-time comparison and the 64-character length of the hex digest are properties of those libraries, so they are not modelled.
- Randomised encryption: `EncryptData` is a function, so encrypting the same data twice gives the same ciphertext here. Fernet draws a fresh nonce on each call.
- `uuid4` id generation, `time.time()` and `time.ctime`. The id and the timestamp are parameters of the store press, and the timestamp is a `real`. The listing carries the raw timestamp, not its formatted text.
- `time.sleep(1)` and `st.rerun()`: they only delay and redraw the page.
- The home page's count of stored entries: it only displays the size of the store.
- Concurrency: one session runs one script at a time, with no locking.
- App.VaultSession.AdminList: does not state the listing order. Python lists dict entries in insertion order, and a Dafny map has no order.

/**
 * The mocked session provider (src/context/AuthContext.tsx). There is one
 * `user | null` state, mirrored into the store's saved-user key. Any
 * credentials that pass the length rules are accepted; no account list is
 * consulted.
 */
module Auth {
  import opened RamenTypes
  import opened Storage

  /** The display name taken from an email: the part before its first '@', or all of it. */
  function NameFromEmail(email: string): (name: string)
    ensures name <= email
    ensures '@' !in name
    ensures |name| < |email| ==> email[|name|] == '@'
  {
    if email == [] || email[0] == '@' then []
    else [email[0]] + NameFromEmail(email[1..])
  }

  /** Login needs a non-empty email and a password of at least six characters. */
  predicate LoginAccepted(email: string, password: string)
  {
    |email| > 0 && |password| >= 6
  }

  /** Registration also needs a non-empty name. */
  predicate RegisterAccepted(name: string, email: string, password: string)
  {
    |name| > 0 && |email| > 0 && |password| >= 6
  }

  class AuthProvider {
    var user: Option<User>
    const store: BrowserStore

    /** The persisted session is mirrored in `user`. */
    ghost predicate Valid()
      reads this, store
    {
      user == store.savedUser
    }

    /** The initial session is whatever record is persisted, or none. */
    constructor (store: BrowserStore)
      ensures this.store == store
      ensures user == store.savedUser
      ensures Valid()
    {
      this.store := store;
      user := store.savedUser;
    }

    /** Signed in exactly when there is a session record. */
    predicate IsAuthenticated()
      reads this
    {
      user.Some?
    }

    /** Accepts any non-empty email with a password of at least six characters; `freshId` stands for the random id. */
    method Login(email: string, password: string, freshId: string) returns (ok: bool)
      requires Valid()
      modifies this, store
      ensures Valid()
      ensures ok <==> LoginAccepted(email, password)
      ensures ok ==> user == Some(User(freshId, NameFromEmail(email), email, None))
      ensures !ok ==> user == old(user) && store.savedUser == old(store.savedUser)
      ensures store.registeredUsers == old(store.registeredUsers)
      ensures store.orderLists == old(store.orderLists)
    {
      if LoginAccepted(email, password) {
        var mockUser := User(freshId, NameFromEmail(email), email, None);
        user := Some(mockUser);
        store.savedUser := Some(mockUser);
        return true;
      }
      return false;
    }

    /** Accepts any non-empty name and email with a password of at least six characters. */
    method Register(name: string, email: string, password: string, freshId: string) returns (ok: bool)
      requires Valid()
      modifies this, store
      ensures Valid()
      ensures ok <==> RegisterAccepted(name, email, password)
      ensures ok ==> user == Some(User(freshId, name, email, None))
      ensures !ok ==> user == old(user) && store.savedUser == old(store.savedUser)
      ensures store.registeredUsers == old(store.registeredUsers)
      ensures store.orderLists == old(store.orderLists)
    {
      if RegisterAccepted(name, email, password) {
        var mockUser := User(freshId, name, email, None);
        user := Some(mockUser);
        store.savedUser := Some(mockUser);
        return true;
      }
      return false;
    }

    /** Ends the session and forgets the persisted one. */
    method Logout()
      requires Valid()
      modifies this, store
      ensures Valid()
      ensures user == None && store.savedUser == None
      ensures !IsAuthenticated()
      ensures store.registeredUsers == old(store.registeredUsers)
      ensures store.orderLists == old(store.orderLists)
    {
      user := None;
      store.savedUser := None;
    }
  }

  /** With any '@' in the email, the derived name is exactly what precedes the first one. */
  lemma {:induction false} NameFromEmailSplits(email: string, i: nat)
    requires i < |email| && email[i] == '@'
    requires forall j :: 0 <= j < i ==> email[j] != '@'
    ensures NameFromEmail(email) == email[..i]
  {
    if i > 0 {
      NameFromEmailSplits(email[1..], i - 1);
      assert email[..i] == [email[0]] + email[1..][..i - 1];
    }
  }

  /** Without an '@', the derived name is the whole email. */
  lemma {:induction false} NameFromEmailWhole(email: string)
    requires '@' !in email
    ensures NameFromEmail(email) == email
  {
    if email != [] {
      NameFromEmailWhole(email[1..]);
      assert [email[0]] + email[1..] == email;
    }
  }
}

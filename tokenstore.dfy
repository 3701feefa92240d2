/** The server's in-memory token store (app/services/token_store.py): one mutable
    `UserTokens` record per user, created on demand, whose refresh token is kept
    encrypted with Fernet (app/services/crypto.py). The cipher is abstracted: a sealed
    token remembers the key it was sealed with and only that key opens it. */
module TokenStore {
  import opened Wrappers

  /** A Fernet token: what `encrypt_token` returns. */
  datatype Sealed = Sealed(key: string, plain: string)

  /** The key `_get_fernet` uses: the configured key, or when none is configured a key
      generated afresh for this one call. */
  function FernetKey(configured: string, generated: string): (k: string)
    ensures configured != "" ==> k == configured
    ensures configured == "" ==> k == generated
  {
    if configured != "" then configured else generated
  }

  function Encrypt(key: string, plain: string): Sealed {
    Sealed(key, plain)
  }

  /** `decrypt_token`: the plain text under the sealing key; any other key makes Fernet
      raise `InvalidToken`. */
  function Decrypt(key: string, token: Sealed): (r: Result<string, string>)
    ensures r.Success? <==> key == token.key
  {
    if key == token.key then Success(token.plain) else Failure("InvalidToken")
  }

  /** Decryption undoes encryption under the same key, and fails under any other. */
  lemma DecryptEncrypt(key: string, key2: string, plain: string)
    ensures Decrypt(key, Encrypt(key, plain)) == Success(plain)
    ensures key2 != key ==> Decrypt(key2, Encrypt(key, plain)).Failure?
  {
  }

  /** With a key configured the refresh token round-trips whatever keys would have been
      generated; with none configured two different generated keys lose it. */
  lemma RoundTripNeedsConfiguredKey(configured: string, gen1: string, gen2: string, plain: string)
    ensures configured != "" ==>
      Decrypt(FernetKey(configured, gen2), Encrypt(FernetKey(configured, gen1), plain)) == Success(plain)
    ensures configured == "" && gen1 != gen2 ==>
      Decrypt(FernetKey(configured, gen2), Encrypt(FernetKey(configured, gen1), plain)).Failure?
  {
  }

  /** `UserTokens`: every field starts as None; callers assign the access tokens and the
      email directly. */
  class UserTokens {
    var googleAccessToken: Option<string>
    var googleRefreshTokenEnc: Option<Sealed>
    var canvasAccessToken: Option<string>
    var email: Option<string>

    constructor()
      ensures googleAccessToken == None && googleRefreshTokenEnc == None
      ensures canvasAccessToken == None && email == None
    {
      googleAccessToken := None;
      googleRefreshTokenEnc := None;
      canvasAccessToken := None;
      email := None;
    }

    /** `set_google_refresh`: stores the token sealed under the key in force. */
    method SetGoogleRefresh(token: string, configured: string, generated: string)
      modifies this`googleRefreshTokenEnc
      ensures googleRefreshTokenEnc == Some(Encrypt(FernetKey(configured, generated), token))
    {
      googleRefreshTokenEnc := Some(Encrypt(FernetKey(configured, generated), token));
    }

    /** `get_google_refresh`: None when nothing is stored, otherwise the stored token
        opened with the key in force, which raises when that key differs. */
    method GetGoogleRefresh(configured: string, generated: string) returns (r: Result<Option<string>, string>)
      ensures googleRefreshTokenEnc.None? ==> r == Success(None)
      ensures googleRefreshTokenEnc.Some? ==>
        match Decrypt(FernetKey(configured, generated), googleRefreshTokenEnc.value)
        case Success(plain) => r == Success(Some(plain))
        case Failure(e) => r == Failure(e)
    {
      if googleRefreshTokenEnc.None? {
        return Success(None);
      }
      var outcome := Decrypt(FernetKey(configured, generated), googleRefreshTokenEnc.value);
      match outcome {
        case Success(plain) => r := Success(Some(plain));
        case Failure(e) => r := Failure(e);
      }
    }
  }

  class TokenStore {
    var users: map<string, UserTokens>

    constructor()
      ensures users == map[]
    {
      users := map[];
    }

    /** `get_or_create`: the user's existing record, or a fresh all-None one, now stored. */
    method GetOrCreate(user: string) returns (t: UserTokens)
      modifies this
      ensures user in old(users) ==> t == old(users)[user] && users == old(users)
      ensures user !in old(users) ==> fresh(t) && users == old(users)[user := t]
      ensures user !in old(users) ==>
        t.googleAccessToken == None && t.googleRefreshTokenEnc == None && t.canvasAccessToken == None && t.email == None
    {
      if user !in users {
        var created := new UserTokens();
        users := users[user := created];
      }
      t := users[user];
    }

    /** `get`: the user's record if there is one; never inserts. */
    function Get(user: string): (r: Option<UserTokens>)
      reads this
      ensures r.None? <==> user !in users
      ensures r.Some? ==> r.value == users[user]
    {
      if user in users then Some(users[user]) else None
    }
  }

  /** Two `get_or_create` calls hand back the same record, so an access token assigned
      through the first is read back through the second. */
  method AssignmentsPersist(store: TokenStore, user: string, token: string) returns (seen: Option<string>)
    modifies store, store.users.Values
    ensures seen == Some(token)
    ensures store.Get(user).Some? && store.Get(user).value.googleAccessToken == Some(token)
  {
    var first := store.GetOrCreate(user);
    first.googleAccessToken := Some(token);
    var second := store.GetOrCreate(user);
    seen := second.googleAccessToken;
  }

  /** A refresh token set on a record is read back under a configured key. */
  method RefreshRoundTrip(t: UserTokens, token: string, configured: string, gen1: string, gen2: string)
    returns (r: Result<Option<string>, string>)
    requires configured != ""
    modifies t
    ensures r == Success(Some(token))
  {
    t.SetGoogleRefresh(token, configured, gen1);
    r := t.GetGoogleRefresh(configured, gen2);
  }
}

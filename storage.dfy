/**
 * `AuthStorage`: the two token slots kept in the browser's local storage.
 * The pure functions say what each storage operation does to the key-value
 * map; the class holds that map and its methods are proved to do exactly that.
 */
module TokenStorage {
  import opened Wrappers
  import opened Types
  import opened Http

  /** Local storage: string keys to string values. Other keys may be present. */
  type Store = map<string, string>

  /** The slot of the short-lived access token. */
  const TokenKey: string := "AUTH_TOKEN"
  /** The slot of the long-lived requester token. */
  const RequesterTokenKey: string := "AUTH_REQUESTER_TOKEN"

  datatype StorageError = KeyNotFound(key: string)

  /** Reading one key: the stored text as a token, or an error naming the missing key. */
  function Lookup(s: Store, key: string): (r: Result<AuthToken, StorageError>)
    ensures r.Ok? <==> key in s
    ensures r.Ok? ==> r.value.ToString() == s[key]
    ensures r.Err? ==> r.error == KeyNotFound(key)
  {
    if key in s then Ok(AuthToken.FromString(s[key])) else Err(KeyNotFound(key))
  }

  /** Writing one key: reading it back gives the token written; every other key reads as before. */
  function Stored(s: Store, key: string, value: string): (s': Store)
    ensures Lookup(s', key) == Ok(AuthToken.FromString(value))
    ensures forall k :: k != key ==> Lookup(s', k) == Lookup(s, k)
    ensures s'.Keys == s.Keys + {key}
  {
    s[key := value]
  }

  /** Deleting both slots: neither is present afterwards; every other key reads as before. */
  function Cleared(s: Store): (s': Store)
    ensures TokenKey !in s' && RequesterTokenKey !in s'
    ensures forall k :: k != TokenKey && k != RequesterTokenKey ==> Lookup(s', k) == Lookup(s, k)
    ensures s'.Keys == s.Keys - {TokenKey, RequesterTokenKey}
  {
    s - {TokenKey, RequesterTokenKey}
  }

  /** The last element of a non-empty sequence. */
  function Last<T>(xs: seq<T>): (x: T)
    requires xs != []
    ensures x == xs[|xs| - 1]
  {
    xs[|xs| - 1]
  }

  /**
   * Writing the text of each header value to the requester slot, in order:
   * the slot ends at the last one, nothing changes without headers, and no
   * other key (the access slot in particular) is touched.
   */
  function StoredFromHeaders(s: Store, headers: seq<HeaderValue>): (s': Store)
    requires AllText(headers)
    ensures headers == [] ==> s' == s
    ensures headers != [] ==> s' == s[RequesterTokenKey := Last(headers).ToStr().value]
    ensures forall k :: k != RequesterTokenKey ==> Lookup(s', k) == Lookup(s, k)
    decreases |headers|
  {
    if headers == [] then s
    else
      var text := headers[0].ToStr().value;
      StoredFromHeaders(Stored(s, RequesterTokenKey, AuthToken.FromString(text).ToString()), headers[1..])
  }

  /** Clearing twice is clearing once. */
  lemma ClearedIdempotent(s: Store)
    ensures Cleared(Cleared(s)) == Cleared(s)
  {
  }

  /** The browser's local storage, as far as the two token slots go. */
  class AuthStorage {
    var slots: Store

    constructor (initial: Store)
      ensures slots == initial
    {
      slots := initial;
    }

    /** `store`: writes one key. */
    method Store(key: string, value: string)
      modifies this
      ensures slots == Stored(old(slots), key, value)
    {
      slots := slots[key := value];
    }

    /** `store_from_headers`: each `authorization` value, in order, to the requester slot. */
    method StoreFromHeaders(headers: seq<HeaderValue>)
      requires AllText(headers)
      modifies this
      ensures slots == StoredFromHeaders(old(slots), headers)
    {
      var i := 0;
      while i < |headers|
        invariant 0 <= i <= |headers|
        invariant i == 0 ==> slots == old(slots)
        invariant i > 0 ==> slots == old(slots)[RequesterTokenKey := headers[i - 1].ToStr().value]
      {
        var text := headers[i].ToStr().value;
        StoreRequesterToken(AuthToken.FromString(text));
        i := i + 1;
      }
    }

    /** `get`: reads one key. */
    method Get(key: string) returns (r: Result<AuthToken, StorageError>)
      ensures r == Lookup(slots, key)
    {
      if key in slots {
        r := Ok(AuthToken.FromString(slots[key]));
      } else {
        r := Err(KeyNotFound(key));
      }
    }

    /** `clear`: deletes both slots. */
    method Clear()
      modifies this
      ensures slots == Cleared(old(slots))
    {
      slots := slots - {TokenKey};
      slots := slots - {RequesterTokenKey};
    }

    method GetRequesterToken() returns (r: Result<AuthToken, StorageError>)
      ensures r == Lookup(slots, RequesterTokenKey)
    {
      r := Get(RequesterTokenKey);
    }

    method GetAuthToken() returns (r: Result<AuthToken, StorageError>)
      ensures r == Lookup(slots, TokenKey)
    {
      r := Get(TokenKey);
    }

    method StoreRequesterToken(token: AuthToken)
      modifies this
      ensures slots == Stored(old(slots), RequesterTokenKey, token.ToString())
    {
      Store(RequesterTokenKey, token.ToString());
    }

    method StoreAuthToken(token: AuthToken)
      modifies this
      ensures slots == Stored(old(slots), TokenKey, token.ToString())
    {
      Store(TokenKey, token.ToString());
    }
  }
}

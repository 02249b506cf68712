/**
  `KeychainService`: generic-password items keyed by account name, stored as the
  UTF-8 bytes of the token. The keychain itself is a map from account to bytes, plus
  whether it can be reached at all (items are accessible only while the device is
  unlocked; when it cannot be reached every call reports
  `errSecInteractionNotAllowed`).
 */
module Keychain {
  import opened Wrappers
  import opened Utf8
  import opened Constants

  /** The `OSStatus` codes the service compares against. */
  const ErrSecSuccess: int := 0
  const ErrSecItemNotFound: int := -25300
  const ErrSecDuplicateItem: int := -25299
  const ErrSecInteractionNotAllowed: int := -25308

  /** `SecItemAdd`: adds only; an existing item under the account is a duplicate. */
  function AddStatus(items: map<string, seq<Byte>>, reachable: bool, key: string): int
  {
    if !reachable then ErrSecInteractionNotAllowed
    else if key in items then ErrSecDuplicateItem
    else ErrSecSuccess
  }

  /** The items after `SecItemAdd`. */
  function Added(items: map<string, seq<Byte>>, reachable: bool, key: string, data: seq<Byte>): map<string, seq<Byte>>
  {
    if AddStatus(items, reachable, key) == ErrSecSuccess then items[key := data] else items
  }

  /** `SecItemDelete`. */
  function DeleteStatus(items: map<string, seq<Byte>>, reachable: bool, key: string): int
  {
    if !reachable then ErrSecInteractionNotAllowed
    else if key in items then ErrSecSuccess
    else ErrSecItemNotFound
  }

  /** The items after `SecItemDelete`. */
  function Deleted(items: map<string, seq<Byte>>, reachable: bool, key: string): map<string, seq<Byte>>
  {
    if DeleteStatus(items, reachable, key) == ErrSecSuccess then items - {key} else items
  }

  /** What `load` returns: the item's bytes read as UTF-8, when the item can be found
      and its bytes are valid UTF-8. */
  function LookupIn(items: map<string, seq<Byte>>, reachable: bool, key: string): Option<string>
  {
    if reachable && key in items then Decode(items[key]) else None
  }

  class KeychainStore {
    var items: map<string, seq<Byte>>
    var reachable: bool

    constructor (items: map<string, seq<Byte>>, reachable: bool)
      ensures this.items == items && this.reachable == reachable
    {
      this.items := items;
      this.reachable := reachable;
    }

    function Lookup(key: string): Option<string>
      reads this
    {
      LookupIn(items, reachable, key)
    }

    /** `save(token:key:)`: true exactly when the add succeeded. */
    method Save(token: string, key: string) returns (ok: bool)
      modifies this
      ensures ok <==> AddStatus(old(items), old(reachable), key) == ErrSecSuccess
      ensures items == Added(old(items), old(reachable), key, Encode(token))
      ensures reachable == old(reachable)
    {
      var data := Encode(token);
      var status := AddStatus(items, reachable, key);
      if status == ErrSecSuccess {
        items := items[key := data];
      }
      ok := status == ErrSecSuccess;
    }

    /** `load(key:)`. */
    method Load(key: string) returns (token: Option<string>)
      ensures token == LookupIn(items, reachable, key)
    {
      if !reachable || key !in items {
        return None;
      }
      token := Decode(items[key]);
    }

    /** `delete(key:)`: a missing item counts as deleted. */
    method Delete(key: string) returns (ok: bool)
      modifies this
      ensures ok <==> DeleteStatus(old(items), old(reachable), key) in {ErrSecSuccess, ErrSecItemNotFound}
      ensures items == Deleted(old(items), old(reachable), key)
      ensures reachable == old(reachable)
    {
      var status := DeleteStatus(items, reachable, key);
      if status == ErrSecSuccess {
        items := items - {key};
      }
      ok := status == ErrSecSuccess || status == ErrSecItemNotFound;
    }

    /** `clearAll()`: deletes the token and the user id, ignoring both results. */
    method ClearAll()
      modifies this
      ensures items == Deleted(Deleted(old(items), old(reachable), JwtTokenKey), old(reachable), UserIdKey)
      ensures reachable == old(reachable)
    {
      var _ := Delete(JwtTokenKey);
      var _ := Delete(UserIdKey);
    }
  }

  /** A save that succeeds can be loaded back: the stored bytes decode to the token. */
  lemma SaveThenLoad(items: map<string, seq<Byte>>, reachable: bool, key: string, token: string)
    ensures AddStatus(items, reachable, key) == ErrSecSuccess <==> reachable && key !in items
    ensures AddStatus(items, reachable, key) == ErrSecSuccess ==>
      LookupIn(Added(items, reachable, key, Encode(token)), reachable, key) == Some(token)
  {
    DecodeEncode(token);
  }

  /** Saving is add-only: a save under an account that already holds an item fails and
      the earlier item is what `load` keeps returning. */
  lemma SaveDoesNotReplace(items: map<string, seq<Byte>>, reachable: bool, key: string, first: string, second: string)
    requires reachable && key !in items
    ensures var once := Added(items, reachable, key, Encode(first));
      && AddStatus(once, reachable, key) == ErrSecDuplicateItem
      && LookupIn(Added(once, reachable, key, Encode(second)), reachable, key) == Some(first)
  {
    DecodeEncode(first);
  }

  /** `delete` reports success exactly when the keychain can be reached, and afterwards
      nothing can be loaded under the account; other accounts are untouched. */
  lemma DeleteForgets(items: map<string, seq<Byte>>, reachable: bool, key: string, other: string)
    requires other != key
    ensures DeleteStatus(items, reachable, key) in {ErrSecSuccess, ErrSecItemNotFound} <==> reachable
    ensures reachable ==> LookupIn(Deleted(items, reachable, key), reachable, key) == None
    ensures LookupIn(Deleted(items, reachable, key), reachable, other) == LookupIn(items, reachable, other)
  {
  }

  /** After `clearAll` on a reachable keychain neither the token nor the user id can be
      loaded, and every other item is kept. */
  lemma ClearAllForgetsCredentials(items: map<string, seq<Byte>>, reachable: bool)
    requires reachable
    ensures var after := Deleted(Deleted(items, reachable, JwtTokenKey), reachable, UserIdKey);
      && LookupIn(after, reachable, JwtTokenKey) == None
      && LookupIn(after, reachable, UserIdKey) == None
      && after == items - {JwtTokenKey, UserIdKey}
  {
  }
}

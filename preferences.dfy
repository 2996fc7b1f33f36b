/**
  A model of an Android `SharedPreferences` store: a map from key to a typed value.
  The key type is a parameter, so that a client can enumerate the keys it uses.
  `Get*` return the caller's default when the key is absent; `putString(key, null)`
  removes the key, which `PutString` models with `None`.
 */
module Preferences {
  import opened Wrappers

  datatype PrefValue = IntPref(i: int) | BoolPref(b: bool) | StrPref(s: string)

  type Store<K> = map<K, PrefValue>

  /** The value stored under `key`, if any. */
  function Lookup<K>(p: Store<K>, key: K): Option<PrefValue>
  {
    if key in p then Some(p[key]) else None
  }

  function IntOr(v: Option<PrefValue>, default: int): int
  {
    if v.Some? && v.value.IntPref? then v.value.i else default
  }

  function BoolOr(v: Option<PrefValue>, default: bool): bool
  {
    if v.Some? && v.value.BoolPref? then v.value.b else default
  }

  function StringOr(v: Option<PrefValue>, default: Option<string>): Option<string>
  {
    if v.Some? && v.value.StrPref? then Some(v.value.s) else default
  }

  function GetInt<K>(p: Store<K>, key: K, default: int): int
  {
    IntOr(Lookup(p, key), default)
  }

  function GetBool<K>(p: Store<K>, key: K, default: bool): bool
  {
    BoolOr(Lookup(p, key), default)
  }

  function GetString<K>(p: Store<K>, key: K, default: Option<string>): Option<string>
  {
    StringOr(Lookup(p, key), default)
  }

  function PutString<K>(p: Store<K>, key: K, value: Option<string>): (r: Store<K>)
    ensures value.None? ==> key !in r
    ensures value.Some? ==> key in r && r[key] == StrPref(value.value)
    ensures r - {key} == p - {key}
  {
    match value
    case None => p - {key}
    case Some(s) => p[key := StrPref(s)]
  }

  /** Reading back after `PutString` gives the written string, or the caller's default once the key is removed. */
  lemma GetStringAfterPutString<K>(p: Store<K>, key: K, value: Option<string>, default: Option<string>)
    ensures GetString(PutString(p, key, value), key, default) == if value.Some? then value else default
  {
  }
}

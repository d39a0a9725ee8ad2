/** The browser's per-tab session storage, as both widgets see it.
    It is a map from keys to strings plus a flag that says whether the
    backend may be used at all: when it is unavailable (a privacy mode,
    a denied permission) every call on it raises an exception. */
module SessionStorage {

  datatype Option<+T> = None | Some(value: T)

  /** The outcome of a call that may raise an exception. */
  datatype Attempt<+T> = Ok(value: T) | Threw

  datatype Storage = Storage(items: map<string, string>, available: bool)

  /** `sessionStorage.getItem(key)`: null (None) for a missing key. */
  function GetItem(s: Storage, key: string): Attempt<Option<string>>
  {
    if !s.available then Threw
    else if key in s.items then Ok(Some(s.items[key]))
    else Ok(None)
  }

  /** `sessionStorage.setItem(key, val)`. */
  function SetItem(s: Storage, key: string, val: string): Attempt<Storage>
  {
    if !s.available then Threw else Ok(s.(items := s.items[key := val]))
  }

  /** `sessionStorage.removeItem(key)`. */
  function RemoveItem(s: Storage, key: string): Attempt<Storage>
  {
    if !s.available then Threw else Ok(s.(items := s.items - {key}))
  }

  /** What is written is what is read back, under that key and no other. */
  lemma GetAfterSet(s: Storage, key: string, val: string, other: string)
    requires SetItem(s, key, val).Ok?
    ensures GetItem(SetItem(s, key, val).value, key) == Ok(Some(val))
    ensures other != key ==> GetItem(SetItem(s, key, val).value, other) == GetItem(s, other)
  {
  }

  /** After a removal the key reads as missing; other keys are untouched. */
  lemma GetAfterRemove(s: Storage, key: string, other: string)
    requires RemoveItem(s, key).Ok?
    ensures GetItem(RemoveItem(s, key).value, key) == Ok(None)
    ensures other != key ==> GetItem(RemoveItem(s, key).value, other) == GetItem(s, other)
  {
  }
}

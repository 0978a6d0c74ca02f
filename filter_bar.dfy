/**
 * The shipment filter bar: each change builds a new filter record from the
 * current one and hands it to the page.
 */
module FilterBar {
  import opened Wrappers
  import opened Records

  /** `handleSearchChange`: `search` takes the typed text, even when empty; the other filters stay. */
  function SearchChange(filters: Record<string>, text: string): (r: Record<string>)
    requires UniqueKeys(filters)
    ensures Lookup(r, "search") == Some(text)
    ensures forall k :: k != "search" ==> Lookup(r, k) == Lookup(filters, k)
    ensures UniqueKeys(r)
    ensures HasKey(r, "search")
  {
    SetUnique(filters, "search", text);
    Set(filters, "search", text)
  }

  /**
   * `handleSelectChange`: a non-empty value is stored under the key; an empty
   * one removes the key, leaving the record exactly as it was otherwise.
   */
  function SelectChange(filters: Record<string>, key: string, value: string): (r: Record<string>)
    requires UniqueKeys(filters)
    ensures value != "" ==> Lookup(r, key) == Some(value)
    ensures value == "" ==> !HasKey(r, key) && r == Delete(filters, key)
    ensures forall k :: k != key ==> Lookup(r, k) == Lookup(filters, k)
    ensures UniqueKeys(r)
  {
    var withKey := Set(filters, key, value);
    SetUnique(filters, key, value);
    if value == "" then
      DeleteAfterSet(filters, key, value);
      DeleteUnique(withKey, key);
      Delete(withKey, key)
    else
      withKey
  }

  /** Clearing a select that was never set hands back the same filters. */
  lemma ClearUnsetSelect(filters: Record<string>, key: string)
    requires UniqueKeys(filters) && !HasKey(filters, key)
    ensures SelectChange(filters, key, "") == filters
  {
    DeleteAbsent(filters, key);
  }
}

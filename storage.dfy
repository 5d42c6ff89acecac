/** Browser local storage, abstracted to a map from key to the stored list (the JSON text
    encoding is not modelled: what is saved is what is parsed back). */
module Storage {

  /** The lazy initialiser: a slot nobody has written loads as the empty list; a written slot
      loads as the list stored there. */
  function Load<T>(slots: map<string, seq<T>>, key: string): (r: seq<T>)
    ensures key !in slots ==> r == []
    ensures key in slots ==> r == slots[key]
  {
    if key in slots then slots[key] else []
  }

  /** `setItem(key, …)`: the whole list replaces whatever the slot held. */
  function Save<T>(slots: map<string, seq<T>>, key: string, list: seq<T>): (r: map<string, seq<T>>)
    ensures r.Keys == slots.Keys + {key}
  {
    slots[key := list]
  }

  /** Loading after saving returns exactly the saved list, and saving leaves every other slot
      as it was. */
  lemma LoadAfterSave<T>(slots: map<string, seq<T>>, key: string, list: seq<T>, other: string)
    ensures Load(Save(slots, key, list), key) == list
    ensures other != key ==> Load(Save(slots, key, list), other) == Load(slots, other)
  {
  }
}

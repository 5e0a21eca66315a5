/** The browser's localStorage, reduced to what the two pages put in it, and the read-once handoff slot. */
module BrowserStorage {
  import opened Movies

  /** The key under which the home page hands the result list to the recommendations page. */
  const RECOMMENDATIONS_KEY: string := "movieRecommendations"

  /**
   * Key-value storage shared by both pages. Values are item lists: the JSON.stringify on
   * write and the JSON.parse on read are taken as the identity.
   */
  class LocalStorage {
    var entries: map<string, seq<Item>>

    constructor ()
      ensures entries == map[]
    {
      entries := map[];
    }

    /** `setItem`: overwrites whatever was stored under `key`. */
    method SetItem(key: string, value: seq<Item>)
      modifies this
      ensures entries == old(entries)[key := value]
    {
      entries := entries[key := value];
    }

    /** `getItem`: `None` plays the part of the `null` returned for a missing key. */
    method GetItem(key: string) returns (value: Option<seq<Item>>)
      ensures value.Some? <==> key in entries
      ensures value.Some? ==> value.value == entries[key]
    {
      value := if key in entries then Some(entries[key]) else None;
    }

    /** `removeItem`: a missing key is not an error. */
    method RemoveItem(key: string)
      modifies this
      ensures entries == old(entries) - {key}
    {
      entries := entries - {key};
    }
  }

  /** What one read of the slot yields and what storage holds afterwards. */
  datatype Taken = Taken(list: seq<Item>, rest: map<string, seq<Item>>)

  /**
   * The value-level meaning of the recommendations page's mount effect: take the stored
   * list out of the slot, or find nothing and leave storage as it was.
   */
  function TakeOnce(entries: map<string, seq<Item>>, key: string): (t: Taken)
    ensures key !in t.rest
    ensures t.rest.Keys == entries.Keys - {key}
    ensures forall k | k in t.rest :: t.rest[k] == entries[k]
    ensures key in entries ==> t.list == entries[key]
    ensures key !in entries ==> t.list == [] && t.rest == entries
  {
    if key in entries then Taken(entries[key], entries - {key}) else Taken([], entries)
  }

  /** Reading is once-only: a second read finds nothing and changes nothing. */
  lemma TakeTwiceFindsNothing(entries: map<string, seq<Item>>, key: string)
    ensures var first := TakeOnce(entries, key);
            TakeOnce(first.rest, key) == Taken([], first.rest)
  {
  }

  /** Store then read returns the last stored list: a store overwrites an unread earlier one. */
  lemma LastStoreWins(entries: map<string, seq<Item>>, key: string, earlier: seq<Item>, last: seq<Item>)
    ensures TakeOnce(entries[key := earlier][key := last], key) == Taken(last, entries - {key})
  {
  }
}

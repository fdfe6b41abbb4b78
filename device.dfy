/** The host-platform services the onboarding flow touches: the persisted
    key-value store (AsyncStorage) and the router's navigation history. */
module Device {
  import opened Js

  /** The storage key under which onboarding completion is persisted. */
  const ONBOARDING_KEY := "onboarding"

  class Host {
    /** The persisted key-value pairs, surviving app restarts. */
    var storage: map<string, string>
    /** Every route pushed on the router, oldest first. */
    var navigation: seq<string>

    constructor (stored: map<string, string>)
      ensures storage == stored && navigation == []
    {
      storage := stored;
      navigation := [];
    }

    /** `AsyncStorage.getItem(key)` once it has resolved: null for a missing key. */
    function GetItem(key: string): Option<string>
      reads this
    {
      if key in storage then Some(storage[key]) else None
    }

    /** `AsyncStorage.setItem(key, value)` once it has resolved. */
    method SetItem(key: string, value: string)
      modifies this`storage
      ensures storage == old(storage)[key := value]
      ensures GetItem(key) == Some(value)
      ensures forall k :: k != key ==> GetItem(k) == old(GetItem(k))
    {
      storage := storage[key := value];
    }

    /** `router.push(route)`. */
    method Push(route: string)
      modifies this`navigation
      ensures navigation == old(navigation) + [route]
    {
      navigation := navigation + [route];
    }
  }
}

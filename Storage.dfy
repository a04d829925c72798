/**
 * The browser's `localStorage`, holding JSON arrays under string keys, and whether the code runs
 * in a browser at all (`typeof window !== 'undefined'`).
 */
module Storage {
  import opened Common
  import opened MoodSchema

  /** One record of the interaction log; the ISO timestamp is kept as milliseconds. */
  datatype Interaction = Interaction(component: string, helpful: bool, feedback: Option<string>, timestamp: int)

  /** The array stored under `key`, or `[]` when the key holds nothing. */
  function ListAt<T>(lists: map<string, seq<T>>, key: string): seq<T> {
    if key in lists then lists[key] else []
  }

  /**
   * The storage, one map per kind of array stored. A key absent from a map has no item. JSON
   * encoding is not modelled: an item is the array it encodes.
   */
  class LocalStorage {
    const inBrowser: bool
    var moodLists: map<string, seq<MoodEntry>>
    var interactionLists: map<string, seq<Interaction>>

    constructor (inBrowser: bool)
      ensures this.inBrowser == inBrowser
      ensures moodLists == map[] && interactionLists == map[]
    {
      this.inBrowser := inBrowser;
      moodLists := map[];
      interactionLists := map[];
    }

    function MoodList(key: string): seq<MoodEntry>
      reads this
    {
      ListAt(moodLists, key)
    }

    function InteractionList(key: string): seq<Interaction>
      reads this
    {
      ListAt(interactionLists, key)
    }

    /** `localStorage.setItem(key, JSON.stringify(v))` for a mood array. */
    method SetMoodList(key: string, v: seq<MoodEntry>)
      modifies this
      ensures moodLists == old(moodLists)[key := v]
      ensures interactionLists == old(interactionLists)
    {
      moodLists := moodLists[key := v];
    }

    /** `localStorage.setItem(key, JSON.stringify(v))` for an interaction array. */
    method SetInteractionList(key: string, v: seq<Interaction>)
      modifies this
      ensures interactionLists == old(interactionLists)[key := v]
      ensures moodLists == old(moodLists)
    {
      interactionLists := interactionLists[key := v];
    }
  }
}

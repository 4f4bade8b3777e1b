/** Slider levels persisted in the service's preferences file, modelled as a
    finite map from key to integer; absent keys read as the defaults. */
module Settings {

  const KEY_SAVED_SPEED_PROGRESS: string := "saved_speed_progress"
  const KEY_SAVED_SIZE_PROGRESS: string := "saved_size_progress"
  /** Speed level 4, i.e. `scrollSpeed` 5. */
  const DEFAULT_SPEED_PROGRESS: int := 4
  /** Size level 14. */
  const DEFAULT_SIZE_PROGRESS: int := 14

  type Store = map<string, int>

  /** The two levels the store holds: speed slider and size slider. */
  datatype Levels = Levels(speed: int, size: int)

  /** `getInt(key, default)`. */
  function GetInt(store: Store, key: string, default: int): int
  {
    if key in store then store[key] else default
  }

  /** `putInt(key, value)` followed by `getInt`: the written key reads the
      value written, whatever the default; every other key reads as before. */
  lemma ReadAfterWrite(store: Store, key: string, value: int, other: string, default: int)
    ensures GetInt(store[key := value], key, default) == value
    ensures other != key ==> GetInt(store[key := value], other, default) == GetInt(store, other, default)
  {
  }

  /** `loadSettings`: both levels, each falling back to its default. */
  function Load(store: Store): Levels
  {
    Levels(GetInt(store, KEY_SAVED_SPEED_PROGRESS, DEFAULT_SPEED_PROGRESS),
           GetInt(store, KEY_SAVED_SIZE_PROGRESS, DEFAULT_SIZE_PROGRESS))
  }

  /** `saveSettings`: writes both levels and leaves every other key alone;
      loading afterwards gives back exactly the levels saved. */
  function Save(store: Store, levels: Levels): (saved: Store)
    ensures saved.Keys == store.Keys + {KEY_SAVED_SPEED_PROGRESS, KEY_SAVED_SIZE_PROGRESS}
    ensures forall k :: k in store && k != KEY_SAVED_SPEED_PROGRESS && k != KEY_SAVED_SIZE_PROGRESS ==>
      saved[k] == store[k]
    ensures Load(saved) == levels
  {
    store[KEY_SAVED_SPEED_PROGRESS := levels.speed][KEY_SAVED_SIZE_PROGRESS := levels.size]
  }

  /** A fresh install reads speed level 4 and size level 14. */
  lemma LoadEmptyStore()
    ensures Load(map[]) == Levels(DEFAULT_SPEED_PROGRESS, DEFAULT_SIZE_PROGRESS)
  {
  }

  /** Saving what was just loaded from a store that already holds both keys
      changes nothing. */
  lemma SaveLoadedIsIdentity(store: Store)
    requires KEY_SAVED_SPEED_PROGRESS in store && KEY_SAVED_SIZE_PROGRESS in store
    ensures Save(store, Load(store)) == store
  {
  }

  /** Only the last save counts. */
  lemma LastSaveWins(store: Store, first: Levels, second: Levels)
    ensures Save(Save(store, first), second) == Save(store, second)
  {
  }
}

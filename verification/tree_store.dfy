/** The shared mode cell (Tree.store.ts): one value, `CHAOS` or `FORMED`,
    with a setter and a toggle. Every reader sees the last value written. */
module TreeStore {

  datatype Mode = Chaos | Formed

  datatype Store = Store(mode: Mode)

  /** The other mode. */
  function Opposite(m: Mode): Mode {
    if m == Formed then Chaos else Formed
  }

  /** The store as created at start-up. */
  function Initial(): (s: Store)
    ensures s.mode == Formed
  {
    Store(Formed)
  }

  /** `setMode(m)`: afterwards the mode is `m`, whatever it was. */
  function SetMode(s: Store, m: Mode): (r: Store)
    ensures r.mode == m
  {
    s.(mode := m)
  }

  /** `toggleMode()`: FORMED becomes CHAOS and anything else becomes FORMED. */
  function ToggleMode(s: Store): (r: Store)
    ensures r.mode != s.mode
    ensures s.mode == Formed ==> r.mode == Chaos
    ensures s.mode == Chaos ==> r.mode == Formed
  {
    s.(mode := if s.mode == Formed then Chaos else Formed)
  }

  /** Setting the same mode twice is the same as setting it once. */
  lemma SetModeIdempotent(s: Store, m: Mode)
    ensures SetMode(SetMode(s, m), m) == SetMode(s, m)
  {
  }

  /** The last write wins: an earlier write is forgotten. */
  lemma SetModeLastWins(s: Store, m1: Mode, m2: Mode)
    ensures SetMode(SetMode(s, m1), m2) == SetMode(s, m2)
  {
  }

  /** Toggling twice restores the original store. */
  lemma ToggleTwice(s: Store)
    ensures ToggleMode(ToggleMode(s)) == s
  {
  }

  /** Toggling is setting the opposite mode. */
  lemma ToggleIsSetOpposite(s: Store)
    ensures ToggleMode(s) == SetMode(s, Opposite(s.mode))
  {
  }
}

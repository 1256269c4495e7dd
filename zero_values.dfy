/** The shape every `applyDefaults` of the configuration is built from: a
    zero value replaced by a default, any other value kept. */
module ZeroValues {

  /** `if v == "" { v = d }`. */
  function OrDefault(v: string, d: string): string {
    if v == "" then d else v
  }

  /** `if v == 0 { v = d }`. */
  function OrDefaultInt(v: int, d: int): int {
    if v == 0 then d else v
  }
}

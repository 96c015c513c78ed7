/** The mod's configuration record: one boolean per checkbox of its options section. */
module Options {

  /** The automations the user can switch on or off. */
  datatype CheckboxOption = CloseDoor | ManageGroundContainer

  /**
   * The global data record. Its declared type gives every option a boolean,
   * but a key the user has never toggled is simply absent at run time, so the
   * record is a partial map.
   */
  type GlobalData = map<CheckboxOption, bool>

  /** A flag read the way the mod reads it (`!!flag`, `!flag`): an absent key is false. */
  predicate Flag(g: GlobalData, opt: CheckboxOption)
  {
    opt in g && g[opt]
  }

  /** Writing a flag and reading it back gives what was written, and leaves every other flag as it was. */
  lemma FlagAfterWrite(g: GlobalData, opt: CheckboxOption, checked: bool, other: CheckboxOption)
    ensures Flag(g[opt := checked], opt) == checked
    ensures other != opt ==> Flag(g[opt := checked], other) == Flag(g, other)
  {
  }
}

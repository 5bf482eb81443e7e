/** The toggle switches of the operator pages. A click flips the element's
    `active` class; which switches are lit is held as a set. */
module Switches {

  /** The switches the click handlers distinguish; any other `.switch`
      element only toggles its lit state. */
  datatype SwitchId = Headlamp | StopMode | Avoid | Follow | SlideLock | JoystickMode | OtherSwitch(id: string)

  /** The lit switches after a click on `id`: `classList.toggle('active')`. */
  function Toggle(lit: set<SwitchId>, id: SwitchId): (r: set<SwitchId>)
    ensures id in r <==> id !in lit
    ensures forall other :: other != id ==> (other in r <==> other in lit)
  {
    if id in lit then lit - {id} else lit + {id}
  }

  /** Clicking a switch twice restores every switch. */
  lemma ToggleTwice(lit: set<SwitchId>, id: SwitchId)
    ensures Toggle(Toggle(lit, id), id) == lit
  {
  }
}

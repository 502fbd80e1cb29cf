/** Mouse buttons and their platform codes. */
module InputEvents {
  import opened Common

  datatype MouseButton = Left | Middle | Right | Back | Forward | Other(code: byte)

  function ButtonCode(button: MouseButton): byte {
    match button
    case Left => 1
    case Middle => 2
    case Right => 3
    case Back => 4
    case Forward => 5
    case Other(code) => code
  }

  function ButtonOf(code: byte): MouseButton {
    if code == 1 then Left else if code == 2 then Middle else if code == 3 then Right
    else if code == 4 then Back else if code == 5 then Forward else Other(code)
  }

  /** The order in which buttons are listed: by code, a named button before a numbered one of the same code. */
  function ButtonRank(button: MouseButton): nat {
    2 * ButtonCode(button) + if button.Other? then 1 else 0
  }

  function ButtonOfRank(rank: nat): MouseButton {
    var code := rank / 2 % 256;
    if rank % 2 == 1 then Other(code) else ButtonOf(code)
  }

  lemma ButtonRankInverse(button: MouseButton)
    ensures ButtonOfRank(ButtonRank(button)) == button
  {
  }
}

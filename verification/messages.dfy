/**
 * The terminal events the screens react to, abstracted from bubbletea's
 * `tea.Msg`: a key press, a window resize, or anything else. Printable
 * characters are `Runes`, so the key whose string is "j" is `Runes('j')`.
 */
module Messages {

  datatype Key =
    | Runes(c: char)
    | Space
    | Enter
    | Esc
    | Delete
    | Up
    | Down
    | Left
    | Right
    | CtrlC
    | CtrlP
    | CtrlQ
    | CtrlR
    | CtrlS
    | CtrlU
    | OtherKey

  datatype Msg =
    | KeyMsg(key: Key)
    | WindowSizeMsg(width: int, height: int)
    | OtherMsg
}

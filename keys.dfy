/** `handleGlobalKeys`: which single action a key press triggers. */
module Keys {

  /** The fields of a `KeyboardEvent` the handlers look at. */
  datatype KeyEvent = KeyEvent(key: string, altKey: bool, shiftKey: bool, ctrlKey: bool)

  datatype KeyAction =
    | Ignored               // no rule matched
    | FocusInput            // Alt+S: focus the text box and show a toast
    | ToggleHistoryPanel    // Alt+H
    | RequestSubmit         // Alt+Enter: submit the form
    | CollapseHistoryPanel  // Escape while the history is expanded

  /** `e.key.toLowerCase() === letter`; only the letter and its capital lower-case to it. */
  predicate KeyIs(key: string, letter: char, capital: char) {
    key == [letter] || key == [capital]
  }

  /** The static script's rules, tried in order, the first match returning. */
  function StaticKeyAction(e: KeyEvent, expanded: bool): (a: KeyAction)
    ensures a == FocusInput <==> e.altKey && !e.shiftKey && !e.ctrlKey && KeyIs(e.key, 's', 'S')
    ensures a == ToggleHistoryPanel <==> e.altKey && KeyIs(e.key, 'h', 'H')
    ensures a == RequestSubmit <==> e.altKey && e.key == "Enter"
    ensures a == CollapseHistoryPanel <==> e.key == "Escape" && expanded
  {
    if e.altKey && !e.shiftKey && !e.ctrlKey && KeyIs(e.key, 's', 'S') then FocusInput
    else if e.altKey && KeyIs(e.key, 'h', 'H') then ToggleHistoryPanel
    else if e.altKey && e.key == "Enter" then RequestSubmit
    else if e.key == "Escape" && expanded then CollapseHistoryPanel
    else Ignored
  }

  /** The public script only knows Escape. */
  function PublicKeyAction(e: KeyEvent, expanded: bool): (a: KeyAction)
    ensures a == Ignored || a == CollapseHistoryPanel
    ensures a == CollapseHistoryPanel <==> e.key == "Escape" && expanded
  {
    if e.key == "Escape" && expanded then CollapseHistoryPanel else Ignored
  }

  /** The guards never overlap: the fixed order settles nothing, each action's
      condition is its own rule. */
  lemma StaticRulesAreDisjoint(e: KeyEvent)
    ensures !(KeyIs(e.key, 's', 'S') && KeyIs(e.key, 'h', 'H'))
    ensures !(KeyIs(e.key, 's', 'S') && e.key == "Enter") && !(KeyIs(e.key, 'h', 'H') && e.key == "Enter")
    ensures !(e.key == "Escape" && (KeyIs(e.key, 's', 'S') || KeyIs(e.key, 'h', 'H') || e.key == "Enter"))
  {
  }

  /** Escape on a collapsed panel does nothing in either script. */
  lemma EscapeWhileCollapsedIsIgnored(e: KeyEvent)
    requires e.key == "Escape"
    ensures StaticKeyAction(e, false) == Ignored && PublicKeyAction(e, false) == Ignored
  {
  }
}

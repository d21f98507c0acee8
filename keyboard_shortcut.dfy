/** The keyboard shortcut hook's key handler: when a key press matches the
    shortcut's key and modifiers, the default is prevented and the callback
    runs. Registering the listener on the window is not modelled. */
module KeyboardShortcut {
  import opened Common

  /** The requested modifiers; a modifier left out is `false`. */
  datatype Modifiers = Modifiers(ctrl: bool, meta: bool, shift: bool, alt: bool)

  /** The parts of a key-down event the handler reads. */
  datatype KeyEvent = KeyEvent(key: string, ctrlKey: bool, metaKey: bool, shiftKey: bool, altKey: bool)

  /** `modifierMatch`: with Cmd or Ctrl requested, either key will do and
      Shift and Alt must be as requested; otherwise all four must be exactly
      as requested. */
  predicate ModifierMatch(m: Modifiers, e: KeyEvent)
  {
    var ctrlMatch := if m.ctrl then e.ctrlKey else !e.ctrlKey;
    var metaMatch := if m.meta then e.metaKey else !e.metaKey;
    var shiftMatch := if m.shift then e.shiftKey else !e.shiftKey;
    var altMatch := if m.alt then e.altKey else !e.altKey;
    if m.meta || m.ctrl then (e.metaKey || e.ctrlKey) && shiftMatch && altMatch
    else ctrlMatch && metaMatch && shiftMatch && altMatch
  }

  /** The shortcut fires: same key ignoring case, and the modifiers match. */
  predicate Matches(key: string, m: Modifiers, e: KeyEvent)
  {
    Lower(e.key) == Lower(key) && ModifierMatch(m, e)
  }

  /** With Cmd or Ctrl requested, pressing either one (or both) satisfies the
      request, and Shift and Alt must equal what was requested. */
  lemma CmdCtrlInterchangeable(m: Modifiers, e: KeyEvent)
    requires m.meta || m.ctrl
    ensures ModifierMatch(m, e) <==> (e.metaKey || e.ctrlKey) && e.shiftKey == m.shift && e.altKey == m.alt
  {
  }

  /** With neither requested, each flag must equal the request, so pressing a
      modifier that was not asked for blocks the shortcut. */
  lemma ExactWithoutCmdCtrl(m: Modifiers, e: KeyEvent)
    requires !m.meta && !m.ctrl
    ensures ModifierMatch(m, e) <==> !e.ctrlKey && !e.metaKey && e.shiftKey == m.shift && e.altKey == m.alt
    ensures (e.shiftKey && !m.shift) || (e.altKey && !m.alt) || e.ctrlKey || e.metaKey ==> !ModifierMatch(m, e)
  {
  }

  /** The key comparison ignores case on both sides. */
  lemma KeyCaseInsensitive(key: string, m: Modifiers, e: KeyEvent)
    ensures Matches(key, m, e) == Matches(Lower(key), m, e.(key := Lower(e.key)))
  {
    LowerIdempotent(key);
    LowerIdempotent(e.key);
  }

  /** What the handler does with one event. */
  datatype Outcome = Outcome(defaultPrevented: bool, callbackRun: bool)

  /** `handleKeyDown`. */
  function HandleKeyDown(key: string, m: Modifiers, e: KeyEvent): (o: Outcome)
    ensures o.callbackRun <==> Lower(e.key) == Lower(key) && ModifierMatch(m, e)
    ensures o.defaultPrevented <==> o.callbackRun
  {
    if Lower(e.key) == Lower(key) && ModifierMatch(m, e) then Outcome(true, true) else Outcome(false, false)
  }

  /** A Cmd+K shortcut fires on Ctrl+`K` and on Cmd+`k`, but not
      on a bare `k` nor with Alt held. */
  lemma SearchShortcut()
    ensures HandleKeyDown("k", Modifiers(false, true, false, false), KeyEvent("K", true, false, false, false)).callbackRun
    ensures HandleKeyDown("k", Modifiers(false, true, false, false), KeyEvent("k", false, true, false, false)).callbackRun
    ensures !HandleKeyDown("k", Modifiers(false, true, false, false), KeyEvent("k", false, false, false, false)).callbackRun
    ensures !HandleKeyDown("k", Modifiers(false, true, false, false), KeyEvent("k", true, false, false, true)).callbackRun
  {
  }
}

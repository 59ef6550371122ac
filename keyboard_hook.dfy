/**
 * The key-event normalizer of the low-level keyboard hook. The process-wide
 * state is the three modifier flags; every key event either overwrites one
 * flag (a modifier key) or, on a key-down of any other key, builds a hotkey
 * token such as "CTRL+SHIFT+A" and hands it to the registered action.
 */
module KeyboardHook {
  import opened Wrappers
  import opened Text

  /** The keyboard messages the hook is called with (the `wParam` argument). */
  const WM_KEYDOWN: int := 0x0100
  const WM_KEYUP: int := 0x0101
  const WM_SYSKEYDOWN: int := 0x0104
  const WM_SYSKEYUP: int := 0x0105

  /**
   * A WPF key, reduced to what the hook distinguishes: the six modifier keys
   * and every other key with the name its enumeration value prints as.
   */
  datatype Key = LeftShift | RightShift | LeftCtrl | RightCtrl | LeftAlt | RightAlt | Other(name: string)
  {
    /** The key's `ToString()` name; a modifier's is never empty and never holds '+'. */
    function Name(): (r: string)
      ensures !Other? ==> |r| > 0 && '+' !in r
      ensures Other? ==> r == name
    {
      match this
      case LeftShift => "LeftShift"
      case RightShift => "RightShift"
      case LeftCtrl => "LeftCtrl"
      case RightCtrl => "RightCtrl"
      case LeftAlt => "LeftAlt"
      case RightAlt => "RightAlt"
      case Other(n) => n
    }
  }

  datatype Modifier = Ctrl | Alt | Shift

  /** Which flag a key drives; left and right variants share one. */
  function ModifierOf(key: Key): (r: Option<Modifier>)
    ensures r.None? <==> key.Other?
    ensures r == Some(Shift) <==> key == LeftShift || key == RightShift
    ensures r == Some(Ctrl) <==> key == LeftCtrl || key == RightCtrl
    ensures r == Some(Alt) <==> key == LeftAlt || key == RightAlt
  {
    match key
    case LeftShift | RightShift => Some(Shift)
    case LeftCtrl | RightCtrl => Some(Ctrl)
    case LeftAlt | RightAlt => Some(Alt)
    case Other(_) => None
  }

  datatype ModifierState = ModifierState(ctrl: bool, alt: bool, shift: bool)
  {
    function Get(m: Modifier): bool {
      match m
      case Ctrl => ctrl
      case Alt => alt
      case Shift => shift
    }

    /** These flags with the one for `m` overwritten by `b`. */
    function Set(m: Modifier, b: bool): (f: ModifierState)
      ensures f.Get(m) == b
      ensures forall o :: o != m ==> f.Get(o) == Get(o)
    {
      match m
      case Ctrl => this.(ctrl := b)
      case Alt => this.(alt := b)
      case Shift => this.(shift := b)
    }
  }

  /** A key-down or system-key-down message; every other message counts as "up". */
  predicate IsDown(wParam: int) {
    wParam == WM_KEYDOWN || wParam == WM_SYSKEYDOWN
  }

  /** One call of the hook: the hook code, the message and the decoded key. */
  datatype Event = Event(nCode: int, wParam: int, key: Key)

  /**
   * The modifier flags after one event: a flag takes the event's down-ness
   * when the event (with a non-negative hook code) is on one of its keys,
   * and keeps its value otherwise.
   */
  function Next(f: ModifierState, e: Event): (r: ModifierState)
    ensures forall m :: r.Get(m) == if e.nCode >= 0 && ModifierOf(e.key) == Some(m) then IsDown(e.wParam) else f.Get(m)
  {
    if e.nCode < 0 then f
    else match ModifierOf(e.key)
      case Some(m) => f.Set(m, IsDown(e.wParam))
      case None => f
  }

  /**
   * The token one event produces under flags `f`, if any. A token is only
   * produced by a key press, and never together with a change of the flags.
   */
  function Emit(f: ModifierState, e: Event): (r: Option<string>)
    ensures r.Some? ==> e.nCode >= 0 && IsDown(e.wParam) && e.key.Name() != ""
    ensures r.Some? ==> Next(f, e) == f
  {
    if e.nCode >= 0 && ModifierOf(e.key).None? && IsDown(e.wParam) && e.key.Name() != ""
    then Some(Token(f, e.key.Name()))
    else None
  }

  /** The names of the set modifiers, always in the order CTRL, ALT, SHIFT. */
  function ModifierNames(f: ModifierState): seq<string> {
    (if f.ctrl then ["CTRL"] else []) + (if f.alt then ["ALT"] else []) + (if f.shift then ["SHIFT"] else [])
  }

  /**
   * The hotkey token for a key name under flags `f`: it is at least as long
   * as the name, and with no modifier set it is just the upper-cased name.
   */
  function Token(f: ModifierState, name: string): (r: string)
    ensures |name| <= |r|
    ensures f == ModifierState(false, false, false) ==> r == ToUpper(name)
  {
    JoinEndsWithLast(ModifierNames(f) + [name], '+');
    ToUpper(Join(ModifierNames(f) + [name], '+'))
  }

  /** The text before the key name in a token: one "NAME+" per set modifier. */
  function Prefix(f: ModifierState): string {
    (if f.ctrl then "CTRL+" else "") + (if f.alt then "ALT+" else "") + (if f.shift then "SHIFT+" else "")
  }

  /** Each name followed by '+', concatenated. */
  function JoinWithTrailing(names: seq<string>): string {
    if names == [] then "" else names[0] + "+" + JoinWithTrailing(names[1..])
  }

  /** Joining modifier names and a key name is each modifier name followed by '+', then the key name. */
  lemma {:induction false} JoinModifiers(names: seq<string>, name: string)
    ensures Join(names + [name], '+') == JoinWithTrailing(names) + name
  {
    if names != [] {
      JoinModifiers(names[1..], name);
      assert (names + [name])[1..] == names[1..] + [name];
      JoinCons(names[0], names[1..] + [name], '+');
      assert [names[0]] + (names[1..] + [name]) == names + [name];
    } else {
      assert names + [name] == [name];
    }
  }

  /** JoinWithTrailing distributes over concatenation. */
  lemma {:induction false} JoinWithTrailingAppend(a: seq<string>, b: seq<string>)
    ensures JoinWithTrailing(a + b) == JoinWithTrailing(a) + JoinWithTrailing(b)
  {
    if a != [] {
      JoinWithTrailingAppend(a[1..], b);
      assert (a + b)[1..] == a[1..] + b;
    } else {
      assert a + b == b;
    }
  }

  /** The text before the key name is what joining the modifier names leaves. */
  lemma PrefixOfNames(f: ModifierState)
    ensures JoinWithTrailing(ModifierNames(f)) == Prefix(f)
  {
    var c := if f.ctrl then ["CTRL"] else [];
    var a := if f.alt then ["ALT"] else [];
    var s := if f.shift then ["SHIFT"] else [];
    JoinWithTrailingAppend(c + a, s);
    JoinWithTrailingAppend(c, a);
  }

  /** The prefix is already upper case. */
  lemma PrefixUpper(f: ModifierState)
    ensures ToUpper(Prefix(f)) == Prefix(f)
  {
    var c := if f.ctrl then "CTRL+" else "";
    var a := if f.alt then "ALT+" else "";
    var s := if f.shift then "SHIFT+" else "";
    ToUpperFixed(c);
    ToUpperFixed(a);
    ToUpperFixed(s);
    ToUpperAppend(c + a, s);
    ToUpperAppend(c, a);
  }

  /**
   * A token spelled out: "CTRL+" if ctrl is set, "ALT+" if alt is set,
   * "SHIFT+" if shift is set, then the upper-cased key name.
   */
  lemma TokenSpelledOut(f: ModifierState, name: string)
    ensures Token(f, name) == Prefix(f) + ToUpper(name)
  {
    JoinModifiers(ModifierNames(f), name);
    PrefixOfNames(f);
    ToUpperAppend(Prefix(f), name);
    PrefixUpper(f);
  }

  /** No modifier name contains the separator. */
  lemma ModifierNamesPlusFree(f: ModifierState)
    ensures forall i :: 0 <= i < |ModifierNames(f)| ==> '+' !in ModifierNames(f)[i]
  {
    var c := if f.ctrl then ["CTRL"] else [];
    var a := if f.alt then ["ALT"] else [];
    var s := if f.shift then ["SHIFT"] else [];
    assert ModifierNames(f) == c + a + s;
    assert forall x :: x in ModifierNames(f) ==> x == "CTRL" || x == "ALT" || x == "SHIFT";
  }

  /** Splitting a token at '+' gives back the modifier names and the upper-cased key name. */
  lemma TokenParts(f: ModifierState, name: string)
    requires '+' !in name
    ensures Split(Token(f, name), '+') == ModifierNames(f) + [ToUpper(name)]
  {
    TokenSpelledOut(f, name);
    PrefixOfNames(f);
    JoinModifiers(ModifierNames(f), ToUpper(name));
    ToUpperKeepsAbsent(name, '+');
    ModifierNamesPlusFree(f);
    SplitJoin(ModifierNames(f) + [ToUpper(name)], '+');
  }

  /** Each modifier name is present exactly when its flag is set. */
  lemma NamesMembership(f: ModifierState)
    ensures f.ctrl <==> "CTRL" in ModifierNames(f)
    ensures f.alt <==> "ALT" in ModifierNames(f)
    ensures f.shift <==> "SHIFT" in ModifierNames(f)
  {
    var c := if f.ctrl then ["CTRL"] else [];
    var a := if f.alt then ["ALT"] else [];
    var s := if f.shift then ["SHIFT"] else [];
    assert ModifierNames(f) == c + a + s;
    assert |"CTRL"| == 4 && |"ALT"| == 3 && |"SHIFT"| == 5;
  }

  /** A token contains '+' exactly when some modifier flag is set. */
  lemma TokenHasPlus(f: ModifierState, name: string)
    requires '+' !in name
    ensures '+' in Token(f, name) <==> f != ModifierState(false, false, false)
  {
    var parts := ModifierNames(f) + [name];
    ModifierNamesPlusFree(f);
    assert forall i :: 0 <= i < |parts| ==> '+' !in parts[i];
    JoinHasSeparator(parts, '+');
    ToUpperKeepsAbsent(Join(parts, '+'), '+');
  }

  /** The modifier names determine the flags. */
  lemma ModifierNamesInjective(f: ModifierState, g: ModifierState)
    requires ModifierNames(f) == ModifierNames(g)
    ensures f == g
  {
    NamesMembership(f);
    NamesMembership(g);
  }

  /**
   * A token identifies its chord: two tokens built from '+'-free key names are
   * equal exactly when the flags are equal and the names agree up to case.
   */
  lemma TokenIdentifiesChord(f: ModifierState, n: string, g: ModifierState, m: string)
    requires '+' !in n && '+' !in m
    ensures Token(f, n) == Token(g, m) <==> f == g && ToUpper(n) == ToUpper(m)
  {
    TokenSpelledOut(f, n);
    TokenSpelledOut(g, m);
    if Token(f, n) == Token(g, m) {
      TokenParts(f, n);
      TokenParts(g, m);
      var a, b := ModifierNames(f) + [ToUpper(n)], ModifierNames(g) + [ToUpper(m)];
      assert a == b;
      assert |ModifierNames(f)| == |ModifierNames(g)|;
      assert ModifierNames(f) == a[..|a| - 1] == b[..|b| - 1] == ModifierNames(g);
      ModifierNamesInjective(f, g);
    }
  }

  /** The flags after a sequence of events, processed in order. */
  function Run(f: ModifierState, events: seq<Event>): ModifierState {
    if events == [] then f else Next(Run(f, events[..|events| - 1]), events[|events| - 1])
  }

  /** The flag `m` as set by the latest event on one of its keys, or `init` if none. */
  function Latest(events: seq<Event>, m: Modifier, init: bool): bool {
    if events == [] then init
    else
      var e := events[|events| - 1];
      if e.nCode >= 0 && ModifierOf(e.key) == Some(m) then IsDown(e.wParam)
      else Latest(events[..|events| - 1], m, init)
  }

  /**
   * No stale state: after any sequence of events each flag is what the most
   * recent event on either of its keys made it, whatever came in between.
   */
  lemma {:induction false} RunReflectsLatest(f: ModifierState, events: seq<Event>, m: Modifier)
    ensures Run(f, events).Get(m) == Latest(events, m, f.Get(m))
  {
    if events != [] {
      RunReflectsLatest(f, events[..|events| - 1], m);
    }
  }

  /**
   * The order in which modifiers were pressed does not matter: two event
   * sequences that end each flag the same way leave the same flags, and so
   * give the same token for every key.
   */
  lemma PressOrderIrrelevant(f: ModifierState, a: seq<Event>, b: seq<Event>, name: string)
    requires forall m :: Latest(a, m, f.Get(m)) == Latest(b, m, f.Get(m))
    ensures Run(f, a) == Run(f, b)
    ensures Token(Run(f, a), name) == Token(Run(f, b), name)
  {
    RunReflectsLatest(f, a, Ctrl);
    RunReflectsLatest(f, b, Ctrl);
    RunReflectsLatest(f, a, Alt);
    RunReflectsLatest(f, b, Alt);
    RunReflectsLatest(f, a, Shift);
    RunReflectsLatest(f, b, Shift);
  }

  /**
   * Left and right variants share one flag: releasing one of them clears it
   * even while the other is still held down.
   */
  lemma SharedFlag(f: ModifierState, held: Key, released: Key, nCode: int, wParam: int)
    requires nCode >= 0 && !IsDown(wParam)
    requires held != released && ModifierOf(held) == ModifierOf(released) && ModifierOf(held).Some?
    ensures !Run(f, [Event(0, WM_KEYDOWN, held), Event(nCode, wParam, released)]).Get(ModifierOf(held).value)
  {
    var evs := [Event(0, WM_KEYDOWN, held), Event(nCode, wParam, released)];
    RunReflectsLatest(f, evs, ModifierOf(held).value);
  }

  /**
   * What one event does, case by case: a negative hook code changes nothing;
   * a modifier event overwrites its own flag only and emits nothing; any
   * other key leaves the flags alone and emits nothing unless pressed.
   */
  lemma EventEffects(f: ModifierState, e: Event)
    ensures e.nCode < 0 ==> Next(f, e) == f && Emit(f, e) == None
    ensures e.nCode >= 0 && ModifierOf(e.key).Some? ==>
              Next(f, e).Get(ModifierOf(e.key).value) == IsDown(e.wParam) &&
              (forall o :: o != ModifierOf(e.key).value ==> Next(f, e).Get(o) == f.Get(o)) &&
              Emit(f, e) == None
    ensures ModifierOf(e.key).None? ==> Next(f, e) == f
    ensures !IsDown(e.wParam) ==> Emit(f, e) == None
  {
  }

  /**
   * A named non-modifier key pressed (key-down or system-key-down) with a
   * non-negative hook code emits exactly one token, and that token is the
   * prefix of the set modifiers followed by the upper-cased key name.
   */
  lemma EmitSpelledOut(f: ModifierState, e: Event)
    ensures Emit(f, e).Some? <==>
              e.nCode >= 0 && ModifierOf(e.key).None? && IsDown(e.wParam) && e.key.Name() != ""
    ensures Emit(f, e).Some? ==> Emit(f, e).value == Prefix(f) + ToUpper(e.key.Name())
  {
    TokenSpelledOut(f, e.key.Name());
  }

  /** The hook's process-wide state and the tokens its action has received. */
  class Hook {
    var ctrlPressed: bool
    var altPressed: bool
    var shiftPressed: bool
    /** The parts of the last token built, before joining and upper-casing. */
    var keys: seq<string>
    /** Whether an action is registered (`action` is not null). */
    var hasAction: bool
    /** Every token passed to the action so far, oldest first. */
    var delivered: seq<string>

    function State(): ModifierState
      reads this
    {
      ModifierState(ctrlPressed, altPressed, shiftPressed)
    }

    constructor ()
      ensures State() == ModifierState(false, false, false)
      ensures keys == [] && !hasAction && delivered == []
    {
      ctrlPressed, altPressed, shiftPressed := false, false, false;
      keys := [];
      hasAction := false;
      delivered := [];
    }

    /** Registers the action; installing the OS hook itself is not modelled. */
    method SetHook()
      modifies this
      ensures hasAction
      ensures State() == old(State()) && keys == old(keys) && delivered == old(delivered)
    {
      hasAction := true;
    }

    /**
     * Rebuilds `keys` from scratch for one key press (modifier names in the
     * order CTRL, ALT, SHIFT, then the key name) and returns the joined,
     * upper-cased token.
     */
    method BuildToken(keyString: string) returns (token: string)
      modifies this
      ensures keys == ModifierNames(State()) + [keyString]
      ensures token == Token(State(), keyString)
      ensures State() == old(State()) && hasAction == old(hasAction) && delivered == old(delivered)
    {
      keys := [];
      if ctrlPressed {
        keys := keys + ["CTRL"];
      }
      if altPressed {
        keys := keys + ["ALT"];
      }
      if shiftPressed {
        keys := keys + ["SHIFT"];
      }
      keys := keys + [keyString];
      token := ToUpper(Join(keys, '+'));
    }

    /** One call of the low-level keyboard hook. */
    method HookCallback(nCode: int, wParam: int, key: Key)
      modifies this
      ensures State() == Next(old(State()), Event(nCode, wParam, key))
      ensures hasAction == old(hasAction)
      ensures delivered == old(delivered) + (if hasAction then ToSeq(Emit(old(State()), Event(nCode, wParam, key))) else [])
      ensures keys == if Emit(old(State()), Event(nCode, wParam, key)).Some?
                      then ModifierNames(old(State())) + [key.Name()] else old(keys)
    {
      if nCode >= 0 {
        var isKeyDown := wParam == WM_KEYDOWN;
        var isSystemKeyDown := wParam == WM_SYSKEYDOWN;
        match key {
          case LeftShift | RightShift =>
            shiftPressed := isKeyDown || isSystemKeyDown;
          case LeftCtrl | RightCtrl =>
            ctrlPressed := isKeyDown || isSystemKeyDown;
          case LeftAlt | RightAlt =>
            altPressed := isKeyDown || isSystemKeyDown;
          case Other(_) =>
            if isKeyDown || isSystemKeyDown {
              var keyString := key.Name();
              if keyString != "" {
                var token := BuildToken(keyString);
                if hasAction {
                  delivered := delivered + [token];
                }
              }
            }
        }
      }
    }
  }
}

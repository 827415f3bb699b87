/** `HotkeyManager` of src/hotkeys.py: hotkey strings parsed into key sets,
    the table of handlers, and the set of keys held down, updated on every
    press and release. The keyboard listener is an event source outside the
    model; its presence and stopping are flags. */
module Hotkeys {
  import opened Wrappers
  import opened Text

  // ------------------------------------------------------------- parsing

  /** `frozenset(hotkey_str.lower().split('+'))`. */
  function ParseHotkey(s: string): (combo: set<string>)
    ensures combo != {}
    ensures forall p :: p in combo ==> '+' !in p
  {
    var parts := Split(Lower(s), '+');
    var combo := set p | p in parts;
    assert parts[0] in combo;
    assert forall p :: p in parts ==> '+' !in p by {
      forall p | p in parts ensures '+' !in p {
        var i :| 0 <= i < |parts| && parts[i] == p;
      }
    }
    combo
  }

  /** Capitals do not matter. */
  lemma ParseCaseInsensitive(s: string)
    ensures ParseHotkey(Lower(s)) == ParseHotkey(s)
  {
    LowerIdempotent(s);
  }

  function LowerAll(parts: seq<string>): (r: seq<string>)
    ensures |r| == |parts| && forall i :: 0 <= i < |parts| ==> r[i] == Lower(parts[i])
  {
    seq(|parts|, i requires 0 <= i < |parts| => Lower(parts[i]))
  }

  /** Lower-casing a join of parts lower-cases each part. */
  lemma {:induction false} LowerJoin(parts: seq<string>)
    ensures Lower(Join(parts, '+')) == Join(LowerAll(parts), '+')
    decreases |parts|
  {
    if |parts| > 1 {
      LowerJoin(parts[1..]);
      assert LowerAll(parts[1..]) == LowerAll(parts)[1..];
      LowerConcat(parts[0] + ['+'], Join(parts[1..], '+'));
      LowerConcat(parts[0], ['+']);
    }
  }

  /** A hotkey written as parts joined by `+` is the set of those parts,
      lower-cased. */
  lemma ParseJoin(parts: seq<string>)
    requires |parts| > 0
    requires forall i :: 0 <= i < |parts| ==> '+' !in parts[i]
    ensures ParseHotkey(Join(parts, '+')) == set p | p in LowerAll(parts)
  {
    var lowered := LowerAll(parts);
    LowerJoin(parts);
    forall i | 0 <= i < |lowered| ensures '+' !in lowered[i] {
      LowerKeepsNonLetter(parts[i], '+');
    }
    SplitJoin(lowered, '+');
  }

  /** Part lists with the same elements lower-case to lists with the same
      elements. */
  lemma LowerAllSameElements(a: seq<string>, b: seq<string>)
    requires forall x :: x in a <==> x in b
    ensures forall x :: x in LowerAll(a) ==> x in LowerAll(b)
  {
    forall x | x in LowerAll(a) ensures x in LowerAll(b) {
      var i :| 0 <= i < |a| && LowerAll(a)[i] == x;
      assert a[i] in b;
      var j :| 0 <= j < |b| && b[j] == a[i];
      assert LowerAll(b)[j] == x;
    }
  }

  /** The order of the parts and any repetition of them do not matter: parts
      with the same keys give the same combination. */
  lemma OrderAndRepetitionIrrelevant(a: seq<string>, b: seq<string>)
    requires |a| > 0 && |b| > 0
    requires forall i :: 0 <= i < |a| ==> '+' !in a[i]
    requires forall i :: 0 <= i < |b| ==> '+' !in b[i]
    requires forall x :: x in a <==> x in b
    ensures ParseHotkey(Join(a, '+')) == ParseHotkey(Join(b, '+'))
  {
    ParseJoin(a);
    ParseJoin(b);
    LowerAllSameElements(a, b);
    LowerAllSameElements(b, a);
  }

  // ---------------------------------------------------------------- keys

  /** A pynput key: a key code with an optional character, or a special key
      with a name. */
  datatype Key = KeyCode(character: Option<string>) | SpecialKey(name: string)

  /** `key.char if hasattr(key, 'char') else key.name`, lower-cased; a key
      code without a character makes `.lower()` raise `AttributeError`. */
  function KeyString(key: Key): (r: Option<string>)
    ensures key.KeyCode? && key.character.None? <==> r.None?
    ensures key.KeyCode? && key.character.Some? ==> r == Some(Lower(key.character.value))
    ensures key.SpecialKey? ==> r == Some(Lower(key.name))
    ensures r.Some? ==> Lower(r.value) == r.value
  {
    match key
    case KeyCode(c) =>
      if c.None? then None
      else
        LowerIdempotent(c.value);
        Some(Lower(c.value))
    case SpecialKey(n) =>
      LowerIdempotent(n);
      Some(Lower(n))
  }

  /** The handlers are identified by number. */
  type Handler = nat

  class HotkeyManager {
    /** `config.hotkeys`: absent when the configuration has none. */
    const hotkeys: Option<map<string, string>>
    var handlers: map<set<string>, Handler>
    var currentKeys: set<string>
    var hasListener: bool
    var listenerStopped: bool
    var stopEvent: bool

    constructor(hotkeys: Option<map<string, string>>)
      ensures this.hotkeys == hotkeys
      ensures handlers == map[] && currentKeys == {}
      ensures !hasListener && !listenerStopped && !stopEvent
    {
      this.hotkeys := hotkeys;
      handlers := map[];
      currentKeys := {};
      hasListener := false;
      listenerStopped := false;
      stopEvent := false;
    }

    /** The quit combination, when one is configured. */
    function QuitCombo(): (q: Option<set<string>>)
      reads this
      ensures q.Some? <==> hotkeys.Some? && "quit" in hotkeys.value
      ensures q.Some? ==> q.value == ParseHotkey(hotkeys.value["quit"])
    {
      if hotkeys.Some? && "quit" in hotkeys.value then Some(ParseHotkey(hotkeys.value["quit"])) else None
    }

    /** `register_handler`: without hotkey configuration, or without a
      non-empty hotkey for the action, nothing changes; otherwise the
      combination is mapped to the handler, replacing an earlier one. */
    method RegisterHandler(action: string, handler: Handler)
      modifies this`handlers
      ensures hotkeys.None? || action !in hotkeys.value || hotkeys.value[action] == [] ==>
        handlers == old(handlers)
      ensures hotkeys.Some? && action in hotkeys.value && hotkeys.value[action] != [] ==>
        handlers == old(handlers)[ParseHotkey(hotkeys.value[action]) := handler]
    {
      if hotkeys.None? {
        return;
      }
      if action !in hotkeys.value || hotkeys.value[action] == [] {
        return;
      }
      handlers := handlers[ParseHotkey(hotkeys.value[action]) := handler];
    }

    /** `_on_press`: the key joins the held set, and the handler registered
      for exactly the held set, if any, fires (`fired`); whatever it raises
      is swallowed. A key without a usable string changes nothing. */
    method OnPress(key: Key) returns (fired: Option<Handler>)
      modifies this`currentKeys
      ensures KeyString(key).None? ==> currentKeys == old(currentKeys) && fired == None
      ensures KeyString(key).Some? ==> currentKeys == old(currentKeys) + {KeyString(key).value}
      ensures fired.Some? <==> KeyString(key).Some? && currentKeys in handlers
      ensures fired.Some? ==> fired.value == handlers[currentKeys]
    {
      var k := KeyString(key);
      if k.None? {
        return None;
      }
      currentKeys := currentKeys + {k.value};
      if currentKeys in handlers {
        fired := Some(handlers[currentKeys]);
      } else {
        fired := None;
      }
    }

    /** `stop`: only a listener that exists is stopped and signalled. */
    method Stop()
      modifies this`listenerStopped, this`stopEvent
      ensures hasListener ==> listenerStopped && stopEvent
      ensures !hasListener ==> listenerStopped == old(listenerStopped) && stopEvent == old(stopEvent)
    {
      if hasListener {
        listenerStopped := true;
        stopEvent := true;
      }
    }

    /** `_on_release`: the key leaves the held set, then `stop` runs
      (`quit`) exactly when the quit combination is within what is still
      held. A missing quit hotkey raises after the removal, and is
      swallowed. */
    method OnRelease(key: Key) returns (quit: bool)
      modifies this`currentKeys, this`listenerStopped, this`stopEvent
      ensures KeyString(key).None? ==> currentKeys == old(currentKeys)
      ensures KeyString(key).Some? ==> currentKeys == old(currentKeys) - {KeyString(key).value}
      ensures quit <==> KeyString(key).Some? && QuitCombo().Some? && QuitCombo().value <= currentKeys
      ensures quit && hasListener ==> listenerStopped && stopEvent
      ensures !(quit && hasListener) ==>
        listenerStopped == old(listenerStopped) && stopEvent == old(stopEvent)
    {
      var k := KeyString(key);
      if k.None? {
        return false;
      }
      currentKeys := currentKeys - {k.value};
      var q := QuitCombo();
      if q.None? {
        return false;
      }
      quit := q.value <= currentKeys;
      if quit {
        Stop();
      }
    }

    /** `start`: the listener is created and kept; waiting on it is not
      modelled. */
    method Start()
      modifies this`hasListener
      ensures hasListener
    {
      hasListener := true;
    }
  }

  /** Pressing the keys of a registered combination one by one fires its
    handler on the last key, and not on a prefix that is no combination. */
  method PressCombination(m: HotkeyManager, first: string, second: string, h: Handler)
    returns (onFirst: Option<Handler>, onSecond: Option<Handler>)
    requires m.currentKeys == {} && first != second
    requires Lower(first) == first && Lower(second) == second
    requires {first, second} in m.handlers && m.handlers[{first, second}] == h
    requires {first} !in m.handlers
    modifies m`currentKeys
    ensures m.currentKeys == {first, second}
    ensures onFirst == None && onSecond == Some(h)
  {
    onFirst := m.OnPress(SpecialKey(first));
    assert m.currentKeys == {first};
    onSecond := m.OnPress(SpecialKey(second));
    assert m.currentKeys == {first, second};
  }
}

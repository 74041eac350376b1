/**
  The debug switches (config/debug_settings.py): a module-level dictionary of booleans that only
  ever holds the keys it starts with.
*/
module DebugSettings {

  const PositionCheckDebug: string := "position_check_debug"

  /** The dictionary as shipped. */
  const Shipped: map<string, bool> := map[PositionCheckDebug := true]

  /** A lookup with a default, `DEBUG_SETTINGS.get(key, default)`. */
  function Lookup(settings: map<string, bool>, key: string, default: bool): (v: bool)
    ensures key in settings ==> v == settings[key]
    ensures key !in settings ==> v == default
  {
    if key in settings then settings[key] else default
  }

  /** `set_debug_setting` on a dictionary: only a known key is updated, and the answer says whether it was. */
  function Update(settings: map<string, bool>, key: string, value: bool): (r: (bool, map<string, bool>))
    ensures r.0 <==> key in settings
    ensures r.1.Keys == settings.Keys
    ensures r.0 ==> r.1[key] == value
    ensures forall k :: k in settings && k != key ==> r.1[k] == settings[k]
    ensures !r.0 ==> r.1 == settings
  {
    if key in settings then (true, settings[key := value]) else (false, settings)
  }

  /** Reading a key back after setting it gives the value set, if the key was known, and the default otherwise. */
  lemma ReadAfterWrite(settings: map<string, bool>, key: string, value: bool, default: bool)
    ensures Lookup(Update(settings, key, value).1, key, default) == if key in settings then value else default
  {
  }

  /** No sequence of updates adds or removes a switch. */
  lemma {:induction false} UpdatesKeepKeys(settings: map<string, bool>, writes: seq<(string, bool)>)
    ensures ApplyAll(settings, writes).Keys == settings.Keys
    decreases |writes|
  {
    if writes != [] {
      UpdatesKeepKeys(settings, writes[..|writes| - 1]);
    }
  }

  function ApplyAll(settings: map<string, bool>, writes: seq<(string, bool)>): map<string, bool>
    decreases |writes|
  {
    if writes == [] then settings
    else
      var w := writes[|writes| - 1];
      Update(ApplyAll(settings, writes[..|writes| - 1]), w.0, w.1).1
  }

  /** The module-level dictionary. */
  class DebugStore {
    var settings: map<string, bool>

    constructor()
      ensures settings == Shipped
    {
      settings := Shipped;
    }

    function GetDebugSetting(key: string, default: bool := false): (v: bool)
      reads this
      ensures key in settings ==> v == settings[key]
      ensures key !in settings ==> v == default
    {
      Lookup(settings, key, default)
    }

    method SetDebugSetting(key: string, value: bool) returns (known: bool)
      modifies this
      ensures (known, settings) == Update(old(settings), key, value)
    {
      known := key in settings;
      if known {
        settings := settings[key := value];
      }
    }

    /** `get_all_debug_settings`: a map is a value, so the copy is unaffected by later updates of the store. */
    method GetAllDebugSettings() returns (copy: map<string, bool>)
      ensures copy == settings
    {
      copy := settings;
    }
  }
}

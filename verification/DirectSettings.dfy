/** Versioned Direct settings (direct_settings.py): a saved version of a profile never changes. */
module DirectSettings {
  import opened Text

  datatype Settings = Settings(name: string, version: nat, maxOutput: nat, warning: nat, hard: nat, hardCap: bool,
                               softBudget: Option<real>, preference: string)

  datatype Key = Key(name: string, version: nat)

  /** `settings_profiles` by name and version, and the `settings_state` singleton. */
  datatype Profiles = Profiles(saved: map<Key, Settings>, active: Key)

  datatype Call = Save(settings: Settings, activate: bool) | Activate(name: string, version: nat)

  datatype Reply = Inserted | Unchanged | Conflict | ValueError

  function KeyOf(s: Settings): Key { Key(s.name, s.version) }

  function Apply(p: Profiles, call: Call): (Profiles, Reply) {
    match call
    case Save(s, activate) =>
      if KeyOf(s) in p.saved && p.saved[KeyOf(s)] != s then (p, Conflict)
      else
        (Profiles(p.saved[KeyOf(s) := s], if activate then KeyOf(s) else p.active),
         if KeyOf(s) in p.saved then Unchanged else Inserted)
    case Activate(name, version) =>
      if Strip(name) == "" || version < 1 then (p, ValueError)
      else if Key(Strip(name), version) !in p.saved then (p, Conflict)
      else (p.(active := Key(Strip(name), version)), Unchanged)
  }

  /** The profile a conversation names. */
  function Lookup(p: Profiles, name: string, version: nat): Option<Settings> {
    if Strip(name) != "" && version >= 1 && Key(Strip(name), version) in p.saved then Some(p.saved[Key(Strip(name), version)]) else None
  }

  /** Each method is one transaction. */
  class DirectSettingsStore {
    var saved: map<Key, Settings>
    var active: Key

    ghost function Model(): Profiles reads this { Profiles(saved, active) }

    constructor (guarded: Settings)
      ensures Model() == Profiles(map[KeyOf(guarded) := guarded], KeyOf(guarded))
    {
      saved, active := map[KeyOf(guarded) := guarded], KeyOf(guarded);
    }

    method SaveProfile(settings: Settings, activate: bool) returns (reply: Reply)
      modifies this
      ensures (Model(), reply) == Apply(old(Model()), Save(settings, activate))
    {
      var key := KeyOf(settings);
      reply := Unchanged;
      if key !in saved {
        saved := saved[key := settings];
        reply := Inserted;
      } else if saved[key] != settings {
        return Conflict;
      }
      assert saved == old(saved)[key := settings];
      if activate { active := key; }
    }

    method ActivateProfile(name: string, version: nat) returns (reply: Reply)
      modifies this
      ensures (Model(), reply) == Apply(old(Model()), Activate(name, version))
    {
      hide Strip;
      var key := Key(Strip(name), version);
      if key.name == "" || version < 1 { return ValueError; }
      if key !in saved { return Conflict; }
      active := key;
      return Unchanged;
    }

    method GetProfile(name: string, version: nat) returns (settings: Option<Settings>)
      ensures settings == Lookup(Model(), name, version)
    {
      hide Strip;
      var key := Key(Strip(name), version);
      if key.name == "" || version < 1 || key !in saved { return None; }
      return Some(saved[key]);
    }
  }

  /** Saved versions stay as they are, and an active saved profile stays saved. */
  ghost predicate Later(p: Profiles, p': Profiles) {
    && (forall k :: k in p.saved ==> k in p'.saved && p'.saved[k] == p.saved[k])
    && (p.active in p.saved ==> p'.active in p'.saved)
  }

  function AfterCalls(p: Profiles, calls: seq<Call>): Profiles
    decreases |calls|
  {
    if calls == [] then p else AfterCalls(Apply(p, calls[0]).0, calls[1..])
  }

  /** Whatever is saved and activated later, a saved version never changes. */
  lemma {:induction false} VersionNeverChanges(p: Profiles, calls: seq<Call>)
    ensures Later(p, AfterCalls(p, calls))
    decreases |calls|
  {
    hide Strip;
    if calls != [] {
      CallIsLater(p, calls[0]);
      VersionNeverChanges(Apply(p, calls[0]).0, calls[1..]);
    }
  }

  lemma CallIsLater(p: Profiles, call: Call)
    ensures Later(p, Apply(p, call).0)
  {
    hide Strip;
  }

  /** Which version is active: the one saved or named last, if that was asked for and accepted. */
  lemma ActivationMeans(p: Profiles, call: Call)
    ensures var (p', reply) := Apply(p, call);
            && (reply in {Conflict, ValueError} ==> p' == p)
            && (call.Save? ==>
                  && (reply == Conflict <==> KeyOf(call.settings) in p.saved && p.saved[KeyOf(call.settings)] != call.settings)
                  && (reply != Conflict ==> KeyOf(call.settings) in p'.saved && p'.saved[KeyOf(call.settings)] == call.settings)
                  && p'.active == if call.activate && reply != Conflict then Key(call.settings.name, call.settings.version) else p.active)
            && (call.Activate? ==>
                  && p'.saved == p.saved
                  && (reply == Unchanged ==> p'.active == Key(Strip(call.name), call.version) && p'.active in p.saved))
  {
    hide Strip;
  }
}

/** The message check every Direct adapter makes before it calls its provider (direct_providers.py). */
module RoleCheck {
  import opened DirectStore

  datatype Sent = Sent(role: Role, content: string)

  /** The messages after a leading system message. */
  function Body(messages: seq<Sent>): seq<Sent> {
    if messages != [] && messages[0].role == System then messages[1..] else messages
  }

  /** One or no system message, first; then user and assistant in turn, from a user message to a user message. */
  predicate ValidMessages(messages: seq<Sent>) {
    var rest := Body(messages);
    |rest| % 2 == 1 && forall i :: 0 <= i < |rest| ==> rest[i].role == if i % 2 == 0 then User else Assistant
  }

  /** The check, loop by loop. */
  method ValidateMessages(messages: seq<Sent>) returns (ok: bool)
    ensures ok == ValidMessages(messages)
  {
    if messages == [] { return false; }
    var systems: seq<nat> := [];
    for n := 0 to |messages|
      invariant forall i :: 0 <= i < n && messages[i].role == System ==> i in systems
      invariant forall k :: 0 <= k < |systems| ==> systems[k] < n && messages[systems[k]].role == System
      invariant forall k, l :: 0 <= k < l < |systems| ==> systems[k] < systems[l]
    {
      if messages[n].role == System { systems := systems + [n]; }
    }
    if |systems| > 1 || (systems != [] && systems[0] != 0) {
      if |systems| > 1 {
        assert systems[0] < systems[1];
        SystemLater(messages, systems[1]);
      } else {
        SystemLater(messages, systems[0]);
      }
      return false;
    }
    assert systems != [] <==> messages[0].role == System;
    var conversation := if systems != [] then messages[1..] else messages;
    assert conversation == Body(messages);
    if conversation == [] || conversation[0].role != User { return false; }
    if messages[|messages| - 1].role != User {
      assert conversation[|conversation| - 1] == messages[|messages| - 1];
      return false;
    }
    for n := 0 to |conversation|
      invariant forall i :: 0 <= i < n ==> conversation[i].role == if i % 2 == 0 then User else Assistant
    {
      var expected := if n % 2 == 0 then User else Assistant;
      if conversation[n].role != expected { return false; }
    }
    assert conversation[|conversation| - 1].role == User;
    return true;
  }

  lemma SystemLater(messages: seq<Sent>, i: nat)
    requires 0 < i < |messages| && messages[i].role == System
    ensures !ValidMessages(messages)
  {
    var rest := Body(messages);
    if messages[0].role == System {
      assert rest[i - 1].role == System;
    } else {
      assert rest[i].role == System;
    }
  }
}

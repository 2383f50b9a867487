/** app/dashboard/settings/page.tsx: the rate-limit settings form. Every configuration has
    an edited value; a configuration whose edited value differs from its stored value can
    be saved, and a successful save reloads everything from the server. */
module SettingsPage {
  import opened Types
  import opened Text
  import ApiClient

  /** `editedValues`: key to the number typed for it. */
  type Values = map<string, int>

  /** The map the `forEach` in `loadConfigs` builds: each configuration's key bound to its
      value, a later configuration with the same key overwriting an earlier one. */
  function InitialValues(cs: seq<RateLimitConfig>): (m: Values)
    ensures forall k :: k in m <==> exists i :: 0 <= i < |cs| && cs[i].key == k
  {
    if cs == [] then map[]
    else
      var init := cs[..|cs| - 1];
      var m := InitialValues(init);
      assert forall i :: 0 <= i < |init| ==> init[i] == cs[i];
      m[cs[|cs| - 1].key := cs[|cs| - 1].value]
  }

  /** The loop of `loadConfigs`. */
  method BuildInitialValues(configs: seq<RateLimitConfig>) returns (values: Values)
    ensures values == InitialValues(configs)
  {
    values := map[];
    var i := 0;
    while i < |configs|
      invariant 0 <= i <= |configs|
      invariant values == InitialValues(configs[..i])
    {
      assert configs[..i + 1][..i] == configs[..i];
      values := values[configs[i].key := configs[i].value];
      i := i + 1;
    }
    assert configs[..|configs|] == configs;
  }

  predicate DistinctKeys(cs: seq<RateLimitConfig>)
  {
    forall i, j :: 0 <= i < j < |cs| ==> cs[i].key != cs[j].key
  }

  /** The value a key ends up with is the one of its last configuration. */
  lemma {:induction false} InitialValuesLastWins(cs: seq<RateLimitConfig>, i: int)
    requires 0 <= i < |cs|
    requires forall j :: i < j < |cs| ==> cs[j].key != cs[i].key
    ensures cs[i].key in InitialValues(cs) && InitialValues(cs)[cs[i].key] == cs[i].value
  {
    if i < |cs| - 1 {
      var init := cs[..|cs| - 1];
      assert forall j :: 0 <= j < |init| ==> init[j] == cs[j];
      InitialValuesLastWins(init, i);
    }
  }

  /** `hasChanges`: the edited value is not the stored one (a missing entry is `undefined`,
      which differs from every number). */
  function HasChanges(edited: Values, c: RateLimitConfig): (changed: bool)
    ensures c.key !in edited ==> changed
    ensures c.key in edited ==> (changed <==> DisplayedValue(edited, c.key) != c.value)
  {
    c.key !in edited || edited[c.key] != c.value
  }

  /** Right after a load with distinct keys, no configuration shows a change. */
  lemma NoChangesAfterLoad(cs: seq<RateLimitConfig>)
    requires DistinctKeys(cs)
    ensures forall i :: 0 <= i < |cs| ==> !HasChanges(InitialValues(cs), cs[i])
  {
    forall i | 0 <= i < |cs|
      ensures !HasChanges(InitialValues(cs), cs[i])
    {
      InitialValuesLastWins(cs, i);
    }
  }

  /** Distinct keys are needed: with a repeated key the earlier configuration shows a change
      as soon as the page loads. */
  lemma RepeatedKeyShowsChange()
    ensures var cs := [RateLimitConfig("k", 1, None), RateLimitConfig("k", 2, None)];
            HasChanges(InitialValues(cs), cs[0]) && !HasChanges(InitialValues(cs), cs[1])
  {
    var cs := [RateLimitConfig("k", 1, None), RateLimitConfig("k", 2, None)];
    assert cs[..1] == [cs[0]];
    assert [cs[0]][..0] == [];
  }

  /** The input shows `editedValues[key] || 0`; the `|| 0` only matters for a missing key. */
  function DisplayedValue(edited: Values, key: string): (r: int)
    ensures key in edited ==> r == edited[key]
    ensures key !in edited ==> r == 0
  {
    OrDefault(if key in edited then Some(edited[key]) else None, 0)
  }

  /** The save button of a configuration is disabled while it is being saved or when it has
      no change. */
  function UpdateDisabled(updating: Option<string>, edited: Values, c: RateLimitConfig): (disabled: bool)
    ensures updating == Some(c.key) ==> disabled
    ensures updating != Some(c.key) ==> (disabled <==> c.key in edited && DisplayedValue(edited, c.key) == c.value)
  {
    updating == Some(c.key) || !HasChanges(edited, c)
  }

  /** After a load with distinct keys every save button is disabled. */
  lemma SaveButtonsDisabledAfterLoad(cs: seq<RateLimitConfig>, updating: Option<string>)
    requires DistinctKeys(cs)
    ensures forall i :: 0 <= i < |cs| ==> UpdateDisabled(updating, InitialValues(cs), cs[i])
  {
    NoChangesAfterLoad(cs);
  }

  /** Typing a different number enables the save button, unless that key is being saved. */
  lemma EditEnablesSaveButton(edited: Values, c: RateLimitConfig, n: int, updating: Option<string>)
    requires n != c.value && updating != Some(c.key)
    ensures !UpdateDisabled(updating, ChangedValues(edited, c.key, ShowInt(n)), c)
  {
    ParseShowRoundTrip(n);
  }

  /** `handleValueChange`'s new map: text that `parseInt` reads replaces that key's value;
      text it rejects changes nothing; other keys are never touched. */
  function ChangedValues(edited: Values, key: string, text: string): (r: Values)
    ensures ParseInt(text).Some? ==> key in r && r[key] == ParseInt(text).value
    ensures ParseInt(text).None? ==> r == edited
    ensures forall k :: k != key ==> (k in r <==> k in edited)
    ensures forall k :: k != key && k in edited ==> r[k] == edited[k]
  {
    match ParseInt(text)
    case None => edited
    case Some(n) => edited[key := n]
  }

  /** Typing back the stored value clears the change; other configurations keep theirs. */
  lemma RetypingStoredValueClearsChange(edited: Values, c: RateLimitConfig, other: RateLimitConfig)
    requires other.key != c.key
    ensures !HasChanges(ChangedValues(edited, c.key, ShowInt(c.value)), c)
    ensures HasChanges(ChangedValues(edited, c.key, ShowInt(c.value)), other) == HasChanges(edited, other)
  {
    ParseShowRoundTrip(c.value);
  }

  /** Typing a different number makes the configuration show a change. */
  lemma TypingOtherValueShowsChange(edited: Values, c: RateLimitConfig, n: int)
    requires n != c.value
    ensures HasChanges(ChangedValues(edited, c.key, ShowInt(n)), c)
  {
    ParseShowRoundTrip(n);
  }

  class SettingsPage {
    var configs: seq<RateLimitConfig>
    var updating: Option<string>
    var editedValues: Values

    constructor ()
      ensures configs == [] && updating == None && editedValues == map[]
    {
      configs := [];
      updating := None;
      editedValues := map[];
    }

    /** `loadConfigs`: a successful envelope replaces the configurations (`[]` when absent)
        and resets every edited value to the loaded one; anything else changes nothing. */
    method LoadConfigs(out: Outcome<seq<RateLimitConfig>>) returns (sent: ApiClient.Request)
      modifies this
      ensures sent == ApiClient.GetRateLimitConfigs()
      ensures Succeeded(out) ==>
                configs == ListOrEmpty(out.envelope.data) && editedValues == InitialValues(configs)
      ensures Succeeded(out) && DistinctKeys(configs) ==>
                forall i :: 0 <= i < |configs| ==> !HasChanges(editedValues, configs[i])
      ensures !Succeeded(out) ==> configs == old(configs) && editedValues == old(editedValues)
      ensures updating == old(updating)
    {
      sent := ApiClient.GetRateLimitConfigs();
      if Succeeded(out) {
        configs := ListOrEmpty(out.envelope.data);
        editedValues := BuildInitialValues(configs);
        if DistinctKeys(configs) {
          NoChangesAfterLoad(configs);
        }
      }
    }

    method HandleValueChange(key: string, text: string)
      modifies this
      ensures editedValues == ChangedValues(old(editedValues), key, text)
      ensures configs == old(configs) && updating == old(updating)
    {
      var n := ParseInt(text);
      if n.Some? {
        editedValues := editedValues[key := n.value];
      }
    }

    /** `handleUpdate`: sends the edited value of that key (undefined when there is none);
        a success is followed by a full reload; `updating` is cleared however it ends. */
    method HandleUpdate(key: string, out: Outcome<RateLimitConfig>, reloadOut: Outcome<seq<RateLimitConfig>>)
      returns (sent: ApiClient.Request, reloadSent: Option<ApiClient.Request>)
      modifies this
      ensures sent == ApiClient.UpdateRateLimitConfig(key,
                        if key in old(editedValues) then Some(old(editedValues)[key]) else None)
      ensures Succeeded(out) ==> reloadSent == Some(ApiClient.GetRateLimitConfigs())
      ensures Succeeded(out) && Succeeded(reloadOut) ==>
                configs == ListOrEmpty(reloadOut.envelope.data) && editedValues == InitialValues(configs)
      ensures !(Succeeded(out) && Succeeded(reloadOut)) ==>
                configs == old(configs) && editedValues == old(editedValues)
      ensures !Succeeded(out) ==> reloadSent.None?
      ensures updating == None
    {
      updating := Some(key);
      var value := if key in editedValues then Some(editedValues[key]) else None;
      sent := ApiClient.UpdateRateLimitConfig(key, value);
      reloadSent := None;
      if Succeeded(out) {
        var r := LoadConfigs(reloadOut);
        reloadSent := Some(r);
      }
      updating := None;
    }
  }
}

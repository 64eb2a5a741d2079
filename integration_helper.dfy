/** Which registered integrations are active: IntegrationHelper::getActiveIntegrations.

    An integration lists the plugins it requires. `loaded` maps the handle of each
    plugin the plugins service returns (an installed and enabled plugin) to its
    version; a handle absent from the map is one for which `getPlugin` returns null. Versions are of an arbitrary type `V`:
    `below(a, b)` stands for PHP's `version_compare(a, b, '<')` and `zero` for the
    literal `0` that a plain handle is checked against. */
module IntegrationHelper {

  /** One entry of an integration's required plugins: a plain handle, or a
      handle together with a minimum version. */
  datatype Requirement<V> = Plain(handle: string) | Pinned(handle: string, version: V)
  {
    /** The version the entry is checked against. */
    function RequiredVersion(zero: V): V
    {
      match this
      case Plain(_) => zero
      case Pinned(_, v) => v
    }
  }

  /** A registered integration (its class name) and the plugins it requires. */
  datatype Integration<V> = Integration(name: string, requiredPlugins: seq<Requirement<V>>)

  /** The required plugin is loaded, but at a version below the required one. */
  predicate UnderVersion<V>(r: Requirement<V>, loaded: map<string, V>, below: (V, V) -> bool, zero: V)
  {
    r.handle in loaded && below(loaded[r.handle], r.RequiredVersion(zero))
  }

  /** The value of `$enabled` once the inner loop has run over `reqs`: a missing
      plugin disables the integration and stops the loop; an under-version plugin
      only stops the loop (the assignment that would disable is commented out).
      Only a missing plugin can disable: when every required plugin is loaded,
      whatever its version, the integration stays enabled. */
  predicate Enabled<V>(reqs: seq<Requirement<V>>, loaded: map<string, V>, below: (V, V) -> bool, zero: V)
    ensures (forall j :: 0 <= j < |reqs| ==> reqs[j].handle in loaded) ==> Enabled(reqs, loaded, below, zero)
  {
    if reqs == [] then true
    else if reqs[0].handle !in loaded then false
    else if UnderVersion(reqs[0], loaded, below, zero) then true
    else Enabled(reqs[1..], loaded, below, zero)
  }

  predicate IsActive<V>(integration: Integration<V>, loaded: map<string, V>, below: (V, V) -> bool, zero: V)
  {
    Enabled(integration.requiredPlugins, loaded, below, zero)
  }

  /** The list getActiveIntegrations builds: the active integrations, in order. */
  function ActiveIntegrations<V>(all: seq<Integration<V>>, loaded: map<string, V>, below: (V, V) -> bool, zero: V): seq<Integration<V>>
  {
    if all == [] then []
    else
      var last := all[|all| - 1];
      ActiveIntegrations(all[..|all| - 1], loaded, below, zero)
        + (if IsActive(last, loaded, below, zero) then [last] else [])
  }

  /** The outer loop appends each integration whose inner check leaves `$enabled`
      true; the inner loop breaks on the first missing or under-version plugin. */
  method GetActiveIntegrations<V>(all: seq<Integration<V>>, loaded: map<string, V>, below: (V, V) -> bool, zero: V)
    returns (integrations: seq<Integration<V>>)
    ensures integrations == ActiveIntegrations(all, loaded, below, zero)
  {
    integrations := [];
    for i := 0 to |all|
      invariant integrations == ActiveIntegrations(all[..i], loaded, below, zero)
    {
      var integration := all[i];
      var reqs := integration.requiredPlugins;
      var enabled := true;
      var j := 0;
      while j < |reqs|
        invariant 0 <= j <= |reqs|
        invariant enabled
        invariant Enabled(reqs, loaded, below, zero) == Enabled(reqs[j..], loaded, below, zero)
      {
        var handle := reqs[j].handle;
        var version := reqs[j].RequiredVersion(zero);
        if handle !in loaded {
          enabled := false;
          break;
        }
        if below(loaded[handle], version) {
          // `$enabled = false;` is commented out in the source: the check just stops.
          break;
        }
        assert reqs[j..][1..] == reqs[j + 1..];
        j := j + 1;
      }
      if enabled {
        integrations := integrations + [integration];
      }
      assert all[..i + 1][..i] == all[..i];
    }
    assert all[..|all|] == all;
  }

  /** The position of the first loaded-but-under-version requirement, or
      `|reqs|` when there is none. */
  function FirstUnderVersion<V>(reqs: seq<Requirement<V>>, loaded: map<string, V>, below: (V, V) -> bool, zero: V): (k: nat)
    ensures k <= |reqs|
    ensures k < |reqs| ==> UnderVersion(reqs[k], loaded, below, zero)
    ensures forall j :: 0 <= j < k ==> !UnderVersion(reqs[j], loaded, below, zero)
  {
    if reqs == [] then 0
    else if UnderVersion(reqs[0], loaded, below, zero) then 0
    else 1 + FirstUnderVersion(reqs[1..], loaded, below, zero)
  }

  /** How many leading requirements the inner loop looks at: all of them up to and
      including the first under-version one. */
  function Examined<V>(reqs: seq<Requirement<V>>, loaded: map<string, V>, below: (V, V) -> bool, zero: V): nat
  {
    var k := FirstUnderVersion(reqs, loaded, below, zero);
    if k < |reqs| then k + 1 else |reqs|
  }

  /** An integration is enabled iff every requirement the loop examines is loaded. */
  lemma {:induction false} EnabledIffExaminedLoaded<V>(reqs: seq<Requirement<V>>, loaded: map<string, V>, below: (V, V) -> bool, zero: V)
    ensures Enabled(reqs, loaded, below, zero) <==>
      forall j :: 0 <= j < Examined(reqs, loaded, below, zero) ==> reqs[j].handle in loaded
  {
    if reqs != [] {
      var rest := reqs[1..];
      EnabledIffExaminedLoaded(rest, loaded, below, zero);
      if reqs[0].handle in loaded && !UnderVersion(reqs[0], loaded, below, zero) {
        assert FirstUnderVersion(reqs, loaded, below, zero) == 1 + FirstUnderVersion(rest, loaded, below, zero);
        assert Examined(reqs, loaded, below, zero) == 1 + Examined(rest, loaded, below, zero);
        forall j | 1 <= j < Examined(reqs, loaded, below, zero)
          ensures reqs[j] == rest[j - 1]
        {
        }
      }
    }
  }

  /** A missing plugin excludes the integration when every plugin before it is
      loaded at a sufficient version. */
  lemma {:induction false} MissingPluginExcludes<V>(reqs: seq<Requirement<V>>, i: nat, loaded: map<string, V>, below: (V, V) -> bool, zero: V)
    requires i < |reqs|
    requires forall j :: 0 <= j < i ==> reqs[j].handle in loaded && !UnderVersion(reqs[j], loaded, below, zero)
    requires reqs[i].handle !in loaded
    ensures !Enabled(reqs, loaded, below, zero)
  {
    if i > 0 {
      MissingPluginExcludes(reqs[1..], i - 1, loaded, below, zero);
    }
  }

  /** An under-version plugin ends the check with the integration still enabled,
      whatever requirements follow it. */
  lemma {:induction false} UnderVersionEndsCheck<V>(reqs: seq<Requirement<V>>, i: nat, later: seq<Requirement<V>>, loaded: map<string, V>, below: (V, V) -> bool, zero: V)
    requires i < |reqs|
    requires forall j :: 0 <= j < i ==> reqs[j].handle in loaded && !UnderVersion(reqs[j], loaded, below, zero)
    requires UnderVersion(reqs[i], loaded, below, zero)
    ensures Enabled(reqs, loaded, below, zero)
    ensures Enabled(reqs[..i + 1] + later, loaded, below, zero)
  {
    if i > 0 {
      UnderVersionEndsCheck(reqs[1..], i - 1, later, loaded, below, zero);
      assert (reqs[..i + 1] + later)[1..] == reqs[1..][..i] + later;
    }
  }

  /** A plain handle is checked against version `zero`; a pinned one against its own version. */
  lemma RequirementResolution<V>(h: string, v: V, rest: seq<Requirement<V>>, loaded: map<string, V>, below: (V, V) -> bool, zero: V)
    ensures Enabled([Plain(h)] + rest, loaded, below, zero) <==>
      h in loaded && (below(loaded[h], zero) || Enabled(rest, loaded, below, zero))
    ensures Enabled([Pinned(h, v)] + rest, loaded, below, zero) <==>
      h in loaded && (below(loaded[h], v) || Enabled(rest, loaded, below, zero))
  {
    assert ([Plain(h)] + rest)[1..] == rest;
    assert ([Pinned(h, v)] + rest)[1..] == rest;
  }

  /** The positions in `all` of the active integrations: in range and in
      increasing order, so the result keeps the order of registration. */
  function ActivePositions<V>(all: seq<Integration<V>>, loaded: map<string, V>, below: (V, V) -> bool, zero: V): (idx: seq<nat>)
    ensures forall k :: 0 <= k < |idx| ==> idx[k] < |all|
    ensures forall k, l :: 0 <= k < l < |idx| ==> idx[k] < idx[l]
  {
    if all == [] then []
    else
      var n := |all| - 1;
      ActivePositions(all[..n], loaded, below, zero) + (if IsActive(all[n], loaded, below, zero) then [n] else [])
  }

  /** The result is the subsequence of `all` at the active positions. */
  lemma {:induction false} ActiveSelection<V>(all: seq<Integration<V>>, loaded: map<string, V>, below: (V, V) -> bool, zero: V)
    ensures var active := ActiveIntegrations(all, loaded, below, zero);
      var idx := ActivePositions(all, loaded, below, zero);
      |idx| == |active| && forall k :: 0 <= k < |idx| ==> active[k] == all[idx[k]]
  {
    if all != [] {
      var n := |all| - 1;
      var prefix := all[..n];
      ActiveSelection(prefix, loaded, below, zero);
      forall p | 0 <= p < n
        ensures all[p] == prefix[p]
      {
      }
    }
  }

  /** Exactly the active integrations are kept. */
  lemma {:induction false} ActivePositionsMembers<V>(all: seq<Integration<V>>, loaded: map<string, V>, below: (V, V) -> bool, zero: V)
    ensures var idx := ActivePositions(all, loaded, below, zero);
      forall p :: 0 <= p < |all| ==> (p in idx <==> IsActive(all[p], loaded, below, zero))
  {
    if all != [] {
      var n := |all| - 1;
      var prefix := all[..n];
      var before := ActivePositions(prefix, loaded, below, zero);
      var added := if IsActive(all[n], loaded, below, zero) then [n] else [];
      ActivePositionsMembers(prefix, loaded, below, zero);
      forall p | 0 <= p < |all|
        ensures p in before + added <==> IsActive(all[p], loaded, below, zero)
      {
        if p < n {
          assert all[p] == prefix[p];
        } else {
          assert p !in before;
        }
      }
    }
  }

  /** An integration that requires no plugins is always active. */
  lemma NoRequirementsAlwaysActive<V>(all: seq<Integration<V>>, p: nat, loaded: map<string, V>, below: (V, V) -> bool, zero: V)
    requires p < |all|
    requires all[p].requiredPlugins == []
    ensures all[p] in ActiveIntegrations(all, loaded, below, zero)
  {
    ActiveSelection(all, loaded, below, zero);
    ActivePositionsMembers(all, loaded, below, zero);
    var idx := ActivePositions(all, loaded, below, zero);
    var k :| 0 <= k < |idx| && idx[k] == p;
  }
}

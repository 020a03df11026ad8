/** Which visible name each upstream tool gets when aliases clash with tool names or with each other. */
module Aliases {
  predicate IsNameByte(c: char) {
    'a' <= c <= 'z' || 'A' <= c <= 'Z' || '0' <= c <= '9' || c == '_' || c == '-'
  }

  predicate ValidToolName(name: string) {
    name != "" && forall i | 0 <= i < |name| :: IsNameByte(name[i]) || name[i] == '.'
  }

  predicate ValidServerName(name: string) {
    name != "" && forall i | 0 <= i < |name| :: IsNameByte(name[i])
  }

  /** A tool for which an alias that could be a tool name is configured. */
  predicate Wants(name: string, aliases: map<string, string>) {
    name in aliases && aliases[name] != "" && ValidToolName(aliases[name])
  }

  /** The name a tool lays claim to: its alias, unless that is some tool's real name. */
  function Claim(names: seq<string>, aliases: map<string, string>, name: string): string {
    if Wants(name, aliases) && aliases[name] !in names then aliases[name] else name
  }

  /** The positions whose tool claims a name. */
  function Claimants(names: seq<string>, aliases: map<string, string>, visible: string): set<nat> {
    set i: nat | i < |names| && Claim(names, aliases, names[i]) == visible
  }

  /** The name a tool is seen under: an alias that exactly one listed tool claims, or its own. */
  function Visible(names: seq<string>, aliases: map<string, string>, name: string): string {
    var claim := Claim(names, aliases, name);
    if claim != name && |Claimants(names, aliases, claim)| > 1 then name else claim
  }

  /** Different tools never share a visible name. */
  lemma VisibleNamesDiffer(names: seq<string>, aliases: map<string, string>, a: string, b: string)
    requires a in names && b in names && a != b
    ensures Visible(names, aliases, a) != Visible(names, aliases, b)
  {
    var i: nat :| i < |names| && names[i] == a;
    var j: nat :| j < |names| && names[j] == b;
    var claim := Claim(names, aliases, a);
    if claim == Claim(names, aliases, b) {
      assert {i, j} <= Claimants(names, aliases, claim);
      CardAtLeastTwo(Claimants(names, aliases, claim), i, j);
    }
  }

  lemma CardAtLeastTwo(s: set<nat>, i: nat, j: nat)
    requires i in s && j in s && i != j
    ensures |s| > 1
  {
    var rest := s - {i};
    assert j in rest && |rest| == |s| - 1;
  }

  /** An alias is taken up exactly when it is usable and nobody else can be meant by it. */
  lemma AliasTakenUp(names: seq<string>, aliases: map<string, string>, i: nat)
    requires i < |names| && Wants(names[i], aliases)
    ensures Visible(names, aliases, names[i]) == aliases[names[i]] && aliases[names[i]] != names[i] <==>
              && aliases[names[i]] !in names
              && forall j | 0 <= j < |names| && j != i :: !(Wants(names[j], aliases) && aliases[names[j]] == aliases[names[i]])
  {
    var alias := aliases[names[i]];
    if alias !in names {
      assert i in Claimants(names, aliases, alias);
      if j: nat :| j < |names| && j != i && Wants(names[j], aliases) && aliases[names[j]] == alias {
        assert j in Claimants(names, aliases, alias);
        CardAtLeastTwo(Claimants(names, aliases, alias), i, j);
      } else {
        assert Claimants(names, aliases, alias) == {i};
      }
    }
  }

  datatype Resolution = Resolution(visible: map<string, string>, dropped: set<string>) {
    function AliasFor(name: string): string {
      if name in visible && visible[name] != name then visible[name] else ""
    }
  }

  function Resolved(names: seq<string>, aliases: map<string, string>): Resolution {
    Resolution(map name | name in names :: Visible(names, aliases, name),
               set name | name in names && Wants(name, aliases) && Visible(names, aliases, name) == name)
  }

  // ---- The loops ----

  /** The claims of the first `n` tools, in order. */
  function ClaimedBy(names: seq<string>, aliases: map<string, string>, n: nat, visible: string): (claimed: seq<string>)
    requires n <= |names|
  {
    if n == 0 then []
    else
      var before := ClaimedBy(names, aliases, n - 1, visible);
      if Claim(names, aliases, names[n - 1]) == visible then before + [names[n - 1]] else before
  }

  function ClaimantsBefore(names: seq<string>, aliases: map<string, string>, n: nat, visible: string): set<nat>
    requires n <= |names|
  {
    set i: nat | i < n && Claim(names, aliases, names[i]) == visible
  }

  lemma {:induction false} ClaimsCounted(names: seq<string>, aliases: map<string, string>, n: nat, visible: string)
    requires n <= |names|
    ensures |ClaimedBy(names, aliases, n, visible)| == |ClaimantsBefore(names, aliases, n, visible)|
  {
    hide Claim;
    if n > 0 {
      ClaimsCounted(names, aliases, n - 1, visible);
      var before := ClaimantsBefore(names, aliases, n - 1, visible);
      assert ClaimantsBefore(names, aliases, n, visible)
          == if Claim(names, aliases, names[n - 1]) == visible then before + {n - 1} else before;
    } else {
      assert ClaimantsBefore(names, aliases, n, visible) == {};
    }
  }

  /** What the first loop has recorded after `n` tools. */
  ghost predicate Recorded(names: seq<string>, aliases: map<string, string>, n: nat,
                           visible: map<string, string>, dropped: set<string>, claim: map<string, seq<string>>)
    requires n <= |names|
  {
    && (forall name :: name in visible <==> name in names[..n])
    && (forall name | name in visible :: visible[name] == Claim(names, aliases, name))
    && (forall name :: name in dropped <==> name in names[..n] && Wants(name, aliases) && aliases[name] in names)
    && (forall v :: Claiming(claim, v) == ClaimedBy(names, aliases, n, v))
  }

  function Claiming(claim: map<string, seq<string>>, v: string): seq<string> { if v in claim then claim[v] else [] }

  lemma RecordOne(names: seq<string>, aliases: map<string, string>, n: nat,
                  visible: map<string, string>, dropped: set<string>, claim: map<string, seq<string>>)
    requires n < |names| && Recorded(names, aliases, n, visible, dropped, claim)
    ensures var name := names[n];
            var v := Claim(names, aliases, name);
            Recorded(names, aliases, n + 1, visible[name := v],
                     if Wants(name, aliases) && aliases[name] in names then dropped + {name} else dropped,
                     claim[v := Claiming(claim, v) + [name]])
  {
    hide Claim, Wants;
    assert names[..n + 1] == names[..n] + [names[n]];
    var v := Claim(names, aliases, names[n]);
    var claim' := claim[v := Claiming(claim, v) + [names[n]]];
    forall u ensures Claiming(claim', u) == ClaimedBy(names, aliases, n + 1, u) {
      assert Claiming(claim, u) == ClaimedBy(names, aliases, n, u);
    }
  }

  method NameSet(names: seq<string>) returns (nameSet: set<string>)
    ensures forall name :: name in nameSet <==> name in names
  {
    nameSet := {};
    for i := 0 to |names|
      invariant forall name :: name in nameSet <==> name in names[..i]
    {
      nameSet := nameSet + {names[i]};
      assert names[..i + 1] == names[..i] + [names[i]];
    }
    assert names[..|names|] == names;
  }

  method BuildAliasClaims(names: seq<string>, aliases: map<string, string>)
    returns (visible: map<string, string>, dropped: set<string>, claim: map<string, seq<string>>)
    ensures Recorded(names, aliases, |names|, visible, dropped, claim)
  {
    hide ValidToolName, Recorded, ClaimedBy;
    var nameSet := NameSet(names);
    visible, dropped, claim := map[], {}, map[];
    NothingRecorded(names, aliases);
    for i := 0 to |names|
      invariant Recorded(names, aliases, i, visible, dropped, claim)
    {
      RecordOne(names, aliases, i, visible, dropped, claim);
      var name := names[i];
      var visibleName := name;
      if name in aliases && aliases[name] != "" && ValidToolName(aliases[name]) {
        if aliases[name] in nameSet {
          dropped := dropped + {name};
        } else {
          visibleName := aliases[name];
        }
      }
      visible := visible[name := visibleName];
      claim := claim[visibleName := Claiming(claim, visibleName) + [name]];
    }
  }

  lemma NothingRecorded(names: seq<string>, aliases: map<string, string>)
    ensures Recorded(names, aliases, 0, map[], {}, map[])
  {
  }

  /** The order in which the map is walked does not matter. */
  method ResolveAliases(names: seq<string>, aliases: map<string, string>) returns (r: Resolution)
    ensures r == Resolved(names, aliases)
  {
    hide ValidToolName, Recorded, Reverted, Claimants;
    var visible, dropped, claim := BuildAliasClaims(names, aliases);
    var left := visible.Keys;
    NothingReverted(names, aliases, visible, dropped, claim);
    while left != {}
      invariant Reverted(names, aliases, left, visible, dropped)
      invariant left <= visible.Keys
    {
      var name :| name in left;
      var visibleName := visible[name];
      RevertOne(names, aliases, left, visible, dropped, claim, name);
      if visibleName != name && |Claiming(claim, visibleName)| > 1 {
        visible := visible[name := name];
        dropped := dropped + {name};
      }
      left := left - {name};
    }
    r := Resolution(visible, dropped);
    AllReverted(names, aliases, visible, dropped);
  }

  /** What the second loop has made of the tools not left. */
  ghost predicate Reverted(names: seq<string>, aliases: map<string, string>, left: set<string>,
                           visible: map<string, string>, dropped: set<string>)
  {
    && (forall name :: name in visible <==> name in names)
    && (forall name | name in visible ::
          visible[name] == if name in left then Claim(names, aliases, name) else Visible(names, aliases, name))
    && (forall name :: name in dropped <==>
          name in names && Wants(name, aliases) &&
          (aliases[name] in names || (name !in left && Visible(names, aliases, name) == name)))
  }

  lemma NothingReverted(names: seq<string>, aliases: map<string, string>,
                        visible: map<string, string>, dropped: set<string>, claim: map<string, seq<string>>)
    requires Recorded(names, aliases, |names|, visible, dropped, claim)
    ensures Reverted(names, aliases, visible.Keys, visible, dropped)
    ensures forall v :: |Claiming(claim, v)| == |Claimants(names, aliases, v)|
  {
    hide Claim, Wants, Claimants, ClaimedBy, Visible;
    assert names[..|names|] == names;
    forall v ensures |Claiming(claim, v)| == |Claimants(names, aliases, v)| { CountedAtEnd(names, aliases, v); }
  }

  lemma RevertOne(names: seq<string>, aliases: map<string, string>, left: set<string>,
                  visible: map<string, string>, dropped: set<string>, claim: map<string, seq<string>>, name: string)
    requires Reverted(names, aliases, left, visible, dropped) && name in left && name in visible
    requires forall v :: |Claiming(claim, v)| == |Claimants(names, aliases, v)|
    ensures var revert := visible[name] != name && |Claiming(claim, visible[name])| > 1;
            Reverted(names, aliases, left - {name}, if revert then visible[name := name] else visible,
                     if revert then dropped + {name} else dropped)
  {
    hide Claimants, ValidToolName;
    assert forall other | other != name :: other in left - {name} <==> other in left;
    assert Claim(names, aliases, name) != name ==> Wants(name, aliases) && aliases[name] !in names;
  }

  lemma AllReverted(names: seq<string>, aliases: map<string, string>, visible: map<string, string>, dropped: set<string>)
    requires Reverted(names, aliases, {}, visible, dropped)
    ensures Resolution(visible, dropped) == Resolved(names, aliases)
  {
    hide Claimants, ValidToolName;
    var r := Resolved(names, aliases);
    assert visible == r.visible;
    assert dropped == r.dropped;
  }

  lemma CountedAtEnd(names: seq<string>, aliases: map<string, string>, visible: string)
    ensures |ClaimedBy(names, aliases, |names|, visible)| == |Claimants(names, aliases, visible)|
  {
    ClaimsCounted(names, aliases, |names|, visible);
    assert ClaimantsBefore(names, aliases, |names|, visible) == Claimants(names, aliases, visible);
  }
}

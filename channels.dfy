/**
 * Inter-process channel names. `makeChannels(feature, actions)` maps every
 * action name such as `PICK_FOLDER` to the channel `feature:pick-folder`;
 * the `CHANNELS` table applies it to the six features of the application.
 */
module Channels {

  predicate IsUpper(c: char) {
    'A' <= c <= 'Z'
  }

  /** The spelling every action name in the table uses: upper-case letters and `_`. */
  predicate IsActionName(action: string) {
    forall i :: 0 <= i < |action| ==> IsUpper(action[i]) || action[i] == '_'
  }

  /** One character of `toLowerCase()` followed by `replace(/_/g, "-")`. */
  function KebabChar(c: char): (r: char)
    ensures c == '_' ==> r == '-'
    ensures IsUpper(c) ==> 'a' <= r <= 'z' && r as int - 'a' as int == c as int - 'A' as int
    ensures c != '_' && !IsUpper(c) ==> r == c
    ensures r != '_' && !IsUpper(r) && r != ':' <==> c != ':'
  {
    if c == '_' then '-'
    else if IsUpper(c) then (c as int - 'A' as int + 'a' as int) as char
    else c
  }

  /** The channel suffix of an action: lower-cased, `_` turned into `-`. */
  function Kebab(action: string): (r: string)
    ensures |r| == |action|
    ensures forall i :: 0 <= i < |r| ==> r[i] != '_' && !IsUpper(r[i])
  {
    seq(|action|, i requires 0 <= i < |action| => KebabChar(action[i]))
  }

  /** The channel of one action of a feature. */
  function ChannelName(feature: string, action: string): (r: string)
    ensures |r| == |feature| + 1 + |action|
  {
    feature + ":" + Kebab(action)
  }

  /**
   * The one key an assignment to a plain object does not store: `__proto__`
   * reaches the inherited prototype setter, which ignores a string value.
   */
  const ProtoKey: string := "__proto__"

  /** An action name never spells `__proto__`, which has lower-case letters. */
  lemma ActionNameIsNotProto(action: string)
    requires IsActionName(action)
    ensures action != ProtoKey
  {
    assert !IsUpper(ProtoKey[2]) && ProtoKey[2] != '_';
  }

  /** The record `makeChannels` returns, as a map from action to channel. */
  function ChannelRecord(feature: string, actions: seq<string>): (r: map<string, string>)
    ensures r.Keys == set a | a in actions && a != ProtoKey
    ensures ProtoKey !in r
    ensures (forall a :: a in actions ==> IsActionName(a)) ==> r.Keys == set a | a in actions
  {
    forall a | a in actions && IsActionName(a) {
      ActionNameIsNotProto(a);
    }
    map a | a in actions && a != ProtoKey :: ChannelName(feature, a)
  }

  /** Fills the output record one action at a time; `__proto__` is not stored. */
  method MakeChannels(feature: string, actions: seq<string>) returns (out: map<string, string>)
    ensures out.Keys == set a | a in actions && a != ProtoKey
    ensures forall a :: a in out ==> out[a] == ChannelName(feature, a)
    ensures out == ChannelRecord(feature, actions)
  {
    out := map[];
    for k := 0 to |actions|
      invariant out.Keys == set a | a in actions[..k] && a != ProtoKey
      invariant forall a :: a in out ==> out[a] == ChannelName(feature, a)
    {
      var action := actions[k];
      var kebab := Kebab(action);
      if action != ProtoKey {
        out := out[action := feature + ":" + kebab];
      }
      assert actions[..k + 1] == actions[..k] + [action];
    }
    assert actions[..|actions|] == actions;
  }

  /** On action names, `KebabChar` loses nothing: `_` and each letter have their own image. */
  lemma KebabCharInjective(c: char, d: char)
    requires IsUpper(c) || c == '_'
    requires IsUpper(d) || d == '_'
    requires KebabChar(c) == KebabChar(d)
    ensures c == d
  {
    if c == '_' {
      assert KebabChar(c) == '-';
    }
    if d == '_' {
      assert KebabChar(d) == '-';
    }
  }

  lemma {:induction false} KebabInjective(a: string, b: string)
    requires IsActionName(a) && IsActionName(b)
    requires Kebab(a) == Kebab(b)
    ensures a == b
  {
    assert |a| == |b|;
    forall i | 0 <= i < |a|
      ensures a[i] == b[i]
    {
      assert Kebab(a)[i] == KebabChar(a[i]) && Kebab(b)[i] == KebabChar(b[i]);
      KebabCharInjective(a[i], b[i]);
    }
  }

  /** Within one feature, distinct action names give distinct channels. */
  lemma DistinctActionsDistinctChannels(feature: string, a: string, b: string)
    requires IsActionName(a) && IsActionName(b)
    requires a != b
    ensures ChannelName(feature, a) != ChannelName(feature, b)
  {
    if ChannelName(feature, a) == ChannelName(feature, b) {
      var n := |feature| + 1;
      assert ChannelName(feature, a)[n..] == Kebab(a);
      assert ChannelName(feature, b)[n..] == Kebab(b);
      KebabInjective(a, b);
    }
  }

  /**
   * A channel determines its feature and action when the feature has no
   * `:`: the feature is everything before the first `:`.
   */
  lemma ChannelNameInjective(f: string, a: string, g: string, b: string)
    requires ':' !in f && ':' !in g
    requires IsActionName(a) && IsActionName(b)
    requires ChannelName(f, a) == ChannelName(g, b)
    ensures f == g && a == b
  {
    var s := ChannelName(f, a);
    assert s == f + ":" + Kebab(a) && s == g + ":" + Kebab(b);
    // the first ':' of the channel sits right after the feature, in both spellings
    assert forall k :: 0 <= k < |f| ==> s[k] == f[k] && s[k] != ':';
    assert forall k :: 0 <= k < |g| ==> s[k] == g[k] && s[k] != ':';
    assert s[|f|] == ':' && s[|g|] == ':';
    assert |f| == |g|;
    assert f == s[..|f|] == g;
    assert s[|f| + 1..] == Kebab(a) == Kebab(b);
    KebabInjective(a, b);
  }

  /** One entry of the `CHANNELS` table: its key, and the arguments `makeChannels` gets. */
  datatype Group = Group(key: string, feature: string, actions: seq<string>)

  /** The `CHANNELS` table, its entries in declaration order. */
  const ChannelGroups: seq<Group> := [
    Group("FILES", "files", ["PICK_FOLDER", "READ_FILE", "WRITE_FILE"]),
    Group("AUTH", "auth", ["LOGIN", "LOGOUT", "ME"]),
    Group("DATABASE", "database", ["PING"]),
    Group("CUSTOMERS", "customers", ["LIST", "OVERVIEW", "DETAIL"]),
    Group("PRODUCTS", "products", ["LIST", "OVERVIEW", "DETAIL"]),
    Group("SUPPLIERS", "suppliers", ["LIST", "DETAIL", "OVERVIEW"])
  ]

  /** The channel record the table holds under the key of group `i`. */
  function GroupRecord(i: nat): (r: map<string, string>)
    requires i < |ChannelGroups|
    ensures r.Keys == set a | a in ChannelGroups[i].actions
  {
    TableIsWellFormed();
    ChannelRecord(ChannelGroups[i].feature, ChannelGroups[i].actions)
  }

  lemma TableIsWellFormed()
    ensures forall i :: 0 <= i < |ChannelGroups| ==> ':' !in ChannelGroups[i].feature
    ensures forall i, a :: 0 <= i < |ChannelGroups| && a in ChannelGroups[i].actions ==> IsActionName(a)
    ensures forall i, j :: 0 <= i < j < |ChannelGroups| ==> ChannelGroups[i].feature != ChannelGroups[j].feature
  {
  }

  /**
   * Every channel of the table names one (feature, action) pair, so the
   * `Channel` union type has one member per action of each group.
   */
  lemma TableChannelsDistinct(i: int, a: string, j: int, b: string)
    requires 0 <= i < |ChannelGroups| && a in ChannelGroups[i].actions
    requires 0 <= j < |ChannelGroups| && b in ChannelGroups[j].actions
    requires ChannelName(ChannelGroups[i].feature, a) == ChannelName(ChannelGroups[j].feature, b)
    ensures i == j && a == b
  {
    TableIsWellFormed();
    ChannelNameInjective(ChannelGroups[i].feature, a, ChannelGroups[j].feature, b);
  }

  lemma PickFolderSuffix()
    ensures Kebab("PICK_FOLDER") == "pick-folder"
  {
  }

  /** The first entry of the table, spelled out. */
  lemma PickFolderChannel()
    ensures ChannelGroups[0].key == "FILES"
    ensures "PICK_FOLDER" in GroupRecord(0) && GroupRecord(0)["PICK_FOLDER"] == "files:pick-folder"
  {
    var files := ChannelGroups[0];
    assert files.feature == "files" && files.actions[0] == "PICK_FOLDER";
    assert GroupRecord(0)["PICK_FOLDER"] == ChannelName("files", "PICK_FOLDER");
    PickFolderSuffix();
  }
}

/** Applying remote configuration items to the engine configuration. */
module RemoteConfig {
  import opened Options

  /** A decoded JSON value. */
  datatype Json =
    | Null
    | Bool(value: bool)
    | Num(number: real)
    | Str(text: string)
    | List(items: seq<Json>)
    | Dict(entries: map<string, Json>)

  predicate Truthy(v: Json) {
    match v
    case Null => false
    case Bool(b) => b
    case Num(n) => n != 0.0
    case Str(s) => s != ""
    case List(l) => l != []
    case Dict(m) => m != map[]
  }

  const EXTRA := "extra_config"
  const USER_KEYS := "_user_set_keys"

  /** `_user_set_keys`: a set, until an item replaces the attribute by something else. */
  datatype Users = Keys(keys: set<string>) | Replaced(with: Json)

  predicate OccursAt(key: string, s: string, i: nat) {
    i + |key| <= |s| && s[i..i + |key|] == key
  }

  /** `key in user_set_keys`; None is the TypeError of a value that has no members. */
  function Contains(u: Users, key: string): Option<bool> {
    match u
    case Keys(s) => Some(key in s)
    case Replaced(Str(s)) => Some(exists i | 0 <= i <= |s| :: OccursAt(key, s, i))
    case Replaced(List(l)) => Some(Str(key) in l)
    case Replaced(Dict(m)) => Some(key in m)
    case Replaced(_) => None
  }

  /** The other attributes, and the user-set keys. */
  datatype State = State(attrs: map<string, Json>, users: Users)

  predicate Proper(s: State) {
    USER_KEYS !in s.attrs && EXTRA in s.attrs
  }

  /** `json.loads`: None where it raises. */
  type Loads = string -> Option<Json>

  /** What an `extra_config` value stands for: a string is parsed, the empty one means None. */
  function Parsed(v: Json, loads: Loads): Option<Json> {
    if !v.Str? then Some(v) else if v.text == "" then Some(Null) else loads(v.text)
  }

  // ----- items -----

  function Field(item: Json, name: string, default: Json): Json {
    if item.Dict? && name in item.entries then item.entries[name] else default
  }

  predicate Override(item: Json) {
    Truthy(Field(item, "override", Bool(true)))
  }

  predicate Names(item: Json, key: string) {
    item.Dict? && key != "" && Field(item, "key", Null) == Str(key)
  }

  /** A key that is neither missing nor a string makes `hasattr` raise, which ends the loop. */
  predicate Aborts(item: Json) {
    item.Dict? && Truthy(Field(item, "key", Null)) && !Field(item, "key", Null).Str?
  }

  /** The items handled before the first that aborts. */
  function Handled(items: seq<Json>): (r: seq<Json>)
    ensures |r| <= |items| && r == items[..|r|]
    ensures forall i :: 0 <= i < |r| ==> !Aborts(r[i])
    ensures |r| < |items| ==> Aborts(items[|r|])
  {
    if items == [] then []
    else
      var front := items[..|items| - 1];
      var r := Handled(front);
      if |r| < |front| || Aborts(items[|items| - 1]) then r else items
  }

  // ----- one item -----

  function SetAttr(s: State, key: string, value: Json): State {
    if key == USER_KEYS then s.(users := Replaced(value)) else s.(attrs := s.attrs[key := value])
  }

  /** One `extra_config` value onto the current one. */
  function Merge(current: Json, value: Json, override: bool): Json {
    if override || !current.Dict? then value
    else if value.Dict? then Dict(current.entries + value.entries)
    else current
  }

  /** `validate_and_set_config_value`: the new state and whether it reports success. */
  function Set(s: State, key: string, value: Json, override: bool, loads: Loads): (State, bool)
    requires Proper(s)
  {
    if key !in s.attrs && key != USER_KEYS then (s, false)
    else if key == EXTRA then
      var v := Parsed(value, loads);
      if v.None? then (s, false) else (SetAttr(s, key, Merge(s.attrs[EXTRA], v.value, override)), true)
    else if override then (SetAttr(s, key, value), true)
    else
      match Contains(s.users, key)
      case None => (s, false)
      case Some(true) => (s, true)
      case Some(false) => (SetAttr(s, key, value), true)
  }

  function Step(s: State, item: Json, loads: Loads): (r: State)
    requires Proper(s)
    ensures Proper(r) && r.attrs.Keys == s.attrs.Keys
  {
    var key := Field(item, "key", Null);
    if item.Dict? && key.Str? && key.text != "" then
      Set(s, key.text, Field(item, "value", Null), Override(item), loads).0
    else s
  }

  function Fold(s: State, items: seq<Json>, loads: Loads): (r: State)
    requires Proper(s)
    ensures Proper(r) && r.attrs.Keys == s.attrs.Keys
  {
    if items == [] then s
    else Step(Fold(s, items[..|items| - 1], loads), items[|items| - 1], loads)
  }

  /** How many items report success. */
  function Applied(s: State, items: seq<Json>, loads: Loads): nat
    requires Proper(s)
  {
    if items == [] then 0
    else
      var front, item := items[..|items| - 1], items[|items| - 1];
      var key := Field(item, "key", Null);
      Applied(s, front, loads)
      + if item.Dict? && key.Str? && key.text != ""
           && Set(Fold(s, front, loads), key.text, Field(item, "value", Null), Override(item), loads).1 then 1 else 0
  }

  predicate Naming(item: Json) {
    item.Dict? && Field(item, "key", Null).Str? && Field(item, "key", Null).text != ""
  }

  lemma FoldStart(s: State, items: seq<Json>, loads: Loads)
    requires Proper(s)
    ensures Fold(s, items[..0], loads) == s && Applied(s, items[..0], loads) == 0
  {
  }

  /** One more item: only one with a name does anything, and it does what setting does. */
  lemma FoldOnto(s: State, items: seq<Json>, i: nat, loads: Loads)
    requires Proper(s) && i < |items|
    ensures var before, item := Fold(s, items[..i], loads), items[i];
            var key, value := Field(item, "key", Null), Field(item, "value", Null);
            if Naming(item) then
              && Fold(s, items[..i + 1], loads) == Set(before, key.text, value, Override(item), loads).0
              && Applied(s, items[..i + 1], loads)
                 == Applied(s, items[..i], loads)
                    + if Set(before, key.text, value, Override(item), loads).1 then 1 else 0
            else
              && Fold(s, items[..i + 1], loads) == before
              && Applied(s, items[..i + 1], loads) == Applied(s, items[..i], loads)
  {
    hide Set, Proper;
    assert items[..i + 1][..i] == items[..i];
  }

  // ----- what one item does, entry by entry -----

  lemma TruthyIff(v: Json)
    ensures !Truthy(v) <==> v in {Null, Bool(false), Num(0.0), Str(""), List([]), Dict(map[])}
  {
  }

  /** A key is user-set if it is in the set; in a replacing string as a piece of it, in a
      replacing list as an item, in a replacing dictionary as an entry. */
  lemma UserSetIff(users: Users, key: string)
    ensures Contains(users, key) == Some(true) <==>
              match users
              case Keys(keys) => key in keys
              case Replaced(Str(text)) => (exists a, b :: text == a + key + b)
              case Replaced(List(list)) => Str(key) in list
              case Replaced(Dict(entries)) => key in entries
              case Replaced(_) => false
    ensures Contains(users, key) == None
       <==> users.Replaced? && (users.with.Null? || users.with.Bool? || users.with.Num?)
  {
    if users.Replaced? && users.with.Str? {
      var text := users.with.text;
      if i :| 0 <= i <= |text| && OccursAt(key, text, i) {
        assert text == text[..i] + key + text[i + |key|..];
      }
      forall a, b | text == a + key + b ensures OccursAt(key, text, |a|) {
      }
    }
  }

  /** An item overrides unless its "override" entry is there and falsy. */
  predicate Overrides(entries: map<string, Json>) {
    "override" in entries ==> entries["override"] !in {Null, Bool(false), Num(0.0), Str(""), List([]), Dict(map[])}
  }

  predicate HasKey(entries: map<string, Json>) {
    "key" in entries && entries["key"].Str? && entries["key"].text != ""
  }

  function ValueOf(entries: map<string, Json>): Json {
    if "value" in entries then entries["value"] else Null
  }

  /** Items without a usable key do nothing; one with any other truthy key ends the loop. */
  lemma ItemIgnoredOrAborts(s: State, item: Json, loads: Loads)
    requires Proper(s)
    ensures !item.Dict? || !HasKey(item.entries) ==> Step(s, item, loads) == s
    ensures Aborts(item) <==>
              && item.Dict? && "key" in item.entries && !item.entries["key"].Str?
              && item.entries["key"] !in {Null, Bool(false), Num(0.0), List([]), Dict(map[])}
  {
    if item.Dict? && "key" in item.entries { TruthyIff(item.entries["key"]); }
  }

  /** An item naming an attribute sets it, and nothing else, unless it does not override and the
      attribute is user-set or cannot be looked up; an unknown name changes nothing. */
  lemma ItemApplied(s: State, entries: map<string, Json>, loads: Loads)
    requires Proper(s) && HasKey(entries) && entries["key"] != Str(EXTRA)
    ensures var key, r := entries["key"].text, Step(s, Dict(entries), loads);
      var sets := Overrides(entries) || Contains(s.users, key) == Some(false);
      if key == USER_KEYS then
        r.attrs == s.attrs && r.users == if sets then Replaced(ValueOf(entries)) else s.users
      else
        r.users == s.users && r.attrs == if key in s.attrs && sets then s.attrs[key := ValueOf(entries)] else s.attrs
  {
    hide Truthy, Contains;
    if "override" in entries { TruthyIff(entries["override"]); }
    assert Truthy(Bool(true)) by { TruthyIff(Bool(true)); }
  }

  /** A user-set key is set by an item that has no "override" entry. */
  lemma OverridesByDefault(s: State, entries: map<string, Json>, loads: Loads)
    requires Proper(s) && HasKey(entries) && "override" !in entries
    requires entries["key"].text in s.attrs && entries["key"] != Str(EXTRA)
    requires s.users.Keys? && entries["key"].text in s.users.keys
    ensures Step(s, Dict(entries), loads) == s.(attrs := s.attrs[entries["key"].text := ValueOf(entries)])
  {
    ItemApplied(s, entries, loads);
  }

  /** What an item leaves in extra_config: a string is parsed, the empty one for None; an item
      that overrides replaces, another adds its entries to the ones there are. */
  ghost predicate ExtraSet(current: Json, v: Json, overrides: bool, r: Json) {
    if overrides || !current.Dict? then r == v
    else if !v.Dict? then r == current
    else
      && r.Dict? && r.entries.Keys == current.entries.Keys + v.entries.Keys
      && forall name :: name in r.entries ==>
           r.entries[name] == if name in v.entries then v.entries[name] else current.entries[name]
  }

  lemma ExtraApplied(s: State, entries: map<string, Json>, loads: Loads)
    requires Proper(s) && HasKey(entries) && entries["key"] == Str(EXTRA)
    ensures var r, v := Step(s, Dict(entries), loads), ValueOf(entries);
      && r.users == s.users && (forall key :: key in s.attrs && key != EXTRA ==> r.attrs[key] == s.attrs[key])
      && (v.Str? && v.text != "" && loads(v.text).None? ==> r == s)
      && (v == Str("") ==> ExtraSet(s.attrs[EXTRA], Null, Overrides(entries), r.attrs[EXTRA]))
      && (v.Str? && v.text != "" && loads(v.text).Some? ==>
            ExtraSet(s.attrs[EXTRA], loads(v.text).value, Overrides(entries), r.attrs[EXTRA]))
      && (!v.Str? ==> ExtraSet(s.attrs[EXTRA], v, Overrides(entries), r.attrs[EXTRA]))
  {
    hide Truthy;
    if "override" in entries { TruthyIff(entries["override"]); }
    assert Truthy(Bool(true)) by { TruthyIff(Bool(true)); }
  }

  /** An item counts as applied, whether or not it changed anything, unless its name is unknown,
      its extra_config does not parse, or the lookup among the user-set keys raises. */
  predicate Counted(s: State, entries: map<string, Json>, loads: Loads) {
    && HasKey(entries)
    && var key, v := entries["key"].text, ValueOf(entries);
       if key == EXTRA then !v.Str? || v.text == "" || loads(v.text).Some?
       else
         && (key in s.attrs || key == USER_KEYS)
         && (Overrides(entries) || s.users.Keys? || s.users.with.Str? || s.users.with.List? || s.users.with.Dict?)
  }

  lemma ItemCounted(s: State, items: seq<Json>, item: Json, loads: Loads)
    requires Proper(s)
    ensures Applied(s, items + [item], loads)
         == Applied(s, items, loads)
            + if item.Dict? && Counted(Fold(s, items, loads), item.entries, loads) then 1 else 0
  {
    hide Truthy, Contains, Fold;
    assert (items + [item])[..|items|] == items;
    if item.Dict? && "override" in item.entries { TruthyIff(item.entries["override"]); }
    assert Truthy(Bool(true)) by { TruthyIff(Bool(true)); }
    if item.Dict? && HasKey(item.entries) { UserSetIff(Fold(s, items, loads).users, item.entries["key"].text); }
  }

  // ----- the configuration object -----

  class Config {
    var attrs: map<string, Json>
    var users: Users

    ghost predicate Valid()
      reads this
    {
      Proper(Value())
    }

    ghost function Value(): State
      reads this
    {
      State(attrs, users)
    }

    constructor (attrs: map<string, Json>, keys: set<string>)
      requires USER_KEYS !in attrs && EXTRA in attrs
      ensures Valid() && Value() == State(attrs, Keys(keys))
    {
      this.attrs, this.users := attrs, Keys(keys);
    }

    method SetAttribute(key: string, value: Json)
      modifies this
      ensures Value() == SetAttr(old(Value()), key, value)
    {
      if key == USER_KEYS {
        users := Replaced(value);
      } else {
        attrs := attrs[key := value];
      }
    }

    method ValidateAndSet(key: string, value: Json, override: bool, loads: Loads) returns (ok: bool)
      requires Valid()
      modifies this
      ensures Valid() && (Value(), ok) == Set(old(Value()), key, value, override, loads)
    {
      if key !in attrs && key != USER_KEYS {
        return false;
      }
      var value := value;
      if key == EXTRA && value.Str? {
        var parsed := if value.text != "" then loads(value.text) else Some(Null);
        if parsed.None? {
          return false;
        }
        value := parsed.value;
      }
      if key == EXTRA && !override {
        var current := attrs[key];
        if current.Dict? {
          if value.Dict? {
            SetAttribute(key, Dict(current.entries + value.entries));
            return true;
          }
          assert attrs == attrs[EXTRA := current];
          return true;
        }
        SetAttribute(key, value);
        return true;
      }
      if !override {
        var userSet := Contains(users, key);
        if userSet.None? {
          return false;
        }
        if userSet.value {
          return true;
        }
      }
      SetAttribute(key, value);
      ok := true;
    }

    /** `apply_remote_configs`; None when an item's key makes it raise part-way. */
    method Apply(items: seq<Json>, loads: Loads) returns (applied: Option<nat>)
      requires Valid()
      modifies this
      ensures Valid() && Value() == Fold(old(Value()), Handled(items), loads)
      ensures applied.None? <==> exists i :: 0 <= i < |items| && Aborts(items[i])
      ensures applied.Some? ==> applied.value == Applied(old(Value()), items, loads)
    {
      hide Set, Handled, Fold, Applied, Step;
      FoldStart(Value(), items, loads);
      var count := 0;
      for i := 0 to |items|
        invariant Valid() && Value() == Fold(old(Value()), items[..i], loads)
        invariant count == Applied(old(Value()), items[..i], loads)
        invariant forall j :: 0 <= j < i ==> !Aborts(items[j])
      {
        var item := items[i];
        FoldOnto(old(Value()), items, i, loads);
        if !item.Dict? {
          continue;
        }
        var key, value := Field(item, "key", Null), Field(item, "value", Null);
        if !Truthy(key) {
          continue;
        }
        if !key.Str? {
          HandledIs(items, i);
          return None;
        }
        var ok := ValidateAndSet(key.text, value, Override(item), loads);
        if ok {
          count := count + 1;
        }
      }
      HandledIs(items, |items|);
      assert items[..|items|] == items;
      applied := Some(count);
    }
  }

  lemma {:induction false} HandledIs(items: seq<Json>, n: nat)
    requires n <= |items| && forall j :: 0 <= j < n ==> !Aborts(items[j])
    requires n < |items| ==> Aborts(items[n])
    ensures Handled(items) == items[..n]
  {
    if items != [] {
      var last := |items| - 1;
      HandledIs(items[..last], if n <= last then n else last);
    }
  }

  // ----- which value each key ends with -----

  /** The user-set keys after some items, whatever the other attributes are. */
  function UsersAfter(items: seq<Json>, users: Users): Users {
    if items == [] then users
    else
      var u, item := UsersAfter(items[..|items| - 1], users), items[|items| - 1];
      if Effective(item, USER_KEYS, u) then Replaced(Field(item, "value", Null)) else u
  }

  /** An item that sets its key: it overrides, or the key is known not to be user-set. */
  predicate Effective(item: Json, key: string, users: Users) {
    Names(item, key) && (Override(item) || Contains(users, key) == Some(false))
  }

  /** The value of the last effective item naming the key, the initial one without any. */
  function LastEffective(items: seq<Json>, key: string, users: Users, initial: Json): Json {
    if items == [] then initial
    else
      var front, item := items[..|items| - 1], items[|items| - 1];
      if Effective(item, key, UsersAfter(front, users)) then Field(item, "value", Null)
      else LastEffective(front, key, users, initial)
  }

  /** Every key but extra_config ends with its last effective item's value. */
  lemma {:induction false} LastEffectiveWins(s: State, items: seq<Json>, key: string, loads: Loads)
    requires Proper(s) && key in s.attrs && key != EXTRA
    ensures Fold(s, items, loads).attrs[key] == LastEffective(items, key, s.users, s.attrs[key])
    ensures Fold(s, items, loads).users == UsersAfter(items, s.users)
  {
    if items != [] {
      LastEffectiveWins(s, items[..|items| - 1], key, loads);
      StepSets(Fold(s, items[..|items| - 1], loads), items[|items| - 1], key, loads);
    }
  }

  lemma StepSets(s: State, item: Json, key: string, loads: Loads)
    requires Proper(s) && key in s.attrs && key != EXTRA
    ensures var t := Step(s, item, loads);
      && t.users == (if Effective(item, USER_KEYS, s.users) then Replaced(Field(item, "value", Null)) else s.users)
      && t.attrs[key] == if Effective(item, key, s.users) then Field(item, "value", Null) else s.attrs[key]
  {
    hide Contains, Override;
  }

  /** The set of user-set keys survives exactly when no handled item names that attribute. */
  lemma {:induction false} UsersKeptIff(items: seq<Json>, keys: set<string>)
    requires USER_KEYS !in keys
    ensures UsersAfter(items, Keys(keys)) == Keys(keys)
            <==> forall i :: 0 <= i < |items| ==> !Names(items[i], USER_KEYS)
  {
    if items != [] {
      var n := |items| - 1;
      UsersKeptIff(items[..n], keys);
      if UsersAfter(items[..n], Keys(keys)) == Keys(keys) {
        assert forall i :: 0 <= i < n ==> !Names(items[i], USER_KEYS) by {
          forall i | 0 <= i < n ensures !Names(items[i], USER_KEYS) { assert items[..n][i] == items[i]; }
        }
      } else {
        var i :| 0 <= i < n && Names(items[..n][i], USER_KEYS);
        assert Names(items[i], USER_KEYS);
        UsersStayReplaced(items, keys);
      }
    }
  }

  lemma UsersStayReplaced(items: seq<Json>, keys: set<string>)
    requires items != [] && UsersAfter(items[..|items| - 1], Keys(keys)) != Keys(keys)
    ensures UsersAfter(items, Keys(keys)) != Keys(keys)
  {
    NeverKeysAgain(items[..|items| - 1], keys);
  }

  lemma {:induction false} NeverKeysAgain(items: seq<Json>, keys: set<string>)
    ensures UsersAfter(items, Keys(keys)).Keys? ==> UsersAfter(items, Keys(keys)) == Keys(keys)
  {
    if items != [] { NeverKeysAgain(items[..|items| - 1], keys); }
  }

  /** Some item may set the key whoever set it before. */
  ghost predicate Overridden(items: seq<Json>, key: string) {
    exists i :: 0 <= i < |items| && Names(items[i], key) && Override(items[i])
  }

  /** Item i names the key at a moment when the user-set keys are known not to hold it. */
  predicate SlipsThrough(items: seq<Json>, i: nat, key: string, users: Users)
    requires i < |items|
  {
    Names(items[i], key) && Contains(UsersAfter(items[..i], users), key) == Some(false)
  }

  /** The same state with another value under the key. */
  function Holding(s: State, key: string, v: Json): (r: State)
    requires Proper(s) && key in s.attrs
    ensures Proper(r) && r.users == s.users && key in r.attrs && r.attrs[key] == v
  {
    s.(attrs := s.attrs[key := v])
  }

  /** A key's value changes only through an item that overrides, whatever that value is. */
  ghost predicate Protected(s: State, items: seq<Json>, key: string, loads: Loads)
    requires Proper(s) && key in s.attrs
  {
    forall v: Json :: Fold(Holding(s, key, v), items, loads).attrs[key] != v ==> Overridden(items, key)
  }

  /** Item i sets the key. */
  predicate SetsAt(items: seq<Json>, i: nat, key: string, users: Users)
    requires i < |items|
  {
    Effective(items[i], key, UsersAfter(items[..i], users))
  }

  ghost predicate Sets(items: seq<Json>, key: string, users: Users) {
    exists i :: 0 <= i < |items| && SetsAt(items, i, key, users)
  }

  lemma SetsAtEnd(items: seq<Json>, key: string, users: Users)
    requires items != []
    ensures var n := |items| - 1;
            Sets(items, key, users) <==> Sets(items[..n], key, users) || SetsAt(items, n, key, users)
  {
    hide Effective, UsersAfter;
    var n := |items| - 1;
    var front := items[..n];
    forall i | 0 <= i < n ensures SetsAt(front, i, key, users) <==> SetsAt(items, i, key, users) {
      assert front[i] == items[i] && front[..i] == items[..i];
    }
    if i :| 0 <= i < n && SetsAt(front, i, key, users) { assert SetsAt(items, i, key, users); }
  }

  /** A value stays as it is unless some item sets it, and then it is forgotten. */
  lemma {:induction false} SetOrKept(items: seq<Json>, key: string, users: Users, v: Json, w: Json)
    ensures if Sets(items, key, users)
            then LastEffective(items, key, users, v) == LastEffective(items, key, users, w)
            else LastEffective(items, key, users, v) == v
  {
    if items != [] {
      hide Effective, UsersAfter, Sets;
      SetsAtEnd(items, key, users);
      SetOrKept(items[..|items| - 1], key, users, v, w);
    }
  }

  /** A key other than extra_config is protected exactly when an item overrides it anyway or
      none slips through; in particular a user-set key whose set no item replaces. */
  lemma UserSetKeyProtectedIff(s: State, items: seq<Json>, key: string, loads: Loads)
    requires Proper(s) && key in s.attrs && key != EXTRA
    ensures Protected(s, items, key, loads)
       <==> Overridden(items, key) || forall i :: 0 <= i < |items| ==> !SlipsThrough(items, i, key, s.users)
    ensures s.users.Keys? && key in s.users.keys && USER_KEYS !in s.users.keys
            && (forall i :: 0 <= i < |items| ==> !Names(items[i], USER_KEYS))
        ==> Protected(s, items, key, loads)
  {
    forall v: Json
      ensures Fold(Holding(s, key, v), items, loads).attrs[key] == LastEffective(items, key, s.users, v)
    {
      LastEffectiveWins(Holding(s, key, v), items, key, loads);
    }
    hide Fold, LastEffective, Holding, Names, Override, Contains, UsersAfter, Sets;
    if !Overridden(items, key) {
      SetsIfSlips(items, key, s.users);
      var w := LastEffective(items, key, s.users, Null);
      var v := if w == Null then Bool(true) else Null;
      SetOrKept(items, key, s.users, v, Null);
      forall u: Json ensures !Sets(items, key, s.users) ==> LastEffective(items, key, s.users, u) == u {
        SetOrKept(items, key, s.users, u, u);
      }
      assert Fold(Holding(s, key, v), items, loads).attrs[key] == LastEffective(items, key, s.users, v);
    }
    if s.users.Keys? && key in s.users.keys && USER_KEYS !in s.users.keys
       && forall i :: 0 <= i < |items| ==> !Names(items[i], USER_KEYS)
    {
      SetSurvives(items, key, s.users.keys);
    }
  }

  lemma SetsIfSlips(items: seq<Json>, key: string, users: Users)
    requires !Overridden(items, key)
    ensures Sets(items, key, users) <==> exists i :: 0 <= i < |items| && SlipsThrough(items, i, key, users)
  {
    hide Names, Override, Contains, UsersAfter;
    forall i | 0 <= i < |items| ensures SetsAt(items, i, key, users) <==> SlipsThrough(items, i, key, users) {
    }
    if i :| 0 <= i < |items| && SlipsThrough(items, i, key, users) { assert SetsAt(items, i, key, users); }
    if i :| 0 <= i < |items| && SetsAt(items, i, key, users) { assert SlipsThrough(items, i, key, users); }
  }

  lemma SetSurvives(items: seq<Json>, key: string, keys: set<string>)
    requires key in keys && USER_KEYS !in keys && forall i :: 0 <= i < |items| ==> !Names(items[i], USER_KEYS)
    ensures forall i :: 0 <= i < |items| ==> !SlipsThrough(items, i, key, Keys(keys))
  {
    hide Names;
    forall i | 0 <= i < |items| ensures !SlipsThrough(items, i, key, Keys(keys)) {
      UsersKeptIff(items[..i], keys);
    }
  }

  lemma FoldStep(s: State, items: seq<Json>, a: Json, loads: Loads)
    requires Proper(s)
    ensures Fold(s, [], loads) == s && Fold(s, items + [a], loads) == Step(Fold(s, items, loads), a, loads)
  {
    hide Step, Proper;
    assert (items + [a])[..|items|] == items;
  }

  /** A non-overriding item with a name sets that attribute. */
  lemma PlainItem(s: State, key: string, value: Json, loads: Loads)
    requires Proper(s) && key != ""
    ensures Step(s, Dict(map["key" := Str(key), "value" := value, "override" := Bool(false)]), loads)
            == Set(s, key, value, false, loads).0
  {
    hide Set;
  }

  lemma UsersHold(key: string, other: string)
    ensures Contains(Replaced(List([])), key) == Some(false)
    ensures Contains(Keys({key}), key) == Some(true) && Contains(Keys({key}), other) == Some(other == key)
  {
  }

  /** The case is real: an item can replace the set itself, and a later one slips through. */
  lemma ReplacedSetProtectsNothing(loads: Loads)
    ensures var s := State(map[EXTRA := Null, "chunk_size" := Num(256.0)], Keys({"chunk_size"}));
            var wipe := Dict(map["key" := Str(USER_KEYS), "value" := List([]), "override" := Bool(false)]);
            var change := Dict(map["key" := Str("chunk_size"), "value" := Num(1.0), "override" := Bool(false)]);
      && Fold(s, [change], loads).attrs["chunk_size"] == Num(256.0)
      && Fold(s, [wipe, change], loads).attrs["chunk_size"] == Num(1.0)
  {
    var s := State(map[EXTRA := Null, "chunk_size" := Num(256.0)], Keys({"chunk_size"}));
    var wipe := Dict(map["key" := Str(USER_KEYS), "value" := List([]), "override" := Bool(false)]);
    var change := Dict(map["key" := Str("chunk_size"), "value" := Num(1.0), "override" := Bool(false)]);
    hide Contains, Step, Fold;
    FoldStep(s, [], change, loads);
    FoldStep(s, [], wipe, loads);
    FoldStep(s, [wipe], change, loads);
    assert [] + [change] == [change] && [] + [wipe] == [wipe] && [wipe] + [change] == [wipe, change];
    PlainItem(s, "chunk_size", Num(1.0), loads);
    PlainItem(s, USER_KEYS, List([]), loads);
    PlainItem(s.(users := Replaced(List([]))), "chunk_size", Num(1.0), loads);
    UsersHold("chunk_size", USER_KEYS);
  }

  // ----- extra_config -----

  /** One parsed extra_config value with its override flag. */
  datatype Extra = Extra(value: Json, override: bool)

  function Extras(items: seq<Json>, loads: Loads): seq<Extra> {
    if items == [] then []
    else
      var item := items[|items| - 1];
      var v := Parsed(Field(item, "value", Null), loads);
      Extras(items[..|items| - 1], loads)
      + if Names(item, EXTRA) && v.Some? then [Extra(v.value, Override(item))] else []
  }

  function MergeAll(current: Json, extras: seq<Extra>): Json {
    if extras == [] then current
    else
      var e := extras[|extras| - 1];
      Merge(MergeAll(current, extras[..|extras| - 1]), e.value, e.override)
  }

  lemma NothingMerged(current: Json)
    ensures MergeAll(current, []) == current
  {
  }

  lemma MergeOneMore(current: Json, extras: seq<Extra>, e: Extra)
    ensures MergeAll(current, extras + [e]) == Merge(MergeAll(current, extras), e.value, e.override)
  {
    assert (extras + [e])[..|extras|] == extras;
  }

  lemma StepMerges(s: State, item: Json, loads: Loads)
    requires Proper(s)
    ensures var v := Parsed(Field(item, "value", Null), loads);
         Step(s, item, loads).attrs[EXTRA] ==
           if Names(item, EXTRA) && v.Some? then Merge(s.attrs[EXTRA], v.value, Override(item)) else s.attrs[EXTRA]
  {
    hide Merge, Parsed, Contains;
  }

  /** extra_config ends as the left-to-right merge or replacement of the items naming it. */
  lemma {:induction false} ExtraIsMerged(s: State, items: seq<Json>, loads: Loads)
    requires Proper(s)
    ensures Fold(s, items, loads).attrs[EXTRA] == MergeAll(s.attrs[EXTRA], Extras(items, loads))
  {
    hide Step, Merge, Parsed, Names, MergeAll;
    if items == [] {
      NothingMerged(s.attrs[EXTRA]);
    }
    if items != [] {
      var front, item := items[..|items| - 1], items[|items| - 1];
      ExtraIsMerged(s, front, loads);
      StepMerges(Fold(s, front, loads), item, loads);
      var es := Extras(front, loads);
      var v := Parsed(Field(item, "value", Null), loads);
      if Names(item, EXTRA) && v.Some? {
        var e := Extra(v.value, Override(item));
        assert Extras(items, loads) == es + [e];
        MergeOneMore(s.attrs[EXTRA], es, e);
      } else {
        assert Extras(items, loads) == es;
      }
    }
  }

  /** A replacing value makes everything before it irrelevant. */
  lemma {:induction false} ReplacementForgets(a: Json, b: Json, extras: seq<Extra>, i: nat)
    requires i < |extras| && extras[i].override
    ensures MergeAll(a, extras) == MergeAll(b, extras)
    decreases |extras|
  {
    if i < |extras| - 1 { ReplacementForgets(a, b, extras[..|extras| - 1], i); }
  }

  /** All dictionaries among the values, later entries winning. */
  function Total(extras: seq<Extra>): map<string, Json> {
    if extras == [] then map[]
    else
      var e := extras[|extras| - 1];
      Total(extras[..|extras| - 1]) + if e.value.Dict? then e.value.entries else map[]
  }

  predicate AnyDict(extras: seq<Extra>) {
    exists i | 0 <= i < |extras| :: extras[i].value.Dict?
  }

  /** Merges only: dictionaries accumulate on a dictionary, or from the first one on. */
  lemma {:induction false} MergesAccumulate(current: Json, extras: seq<Extra>)
    requires forall i :: 0 <= i < |extras| ==> !extras[i].override
    ensures MergeAll(current, extras) ==
              if current.Dict? then Dict(current.entries + Total(extras))
              else if AnyDict(extras) then Dict(Total(extras))
              else if extras == [] then current
              else extras[|extras| - 1].value
    ensures !AnyDict(extras) ==> Total(extras) == map[]
    decreases |extras|
  {
    hide AnyDict;
    AnyDictAtEnd(extras);
    if extras == [] {
      Associates(if current.Dict? then current.entries else map[], map[], map[]);
    } else {
      var n := |extras| - 1;
      assert !extras[n].override;
      AnyDictAtEnd(extras[..n]);
      MergesAccumulate(current, extras[..n]);
      MergeAccumulates(current, extras[..n], extras[n].value);
    }
  }

  /** One more value on what has accumulated. */
  lemma MergeAccumulates(current: Json, front: seq<Extra>, value: Json)
    ensures current.Dict? ==> Merge(Dict(current.entries + Total(front)), value, false)
                              == Dict(current.entries + (Total(front) + if value.Dict? then value.entries else map[]))
    ensures Total(front) + map[] == Total(front) && (value.Dict? ==> map[] + value.entries == value.entries)
  {
    hide Total;
    var now := if current.Dict? then current.entries else map[];
    var more := if value.Dict? then value.entries else map[];
    Associates(now, Total(front), more);
    Associates(Total(front), more, map[]);
    Associates(more, map[], map[]);
  }

  lemma AnyDictAtEnd(extras: seq<Extra>)
    ensures extras != [] ==> (AnyDict(extras) <==> AnyDict(extras[..|extras| - 1]) || extras[|extras| - 1].value.Dict?)
    ensures AnyDict(extras) ==> extras != []
  {
    if extras != [] {
      var n := |extras| - 1;
      assert forall i :: 0 <= i < n ==> extras[..n][i] == extras[i];
    }
  }

  lemma Associates(a: map<string, Json>, b: map<string, Json>, c: map<string, Json>)
    ensures (a + b) + c == a + (b + c)
    ensures a + map[] == a && map[] + a == a
  {
  }

  /** Each entry of an accumulated extra_config is that of the last value holding it. */
  lemma {:induction false} LastEntryWins(extras: seq<Extra>, name: string)
    ensures name in Total(extras) <==> AnyHolds(extras, name)
    ensures forall i :: LastHolder(extras, i, name) ==> Total(extras)[name] == extras[i].value.entries[name]
    decreases |extras|
  {
    if extras == [] {
      NobodyHolds(name);
    } else {
      hide AnyHolds, LastHolder, Total;
      LastEntryWins(extras[..|extras| - 1], name);
      TotalStep(extras, name);
      HoldersStep(extras, name);
      forall i | LastHolder(extras, i, name) ensures Total(extras)[name] == extras[i].value.entries[name] {
        assert i < |extras| - 1 ==> LastHolder(extras[..|extras| - 1], i, name);
      }
    }
  }

  lemma NobodyHolds(name: string)
    ensures !AnyHolds([], name) && forall i :: !LastHolder([], i, name)
  {
  }

  /** The last value decides about a name it holds and leaves the others alone. */
  lemma TotalStep(extras: seq<Extra>, name: string)
    requires extras != []
    ensures var n := |extras| - 1;
            var front := Total(extras[..n]);
            && (Holds(extras[n], name) ==>
                  name in Total(extras) && Total(extras)[name] == extras[n].value.entries[name])
            && (!Holds(extras[n], name) ==> (name in Total(extras) <==> name in front))
            && (!Holds(extras[n], name) && name in front ==> Total(extras)[name] == front[name])
  {
  }

  lemma HoldersStep(extras: seq<Extra>, name: string)
    requires extras != []
    ensures var n := |extras| - 1;
            && (AnyHolds(extras, name) <==> AnyHolds(extras[..n], name) || Holds(extras[n], name))
            && (forall i :: LastHolder(extras, i, name) ==>
                  0 <= i <= n && Holds(extras[i], name)
                  && (i < n ==> LastHolder(extras[..n], i, name) && AnyHolds(extras[..n], name))
                  && (i < n ==> extras[..n][i] == extras[i] && !Holds(extras[n], name)))
  {
    hide Holds;
    var n := |extras| - 1;
    assert forall i :: 0 <= i < n ==> extras[..n][i] == extras[i];
    if i :| 0 <= i < n && Holds(extras[..n][i], name) { assert Holds(extras[i], name); }
  }

  ghost predicate AnyHolds(extras: seq<Extra>, name: string) {
    exists i :: 0 <= i < |extras| && Holds(extras[i], name)
  }

  ghost predicate LastHolder(extras: seq<Extra>, i: int, name: string) {
    && 0 <= i < |extras| && Holds(extras[i], name)
    && forall j :: i < j < |extras| ==> !Holds(extras[j], name)
  }

  predicate Holds(e: Extra, name: string) {
    e.value.Dict? && name in e.value.entries
  }

  // ----- applying the same response again changes nothing -----

  lemma MergeAllIdempotent(current: Json, extras: seq<Extra>)
    ensures MergeAll(MergeAll(current, extras), extras) == MergeAll(current, extras)
  {
    if i :| 0 <= i < |extras| && extras[i].override {
      ReplacementForgets(current, MergeAll(current, extras), extras, i);
    } else {
      var once := MergeAll(current, extras);
      MergesAccumulate(current, extras);
      MergesAccumulate(once, extras);
      if once.Dict? {
        assert once.entries + Total(extras) == once.entries;
      }
      if !AnyDict(extras) && extras != [] {
        assert !extras[|extras| - 1].value.Dict?;
      }
    }
  }

  ghost predicate Idempotent(s: State, items: seq<Json>, loads: Loads)
    requires Proper(s)
  {
    Fold(Fold(s, items, loads), items, loads) == Fold(s, items, loads)
  }

  /** With the user-set keys the first pass leaves, a second one sets the key to nothing else. */
  ghost predicate Settled(items: seq<Json>, key: string, users: Users) {
    var later := UsersAfter(items, users);
    Sets(items, key, later) ==>
      && Sets(items, key, users)
      && LastEffective(items, key, later, Null) == LastEffective(items, key, users, Null)
  }

  lemma SecondPass(s: State, items: seq<Json>, key: string, loads: Loads)
    requires Proper(s) && key in s.attrs
    ensures var once := Fold(s, items, loads);
            var twice := Fold(once, items, loads);
            && once.users == UsersAfter(items, s.users) && twice.users == UsersAfter(items, once.users)
            && (key == EXTRA || Settled(items, key, s.users) ==> twice.attrs[key] == once.attrs[key])
  {
    hide Fold, LastEffective, Sets, MergeAll, Extras;
    var once := Fold(s, items, loads);
    UsersFold(s, items, loads);
    UsersFold(once, items, loads);
    if key == EXTRA {
      ExtraIsMerged(s, items, loads);
      ExtraIsMerged(once, items, loads);
      MergeAllIdempotent(s.attrs[EXTRA], Extras(items, loads));
    } else {
      LastEffectiveWins(s, items, key, loads);
      LastEffectiveWins(once, items, key, loads);
      SetOrKept(items, key, once.users, once.attrs[key], Null);
      SetOrKept(items, key, s.users, s.attrs[key], Null);
    }
  }

  /** A key that is not settled shows it for some value it may start with. */
  lemma Unsettled(s: State, items: seq<Json>, key: string, loads: Loads) returns (v: Json)
    requires Proper(s) && key in s.attrs && key != EXTRA && !Settled(items, key, s.users)
    ensures Proper(State(s.attrs[key := v], s.users)) && s.attrs[key := v].Keys == s.attrs.Keys
    ensures !Idempotent(State(s.attrs[key := v], s.users), items, loads)
  {
    hide Fold, LastEffective, Sets, UsersAfter;
    var later := UsersAfter(items, s.users);
    v := if LastEffective(items, key, later, Null) == Null then Bool(true) else Null;
    var start := Holding(s, key, v);
    var once := Fold(start, items, loads);
    UsersFold(start, items, loads);
    LastEffectiveWins(start, items, key, loads);
    LastEffectiveWins(once, items, key, loads);
    SetOrKept(items, key, later, once.attrs[key], Null);
    SetOrKept(items, key, s.users, v, Null);
  }

  /** Idempotent whatever values the attributes start with. */
  ghost predicate AlwaysIdempotent(s: State, items: seq<Json>, loads: Loads)
    requires Proper(s)
  {
    forall attrs: map<string, Json> | attrs.Keys == s.attrs.Keys :: Idempotent(State(attrs, s.users), items, loads)
  }

  ghost predicate Repeatable(s: State, items: seq<Json>) {
    && UsersAfter(items, UsersAfter(items, s.users)) == UsersAfter(items, s.users)
    && forall key | key in s.attrs && key != EXTRA :: Settled(items, key, s.users)
  }

  /** Applying a response twice is applying it once, whatever values the attributes hold,
      exactly when the second pass leaves the user-set keys alone and every key is settled;
      in particular while no item names the user-set keys. */
  lemma ApplyIsIdempotentIff(s: State, items: seq<Json>, loads: Loads)
    requires Proper(s)
    ensures AlwaysIdempotent(s, items, loads) <==> Repeatable(s, items)
    ensures s.users.Keys? && USER_KEYS !in s.users.keys
            && (forall i :: 0 <= i < |items| ==> !Names(items[i], USER_KEYS))
        ==> Repeatable(s, items)
  {
    hide Idempotent, Fold, Settled, UsersAfter, Names;
    if Repeatable(s, items) {
      forall attrs: map<string, Json> | attrs.Keys == s.attrs.Keys
        ensures Idempotent(State(attrs, s.users), items, loads)
      {
        AllSettled(State(attrs, s.users), items, loads);
      }
    }
    if AlwaysIdempotent(s, items, loads) { IdempotentIsRepeatable(s, items, loads); }
    if s.users.Keys? && USER_KEYS !in s.users.keys && forall i :: 0 <= i < |items| ==> !Names(items[i], USER_KEYS) {
      UsersKeptIff(items, s.users.keys);
      forall key ensures Settled(items, key, s.users) { SameUsersSettle(items, key, s.users); }
    }
  }

  lemma IdempotentIsRepeatable(s: State, items: seq<Json>, loads: Loads)
    requires Proper(s) && AlwaysIdempotent(s, items, loads)
    ensures Repeatable(s, items)
  {
    hide Idempotent, Fold, Settled, UsersAfter, AlwaysIdempotent;
    UsersRepeat(s, items, loads);
    forall key | key in s.attrs && key != EXTRA ensures Settled(items, key, s.users) {
      KeySettles(s, items, key, loads);
    }
  }

  lemma UsersRepeat(s: State, items: seq<Json>, loads: Loads)
    requires Proper(s) && AlwaysIdempotent(s, items, loads)
    ensures UsersAfter(items, UsersAfter(items, s.users)) == UsersAfter(items, s.users)
  {
    hide Fold, UsersAfter;
    assert Idempotent(State(s.attrs, s.users), items, loads);
    SecondPass(State(s.attrs, s.users), items, EXTRA, loads);
  }

  lemma KeySettles(s: State, items: seq<Json>, key: string, loads: Loads)
    requires Proper(s) && AlwaysIdempotent(s, items, loads) && key in s.attrs && key != EXTRA
    ensures Settled(items, key, s.users)
  {
    hide Idempotent, Settled;
    if !Settled(items, key, s.users) {
      var v := Unsettled(s, items, key, loads);
      assert false;
    }
  }

  lemma SameUsersSettle(items: seq<Json>, key: string, users: Users)
    requires UsersAfter(items, users) == users
    ensures Settled(items, key, users)
  {
  }

  lemma AllSettled(s: State, items: seq<Json>, loads: Loads)
    requires Proper(s) && Repeatable(s, items)
    ensures Idempotent(s, items, loads)
  {
    hide Settled, UsersAfter;
    var once := Fold(s, items, loads);
    var twice := Fold(once, items, loads);
    hide Fold;
    SecondPass(s, items, EXTRA, loads);
    forall key | key in s.attrs ensures twice.attrs[key] == once.attrs[key] { SecondPass(s, items, key, loads); }
    assert twice.attrs == once.attrs;
  }

  lemma {:induction false} UsersFold(s: State, items: seq<Json>, loads: Loads)
    requires Proper(s)
    ensures Fold(s, items, loads).users == UsersAfter(items, s.users)
  {
    if items != [] {
      UsersFold(s, items[..|items| - 1], loads);
    }
  }
}

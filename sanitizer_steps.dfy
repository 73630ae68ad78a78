/**
 * What one submission does to the entry being built, step by step, as the
 * `Sanitizer` of flaskinventory/main/sanitizer.py runs it: the input type
 * checks, the permission checks, the four `parse_*` hooks in the order
 * `dir()` lists them, the loop over the field list with its merge rules and
 * the collection of predicates to overwrite, the unique name, and the
 * resolution of a geographic subunit.
 *
 * Everything the steps ask of the outside world (the database, the geocoder,
 * Wikidata, `slugify`, `validate_uid`, random tokens and the clock) is a field
 * of `Env`; the field list is a parameter, since `entry_fields` and
 * `organization_fields` are not part of this model.
 */
module SanitizerSteps {
  import opened Values
  import Model

  /** A logged-in user: `uid` is its node, `id` what the login layer calls it. */
  datatype User = User(uid: string, id: string, role: int)

  /** The `user` argument: a `User`, or any other object. */
  datatype UserArg = IsUser(user: User) | NotUser(other: Value)

  /** A predicate's `autocode` hook, fed from the input key `autoinput`. */
  datatype Autocode = Autocode(autoinput: string, autocode: Value -> Result<Value>)

  /** One entry of the field list: a predicate with its validator, its optional
      autocode hook, its default and whether an upsert overwrites it. */
  datatype Field = Field(
    pred: string,
    validate: Value -> Result<Value>,
    auto: Option<Autocode>,
    default: Value,
    overwrite: bool)

  /** What `geocode` reports about a place; an empty name means the geocoder gave none. */
  datatype Geo = Geo(countryCode: string, name: string, nameEn: string, wikidata: string, point: Value)

  /** The outside world, as the steps consult it. */
  datatype Env = Env(
    /** `datetime.now(timezone.utc)` */
    now: Value,
    /** `validate_uid(uid)` is truthy */
    validUid: Value -> bool,
    /** `dgraph.get_uid('unique_name', name)`: a uid or None */
    uidOf: string -> Value,
    /** the `data1` query for a unique name finds a node */
    nameTaken: string -> bool,
    /** `slugify(x, separator='_')` on a string */
    slug: string -> string,
    /** `secrets.token_urlsafe(4)` */
    token: string,
    /** `slugify(secrets.token_urlsafe(8))` */
    blankSlug: string,
    /** `get_wikidata(name)`; an empty dict stands for a falsy answer */
    wikidata: Value -> Dict,
    /** `geocode(query)` */
    geocode: string -> Option<Geo>,
    /** the uid of the country with a country code, when the inventory has one */
    countryUid: string -> Option<Value>,
    /** the rows `_check_entry` finds for a uid */
    entryRows: Value -> seq<Dict>)

  /** Predicates an upsert wipes, keyed by the node they belong to. */
  type Overwrite = map<Value, seq<string>>

  /** The fields of a `Sanitizer` that its steps update. */
  datatype State = State(entry: Dict, overwrite: Overwrite, newsubunits: seq<Dict>, isUpsert: bool)

  /** `Sanitizer` itself, or `OrganizationSanitizer` with its extra fields. */
  datatype Kind = Plain | Organization(extra: seq<Field>)

  const ReviewPermissionMsg := "You do not have the required permissions to change the review status!"
  const EditPermissionMsg := "You do not have the required permissions to edit this entry!"
  const NoUidMsg := "You cannot edit an entry without a UID"
  const NameTakenMsg := "Unique Name already taken!"

  // ---------------------------------------------------------------------------
  // Text helpers for unique names
  // ---------------------------------------------------------------------------

  /** The ASCII characters `str.isspace()` accepts. */
  predicate IsSpace(c: char)
  {
    c == ' ' || 9 <= c as int <= 13 || 28 <= c as int <= 31
  }

  function TrimLeft(s: string): (r: string)
    ensures |r| <= |s| && r == s[|s| - |r|..]
    ensures r == [] || !IsSpace(r[0])
  {
    if s != [] && IsSpace(s[0]) then TrimLeft(s[1..]) else s
  }

  function TrimRight(s: string): (r: string)
    ensures |r| <= |s| && r == s[..|r|]
    ensures r == [] || !IsSpace(r[|r| - 1])
  {
    if s != [] && IsSpace(s[|s| - 1]) then TrimRight(s[..|s| - 1]) else s
  }

  /** `s.strip()`: no whitespace is left at either end. */
  function Strip(s: string): (r: string)
    ensures r == [] || (!IsSpace(r[0]) && !IsSpace(r[|r| - 1]))
  {
    TrimRight(TrimLeft(s))
  }

  function LowerChar(c: char): char
  {
    if 'A' <= c <= 'Z' then (c as int + 32) as char else c
  }

  /** `s.lower()` on ASCII letters */
  function Lower(s: string): (r: string)
    ensures |r| == |s|
    ensures forall i :: 0 <= i < |s| ==> r[i] == LowerChar(s[i])
  {
    if s == [] then [] else [LowerChar(s[0])] + Lower(s[1..])
  }

  /** A unique name given in the input, normalised */
  function Normalize(s: string): string
  {
    Lower(Strip(s))
  }

  /** Normalising a normalised name changes nothing, so a stored name is stable. */
  lemma NormalizeIdempotent(s: string)
    ensures Normalize(Normalize(s)) == Normalize(s)
  {
    var u := Strip(s);
    LowerKeepsEnds(u);
    StripTrimmed(Lower(u));
    LowerIdempotent(u);
  }

  /** A string without whitespace at its ends is its own strip. */
  lemma StripTrimmed(t: string)
    requires t == [] || (!IsSpace(t[0]) && !IsSpace(t[|t| - 1]))
    ensures Strip(t) == t
  {
    assert TrimLeft(t) == t;
  }

  /** Lower-casing adds no whitespace at the ends. */
  lemma LowerKeepsEnds(u: string)
    requires u == [] || (!IsSpace(u[0]) && !IsSpace(u[|u| - 1]))
    ensures var t := Lower(u); t == [] || (!IsSpace(t[0]) && !IsSpace(t[|t| - 1]))
  {
    if u != [] {
      LowerNotSpace(u[0]);
      LowerNotSpace(u[|u| - 1]);
    }
  }

  /** `LowerChar` keeps whitespace as it is. */
  lemma LowerNotSpace(c: char)
    ensures IsSpace(LowerChar(c)) == IsSpace(c)
  {
  }

  lemma LowerIdempotent(u: string)
    ensures Lower(Lower(u)) == Lower(u)
  {
  }

  // ---------------------------------------------------------------------------
  // Input checks: `_validate_inputdata` and `edit`
  // ---------------------------------------------------------------------------

  /** `_validate_inputdata`: a dict, a `User` and a str, checked in that order. */
  function ValidateInput(data: Value, user: UserArg, ip: Value): (r: Result<(Dict, User, string)>)
    ensures r.Err? <==> !data.DictV? || !user.IsUser? || !ip.StrV?
    ensures r.Err? ==> r.error == TypeError
    ensures r.Ok? ==> r.value == (data.d, user.user, ip.s)
  {
    if !data.DictV? then Err(TypeError)
    else if !user.IsUser? then Err(TypeError)
    else if !ip.StrV? then Err(TypeError)
    else Ok((data.d, user.user, ip.s))
  }

  /** `_check_entry`: the first row found for the uid, or None for False. */
  function CheckEntry(uid: Value, env: Env): Option<Dict>
  {
    var rows := env.entryRows(uid);
    if rows == [] then None else Some(rows[0])
  }

  /** The checks `edit` makes before it constructs the upsert. */
  function EditCheck(data: Value, user: UserArg, ip: Value, env: Env): Result<()>
  {
    var (d, u, _) :- ValidateInput(data, user, ip);
    if "uid" !in Keys(d) then Err(ValidationError(NoUidMsg))
    else
      var check := CheckEntry(GetOrNone(d, "uid"), env);
      if check.None? || check.value == [] then
        Err(ValidationError("Entry can not be edited! UID does not exist: " + Str(GetOrNone(d, "uid"))))
      else if u.role < Model.Reviewer then Err(PermissionError(EditPermissionMsg))
      else match Get(check.value, "entry_added")
        case Some(DictV(added)) =>
          if GetOrNone(added, "uid") == StrV(u.id) then Err(PermissionError(EditPermissionMsg)) else Ok(())
        case _ => Err(AttributeError)
  }

  // ---------------------------------------------------------------------------
  // `_add_entry_meta`
  // ---------------------------------------------------------------------------

  function Facets(ip: string, now: Value): Dict
  {
    [("timestamp", now), ("ip", StrV(ip))]
  }

  /** `UID(user.uid, facets={timestamp, ip})` */
  function Stamp(user: User, ip: string, now: Value): Value
  {
    UidV(StrV(user.uid), Facets(ip, now))
  }

  /** The `dgraph.type` of the main new entry: always a list, with `Entry` added
      when it was missing. */
  function EntryTypes(t: Value): Value
  {
    if !Truthy(t) then ListV([StrV("Entry")])
    else
      var xs := if t.ListV? then t.items else [t];
      if StrV("Entry") in xs then ListV(xs) else ListV(xs + [StrV("Entry")])
  }

  /**
   * `_add_entry_meta(entry, newentry)`. `mainNew` is the test the source makes
   * first: the dict equals `self.entry` and the sanitizer is not an upsert.
   */
  function AddEntryMeta(entry: Dict, mainNew: bool, newentry: bool, user: User, ip: string, now: Value): Dict
  {
    var typed := if mainNew then Put(entry, "dgraph.type", EntryTypes(GetOrNone(entry, "dgraph.type"))) else entry;
    if !newentry then Put(typed, "entry_edit_history", Stamp(user, ip, now))
    else Put(Put(Put(typed, "entry_added", Stamp(user, ip, now)), "entry_review_status", StrV("pending")), "creation_date", now)
  }

  /** The types of the main new entry keep their order and contain `Entry`; it
      occurs exactly once unless the caller already listed it more than once. */
  lemma EntryTypesOnce(t: Value)
    ensures EntryTypes(t).ListV? && StrV("Entry") in EntryTypes(t).items
    ensures t.ListV? ==> EntryTypes(t).items[..|t.items|] == t.items
    ensures t.ListV? && StrV("Entry") !in t.items ==> multiset(EntryTypes(t).items)[StrV("Entry")] == 1
    ensures Truthy(t) && !t.ListV? && t != StrV("Entry") ==> EntryTypes(t).items == [t, StrV("Entry")]
    ensures !Truthy(t) ==> EntryTypes(t).items == [StrV("Entry")]
  {
    if t.ListV? && StrV("Entry") !in t.items && t.items != [] {
      assert multiset(t.items)[StrV("Entry")] == 0;
      assert multiset(t.items + [StrV("Entry")]) == multiset(t.items) + multiset{StrV("Entry")};
    }
  }

  /** A new entry is stamped as added by the user, pending review and created now;
      its types are left alone unless it is the main entry. */
  lemma AddEntryMetaNew(entry: Dict, mainNew: bool, user: User, ip: string, now: Value)
    ensures var r := AddEntryMeta(entry, mainNew, true, user, ip, now);
      && Get(r, "entry_added") == Some(UidV(StrV(user.uid), [("timestamp", now), ("ip", StrV(ip))]))
      && Get(r, "entry_review_status") == Some(StrV("pending"))
      && Get(r, "creation_date") == Some(now)
      && Get(r, "entry_edit_history") == Get(entry, "entry_edit_history")
      && Get(r, "dgraph.type") == (if mainNew then Some(EntryTypes(GetOrNone(entry, "dgraph.type"))) else Get(entry, "dgraph.type"))
  {
    var typed := if mainNew then Put(entry, "dgraph.type", EntryTypes(GetOrNone(entry, "dgraph.type"))) else entry;
    if mainNew {
      PutGet(entry, "dgraph.type", EntryTypes(GetOrNone(entry, "dgraph.type")));
    }
    var a := Put(typed, "entry_added", Stamp(user, ip, now));
    var b := Put(a, "entry_review_status", StrV("pending"));
    PutGet(typed, "entry_added", Stamp(user, ip, now));
    PutGet(a, "entry_review_status", StrV("pending"));
    PutGet(b, "creation_date", now);
  }

  /** An edit records who edited it, and touches neither the review status nor the author. */
  lemma AddEntryMetaEdit(entry: Dict, mainNew: bool, user: User, ip: string, now: Value)
    ensures var r := AddEntryMeta(entry, mainNew, false, user, ip, now);
      && Get(r, "entry_edit_history") == Some(UidV(StrV(user.uid), [("timestamp", now), ("ip", StrV(ip))]))
      && Get(r, "entry_review_status") == Get(entry, "entry_review_status")
      && Get(r, "entry_added") == Get(entry, "entry_added")
      && Get(r, "creation_date") == Get(entry, "creation_date")
  {
    var typed := if mainNew then Put(entry, "dgraph.type", EntryTypes(GetOrNone(entry, "dgraph.type"))) else entry;
    if mainNew {
      PutGet(entry, "dgraph.type", EntryTypes(GetOrNone(entry, "dgraph.type")));
    }
    PutGet(typed, "entry_edit_history", Stamp(user, ip, now));
  }

  // ---------------------------------------------------------------------------
  // The hooks, in the order `dir()` lists them
  // ---------------------------------------------------------------------------

  /** `parse_entry_review_status` */
  function ReviewStatus(entry: Dict, data: Dict, user: User, now: Value): Result<Dict>
  {
    if Truthy(GetOrNone(data, "accept")) then
      if user.role < Model.Reviewer then Err(PermissionError(ReviewPermissionMsg))
      else Ok(Put(Put(entry, "entry_review_status", StrV("accepted")),
                  "reviewed_by", UidV(StrV(user.uid), [("timestamp", now)])))
    else if Truthy(GetOrNone(data, "entry_review_status")) && user.role < Model.Reviewer then
      Err(PermissionError(ReviewPermissionMsg))
    else Ok(entry)
  }

  /** `data.get('uid', '_:newentry')` */
  function UidArg(data: Dict): Value
  {
    match Get(data, "uid")
    case Some(u) => u
    case None => StrV("_:newentry")
  }

  /** The node the entry stands for: an existing one when the uid is valid. */
  function EntryUid(data: Dict, env: Env): Value
  {
    if env.validUid(UidArg(data)) then UidV(UidArg(data), []) else NewIdV(UidArg(data))
  }

  /** `parse_uid`: the entry and the new `is_upsert`. */
  function StampUid(entry: Dict, data: Dict, isUpsert: bool, user: User, ip: string, env: Env): (Dict, bool)
  {
    var uid := UidArg(data);
    if !env.validUid(uid) then
      (AddEntryMeta(Put(entry, "uid", NewIdV(uid)), !isUpsert, true, user, ip, env.now), isUpsert)
    else
      (AddEntryMeta(Put(entry, "uid", UidV(uid, [])), !isUpsert, false, user, ip, env.now), true)
  }

  /** `slugify(v, separator='_')`: anything but a string (a missing name, say) is a TypeError. */
  function Slugify(v: Value, env: Env): Result<string>
  {
    match v
    case StrV(s) => Ok(env.slug(s))
    case _ => Err(TypeError)
  }

  /** The slug of `name`, with a random suffix when that slug is already taken. */
  function SlugName(data: Dict, env: Env): Result<string>
  {
    var name :- Slugify(GetOrNone(data, "name"), env);
    Ok(if env.nameTaken(name) then name + "_" + env.token else name)
  }

  /** `generate_unique_name` */
  function GenerateUniqueName(entry: Dict, data: Dict, env: Env): Result<Dict>
  {
    var name :- SlugName(data, env);
    Ok(Put(entry, "unique_name", StrV(name)))
  }

  /** `parse_unique_name` */
  function UniqueName(entry: Dict, data: Dict, isUpsert: bool, env: Env): Result<Dict>
  {
    var given := GetOrNone(data, "unique_name");
    if !Truthy(given) then GenerateUniqueName(entry, data, env)
    else if !given.StrV? then Err(AttributeError)
    else
      var name := Normalize(given.s);
      var check := env.uidOf(name);
      if isUpsert && Truthy(check) then
        match Get(entry, "uid")
        case None => Err(KeyError)
        case Some(u) =>
          if check != StrV(Str(u)) then Err(ValidationError(NameTakenMsg))
          else Ok(Put(entry, "unique_name", StrV(name)))
      else Ok(Put(entry, "unique_name", StrV(name)))
  }

  /** One item of the Wikidata answer: new keys are taken, `other_names` is extended. */
  function WikidataItem(entry: Dict, item: (string, Value)): Result<Dict>
  {
    if item.0 !in Keys(entry) then Ok(Put(entry, item.0, item.1))
    else if item.0 == "other_names" then
      var names :- IAdd(GetOrNone(entry, item.0), item.1);
      Ok(Put(entry, item.0, names))
    else Ok(entry)
  }

  function WikidataStep(): (Dict, (string, Value)) -> Result<Dict>
  {
    (e, item) => WikidataItem(e, item)
  }

  /** `parse_wikidata` */
  function Wikidata(entry: Dict, data: Dict, isUpsert: bool, env: Env): Result<Dict>
  {
    if isUpsert then Ok(entry)
    else Fold(WikidataStep(), entry, env.wikidata(GetOrNone(data, "name")))
  }

  /** What Wikidata adds keeps every key the entry had, and all but `other_names` keep their values. */
  lemma {:induction false} WikidataKeeps(entry: Dict, items: Dict)
    requires Fold(WikidataStep(), entry, items).Ok?
    ensures var r := Fold(WikidataStep(), entry, items).value;
      && Keys(r) == Keys(entry) + Keys(items)
      && forall k :: k in Keys(entry) && k != "other_names" ==> Get(r, k) == Get(entry, k)
    decreases |items|
  {
    if items != [] {
      var init := items[..|items| - 1];
      var last := items[|items| - 1];
      WikidataKeeps(entry, init);
      var e := Fold(WikidataStep(), entry, init).value;
      assert Keys(items) == Keys(init) + {last.0} by {
        KeysSnoc(init, last);
        assert init + [last] == items;
      }
      if last.0 !in Keys(e) {
        PutGet(e, last.0, last.1);
        PutKeys(e, last.0, last.1);
      } else if last.0 == "other_names" {
        var names := IAdd(GetOrNone(e, last.0), last.1).value;
        PutGet(e, last.0, names);
        PutKeys(e, last.0, names);
      }
    }
  }

  lemma {:induction false} KeysSnoc(d: Dict, kv: (string, Value))
    ensures Keys(d + [kv]) == Keys(d) + {kv.0}
  {
    if d != [] {
      assert (d + [kv])[1..] == d[1..] + [kv];
      KeysSnoc(d[1..], kv);
    } else {
      assert d + [kv] == [kv];
    }
  }

  // ---------------------------------------------------------------------------
  // The field loop
  // ---------------------------------------------------------------------------

  /** How a validated (or autocoded) value enters the entry. */
  function Merge(entry: Dict, pred: string, v: Value): Result<Dict>
  {
    match v
    case DictV(d) => Ok(Update(entry, d))
    case ListV(_) =>
      if pred in Keys(entry) then
        var joined :- IAdd(GetOrNone(entry, pred), v);
        Ok(Put(entry, pred, joined))
      else Ok(Put(entry, pred, v))
    case SetV(xs) =>
      if pred in Keys(entry) then
        var present :- Elems(GetOrNone(entry, pred));
        Ok(Put(entry, pred, SetV(xs + present)))
      else Ok(Put(entry, pred, v))
    case _ => Ok(Put(entry, pred, v))
  }

  /** A dict merges key by key, the new keys winning. */
  lemma MergeDict(entry: Dict, pred: string, d: Dict, k: string)
    requires DistinctKeys(d)
    ensures Merge(entry, pred, DictV(d)).Ok?
    ensures Get(Merge(entry, pred, DictV(d)).value, k) == if k in Keys(d) then Get(d, k) else Get(entry, k)
  {
    UpdateGet(entry, d, k);
  }

  /** A list extends the list already there. */
  lemma MergeList(entry: Dict, pred: string, xs: seq<Value>, present: seq<Value>)
    requires Get(entry, pred) == Some(ListV(present))
    ensures Merge(entry, pred, ListV(xs)) == Ok(Put(entry, pred, ListV(present + xs)))
  {
  }

  /** A set is united with the elements already there. */
  lemma MergeSet(entry: Dict, pred: string, xs: set<Value>)
    requires pred in Keys(entry)
    requires Elems(GetOrNone(entry, pred)).Ok?
    ensures Merge(entry, pred, SetV(xs)) == Ok(Put(entry, pred, SetV(xs + Elems(GetOrNone(entry, pred)).value)))
  {
  }

  /** Any other value, or a list or set for a predicate not yet present, replaces what is there. */
  lemma MergeReplaces(entry: Dict, pred: string, v: Value)
    requires !v.DictV?
    requires v.ListV? || v.SetV? ==> pred !in Keys(entry)
    ensures Merge(entry, pred, v) == Ok(Put(entry, pred, v))
    ensures Get(Merge(entry, pred, v).value, pred) == Some(v)
  {
    PutGet(entry, pred, v);
  }

  /** The entry after one field: its input validated, else its autocode, else its default. */
  function FieldEntry(entry: Dict, data: Dict, item: Field): Result<Dict>
  {
    var given := GetOrNone(data, item.pred);
    if Truthy(given) then
      var v :- item.validate(given);
      Merge(entry, item.pred, v)
    else if item.auto.Some? then
      if item.auto.value.autoinput in Keys(data) then
        var v :- item.auto.value.autocode(GetOrNone(data, item.auto.value.autoinput));
        Merge(entry, item.pred, v)
      else Ok(entry)
    else if Truthy(item.default) then Ok(Put(entry, item.pred, item.default))
    else Ok(entry)
  }

  /** The default is used exactly when the input is falsy, there is no autocode and
      the default is truthy; otherwise it never reaches the entry. */
  lemma DefaultOnlyWhenMissing(entry: Dict, data: Dict, item: Field)
    ensures !Truthy(GetOrNone(data, item.pred)) && item.auto.None? && Truthy(item.default)
      ==> FieldEntry(entry, data, item) == Ok(Put(entry, item.pred, item.default))
    ensures !Truthy(GetOrNone(data, item.pred)) && item.auto.None? && !Truthy(item.default)
      ==> FieldEntry(entry, data, item) == Ok(entry)
    ensures !Truthy(GetOrNone(data, item.pred)) && item.auto.Some? && item.auto.value.autoinput !in Keys(data)
      ==> FieldEntry(entry, data, item) == Ok(entry)
    ensures Truthy(GetOrNone(data, item.pred)) ==>
      (FieldEntry(entry, data, item) == (var v :- item.validate(GetOrNone(data, item.pred)); Merge(entry, item.pred, v)))
  {
  }

  /** After one field: the overwrite list of the entry's node gains the predicate
      when the field is overwritten on upserts. */
  function FieldOverwrite(entry: Dict, overwrite: Overwrite, isUpsert: bool, item: Field): Result<Overwrite>
  {
    if item.overwrite && isUpsert then
      match Get(entry, "uid")
      case None => Err(KeyError)
      case Some(u) =>
        if u in overwrite then Ok(overwrite[u := overwrite[u] + [item.pred]]) else Err(KeyError)
    else Ok(overwrite)
  }

  /** One iteration of the field loop. */
  function FieldStep(s: (Dict, Overwrite), data: Dict, isUpsert: bool, item: Field): Result<(Dict, Overwrite)>
  {
    var e :- FieldEntry(s.0, data, item);
    var o :- FieldOverwrite(e, s.1, isUpsert, item);
    Ok((e, o))
  }

  function FieldStepper(data: Dict, isUpsert: bool): ((Dict, Overwrite), Field) -> Result<(Dict, Overwrite)>
  {
    (s, item) => FieldStep(s, data, isUpsert, item)
  }

  /** The predicates of the fields an upsert overwrites, in list order. */
  function OverwritePreds(items: seq<Field>): seq<string>
  {
    if items == [] then []
    else
      var last := items[|items| - 1];
      OverwritePreds(items[..|items| - 1]) + (if last.overwrite then [last.pred] else [])
  }

  /**
   * On an upsert whose overwrite map holds the entry's node alone, a successful
   * field loop appends every overwritten predicate to that node, whether or not
   * the input supplied a value for it.
   */
  lemma {:induction false} FieldsOverwrite(entry: Dict, k: Value, pre: seq<string>, data: Dict, items: seq<Field>)
    requires Fold(FieldStepper(data, true), (entry, map[k := pre]), items).Ok?
    ensures Fold(FieldStepper(data, true), (entry, map[k := pre]), items).value.1 == map[k := pre + OverwritePreds(items)]
    decreases |items|
  {
    if items == [] {
      assert pre + [] == pre;
    } else {
      var init := items[..|items| - 1];
      var last := items[|items| - 1];
      FieldsOverwrite(entry, k, pre, data, init);
      var s := Fold(FieldStepper(data, true), (entry, map[k := pre]), init).value;
      assert items == init + [last];
      FoldSnoc(FieldStepper(data, true), (entry, map[k := pre]), init, last);
      var e := FieldEntry(s.0, data, last).value;
      if last.overwrite {
        assert Get(e, "uid").Some? && Get(e, "uid").value in s.1;
        assert (pre + OverwritePreds(init)) + [last.pred] == pre + OverwritePreds(items);
      } else {
        assert pre + OverwritePreds(init) == pre + OverwritePreds(items);
      }
    }
  }

  /** Outside an upsert the field loop leaves the overwrite map alone. */
  lemma {:induction false} FieldsKeepOverwrite(s: (Dict, Overwrite), data: Dict, items: seq<Field>)
    requires Fold(FieldStepper(data, false), s, items).Ok?
    ensures Fold(FieldStepper(data, false), s, items).value.1 == s.1
    decreases |items|
  {
    if items != [] {
      FieldsKeepOverwrite(s, data, items[..|items| - 1]);
    }
  }

  /** `self.overwrite[self.entry['uid']] = []` on upserts */
  function OpenOverwrite(entry: Dict, overwrite: Overwrite, isUpsert: bool): Result<Overwrite>
  {
    if !isUpsert then Ok(overwrite)
    else match Get(entry, "uid")
      case None => Err(KeyError)
      case Some(u) => Ok(overwrite[u := []])
  }

  // ---------------------------------------------------------------------------
  // `_parse` and the constructors
  // ---------------------------------------------------------------------------

  /** `_parse`: the hooks, the overwrite list, the field loop, then the generated name. */
  function Parse(st: State, data: Dict, user: User, ip: string, items: seq<Field>, env: Env): Result<State>
  {
    var e1 :- ReviewStatus(st.entry, data, user, env.now);
    var (e2, upsert) := StampUid(e1, data, st.isUpsert, user, ip, env);
    var e3 :- UniqueName(e2, data, upsert, env);
    var e4 :- Wikidata(e3, data, upsert, env);
    var o :- OpenOverwrite(e4, st.overwrite, upsert);
    var s :- Fold(FieldStepper(data, upsert), (e4, o), items);
    var e5 :- if upsert then Ok(s.0) else GenerateUniqueName(s.0, data, env);
    Ok(State(e5, s.1, st.newsubunits, upsert))
  }

  /** `entry['dgraph.type'].append(t)` */
  function AppendType(entry: Dict, t: string): Result<Dict>
  {
    match Get(entry, "dgraph.type")
    case None => Err(KeyError)
    case Some(ListV(xs)) => Ok(Put(entry, "dgraph.type", ListV(xs + [StrV(t)])))
    case Some(_) => Err(AttributeError)
  }

  /** The fields a kind of sanitizer adds to the shared list. */
  function ExtraFields(kind: Kind): seq<Field>
  {
    if kind.Plain? then [] else kind.extra
  }

  /**
   * `Sanitizer(...)` or `OrganizationSanitizer(...)`; `items` is the field list
   * as it stands once the constructor has appended `ExtraFields(kind)` to it.
   */
  function Construct(kind: Kind, data: Value, user: UserArg, ip: Value, items: seq<Field>, isUpsert: bool, env: Env): Result<State>
  {
    var (d, u, i) :- ValidateInput(data, user, ip);
    if u.role < Model.Contributor then Err(PermissionError(""))
    else
      var st :- Parse(State([], map[], [], isUpsert), d, u, i, items, env);
      Finish(kind, st)
  }

  /** What the subclass constructor adds once `_parse` is done. */
  function Finish(kind: Kind, st: State): Result<State>
  {
    if kind.Organization? && !st.isUpsert then
      var e :- AppendType(st.entry, "Organization");
      Ok(st.(entry := e))
    else Ok(st)
  }

  /** `cls.edit(...)` */
  function Edit(kind: Kind, data: Value, user: UserArg, ip: Value, items: seq<Field>, env: Env): Result<State>
  {
    var _ :- EditCheck(data, user, ip, env);
    Construct(kind, data, user, ip, items, true, env)
  }

  /** Bad arguments are a TypeError, and a user below Contributor is refused before
      any hook runs: neither outcome depends on the outside world. */
  lemma ConstructRefuses(kind: Kind, data: Value, user: UserArg, ip: Value, items: seq<Field>, isUpsert: bool, env: Env, env': Env)
    ensures !data.DictV? || !user.IsUser? || !ip.StrV? ==>
      Construct(kind, data, user, ip, items, isUpsert, env) == Err(TypeError)
    ensures data.DictV? && user.IsUser? && ip.StrV? && user.user.role < Model.Contributor ==>
      Construct(kind, data, user, ip, items, isUpsert, env) == Err(PermissionError(""))
    ensures !data.DictV? || !user.IsUser? || !ip.StrV? || user.user.role < Model.Contributor ==>
      Construct(kind, data, user, ip, items, isUpsert, env) == Construct(kind, data, user, ip, items, isUpsert, env')
  {
  }

  /** Who may edit: a Reviewer (or above) who is not the recorded author of an
      existing entry; the edit is then an upsert. */
  lemma EditRules(kind: Kind, data: Dict, user: User, ip: string, items: seq<Field>, env: Env)
    ensures "uid" !in Keys(data) ==>
      Edit(kind, DictV(data), IsUser(user), StrV(ip), items, env) == Err(ValidationError(NoUidMsg))
    ensures "uid" in Keys(data) && CheckEntry(GetOrNone(data, "uid"), env).None? ==>
      Edit(kind, DictV(data), IsUser(user), StrV(ip), items, env).Err? &&
      Edit(kind, DictV(data), IsUser(user), StrV(ip), items, env).error.ValidationError?
    ensures ("uid" in Keys(data) && CheckEntry(GetOrNone(data, "uid"), env).Some? &&
             CheckEntry(GetOrNone(data, "uid"), env).value != [] && user.role < Model.Reviewer) ==>
      Edit(kind, DictV(data), IsUser(user), StrV(ip), items, env) == Err(PermissionError(EditPermissionMsg))
    ensures var check := CheckEntry(GetOrNone(data, "uid"), env);
      "uid" in Keys(data) && check.Some? && check.value != [] && user.role >= Model.Reviewer &&
      Get(check.value, "entry_added") == Some(DictV([("uid", StrV(user.id))])) ==>
      Edit(kind, DictV(data), IsUser(user), StrV(ip), items, env) == Err(PermissionError(EditPermissionMsg))
    ensures var check := CheckEntry(GetOrNone(data, "uid"), env);
      "uid" in Keys(data) && check.Some? && check.value != [] && user.role >= Model.Reviewer &&
      (exists added :: Get(check.value, "entry_added") == Some(DictV(added)) && GetOrNone(added, "uid") != StrV(user.id)) ==>
      Edit(kind, DictV(data), IsUser(user), StrV(ip), items, env) == Construct(kind, DictV(data), IsUser(user), StrV(ip), items, true, env)
  {
  }

  /** A Reviewer-only request from anyone below Reviewer stops the submission at the first hook. */
  lemma ParseRejectsReviewRequest(st: State, data: Dict, user: User, ip: string, items: seq<Field>, env: Env)
    requires user.role < Model.Reviewer
    requires Truthy(GetOrNone(data, "accept")) || Truthy(GetOrNone(data, "entry_review_status"))
    ensures Parse(st, data, user, ip, items, env) == Err(PermissionError(ReviewPermissionMsg))
  {
  }

  /**
   * The review hook runs before `parse_uid`, so on a new entry the stamping of
   * `parse_uid` resets an accepted status to pending, while the reviewer is kept.
   */
  lemma AcceptedNewEntryIsPending(entry: Dict, data: Dict, isUpsert: bool, user: User, ip: string, env: Env)
    requires ReviewStatus(entry, data, user, env.now).Ok?
    requires !env.validUid(UidArg(data))
    ensures var e := StampUid(ReviewStatus(entry, data, user, env.now).value, data, isUpsert, user, ip, env);
      && !e.1 == !isUpsert
      && Get(e.0, "entry_review_status") == Some(StrV("pending"))
      && Get(e.0, "entry_added") == Some(Stamp(user, ip, env.now))
      && Get(e.0, "uid") == Some(NewIdV(UidArg(data)))
      && (Truthy(GetOrNone(data, "accept")) ==> Get(e.0, "reviewed_by") == Some(UidV(StrV(user.uid), [("timestamp", env.now)])))
  {
    var e1 := ReviewStatus(entry, data, user, env.now).value;
    var uid := UidArg(data);
    var p := Put(e1, "uid", NewIdV(uid));
    PutGet(e1, "uid", NewIdV(uid));
    AddEntryMetaNew(p, !isUpsert, user, ip, env.now);
    AddEntryMetaKeeps(p, !isUpsert, true, user, ip, env.now, "uid");
    if Truthy(GetOrNone(data, "accept")) {
      var a := Put(entry, "entry_review_status", StrV("accepted"));
      PutGet(a, "reviewed_by", UidV(StrV(user.uid), [("timestamp", env.now)]));
      PutGet(e1, "uid", NewIdV(uid));
      AddEntryMetaKeeps(p, !isUpsert, true, user, ip, env.now, "reviewed_by");
    }
  }

  /** `_add_entry_meta` leaves every key it does not stamp alone. */
  lemma AddEntryMetaKeeps(entry: Dict, mainNew: bool, newentry: bool, user: User, ip: string, now: Value, k: string)
    requires k !in {"dgraph.type", "entry_edit_history", "entry_added", "entry_review_status", "creation_date"}
    ensures Get(AddEntryMeta(entry, mainNew, newentry, user, ip, now), k) == Get(entry, k)
  {
    var typed := if mainNew then Put(entry, "dgraph.type", EntryTypes(GetOrNone(entry, "dgraph.type"))) else entry;
    if mainNew {
      PutGet(entry, "dgraph.type", EntryTypes(GetOrNone(entry, "dgraph.type")));
    }
    if newentry {
      var a := Put(typed, "entry_added", Stamp(user, ip, now));
      var b := Put(a, "entry_review_status", StrV("pending"));
      PutGet(typed, "entry_added", Stamp(user, ip, now));
      PutGet(a, "entry_review_status", StrV("pending"));
      PutGet(b, "creation_date", now);
    } else {
      PutGet(typed, "entry_edit_history", Stamp(user, ip, now));
    }
  }

  /** A unique name given in the input is stored normalised, unless on an upsert it
      names another node, which is refused. */
  lemma ExplicitUniqueName(entry: Dict, data: Dict, isUpsert: bool, env: Env, s: string)
    requires Get(data, "unique_name") == Some(StrV(s)) && s != ""
    ensures var check := env.uidOf(Normalize(s));
      !(isUpsert && Truthy(check)) ==>
        (UniqueName(entry, data, isUpsert, env).Ok? &&
         Get(UniqueName(entry, data, isUpsert, env).value, "unique_name") == Some(StrV(Normalize(s))))
    ensures var check := env.uidOf(Normalize(s));
      isUpsert && Truthy(check) && Get(entry, "uid").Some? && check != StrV(Str(Get(entry, "uid").value)) ==>
        UniqueName(entry, data, isUpsert, env) == Err(ValidationError(NameTakenMsg))
  {
    PutGet(entry, "unique_name", StrV(Normalize(s)));
  }

  /**
   * Without a unique name in the input, the slug of the name is used, suffixed
   * when taken; a name that is not a string cannot be slugified.
   */
  lemma GeneratedUniqueName(entry: Dict, data: Dict, isUpsert: bool, env: Env)
    requires !Truthy(GetOrNone(data, "unique_name"))
    ensures !GetOrNone(data, "name").StrV? ==> UniqueName(entry, data, isUpsert, env) == Err(TypeError)
    ensures GetOrNone(data, "name").StrV? ==> UniqueName(entry, data, isUpsert, env).Ok?
    ensures GetOrNone(data, "name").StrV? ==>
      var name := env.slug(GetOrNone(data, "name").s);
      Get(UniqueName(entry, data, isUpsert, env).value, "unique_name") ==
        Some(StrV(if env.nameTaken(name) then name + "_" + env.token else name))
  {
    if GetOrNone(data, "name").StrV? {
      PutGet(entry, "unique_name", StrV(SlugName(data, env).value));
    }
  }

  /** A submission that does not end as an upsert always carries the generated
      name, whatever unique name its input gave. */
  lemma NewEntryNameIsGenerated(st: State, data: Dict, user: User, ip: string, items: seq<Field>, env: Env)
    requires Parse(st, data, user, ip, items, env).Ok?
    requires !Parse(st, data, user, ip, items, env).value.isUpsert
    ensures SlugName(data, env).Ok?
    ensures Get(Parse(st, data, user, ip, items, env).value.entry, "unique_name") == Some(StrV(SlugName(data, env).value))
  {
    var e1 := ReviewStatus(st.entry, data, user, env.now).value;
    var (e2, upsert) := StampUid(e1, data, st.isUpsert, user, ip, env);
    var e4 := Wikidata(UniqueName(e2, data, upsert, env).value, data, upsert, env).value;
    var o := OpenOverwrite(e4, st.overwrite, upsert).value;
    var s := Fold(FieldStepper(data, upsert), (e4, o), items).value;
    PutGet(s.0, "unique_name", StrV(SlugName(data, env).value));
  }

  /**
   * On a successful upsert that started with no overwrite list, the overwrite
   * map holds the entry's node alone, with every overwritten predicate of the
   * field list; outside an upsert it stays empty.
   */
  lemma ParseOverwrite(data: Dict, user: User, ip: string, items: seq<Field>, isUpsert: bool, env: Env)
    requires Parse(State([], map[], [], isUpsert), data, user, ip, items, env).Ok?
    ensures var st := Parse(State([], map[], [], isUpsert), data, user, ip, items, env).value;
      st.overwrite == if st.isUpsert then map[EntryUidAfterHooks(data, user, ip, isUpsert, env) := OverwritePreds(items)] else map[]
  {
    var e1 := ReviewStatus([], data, user, env.now).value;
    var (e2, upsert) := StampUid(e1, data, isUpsert, user, ip, env);
    var e4 := Wikidata(UniqueName(e2, data, upsert, env).value, data, upsert, env).value;
    var o := OpenOverwrite(e4, map[], upsert).value;
    if upsert {
      var u := Get(e4, "uid").value;
      assert o == map[u := []];
      FieldsOverwrite(e4, u, [], data, items);
      assert [] + OverwritePreds(items) == OverwritePreds(items);
    } else {
      FieldsKeepOverwrite((e4, o), data, items);
    }
  }

  /** The node of the entry once the hooks have run, which the overwrite map is keyed by. */
  function EntryUidAfterHooks(data: Dict, user: User, ip: string, isUpsert: bool, env: Env): Value
  {
    var e1 := ReviewStatus([], data, user, env.now);
    if e1.Err? then NoneV
    else
      var (e2, upsert) := StampUid(e1.value, data, isUpsert, user, ip, env);
      match UniqueName(e2, data, upsert, env)
      case Err(_) => NoneV
      case Ok(e3) =>
        match Wikidata(e3, data, upsert, env)
        case Err(_) => NoneV
        case Ok(e4) => GetOrNone(e4, "uid")
  }

  /** An organization created new gets `Organization` appended to its types; an
      upsert is left as `_parse` made it, and so is every plain sanitizer. */
  lemma OrganizationTyped(kind: Kind, st: State)
    ensures kind.Plain? || st.isUpsert ==> Finish(kind, st) == Ok(st)
    ensures var t := Get(st.entry, "dgraph.type");
      kind.Organization? && !st.isUpsert && t.Some? && t.value.ListV? ==>
        && Finish(kind, st).Ok?
        && Finish(kind, st).value.isUpsert == st.isUpsert
        && Get(Finish(kind, st).value.entry, "dgraph.type") == Some(ListV(t.value.items + [StrV("Organization")]))
    ensures kind.Organization? && !st.isUpsert && Get(st.entry, "dgraph.type").None? ==> Finish(kind, st) == Err(KeyError)
  {
    var t := Get(st.entry, "dgraph.type");
    if t.Some? && t.value.ListV? {
      PutGet(st.entry, "dgraph.type", ListV(t.value.items + [StrV("Organization")]));
    }
  }

  // ---------------------------------------------------------------------------
  // Geographic subunits: `_geo_query_subunit` and `_resolve_subunit`
  // ---------------------------------------------------------------------------

  /** The names the geocoder offers for a query, in the order the source lists them. */
  function NameCandidates(query: string, g: Geo): seq<string>
  {
    [query] + (if g.name != "" then [g.name] else []) + (if g.nameEn != "" then [g.nameEn] else [])
  }

  /** The subunit's name: the English name, else the local name, else the query. */
  function SubunitName(query: string, g: Geo): string
  {
    if g.nameEn != "" then g.nameEn else if g.name != "" then g.name else query
  }

  /** `list(set(xs))`, in one of its possible orders */
  function Dedup(xs: seq<string>): (r: seq<string>)
    ensures forall x :: x in r <==> x in xs
    ensures forall i, j :: 0 <= i < j < |r| ==> r[i] != r[j]
  {
    if xs == [] then []
    else
      var rest := Dedup(xs[..|xs| - 1]);
      assert forall x :: x in xs <==> x in xs[..|xs| - 1] || x == xs[|xs| - 1];
      if xs[|xs| - 1] in rest then rest else rest + [xs[|xs| - 1]]
  }

  /** Every occurrence of `x` removed */
  function Drop(xs: seq<string>, x: string): (r: seq<string>)
    ensures forall y :: y in r <==> y in xs && y != x
    ensures (forall i, j :: 0 <= i < j < |xs| ==> xs[i] != xs[j]) ==> forall i, j :: 0 <= i < j < |r| ==> r[i] != r[j]
  {
    if xs == [] then []
    else
      var rest := Drop(xs[1..], x);
      assert forall y :: y in xs <==> y == xs[0] || y in xs[1..];
      if xs[0] == x then rest
      else
        assert xs[0] !in xs[1..] ==> xs[0] !in rest;
        [xs[0]] + rest
  }

  /** The other names of the subunit */
  function OtherNames(query: string, g: Geo): seq<string>
  {
    Drop(Dedup(NameCandidates(query, g)), SubunitName(query, g))
  }

  /** `int(w.lower().replace('q', ''))` when the id starts with q; nothing when that fails */
  function WikidataId(w: string): Dict
  {
    var l := Lower(w);
    if l != "" && l[0] == 'q' then
      match ParseNat(RemoveChar(l, 'q'))
      case Ok(n) => [("wikidataID", IntV(n))]
      case Err(_) => []
    else []
  }

  /** The new subunit record built from a geocoder answer. */
  function SubunitRecord(query: string, g: Geo, country: Value): Dict
  {
    [("name", StrV(SubunitName(query, g))),
     ("country", UidV(country, [])),
     ("other_names", ListV(StrValues(OtherNames(query, g)))),
     ("location_point", g.point),
     ("country_code", StrV(g.countryCode))] + WikidataId(g.wikidata)
  }

  /** `_geo_query_subunit`: None for False. */
  function GeoQuerySubunit(query: string, env: Env): Result<Option<Dict>>
  {
    match env.geocode(query)
    case None => Ok(None)
    case Some(g) =>
      match env.countryUid(g.countryCode)
      case None => Err(ValidationError("Country not found in inventory: " + g.countryCode))
      case Some(c) => Ok(Some(SubunitRecord(query, g, c)))
  }

  /** The record names the subunit by its preferred name; the other names are the
      remaining candidates, each once. */
  lemma SubunitNames(query: string, g: Geo, country: Value)
    ensures var chosen := if g.nameEn != "" then g.nameEn else if g.name != "" then g.name else query;
      && Get(SubunitRecord(query, g, country), "name") == Some(StrV(chosen))
      && Get(SubunitRecord(query, g, country), "other_names") == Some(ListV(StrValues(OtherNames(query, g))))
      && (forall n :: n in OtherNames(query, g) <==>
            (n == query || (n == g.name && n != "") || (n == g.nameEn && n != "")) && n != chosen)
      && (forall i, j :: 0 <= i < j < |OtherNames(query, g)| ==> OtherNames(query, g)[i] != OtherNames(query, g)[j])
  {
    CandidateMembers(query, g);
    RecordNames(query, g, country);
  }

  lemma CandidateMembers(query: string, g: Geo)
    ensures forall n :: n in NameCandidates(query, g) <==>
              n == query || (n == g.name && n != "") || (n == g.nameEn && n != "")
  {
  }

  lemma RecordNames(query: string, g: Geo, country: Value)
    ensures Get(SubunitRecord(query, g, country), "name") == Some(StrV(SubunitName(query, g)))
    ensures Get(SubunitRecord(query, g, country), "other_names") == Some(ListV(StrValues(OtherNames(query, g))))
  {
    var rec := SubunitRecord(query, g, country);
    GetAt(rec, 0, "name");
    GetAt(rec, 2, "other_names");
  }

  /** The node `_resolve_subunit` yields and the state it leaves. */
  function ResolveSubunit(st: State, subunit: string, user: User, ip: string, env: Env): Result<(State, Dict)>
  {
    var geo :- GeoQuerySubunit(subunit, env);
    if geo.None? then Err(ValidationError("Invalid Data! Could not resolve geographic subunit " + subunit))
    else Ok(Register(st, subunit, StampSubunit(st, geo.value, user, ip, env.now), env))
  }

  /** The subunit record typed `Subunit` and stamped as a new entry. */
  function StampSubunit(st: State, geo: Dict, user: User, ip: string, now: Value): Dict
  {
    var typed := Put(geo, "dgraph.type", ListV([StrV("Subunit")]));
    AddEntryMeta(typed, typed == st.entry && !st.isUpsert, true, user, ip, now)
  }

  /** The stamped subunit, named and either replaced by the node that has its name or queued. */
  function Register(st: State, subunit: string, stamped: Dict, env: Env): (State, Dict)
  {
    var name := SubunitUniqueName(subunit, Str(GetOrNone(stamped, "country_code")), env);
    var named := Put(stamped, "unique_name", StrV(name));
    var duplicate := env.uidOf(name);
    if Truthy(duplicate) then (st, [("uid", UidV(duplicate, []))])
    else
      var queued := Put(named, "uid", NewIdV(StrV("_:" + env.blankSlug)));
      (st.(newsubunits := st.newsubunits + [queued]), queued)
  }

  /** The unique name a resolved subunit is looked up by: its slug and its country code. */
  function SubunitUniqueName(subunit: string, countryCode: string, env: Env): string
  {
    env.slug(subunit) + "_" + countryCode
  }

  /** Stamping keeps the country code and marks the subunit pending review. */
  lemma StampSubunitFacts(st: State, geo: Dict, user: User, ip: string, now: Value)
    ensures Get(StampSubunit(st, geo, user, ip, now), "country_code") == Get(geo, "country_code")
    ensures Get(StampSubunit(st, geo, user, ip, now), "entry_review_status") == Some(StrV("pending"))
  {
    var typed := Put(geo, "dgraph.type", ListV([StrV("Subunit")]));
    PutGet(geo, "dgraph.type", ListV([StrV("Subunit")]));
    AddEntryMetaKeeps(typed, typed == st.entry && !st.isUpsert, true, user, ip, now, "country_code");
    AddEntryMetaNew(typed, typed == st.entry && !st.isUpsert, user, ip, now);
  }

  /** A name already in use yields only a reference; otherwise the subunit is queued once. */
  lemma RegisterOutcome(st: State, subunit: string, stamped: Dict, env: Env, code: string)
    requires Get(stamped, "country_code") == Some(StrV(code))
    ensures var name := SubunitUniqueName(subunit, code, env);
      var r := Register(st, subunit, stamped, env);
      && (Truthy(env.uidOf(name)) ==> r == (st, [("uid", UidV(env.uidOf(name), []))]))
      && (!Truthy(env.uidOf(name)) ==>
            && r.0 == st.(newsubunits := st.newsubunits + [r.1])
            && Get(r.1, "unique_name") == Some(StrV(name))
            && Get(r.1, "uid") == Some(NewIdV(StrV("_:" + env.blankSlug)))
            && (forall k :: k != "unique_name" && k != "uid" ==> Get(r.1, k) == Get(stamped, k)))
  {
    var name := SubunitUniqueName(subunit, code, env);
    var named := Put(stamped, "unique_name", StrV(name));
    PutGet(stamped, "unique_name", StrV(name));
    PutGet(named, "uid", NewIdV(StrV("_:" + env.blankSlug)));
  }

  /**
   * An unknown place is a validation error. A known one is named
   * `slug(subunit)_countrycode`; when a node already has that name only a
   * reference to it comes back and nothing is queued, otherwise the new subunit
   * is queued exactly once, as a new node pending review.
   */
  lemma ResolveSubunitOutcome(st: State, subunit: string, user: User, ip: string, env: Env)
    ensures env.geocode(subunit).None? ==>
      ResolveSubunit(st, subunit, user, ip, env) == Err(ValidationError("Invalid Data! Could not resolve geographic subunit " + subunit))
    ensures env.geocode(subunit).Some? && env.countryUid(env.geocode(subunit).value.countryCode).None? ==>
      ResolveSubunit(st, subunit, user, ip, env).Err? && ResolveSubunit(st, subunit, user, ip, env).error.ValidationError?
    ensures var r := ResolveSubunit(st, subunit, user, ip, env);
      env.geocode(subunit).Some? && env.countryUid(env.geocode(subunit).value.countryCode).Some? ==>
        var name := SubunitUniqueName(subunit, env.geocode(subunit).value.countryCode, env);
        && r.Ok?
        && (Truthy(env.uidOf(name)) ==> r.value == (st, [("uid", UidV(env.uidOf(name), []))]))
        && (!Truthy(env.uidOf(name)) ==>
              && r.value.0 == st.(newsubunits := st.newsubunits + [r.value.1])
              && Get(r.value.1, "unique_name") == Some(StrV(name))
              && Get(r.value.1, "uid") == Some(NewIdV(StrV("_:" + env.blankSlug)))
              && Get(r.value.1, "entry_review_status") == Some(StrV("pending")))
  {
    if env.geocode(subunit).Some? && env.countryUid(env.geocode(subunit).value.countryCode).Some? {
      var g := env.geocode(subunit).value;
      var rec := SubunitRecord(subunit, g, env.countryUid(g.countryCode).value);
      GetAt(rec, 4, "country_code");
      StampSubunitFacts(st, rec, user, ip, env.now);
      RegisterOutcome(st, subunit, StampSubunit(st, rec, user, ip, env.now), env, g.countryCode);
    }
  }
}

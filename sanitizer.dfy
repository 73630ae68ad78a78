/**
 * The `Sanitizer` object of flaskinventory/main/sanitizer.py: a one-shot object
 * that turns one submitted dict into the entry to write. Its constructor runs
 * the whole pipeline, updating `entry`, `overwrite`, `newsubunits` and
 * `is_upsert` step by step; every step is proved to do what the matching
 * function of `SanitizerSteps` describes, and the properties of the pipeline
 * are proved there.
 */
module Sanitizer {
  import opened Values
  import opened SanitizerSteps
  import Model

  /** Whether a step raised, and what. */
  function Outcome<T>(r: Result<T>): Result<()>
  {
    match r
    case Ok(_) => Ok(())
    case Err(e) => Err(e)
  }

  /** The module-level list `entry_fields`, which every sanitizer shares. */
  class FieldList {
    var items: seq<Field>

    constructor (items: seq<Field>)
      ensures this.items == items
    {
      this.items := items;
    }
  }

  class Sanitizer {
    const data: Dict
    const user: User
    const ip: string
    const env: Env
    /** `self.fields`: the shared list itself, not a copy of it */
    const fields: FieldList
    var entry: Dict
    var overwrite: Overwrite
    var newsubunits: seq<Dict>
    var isUpsert: bool

    function St(): State
      reads this
    {
      State(entry, overwrite, newsubunits, isUpsert)
    }

    /** The attributes `__init__` sets before it parses. */
    constructor Init(data: Dict, user: User, ip: string, fields: FieldList, isUpsert: bool, env: Env)
      ensures this.data == data && this.user == user && this.ip == ip
      ensures this.fields == fields && this.env == env
      ensures St() == State([], map[], [], isUpsert)
    {
      this.data := data;
      this.user := user;
      this.ip := ip;
      this.env := env;
      this.fields := fields;
      this.isUpsert := isUpsert;
      this.overwrite := map[];
      this.newsubunits := [];
      this.entry := [];
    }

    /**
     * `Sanitizer(data, user, ip, fields, is_upsert=...)`, and with `kind`
     * Organization the `OrganizationSanitizer` constructor around it. Before the
     * role check it appends the kind's fields to the shared list, so the list
     * grows with every such construction.
     */
    static method Create(kind: Kind, data: Value, user: UserArg, ip: Value, shared: FieldList, isUpsert: bool, env: Env)
      returns (r: Result<Sanitizer>)
      modifies shared
      ensures ValidateInput(data, user, ip).Ok? ==> shared.items == old(shared.items) + ExtraFields(kind)
      ensures ValidateInput(data, user, ip).Err? ==> shared.items == old(shared.items)
      ensures var spec := Construct(kind, data, user, ip, old(shared.items) + ExtraFields(kind), isUpsert, env);
        && r.Ok? == spec.Ok?
        && (r.Err? ==> spec.error == r.error)
        && (r.Ok? ==> fresh(r.value) && r.value.St() == spec.value && r.value.fields == shared)
    {
      var v := ValidateInput(data, user, ip);
      if v.Err? {
        return Err(v.error);
      }
      var (d, u, i) := v.value;
      var extra := ExtraFields(kind);
      if extra != [] {
        shared.items := shared.items + extra;
      }
      assert shared.items == old(shared.items) + extra;
      if u.role < Model.Contributor {
        return Err(PermissionError(""));
      }
      var s := new Sanitizer.Init(d, u, i, shared, isUpsert, env);
      var parsed := s.Parse();
      if parsed.Err? {
        return Err(parsed.error);
      }
      if kind.Organization? && !s.isUpsert {
        var t := Get(s.entry, "dgraph.type");
        if t.None? {
          return Err(KeyError);
        }
        if !t.value.ListV? {
          return Err(AttributeError);
        }
        s.entry := Put(s.entry, "dgraph.type", ListV(t.value.items + [StrV("Organization")]));
      }
      return Ok(s);
    }

    /** `cls.edit(data, user, ip)`: the checks, then the constructor as an upsert. */
    static method Edit(kind: Kind, data: Value, user: UserArg, ip: Value, shared: FieldList, env: Env)
      returns (r: Result<Sanitizer>)
      modifies shared
      ensures EditCheck(data, user, ip, env).Ok? ==> shared.items == old(shared.items) + ExtraFields(kind)
      ensures EditCheck(data, user, ip, env).Err? ==> shared.items == old(shared.items)
      ensures var spec := SanitizerSteps.Edit(kind, data, user, ip, old(shared.items) + ExtraFields(kind), env);
        && r.Ok? == spec.Ok?
        && (r.Err? ==> spec.error == r.error)
        && (r.Ok? ==> fresh(r.value) && r.value.St() == spec.value)
    {
      var v := ValidateInput(data, user, ip);
      if v.Err? {
        return Err(v.error);
      }
      var (d, u, _) := v.value;
      if "uid" !in Keys(d) {
        return Err(ValidationError(NoUidMsg));
      }
      var check := CheckEntry(GetOrNone(d, "uid"), env);
      if check.None? || check.value == [] {
        return Err(ValidationError("Entry can not be edited! UID does not exist: " + Str(GetOrNone(d, "uid"))));
      }
      if u.role < Model.Reviewer {
        return Err(PermissionError(EditPermissionMsg));
      }
      var added := Get(check.value, "entry_added");
      if added.None? || !added.value.DictV? {
        return Err(AttributeError);
      }
      if GetOrNone(added.value.d, "uid") == StrV(u.id) {
        return Err(PermissionError(EditPermissionMsg));
      }
      r := Create(kind, data, user, ip, shared, true, env);
    }

    /**
     * `_parse`: the `parse_*` hooks in the order `dir()` lists them, the
     * overwrite list of an upsert, the field loop, and for anything that is not
     * an upsert the generated unique name.
     */
    method Parse() returns (r: Result<()>)
      modifies this
      ensures var spec := SanitizerSteps.Parse(old(St()), data, user, ip, fields.items, env);
        r == Outcome(spec) && (r.Ok? ==> St() == spec.value)
    {
      var ok :- ParseEntryReviewStatus();
      ParseUid();
      ok :- ParseUniqueName();
      ok :- ParseWikidata();
      if isUpsert {
        var u := Get(entry, "uid");
        if u.None? {
          return Err(KeyError);
        }
        overwrite := overwrite[u.value := []];
      }
      ok :- ParseFields();
      if !isUpsert {
        ok :- GenerateUniqueName();
      }
      return Ok(());
    }

    /** `parse_entry_review_status` */
    method ParseEntryReviewStatus() returns (r: Result<()>)
      modifies this
      ensures var spec := ReviewStatus(old(entry), data, user, env.now);
        r == Outcome(spec) && (r.Ok? ==> entry == spec.value)
      ensures overwrite == old(overwrite) && newsubunits == old(newsubunits) && isUpsert == old(isUpsert)
    {
      if Truthy(GetOrNone(data, "accept")) {
        if user.role < Model.Reviewer {
          return Err(PermissionError(ReviewPermissionMsg));
        }
        entry := Put(entry, "entry_review_status", StrV("accepted"));
        entry := Put(entry, "reviewed_by", UidV(StrV(user.uid), [("timestamp", env.now)]));
      } else if Truthy(GetOrNone(data, "entry_review_status")) {
        if user.role < Model.Reviewer {
          return Err(PermissionError(ReviewPermissionMsg));
        }
      }
      return Ok(());
    }

    /** `parse_uid` */
    method ParseUid()
      modifies this
      ensures (entry, isUpsert) == StampUid(old(entry), data, old(isUpsert), user, ip, env)
      ensures overwrite == old(overwrite) && newsubunits == old(newsubunits)
    {
      var uid := UidArg(data);
      if !env.validUid(uid) {
        entry := Put(entry, "uid", NewIdV(uid));
        entry := AddEntryMeta(entry, true);
      } else {
        entry := Put(entry, "uid", UidV(uid, []));
        entry := AddEntryMeta(entry, false);
        isUpsert := true;
      }
    }

    /** `_add_entry_meta(e, newentry)`: the dict with its metadata stamped. */
    method AddEntryMeta(e: Dict, newentry: bool) returns (r: Dict)
      ensures r == SanitizerSteps.AddEntryMeta(e, e == entry && !isUpsert, newentry, user, ip, env.now)
    {
      r := e;
      if e == entry && !isUpsert {
        var t := GetOrNone(r, "dgraph.type");
        if Truthy(t) {
          if !t.ListV? {
            r := Put(r, "dgraph.type", ListV([t]));
          }
          var types := if t.ListV? then t.items else [t];
          if StrV("Entry") !in types {
            PutPut(e, "dgraph.type", ListV([t]), ListV(types + [StrV("Entry")]));
            r := Put(r, "dgraph.type", ListV(types + [StrV("Entry")]));
          } else if t.ListV? {
            PutSame(e, "dgraph.type", t);
          }
        } else {
          r := Put(r, "dgraph.type", ListV([StrV("Entry")]));
        }
      }
      var facets := Facets(ip, env.now);
      if !newentry {
        r := Put(r, "entry_edit_history", UidV(StrV(user.uid), facets));
      } else {
        r := Put(r, "entry_added", UidV(StrV(user.uid), facets));
        r := Put(r, "entry_review_status", StrV("pending"));
        r := Put(r, "creation_date", env.now);
      }
    }

    /** `parse_unique_name` */
    method ParseUniqueName() returns (r: Result<()>)
      modifies this
      ensures var spec := UniqueName(old(entry), data, isUpsert, env);
        r == Outcome(spec) && (r.Ok? ==> entry == spec.value)
      ensures overwrite == old(overwrite) && newsubunits == old(newsubunits) && isUpsert == old(isUpsert)
    {
      var given := GetOrNone(data, "unique_name");
      if !Truthy(given) {
        r := GenerateUniqueName();
        return;
      }
      if !given.StrV? {
        return Err(AttributeError);
      }
      var name := Normalize(given.s);
      if isUpsert {
        var check := env.uidOf(name);
        if Truthy(check) {
          var u := Get(entry, "uid");
          if u.None? {
            return Err(KeyError);
          }
          if check != StrV(Str(u.value)) {
            return Err(ValidationError(NameTakenMsg));
          }
        }
      }
      entry := Put(entry, "unique_name", StrV(name));
      return Ok(());
    }

    /** `generate_unique_name` */
    method GenerateUniqueName() returns (r: Result<()>)
      modifies this
      ensures var spec := SanitizerSteps.GenerateUniqueName(old(entry), data, env);
        r == Outcome(spec) && (r.Ok? ==> entry == spec.value)
      ensures overwrite == old(overwrite) && newsubunits == old(newsubunits) && isUpsert == old(isUpsert)
    {
      var given := GetOrNone(data, "name");
      if !given.StrV? {
        return Err(TypeError);
      }
      var name := env.slug(given.s);
      r := Ok(());
      if !env.nameTaken(name) {
        entry := Put(entry, "unique_name", StrV(name));
      } else {
        entry := Put(entry, "unique_name", StrV(name + "_" + env.token));
      }
    }

    /** `parse_wikidata` */
    method ParseWikidata() returns (r: Result<()>)
      modifies this
      ensures var spec := Wikidata(old(entry), data, isUpsert, env);
        r == Outcome(spec) && (r.Ok? ==> entry == spec.value)
      ensures overwrite == old(overwrite) && newsubunits == old(newsubunits) && isUpsert == old(isUpsert)
    {
      if isUpsert {
        return Ok(());
      }
      var found := env.wikidata(GetOrNone(data, "name"));
      var i := 0;
      while i < |found|
        invariant 0 <= i <= |found|
        invariant Fold(WikidataStep(), old(entry), found[..i]) == Ok(entry)
        invariant overwrite == old(overwrite) && newsubunits == old(newsubunits) && isUpsert == old(isUpsert)
      {
        var (key, val) := found[i];
        assert found[..i + 1] == found[..i] + [found[i]];
        FoldSnoc(WikidataStep(), old(entry), found[..i], found[i]);
        if key !in Keys(entry) {
          entry := Put(entry, key, val);
        } else if key == "other_names" {
          var names := IAdd(GetOrNone(entry, key), val);
          if names.Err? {
            FoldErrPrefix(WikidataStep(), old(entry), found, i + 1);
            return Err(names.error);
          }
          entry := Put(entry, key, names.value);
        }
        i := i + 1;
      }
      assert found[..i] == found;
      return Ok(());
    }

    /** The loop of `_parse` over the field list. */
    method ParseFields() returns (r: Result<()>)
      modifies this
      ensures var spec := Fold(FieldStepper(data, isUpsert), (old(entry), old(overwrite)), fields.items);
        r == Outcome(spec) && (r.Ok? ==> (entry, overwrite) == spec.value)
      ensures newsubunits == old(newsubunits) && isUpsert == old(isUpsert)
    {
      var items := fields.items;
      var i := 0;
      while i < |items|
        invariant 0 <= i <= |items|
        invariant Fold(FieldStepper(data, isUpsert), (old(entry), old(overwrite)), items[..i]) == Ok((entry, overwrite))
        invariant newsubunits == old(newsubunits) && isUpsert == old(isUpsert)
      {
        assert items[..i + 1] == items[..i] + [items[i]];
        FoldSnoc(FieldStepper(data, isUpsert), (old(entry), old(overwrite)), items[..i], items[i]);
        var step := ParseField(items[i]);
        if step.Err? {
          FoldErrPrefix(FieldStepper(data, isUpsert), (old(entry), old(overwrite)), items, i + 1);
          return step;
        }
        i := i + 1;
      }
      assert items[..i] == items;
      return Ok(());
    }

    /** One iteration of the field loop. */
    method ParseField(item: Field) returns (r: Result<()>)
      modifies this
      ensures var spec := FieldStep((old(entry), old(overwrite)), data, isUpsert, item);
        r == Outcome(spec) && (r.Ok? ==> (entry, overwrite) == spec.value)
      ensures newsubunits == old(newsubunits) && isUpsert == old(isUpsert)
    {
      var given := GetOrNone(data, item.pred);
      if Truthy(given) {
        var v := item.validate(given);
        if v.Err? {
          return Err(v.error);
        }
        var merged := MergeValue(item.pred, v.value);
        if merged.Err? {
          return merged;
        }
      } else if item.auto.Some? {
        if item.auto.value.autoinput in Keys(data) {
          var v := item.auto.value.autocode(GetOrNone(data, item.auto.value.autoinput));
          if v.Err? {
            return Err(v.error);
          }
          var merged := MergeValue(item.pred, v.value);
          if merged.Err? {
            return merged;
          }
        }
      } else if Truthy(item.default) {
        entry := Put(entry, item.pred, item.default);
      }
      if item.overwrite && isUpsert {
        var u := Get(entry, "uid");
        if u.None? || u.value !in overwrite {
          return Err(KeyError);
        }
        overwrite := overwrite[u.value := overwrite[u.value] + [item.pred]];
      }
      return Ok(());
    }

    /** A validated or autocoded value entering the entry. */
    method MergeValue(pred: string, v: Value) returns (r: Result<()>)
      modifies this
      ensures var spec := Merge(old(entry), pred, v);
        r == Outcome(spec) && (r.Ok? ==> entry == spec.value)
      ensures overwrite == old(overwrite) && newsubunits == old(newsubunits) && isUpsert == old(isUpsert)
    {
      if v.DictV? {
        entry := Update(entry, v.d);
      } else if v.ListV? && pred in Keys(entry) {
        var joined := IAdd(GetOrNone(entry, pred), v);
        if joined.Err? {
          return Err(joined.error);
        }
        entry := Put(entry, pred, joined.value);
      } else if v.SetV? && pred in Keys(entry) {
        var present := Elems(GetOrNone(entry, pred));
        if present.Err? {
          return Err(present.error);
        }
        entry := Put(entry, pred, SetV(v.elems + present.value));
      } else {
        entry := Put(entry, pred, v);
      }
      return Ok(());
    }

    /** `_resolve_subunit(subunit)`: the node to link, queueing a new subunit when needed. */
    method ResolveSubunit(subunit: string) returns (r: Result<Dict>)
      modifies this
      ensures var spec := SanitizerSteps.ResolveSubunit(old(St()), subunit, user, ip, env);
        && r.Ok? == spec.Ok?
        && (r.Err? ==> spec.error == r.error)
        && (r.Ok? ==> spec.value == (St(), r.value))
    {
      var geo := GeoQuerySubunit(subunit, env);
      if geo.Err? {
        return Err(geo.error);
      }
      if geo.value.None? {
        return Err(ValidationError("Invalid Data! Could not resolve geographic subunit " + subunit));
      }
      var g := Put(geo.value.value, "dgraph.type", ListV([StrV("Subunit")]));
      g := AddEntryMeta(g, true);
      var name := SubunitUniqueName(subunit, Str(GetOrNone(g, "country_code")), env);
      g := Put(g, "unique_name", StrV(name));
      var duplicate := env.uidOf(name);
      if Truthy(duplicate) {
        g := [("uid", UidV(duplicate, []))];
      } else {
        g := Put(g, "uid", NewIdV(StrV("_:" + env.blankSlug)));
        newsubunits := newsubunits + [g];
      }
      return Ok(g);
    }

    /**
     * `delete_nquads`: None unless this is an upsert; otherwise one
     * `{'uid': node, predicate: '*'}` deletion, as a pair, for every node of the
     * overwrite map and every distinct predicate listed for it.
     */
    method DeleteNquads() returns (r: Option<seq<(Value, string)>>)
      ensures r.None? <==> !isUpsert
      ensures r.Some? ==> forall k, p :: k in overwrite && p in overwrite[k] ==> (k, p) in r.value
      ensures r.Some? ==> forall i :: 0 <= i < |r.value| ==> r.value[i].0 in overwrite && r.value[i].1 in overwrite[r.value[i].0]
      ensures r.Some? ==> forall i, j :: 0 <= i < j < |r.value| ==> r.value[i] != r.value[j]
    {
      if !isUpsert {
        return None;
      }
      var deletions: seq<(Value, string)> := [];
      var keys := overwrite.Keys;
      while keys != {}
        invariant keys <= overwrite.Keys
        invariant forall k, p :: k in overwrite && k !in keys && p in overwrite[k] ==> (k, p) in deletions
        invariant forall i :: 0 <= i < |deletions| ==> deletions[i].0 in overwrite - keys && deletions[i].1 in overwrite[deletions[i].0]
        invariant forall i, j :: 0 <= i < j < |deletions| ==> deletions[i] != deletions[j]
        decreases keys
      {
        var k :| k in keys;
        var predicates := set p | p in overwrite[k];
        var before := deletions;
        var done := |deletions|;
        while predicates != {}
          invariant done <= |deletions|
          invariant predicates <= set p | p in overwrite[k]
          invariant deletions[..done] == before
          invariant forall p :: p in overwrite[k] && p !in predicates ==> (k, p) in deletions[done..]
          invariant forall i :: done <= i < |deletions| ==> deletions[i].0 == k && deletions[i].1 in overwrite[k] && deletions[i].1 !in predicates
          invariant forall i :: 0 <= i < done ==> deletions[i].0 in overwrite - keys && deletions[i].1 in overwrite[deletions[i].0]
          invariant forall i, j :: 0 <= i < j < |deletions| ==> deletions[i] != deletions[j]
          decreases predicates
        {
          var p :| p in predicates;
          var prior := deletions;
          deletions := deletions + [(k, p)];
          assert deletions[done..] == prior[done..] + [(k, p)];
          predicates := predicates - {p};
        }
        keys := keys - {k};
      }
      return Some(deletions);
    }
  }
}

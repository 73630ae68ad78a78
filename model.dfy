/**
 * The schema registry of the inventory: every entity type with its parent
 * type, the create/edit permission thresholds it declares or inherits, and
 * every declaration of the attributes listed in `Attr`, the ones every entry
 * type inherits or redeclares (the other predicates of each class are not
 * recorded). A descriptor is recorded by its
 * descriptor class and the keyword arguments that carry meaning for
 * validation and permissions (labels, descriptions, widget hints and index
 * directives are not recorded). Attribute lookup follows Python's class
 * attribute resolution: a type's own declaration wins over the parent's.
 */
module Model {
  import opened Values

  // User roles, ordered. Only their order is relied upon.
  const Contributor: int := 1
  const Reviewer: int := 2
  const Admin: int := 10

  /** The roles a user can hold. */
  predicate IsRole(r: int)
  {
    r == Contributor || r == Reviewer || r == Admin
  }

  datatype TypeName =
    | User | Entry | PoliticalParty | Organization | Source | Government
    | Parliament | Person | Channel | Country | Multinational | Subnational
    | Archive | Dataset | Corpus | Tool | ResearchPaper | Author | Language
    | ProgrammingLanguage | Operation | FileFormat | MetaVariable
    | ConceptVariable | UnitOfAnalysis | Collection | File | Notification
    | Comment | Rejected

  /** The schema class a type derives from (None: directly from `Schema`). */
  function Parent(t: TypeName): Option<TypeName>
  {
    match t
    case User => None
    case Entry => None
    case File => None
    case Notification => None
    case Comment => None
    case Rejected => None
    case _ => Some(Entry)
  }

  /** Number of schema classes above `t`. */
  function Depth(t: TypeName): nat
  {
    if Parent(t).Some? then 1 else 0
  }

  /** `(__permission_new__, __permission_edit__)` when the class body declares them. */
  function DeclaredPermissions(t: TypeName): Option<(int, int)>
  {
    match t
    case User => Some((Admin + 100, Admin + 100))
    case Entry => Some((Contributor, Contributor))
    case Channel => Some((Admin, Admin))
    case Country => Some((Admin, Admin))
    case Multinational => Some((Admin, Admin))
    case Subnational => Some((Reviewer, Reviewer))
    case File => Some((99, 99))
    case Notification => Some((99, 99))
    case Comment => Some((Contributor, Contributor))
    case Rejected => Some((99, 99))
    case _ => None
  }

  /** Every class without its own thresholds has a parent to inherit them from. */
  lemma RootsDeclare(t: TypeName)
    ensures DeclaredPermissions(t).None? ==> Parent(t).Some? && Depth(Parent(t).value) < Depth(t)
  {
  }

  /** The effective `__permission_new__` of a type. */
  function PermissionNew(t: TypeName): int
    decreases Depth(t)
  {
    match DeclaredPermissions(t)
    case Some(p) => p.0
    case None =>
      RootsDeclare(t);
      PermissionNew(Parent(t).value)
  }

  /** The effective `__permission_edit__` of a type. */
  function PermissionEdit(t: TypeName): int
    decreases Depth(t)
  {
    match DeclaredPermissions(t)
    case Some(p) => p.1
    case None =>
      RootsDeclare(t);
      PermissionEdit(Parent(t).value)
  }

  /** A class that declares no thresholds has exactly its parent's. */
  lemma InheritedThresholds(t: TypeName)
    requires DeclaredPermissions(t).None?
    ensures Parent(t) == Some(Entry)
    ensures PermissionNew(t) == PermissionNew(Entry) == Contributor
    ensures PermissionEdit(t) == PermissionEdit(Entry) == Contributor
  {
  }

  /** Channels, countries and multinational constructs are Admin-only. */
  lemma AdminOnlyTypes(t: TypeName)
    requires t in {Channel, Country, Multinational}
    ensures PermissionNew(t) == Admin && PermissionEdit(t) == Admin
    ensures forall r :: IsRole(r) ==> (r >= PermissionNew(t) <==> r == Admin)
  {
  }

  lemma SubnationalNeedsReviewer()
    ensures PermissionNew(Subnational) == Reviewer && PermissionEdit(Subnational) == Reviewer
    ensures forall r :: IsRole(r) ==> (r >= PermissionNew(Subnational) <==> r == Reviewer || r == Admin)
  {
  }

  /** No role reaches the User thresholds, so no user can be created or edited generically. */
  lemma UserUnreachable(r: int)
    requires IsRole(r)
    ensures r < PermissionNew(User) && r < PermissionEdit(User)
  {
  }

  // ---------------------------------------------------------------------------
  // Predicate descriptors
  // ---------------------------------------------------------------------------

  /**
   * The keyword arguments of a descriptor that the registry records, each the
   * schema's argument of the same name (`new`, `edit`, `read_only`, ...).
   */
  datatype Keyword =
    | New | Edit | ReadOnly | Hidden | Required | Overwrite | LargeTextfield
    | RelationshipConstraint | Choices | Default | RadioField | Permission

  /** A predicate descriptor: its class (`String`, `SingleChoice`, ...) and keyword arguments. */
  datatype Decl = Decl(cls: string, args: map<Keyword, Value>)

  function B(b: bool): Value { BoolV(b) }

  /** The descriptor keyword arguments shared by the audit predicates. */
  const AuditFlags: map<Keyword, Value> :=
    map[New := B(false), Edit := B(false), ReadOnly := B(true), Hidden := B(true)]

  const ReviewStatusChoices: Dict :=
    [("draft", StrV("Draft")), ("pending", StrV("Pending")),
     ("accepted", StrV("Accepted")), ("rejected", StrV("Rejected"))]

  const ScopeChoices: Dict :=
    [("multinational", StrV("Multinational")), ("national", StrV("National")),
     ("subnational", StrV("Subnational"))]

  /**
   * The attribute names the registry records; every declaration of one of
   * them, in every class, is listed below. Other attributes are not recorded.
   */
  datatype Attr =
    | Uid | UniqueName | DateCreated | DateModified | AddedBy | ReviewedBy | EditedBy
    | EntryReviewStatus | Name | AlternateNames | Description | WikidataId | Hdl
    | CountryRef | GeographicScope | Role | AccountStatus

  /** The predicate name each attribute is declared under. */
  function AttrName(a: Attr): string
  {
    match a
    case Uid => "uid"
    case UniqueName => "_unique_name"
    case DateCreated => "_date_created"
    case DateModified => "_date_modified"
    case AddedBy => "_added_by"
    case ReviewedBy => "_reviewed_by"
    case EditedBy => "_edited_by"
    case EntryReviewStatus => "entry_review_status"
    case Name => "name"
    case AlternateNames => "alternate_names"
    case Description => "description"
    case WikidataId => "wikidata_id"
    case Hdl => "hdl"
    case CountryRef => "country"
    case GeographicScope => "geographic_scope"
    case Role => "role"
    case AccountStatus => "_account_status"
  }

  /** The descriptor a class body declares under attribute name `attr`, if any. */
  function Own(t: TypeName, attr: Attr): Option<Decl>
  {
    match t
    case User => OwnUser(attr)
    case Entry => OwnEntry(attr)
    case PoliticalParty => OwnPoliticalParty(attr)
    case Organization => OwnOrganization(attr)
    case Source => OwnSource(attr)
    case Government => GoverningBody(attr)
    case Parliament => GoverningBody(attr)
    case Person => OwnPerson(attr)
    case Subnational => OwnSubnational(attr)
    case Archive => DataCollection(attr)
    case Dataset => DataCollection(attr)
    case Corpus => DataCollection(attr)
    case Tool => OwnTool(attr)
    case ResearchPaper => OwnResearchPaper(attr)
    case File => OwnUid(attr)
    case Notification => OwnUid(attr)
    case Comment => OwnUid(attr)
    case Rejected => OwnRejected(attr)
    case _ => None
  }

  function OwnUser(attr: Attr): Option<Decl>
  {
      match attr
      case Uid => Some(Decl("UIDPredicate", map[]))
      case Role => Some(Decl("SingleChoiceInt", map[Edit := B(false), ReadOnly := B(true),
                                                   Default := IntV(Contributor)]))
      case AccountStatus => Some(Decl("SingleChoice", map[Choices := DictV([("pending", StrV("Pending")), ("active", StrV("Active"))]),
                                                            Hidden := B(true), Edit := B(false), Default := StrV("pending")]))
      case _ => None
  }

  function OwnEntry(attr: Attr): Option<Decl>
  {
      match attr
      case Uid => Some(Decl("UIDPredicate", map[]))
      case UniqueName => Some(Decl("UniqueName", map[]))
      case DateCreated => Some(Decl("DateTime", AuditFlags))
      case DateModified => Some(Decl("DateTime", AuditFlags))
      case AddedBy => Some(Decl("SingleRelationship", UserRelation))
      case ReviewedBy => Some(Decl("SingleRelationship", UserRelation))
      case EditedBy => Some(Decl("ListRelationship", UserRelation))
      case EntryReviewStatus => Some(ReviewStatusDecl)
      case Name => Some(Decl("String", map[Required := B(true)]))
      case AlternateNames => Some(Decl("ListString", map[]))
      case Description => Some(Decl("String", map[LargeTextfield := B(true), Overwrite := B(true)]))
      case WikidataId => Some(Decl("String", map[Overwrite := B(true), New := B(false)]))
      case Hdl => Some(Decl("String", map[Hidden := B(true)]))
      case _ => None
  }

  /** The audit relationships to the user who added, reviewed or edited an entry. */
  const UserRelation: map<Keyword, Value> := AuditFlags[RelationshipConstraint := StrV("User")]

  const CountryOrMultinational: Value := ListV([StrV("Country"), StrV("Multinational")])

  function OwnPoliticalParty(attr: Attr): Option<Decl>
  {
      match attr
      case CountryRef => Some(Decl("SingleRelationship", map[RelationshipConstraint := CountryOrMultinational,
                                                         Required := B(true)]))
      case _ => None
  }

  function OwnOrganization(attr: Attr): Option<Decl>
  {
      match attr
      case Name => Some(Decl("String", map[Required := B(true)]))
      case AlternateNames => Some(Decl("ListString", map[]))
      case CountryRef => Some(Decl("SingleRelationship", map[RelationshipConstraint := StrV("Country")]))
      case _ => None
  }

  function OwnSource(attr: Attr): Option<Decl>
  {
      match attr
      case Name => Some(Decl("String", map[Required := B(true)]))
      case AlternateNames => Some(Decl("ListString", map[Overwrite := B(true)]))
      case GeographicScope => Some(Decl("SingleChoice", map[Choices := DictV(ScopeChoices), Required := B(true),
                                                            RadioField := B(true)]))
      case CountryRef => Some(Decl("SourceCountrySelection", map[Required := B(true)]))
      case _ => None
  }

  /** The declarations Government and Parliament share word for word. */
  function GoverningBody(attr: Attr): Option<Decl>
  {
    match attr
    case CountryRef => Some(Decl("SingleRelationship", map[RelationshipConstraint := CountryOrMultinational,
                                                       Required := B(true)]))
    case GeographicScope => Some(Decl("SingleChoice", map[Choices := DictV(ScopeChoices), Default := StrV("national"),
                                                          Required := B(true), RadioField := B(true)]))
    case _ => None
  }

  function OwnPerson(attr: Attr): Option<Decl>
  {
      match attr
      case CountryRef => Some(Decl("SingleRelationship", map[RelationshipConstraint := ListV([StrV("Country")])]))
      case _ => None
  }

  function OwnSubnational(attr: Attr): Option<Decl>
  {
      match attr
      case CountryRef => Some(Decl("SingleRelationship", map[Required := B(true), Overwrite := B(true),
                                                         RelationshipConstraint := StrV("Country")]))
      case _ => None
  }

  /** The declarations Archive, Dataset and Corpus share (their wording aside). */
  function DataCollection(attr: Attr): Option<Decl>
  {
      match attr
      case Name => Some(Decl("String", map[Required := B(true)]))
      case AlternateNames => Some(Decl("ListString", map[Overwrite := B(true)]))
      case Description => Some(Decl("String", map[LargeTextfield := B(true)]))
      case CountryRef => Some(Decl("ListRelationship", map[RelationshipConstraint := CountryOrMultinational]))
      case _ => None
  }

  function OwnTool(attr: Attr): Option<Decl>
  {
      match attr
      case Name => Some(Decl("String", map[Required := B(true)]))
      case AlternateNames => Some(Decl("ListString", map[Overwrite := B(true)]))
      case Description => Some(Decl("String", map[LargeTextfield := B(true), Overwrite := B(true)]))
      case _ => None
  }

  function OwnResearchPaper(attr: Attr): Option<Decl>
  {
      match attr
      case Name => Some(Decl("String", map[New := B(false), Edit := B(false), Hidden := B(true)]))
      case AlternateNames => Some(Decl("ListString", map[New := B(false), Edit := B(false), Hidden := B(true),
                                                         Required := B(false)]))
      case Description => Some(Decl("String", map[LargeTextfield := B(true)]))
      case CountryRef => Some(Decl("ListRelationship", map[RelationshipConstraint := StrV("Country")]))
      case _ => None
  }

  /** File, Notification and Comment declare only their uid. */
  function OwnUid(attr: Attr): Option<Decl>
  {
      match attr
      case Uid => Some(Decl("UIDPredicate", map[]))
      case _ => None
  }

  /** A rejected entry keeps the audit fields, each edit by a single user, and a fixed status. */
  function OwnRejected(attr: Attr): Option<Decl>
  {
      match attr
      case Uid => Some(Decl("UIDPredicate", map[]))
      case DateCreated => Some(Decl("DateTime", map[]))
      case DateModified => Some(Decl("DateTime", map[]))
      case AddedBy => Some(Decl("SingleRelationship", UserRelation))
      case ReviewedBy => Some(Decl("SingleRelationship", UserRelation))
      case EditedBy => Some(Decl("SingleRelationship", UserRelation))
      case EntryReviewStatus => Some(Decl("String", map[Default := StrV("rejected")]))
      case _ => None
  }

  const ReviewStatusDecl: Decl :=
    Decl("SingleChoice", map[Choices := DictV(ReviewStatusChoices), Default := StrV("pending"),
                          Required := B(true), New := B(false), Permission := IntV(Reviewer)])

  /**
   * Attribute lookup on the class: the type's own declaration, else the
   * inherited one. Names are therefore unique in the flattened set, and a
   * redeclared name hides the parent's descriptor.
   */
  function Lookup(t: TypeName, attr: Attr): (r: Option<Decl>)
    ensures Own(t, attr).Some? ==> r == Own(t, attr)
    ensures Own(t, attr).None? && Parent(t).None? ==> r == None
    ensures Own(t, attr).None? && Parent(t).Some? ==> r == Lookup(Parent(t).value, attr)
    decreases Depth(t)
  {
    if Own(t, attr).Some? then Own(t, attr)
    else match Parent(t)
      case None => None
      case Some(p) => Lookup(p, attr)
  }

  /** `t` followed by the schema classes above it, nearest first: the class's resolution order. */
  function Ancestry(t: TypeName): (r: seq<TypeName>)
    ensures |r| >= 1 && r[0] == t
    decreases Depth(t)
  {
    match Parent(t)
    case None => [t]
    case Some(p) => RootsDeclare(t); [t] + Ancestry(p)
  }

  /**
   * Lookup finds the declaration of the nearest class in the resolution order
   * that declares the name, and nothing when none of them does.
   */
  lemma LookupNearest(t: TypeName, attr: Attr)
    ensures Lookup(t, attr).Some? ==>
            exists i :: 0 <= i < |Ancestry(t)| && Lookup(t, attr) == Own(Ancestry(t)[i], attr) &&
                        forall j :: 0 <= j < i ==> Own(Ancestry(t)[j], attr).None?
    ensures Lookup(t, attr).None? ==> forall i :: 0 <= i < |Ancestry(t)| ==> Own(Ancestry(t)[i], attr).None?
  {
    var chain := Ancestry(t);
    if Own(t, attr).Some? {
      assert Lookup(t, attr) == Own(chain[0], attr);
    } else if Parent(t).None? {
      assert chain == [t];
    } else {
      // every other class derives from Entry, which derives from no schema class
      assert chain == [t, Entry];
      assert Lookup(t, attr) == Own(Entry, attr);
      if Own(Entry, attr).Some? {
        assert Lookup(t, attr) == Own(chain[1], attr);
      }
    }
  }

  /** The keyword argument `key` of the descriptor found for `attr` on `t`. */
  function Arg(t: TypeName, attr: Attr, key: Keyword): Option<Value>
  {
    match Lookup(t, attr)
    case None => None
    case Some(d) => if key in d.args then Some(d.args[key]) else None
  }

  /** The review status is a required four-way choice defaulting to pending that needs Reviewer. */
  lemma ReviewStatusDeclaration()
    ensures Arg(Entry, EntryReviewStatus, Choices) == Some(DictV(ReviewStatusChoices))
    ensures Keys(ReviewStatusChoices) == {"draft", "pending", "accepted", "rejected"}
    ensures Arg(Entry, EntryReviewStatus, Default) == Some(StrV("pending"))
    ensures Arg(Entry, EntryReviewStatus, Required) == Some(BoolV(true))
    ensures Arg(Entry, EntryReviewStatus, Permission) == Some(IntV(Reviewer))
  {
    assert Lookup(Entry, EntryReviewStatus) == Some(ReviewStatusDecl);
  }

  /** A subclass redeclaring `name` replaces `Entry.name`: research papers hide theirs and forbid editing it. */
  lemma NameOverrides()
    ensures Lookup(Organization, Name) == Own(Organization, Name)
    ensures Arg(ResearchPaper, Name, Hidden) == Some(BoolV(true))
    ensures Arg(ResearchPaper, Name, Edit) == Some(BoolV(false))
  {
    assert Lookup(Organization, Name) == Own(Organization, Name) by {
      assert OwnOrganization(Name).Some?;
    }
    var paper := Decl("String", map[New := B(false), Edit := B(false), Hidden := B(true)]);
    assert Lookup(ResearchPaper, Name) == Some(paper) by {
      assert OwnResearchPaper(Name) == Some(paper);
    }
  }

  /** The classes that redeclare `name`; all but the research paper keep it a required string. */
  lemma NameDeclarations(t: TypeName)
    ensures Own(t, Name).Some? <==> t in {Entry, Organization, Source, Archive, Dataset, Corpus, Tool, ResearchPaper}
    ensures Own(t, Name).Some? && t != ResearchPaper ==> Own(t, Name) == Own(Entry, Name)
  {
  }

  /**
   * The classes that redeclare `description`, and which of their declarations
   * let automatic updates overwrite it: only Entry's and Tool's.
   */
  lemma DescriptionDeclarations(t: TypeName)
    ensures Own(t, Description).Some? <==> t in {Entry, Archive, Dataset, Corpus, Tool, ResearchPaper}
    ensures Own(t, Description).Some? ==> (Overwrite in Own(t, Description).value.args <==> t in {Entry, Tool})
  {
  }

  /** Resolved descriptions: datasets lose the overwrite flag, tools keep it, languages inherit Entry's. */
  lemma DescriptionOverwrite()
    ensures Arg(Entry, Description, Overwrite) == Some(BoolV(true))
    ensures Arg(Dataset, Description, Overwrite) == None
    ensures Arg(Tool, Description, Overwrite) == Some(BoolV(true))
    ensures Lookup(Language, Description) == Lookup(Entry, Description)
  {
  }

  /** The classes that redeclare `alternate_names`, and those whose declaration may be overwritten. */
  lemma AlternateNamesDeclarations(t: TypeName)
    ensures Own(t, AlternateNames).Some? <==>
            t in {Entry, Organization, Source, Archive, Dataset, Corpus, Tool, ResearchPaper}
    ensures Own(t, AlternateNames).Some? ==>
            (Overwrite in Own(t, AlternateNames).value.args <==> t in {Source, Archive, Dataset, Corpus, Tool})
  {
  }

  /**
   * Entry declares no `country`: the classes that do, which of them relate to
   * several countries, and which require one.
   */
  lemma CountryDeclarations(t: TypeName)
    ensures Own(t, CountryRef).Some? <==>
            t in {PoliticalParty, Organization, Source, Government, Parliament, Person, Subnational,
                  Archive, Dataset, Corpus, ResearchPaper}
    ensures Own(t, CountryRef).Some? ==>
            (Own(t, CountryRef).value.cls == "ListRelationship" <==> t in {Archive, Dataset, Corpus, ResearchPaper})
    ensures Own(t, CountryRef).Some? ==>
            (Required in Own(t, CountryRef).value.args <==> t in {PoliticalParty, Source, Government, Parliament, Subnational})
  {
  }

  /** Government and Parliament default their scope to national, out of three choices. */
  lemma GoverningScopeDefault(t: TypeName)
    requires t == Government || t == Parliament
    ensures Arg(t, GeographicScope, Default) == Some(StrV("national"))
    ensures Arg(t, GeographicScope, Choices).Some? && Arg(t, GeographicScope, Choices).value.DictV?
    ensures Keys(Arg(t, GeographicScope, Choices).value.d) == {"multinational", "national", "subnational"}
  {
    var scope := Decl("SingleChoice", map[Choices := DictV(ScopeChoices), Default := StrV("national"),
                                       Required := B(true), RadioField := B(true)]);
    assert Lookup(t, GeographicScope) == Some(scope) by {
      assert GoverningBody(GeographicScope) == Some(scope);
    }
    assert Keys(ScopeChoices) == {"multinational", "national", "subnational"};
  }

  /** A source's scope is required but has no default. */
  lemma SourceScopeNoDefault()
    ensures Arg(Source, GeographicScope, Default) == None
    ensures Arg(Source, GeographicScope, Required) == Some(BoolV(true))
  {
    var source := Decl("SingleChoice", map[Choices := DictV(ScopeChoices), Required := B(true),
                                        RadioField := B(true)]);
    assert Lookup(Source, GeographicScope) == Some(source) by {
      assert OwnSource(GeographicScope) == Some(source);
    }
  }

  // ---------------------------------------------------------------------------
  // load_user
  // ---------------------------------------------------------------------------

  /**
   * The login manager's user loader: ids that do not look like node uids, and
   * ids of nodes that are not users (`userExists`, a database check), load no
   * user; otherwise the user with that uid.
   */
  function LoadUser(userId: string, userExists: string -> bool): (r: Option<string>)
    ensures r.Some? <==> StartsWith(userId, "0x") && userExists(userId)
    ensures r.Some? ==> r.value == userId
  {
    if !StartsWith(userId, "0x") then None
    else if !userExists(userId) then None
    else Some(userId)
  }
}

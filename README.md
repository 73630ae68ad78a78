# Meteor inventory core, modelled in Dafny

Meteor is a web inventory of news sources, organizations, archives, datasets,
research papers and other resources, stored as nodes of a Dgraph graph
database. This project models four parts of its Python code base:

- **The submission sanitizer** (`flaskinventory/main/sanitizer.py`). It turns
  a form submission into the entry that is written to the graph. It
  type-checks its inputs. It enforces the role thresholds for creating,
  editing and reviewing. It stamps the entry with who added or edited it,
  from which IP and when. It runs the four `parse_*` hooks in the order
  `dir()` lists them: review status, uid, unique name, Wikidata. It then
  walks the field list with its merge rules (dicts are merged in, lists
  extended, sets united, anything else replaced) and records which
  predicates an upsert must wipe first. It also resolves geographic
  subunits through a geocoder. `OrganizationSanitizer` adds its fields and
  the `Organization` type.
- **The database helper** (`flaskinventory/dgraph.py`). It flattens date
  facets and channel feeds into records, reshapes sources and papers,
  renders filter dictionaries into DQL `@filter` clauses, builds
  `list_by_type` queries and looks up uids.
- **The detail and list view queries** (`flaskinventory/view/dgraph.py`).
  These are `get_entry`, with one query block per entry type, plus
  `get_rejected` and the view's own `list_by_type`.
- **The schema** (`flaskinventory/main/model.py`). It covers permission
  thresholds per type and their inheritance, the login loader, and attribute
  lookup through the class hierarchy. The lookup is modelled for the
  attributes every entry type inherits from `Entry` or redeclares (`uid`,
  the audit fields, `entry_review_status`, `name`, `alternate_names`,
  `description`, `wikidata_id`, `hdl`), for `country` and
  `geographic_scope`, and for the user's `role` and `_account_status`.
  Every declaration of these names, in every class, is recorded. The schema
  model stands on its own: the sanitizer and query models take the field
  list as a parameter and do not consult it.

## How the model is organised

**Values** (`values.dfy`) holds the building blocks that everything else uses:
- Python's dynamic values as a `Value` datatype.
- Dictionaries as ordered association lists (`Dict`), with lemmas for
  lookup, assignment and `{**a, **b}`.
- Errors as a `Result`, with Python's exception classes as an `Error`
  datatype.
- Decimal rendering and parsing.
- `str.split`/`join`/`replace`.
- A generic left fold over a sequence that stops at the first error.

**Model** (`model.dfy`) holds the schema registry. A descriptor is its class
and the keyword arguments that matter for validation and permissions;
labels, descriptions, widget hints, index directives and callable defaults
are not recorded.

**Dgraph** (`dgraph.dfy`) and **View** (`view.dfy`) hold the query helpers:
- Loops in the source become methods, each proved equal to a specification
  function.
- Query text is built from tokens, so that brace balance can be proved for
  every entry type.

**SanitizerSteps** (`sanitizer_steps.dfy`) gives every step of the sanitizer
as a function of the state it reads and writes. Lemmas state what each step
guarantees.

**Sanitizer** (`sanitizer.dfy`) is the `Sanitizer` class itself:
- Its fields are `entry`, `overwrite`, `newsubunits` and `isUpsert`.
- Each method updates them in place and is proved to produce exactly the
  state the corresponding `SanitizerSteps` function computes.
- `Create` appends the extra fields to a shared `FieldList` object. This
  matches how the source appends to the module-level `entry_fields` list
  (`self.fields += fields` on an alias).

The world outside the code is a parameter:
- the database, as a function from query text to rows;
- the geocoder;
- Wikidata;
- `slugify`;
- `validate_uid`;
- random tokens;
- the clock;
- date parsing;
- `restore_sequence`;
- `Schema.get_type`.

In the sanitizer these are fields of the `Env` record.

User roles are ordered Contributor < Reviewer < Admin. The values used are 1,
2 and 10, because the roles module is not part of this model. Only their order
matters to the stated properties, except in the User thresholds
(Admin + 100) and the `99` thresholds.

## Model

| member | source | states |
|---|---|---|
| `Values.PutGet` | flaskinventory/main/sanitizer.py:232 | after `d[k] = v`, reading `k` gives `v` and every other key reads as before |
| `Values.PutKeys` | flaskinventory/main/sanitizer.py:232 | assignment adds `k` to the keys; it keeps the length when `k` was present and appends at the end otherwise, as Python dicts keep insertion order |
| `Values.PutPut` | flaskinventory/main/sanitizer.py:264 | assigning a key twice equals assigning the second value once |
| `Values.PutSame` | flaskinventory/main/sanitizer.py:264 | assigning a key the value it already holds leaves the dict unchanged |
| `Values.Remove` | flaskinventory/dgraph.py:299 | `pop(k, None)` removes `k` and leaves every other key's value as it was |
| `Values.UpdateGet` | flaskinventory/main/sanitizer.py:226 | in `{**a, **b}` a key of `b` takes `b`'s value and any other key keeps `a`'s |
| `Values.IAdd` | flaskinventory/main/sanitizer.py:228 | `+=` on two lists concatenates them; on a value that is not a list, string or int it raises TypeError |
| `Values.Elems` | flaskinventory/main/sanitizer.py:230 | a set built from a value holds only hashable elements |
| `Values.ParseDecimal` | flaskinventory/dgraph.py:54 | `int(str(n)) == n`: the index keys written as decimal strings parse back to the index |
| `Values.DecimalInjective` | flaskinventory/dgraph.py:54 | distinct indices give distinct `str(index)` keys |
| `Values.ParseNat` | flaskinventory/main/sanitizer.py:181 | the model's `int()` accepts exactly the non-empty strings of decimal digits, the subset of Python's `int()` inputs the model uses |
| `Values.Split` | flaskinventory/dgraph.py:291 | `split(c)` gives at least one piece, at least two when `c` occurs, and no piece holds `c` |
| `Values.SplitJoin` | flaskinventory/dgraph.py:291 | joining the pieces of `split(c)` with `c` restores the string |
| `Values.JoinSplit` | flaskinventory/dgraph.py:291 | splitting a join of `c`-free pieces with `c` gives the pieces back |
| `Values.RemoveChar` | flaskinventory/dgraph.py:291 | `replace(c, '')` leaves no `c`, adds no character and changes a string without `c` not at all |
| `Values.MapResultFirstErr` | flaskinventory/dgraph.py:478 | a comprehension over items stops with the error of the first failing item |
| `Values.MapResultOk` | flaskinventory/dgraph.py:478 | a comprehension whose every item succeeds succeeds |
| `Values.FoldErrPrefix` | flaskinventory/main/sanitizer.py:222 | once a step of the field loop raises, the whole loop raises that error |
| `Model.RootsDeclare` | flaskinventory/main/model.py:68-71 | every type without its own thresholds has a parent closer to `Entry` to inherit them from |
| `Model.InheritedThresholds` | flaskinventory/main/model.py:68-71 | a type that declares no thresholds is a direct subclass of `Entry` and needs Contributor to create and to edit |
| `Model.AdminOnlyTypes` | flaskinventory/main/model.py:494-514 | channels, countries and multinational constructs need Admin to create and edit; of the roles, exactly Admin reaches that threshold |
| `Model.SubnationalNeedsReviewer` | flaskinventory/main/model.py:520-523 | subnational entries need Reviewer to create and edit; of the roles, exactly Reviewer and Admin reach that threshold |
| `Model.UserUnreachable` | flaskinventory/main/model.py:22-26 | no role reaches the User thresholds (Admin + 100) |
| `Model.LookupNearest` | flaskinventory/main/model.py:68-143 | attribute lookup on a class finds the declaration of the nearest class in its resolution order (the class, then `Entry`) that declares the name, and nothing when none does |
| `Model.ReviewStatusDeclaration` | flaskinventory/main/model.py:117-124 | the review status is a required choice among draft, pending, accepted and rejected; it defaults to pending and needs Reviewer |
| `Model.NameOverrides` | flaskinventory/main/model.py:861-863 | organizations use their own `name`; a research paper's `name` is hidden and not editable |
| `Model.NameDeclarations` | flaskinventory/main/model.py:126-863 | `name` is declared by Entry, Organization, Source, Archive, Dataset, Corpus, Tool and ResearchPaper and no other class; all but ResearchPaper's are Entry's required string |
| `Model.DescriptionDeclarations` | flaskinventory/main/model.py:130-890 | `description` is declared by Entry, Archive, Dataset, Corpus, Tool and ResearchPaper and no other class; only Entry's and Tool's carry `overwrite` |
| `Model.DescriptionOverwrite` | flaskinventory/main/model.py:589-590 | resolved: Entry's and Tool's description may be overwritten, a dataset's may not, and a language inherits Entry's |
| `Model.AlternateNamesDeclarations` | flaskinventory/main/model.py:128-865 | `alternate_names` is declared by Entry, Organization, Source, Archive, Dataset, Corpus, Tool and ResearchPaper; exactly Source's, Archive's, Dataset's, Corpus's and Tool's carry `overwrite` |
| `Model.CountryDeclarations` | flaskinventory/main/model.py:162-917 | `country` is declared by PoliticalParty, Organization, Source, Government, Parliament, Person, Subnational, Archive, Dataset, Corpus and ResearchPaper (not by Entry); it is a list relationship exactly for archives, datasets, corpora and papers, and required exactly for parties, sources, governments, parliaments and subnational units |
| `Model.GoverningScopeDefault` | flaskinventory/main/model.py:448-456 | governments and parliaments default their scope to national, out of multinational, national and subnational |
| `Model.SourceScopeNoDefault` | flaskinventory/main/model.py:338-344 | a source's scope is required and has no default |
| `Model.LoadUser` | flaskinventory/main/model.py:55-60 | a user is loaded exactly when the id starts with `0x` and the database knows that user; the loaded user has that uid |
| `Dgraph.FacetKeys` | flaskinventory/dgraph.py:49 | the facet keys are exactly the keys of the record that start with `field|` |
| `Dgraph.Labels` | flaskinventory/dgraph.py:50 | one label per facet key, namely the part after the `|` |
| `Dgraph.FlattenDateFacets` | flaskinventory/dgraph.py:47-58 | the loop over values and facets computes the flattening function, error for error |
| `Dgraph.FacetColumn` | flaskinventory/dgraph.py:51-55 | the outer loop builds one record per value or stops at the first failing record |
| `Dgraph.FacetRecord` | flaskinventory/dgraph.py:52-54 | the inner loop builds the record for one value or stops at the first missing facet cell |
| `Dgraph.FacetRowErr` | flaskinventory/dgraph.py:53-54 | once a facet cell is missing, the record fails with that error whatever follows |
| `Dgraph.FacetRowsErr` | flaskinventory/dgraph.py:51-55 | once a record fails, the column fails with that error whatever follows |
| `Dgraph.FacetRowKeys` | flaskinventory/dgraph.py:52-54 | a flattened record has exactly the keys `date` and the facet labels |
| `Dgraph.FacetRowDate` | flaskinventory/dgraph.py:52 | a flattened record's `date` is the value itself unless a label is `date` |
| `Dgraph.FacetRowCell` | flaskinventory/dgraph.py:53-54 | a flattened record maps each label to that facet's cell for the value's index, the last label winning on duplicates |
| `Dgraph.FacetRowsContents` | flaskinventory/dgraph.py:51-55 | the flattened column has one record per value, in order |
| `Dgraph.FacetRowsOk` | flaskinventory/dgraph.py:51-55 | when every record can be built, the column succeeds |
| `Dgraph.FlattenedParts` | flaskinventory/dgraph.py:47-58 | a successful flattening replaces the field with the records and sets `field_labels` to the labels |
| `Dgraph.FlattenDateFacetsColumn` | flaskinventory/dgraph.py:55-57 | after flattening, the field is a list as long as the original values, and `field_labels` holds the labels |
| `Dgraph.FlattenDateFacetsRecord` | flaskinventory/dgraph.py:51-55 | the i-th flattened record is built from the i-th value and the i-th facet cells |
| `Dgraph.FacetMapGet` | flaskinventory/dgraph.py:54 | a facet map as Dgraph returns it maps `str(i)` to the i-th cell |
| `Dgraph.FlattenOneFacet` | flaskinventory/dgraph.py:47-58 | with one facet, flattening pairs each value with its facet cell and labels the column with the facet name |
| `Dgraph.FoldChannelFeeds` | flaskinventory/dgraph.py:294-299 | the loop over feed urls computes the channel-feed folding function |
| `Dgraph.FeedRecordsErr` | flaskinventory/dgraph.py:296-297 | once a feed kind cannot be read, the folding fails with that error |
| `Dgraph.FeedRecordsContents` | flaskinventory/dgraph.py:296-297 | one `{kind, url}` record per url, in order, with the kind at the url's index |
| `Dgraph.FeedRecordsOk` | flaskinventory/dgraph.py:296-297 | when every kind can be read, the folding succeeds |
| `Dgraph.ChannelFeedsShape` | flaskinventory/dgraph.py:294-299 | after folding, `channel_feeds` is the list of records and `channel_feeds|url` is gone |
| `Dgraph.ChannelFeedsRoundTrip` | flaskinventory/dgraph.py:294-299 | feeds stored as kinds plus an index-keyed url facet come back as the matching `{kind, url}` pairs |
| `Dgraph.SplitAuthors` | flaskinventory/dgraph.py:290-291 | an author string not starting with `[` is kept; one starting with `[` becomes a non-empty list |
| `Dgraph.SplitAuthorsJoin` | flaskinventory/dgraph.py:291 | the list is the `;`-pieces of the string without brackets; no piece holds `;`, `[` or `]` |
| `Dgraph.AuthorsRoundTrip` | flaskinventory/dgraph.py:290-291 | `[a;b;...]` splits back into the names it was joined from |
| `Dgraph.NormalizeAuthors` | flaskinventory/dgraph.py:290-291 | a string is split as above; any other value raises AttributeError |
| `Dgraph.ParseDates` | flaskinventory/dgraph.py:284-286 | parsing a date list succeeds element by element and keeps the length |
| `Dgraph.ShapeEachPaper` | flaskinventory/dgraph.py:288-291 | the loop over papers reshapes each paper or stops at the first failure |
| `Dgraph.ShapeSourcePapers` | flaskinventory/dgraph.py:287-291 | the papers step of `get_source` computes its specification function |
| `Dgraph.GetSource` | flaskinventory/dgraph.py:256-309 | no rows gives "not found"; otherwise the first row is reshaped and any error is passed on |
| `Dgraph.GetPaper` | flaskinventory/dgraph.py:404-428 | no rows gives "not found". Otherwise a failing date parse is passed on, then an `authors` value without `startswith` is an AttributeError, and it succeeds exactly when neither happens; a success replaces a truthy `published_date` by its parse and truthy `authors` by their split, and keeps every other key's value |
| `Dgraph.GetPaperAuthors` | flaskinventory/dgraph.py:424-426 | when the paper's date (if any) parses, a bracketed `;`-joined author string comes back as its list of names |
| `Dgraph.GetPaperKeys` | flaskinventory/dgraph.py:417-428 | reshaping a paper keeps exactly the keys of the first row |
| `Dgraph.IterFiltDict` | flaskinventory/dgraph.py:462-470 | the loop over the filter dict computes its specification function, error for error |
| `Dgraph.ClauseText` | flaskinventory/dgraph.py:464-469 | one clause is `key(value)`, or `key(subkey, "subval")` repeated for a dict value |
| `Dgraph.IterFiltDictLast` | flaskinventory/dgraph.py:463-470 | the text of a filter dict is the clause of its last entry alone |
| `Dgraph.BuildFiltString` | flaskinventory/dgraph.py:472-481 | a string passes through, a dict becomes `@filter(...)`, a list is joined with the operator, anything else gives the empty string |
| `Dgraph.FiltSingleton` | flaskinventory/dgraph.py:477-479 | a one-element list of a dict filters like the dict itself |
| `Dgraph.FiltList` | flaskinventory/dgraph.py:477-479 | a list filter is the clauses of its items joined by ` AND ` (or the operator) inside `@filter(...)` |
| `Dgraph.FiltConcat` | flaskinventory/dgraph.py:478 | the filter of two concatenated lists is the two joins joined by the operator |
| `Dgraph.FiltListErrors` | flaskinventory/dgraph.py:462-478 | the first non-dict item raises AttributeError and the first empty dict raises UnboundLocalError |
| `Dgraph.GetUid` | flaskinventory/dgraph.py:70-75 | no rows gives None; otherwise the first row's uid, and an error when that row has none |
| `Dgraph.GetUidFirst` | flaskinventory/dgraph.py:73-75 | only the first row matters |
| `Dgraph.FieldNames` | flaskinventory/dgraph.py:491-492 | a list of strings is always accepted as field names |
| `Dgraph.RelationClausesErr` | flaskinventory/dgraph.py:520-525 | once a relation filter fails, the relation text fails with that error |
| `Dgraph.RelationText` | flaskinventory/dgraph.py:520-525 | the loop over relation filters computes the relation clauses |
| `Dgraph.BuildListQuery` | flaskinventory/dgraph.py:484-532 | the query builder computes the query specification |
| `Dgraph.Assemble` | flaskinventory/dgraph.py:514-532 | the head, the projection and the relation part are combined as the specification says |
| `Dgraph.BuildPlain` | flaskinventory/dgraph.py:526-532 | without relation filters the country projection is appended |
| `Dgraph.BuildCascade` | flaskinventory/dgraph.py:515-532 | with relation filters the head gets `@cascade` and the relation clauses are appended |
| `Dgraph.ListByType` | flaskinventory/dgraph.py:484-544 | errors of the query builder are passed on; otherwise no rows gives False and rows are returned as they are |
| `Dgraph.ListByTypeCountry` | flaskinventory/dgraph.py:526-527 | without relation filters the fields end with the country projection and there is no relation part |
| `Dgraph.ListByTypeCascade` | flaskinventory/dgraph.py:515-525 | with relation filters the head carries ` @cascade ` after the type head and filter |
| `Dgraph.ListByTypeNormalize` | flaskinventory/dgraph.py:489-512 | `@normalize` is used when the caller asks for it with explicit fields, and otherwise for every type but ResearchPaper |
| `Dgraph.ListByTypeUnknownType` | flaskinventory/dgraph.py:493-527 | default fields for a type without a preset raise UnboundLocalError |
| `View.GetEntry` | flaskinventory/view/dgraph.py:11-118 | neither name nor uid gives None; a type that is not a string fails the assertion; nothing else fails |
| `View.UniqueNameFirst` | flaskinventory/view/dgraph.py:12-13 | a unique name takes precedence over a uid and selects by `eq(unique_name, ...)` |
| `View.UidSecond` | flaskinventory/view/dgraph.py:14-15 | without a unique name the uid selects by `uid(...)` |
| `View.EntryTypeFilter` | flaskinventory/view/dgraph.py:19-24 | the query filters by the resolved type, or by `has(dgraph.type)` without one |
| `View.SourceCloses` | flaskinventory/view/dgraph.py:29-33 | the Source block closes the two braces the base fields leave open |
| `View.OrganizationCloses` | flaskinventory/view/dgraph.py:36 | the Organization block closes the query |
| `View.ChannelCloses` | flaskinventory/view/dgraph.py:39 | the Channel block closes the query |
| `View.ArchiveCloses` | flaskinventory/view/dgraph.py:42 | the Archive block closes the query |
| `View.DatasetCloses` | flaskinventory/view/dgraph.py:45-47 | the Dataset block closes the query |
| `View.CorpusCloses` | flaskinventory/view/dgraph.py:50-54 | the Corpus block closes the query |
| `View.CountryCloses` | flaskinventory/view/dgraph.py:57-60 | the Country block closes the query |
| `View.MultinationalCloses` | flaskinventory/view/dgraph.py:63-65 | the Multinational block closes the query |
| `View.SubunitCloses` | flaskinventory/view/dgraph.py:68-70 | the Subunit block closes the query |
| `View.OperationCloses` | flaskinventory/view/dgraph.py:73-75 | the Operation block closes the query |
| `View.FileFormatCloses` | flaskinventory/view/dgraph.py:78-83 | the FileFormat block closes the query |
| `View.MetaVarCloses` | flaskinventory/view/dgraph.py:86-90 | the MetaVar block closes the query |
| `View.ConceptVarCloses` | flaskinventory/view/dgraph.py:93-97 | the ConceptVar block closes the query |
| `View.TextUnitCloses` | flaskinventory/view/dgraph.py:100-103 | the TextUnit block closes the query |
| `View.OtherCloses` | flaskinventory/view/dgraph.py:104-105 | the default block closes the query |
| `View.BaseLeavesOpen` | flaskinventory/view/dgraph.py:26 | the base field list leaves one brace open |
| `View.BranchCloses` | flaskinventory/view/dgraph.py:28-105 | whatever the type, its block closes two braces |
| `View.EntryQueryBalanced` | flaskinventory/view/dgraph.py:11-107 | every query `get_entry` sends has balanced braces |
| `View.GetEntryResult` | flaskinventory/view/dgraph.py:107-118 | no rows gives None; otherwise the first row with its sequences restored |
| `View.GetRejected` | flaskinventory/view/dgraph.py:121-134 | no rows gives False; otherwise the first row |
| `View.RejectedFieldsClose` | flaskinventory/view/dgraph.py:123-126 | the rejected-entry projection closes one brace more than it opens |
| `View.RejectedQueryBalanced` | flaskinventory/view/dgraph.py:122-127 | the rejected-entry query has balanced braces for every uid |
| `View.CascadeText` | flaskinventory/view/dgraph.py:195-206 | the loop over relation filters builds the cascade key list and the relation clauses together |
| `View.ChooseFields` | flaskinventory/view/dgraph.py:160-192 | the projection is the fields' specification, and normalisation follows the caller with explicit fields and the type preset otherwise |
| `View.DefaultFields` | flaskinventory/view/dgraph.py:165-192 | the default projection and normalisation are the type's preset |
| `View.BuildListQuery` | flaskinventory/view/dgraph.py:155-214 | the query builder computes the list query specification |
| `View.AssembleList` | flaskinventory/view/dgraph.py:194-214 | the head, the projection and the relation part are combined as the specification says |
| `View.RestoreEach` | flaskinventory/view/dgraph.py:222-224 | every row is restored, in order |
| `View.ListByType` | flaskinventory/view/dgraph.py:155-226 | errors are passed on; no rows gives False; rows of papers, tools, corpora and datasets are restored and other rows are returned as they are |
| `View.ListOrderedByName` | flaskinventory/view/dgraph.py:156 | every list query orders by name |
| `View.ListFieldsNamed` | flaskinventory/view/dgraph.py:161-164 | `all` expands every predicate and a list of names is joined with spaces |
| `View.DefaultChoiceUnknown` | flaskinventory/view/dgraph.py:165-192 | a type without a preset has an empty projection and is normalised |
| `View.DefaultChoiceNormalize` | flaskinventory/view/dgraph.py:165-192 | defaults are normalised except for ResearchPaper, Subunit and Tool |
| `View.DefaultChoiceKnown` | flaskinventory/view/dgraph.py:167-192 | each preset type gets its own projection, and Archive and Dataset share one |
| `View.ListCountry` | flaskinventory/view/dgraph.py:207-208 | without relation filters the country projection follows the fields and there is no relation part |
| `View.ListCascade` | flaskinventory/view/dgraph.py:195-206 | with relation filters the head lists the relation keys in `@cascade(...)` |
| `SanitizerSteps.ValidateInput` | flaskinventory/main/sanitizer.py:56-63 | the inputs are rejected with TypeError exactly when data is not a dict, user not a `User` or ip not a string |
| `SanitizerSteps.ConstructRefuses` | flaskinventory/main/sanitizer.py:34-42 | bad input types raise TypeError and a role below Contributor raises a permission error, before anything is consulted |
| `SanitizerSteps.EditRules` | flaskinventory/main/sanitizer.py:65-82 | editing needs a uid, an existing entry, the Reviewer role and a user other than the one who added the entry, checked in that order; otherwise it builds an upsert |
| `SanitizerSteps.EntryTypesOnce` | flaskinventory/main/sanitizer.py:118-125 | the new entry's types become a list that keeps its old types first and holds `Entry` once when it was missing |
| `SanitizerSteps.AddEntryMetaNew` | flaskinventory/main/sanitizer.py:116-138 | a new entry records who added it, from which IP and when; it is pending and its creation date is now |
| `SanitizerSteps.AddEntryMetaEdit` | flaskinventory/main/sanitizer.py:127-131 | an edit records the editor and leaves who added it, the review status and the creation date alone |
| `SanitizerSteps.AddEntryMetaKeeps` | flaskinventory/main/sanitizer.py:116-138 | stamping touches no key beyond the five metadata keys |
| `SanitizerSteps.ParseRejectsReviewRequest` | flaskinventory/main/sanitizer.py:270-281 | a user below Reviewer who accepts or sets a review status is refused |
| `SanitizerSteps.AcceptedNewEntryIsPending` | flaskinventory/main/sanitizer.py:258-268 | an entry without a valid uid gets a new id and is stamped as added now and pending, even when a reviewer accepted it (the reviewer stamp is kept) |
| `SanitizerSteps.NormalizeIdempotent` | flaskinventory/main/sanitizer.py:285 | stripping and lower-casing a name twice gives the same as once |
| `SanitizerSteps.ExplicitUniqueName` | flaskinventory/main/sanitizer.py:283-292 | a given unique name is stored normalised unless an upsert finds it on another node, which raises "Unique Name already taken!" |
| `SanitizerSteps.GeneratedUniqueName` | flaskinventory/main/sanitizer.py:293-309 | without a unique name the slug of the name is used, with a random suffix when it is taken; a name that is not a string raises TypeError |
| `SanitizerSteps.NewEntryNameIsGenerated` | flaskinventory/main/sanitizer.py:323-339 | after parsing a new entry, its name could be slugified and its unique name is the generated one |
| `SanitizerSteps.WikidataKeeps` | flaskinventory/main/sanitizer.py:311-321 | merging Wikidata adds its keys and changes no existing key except `other_names` |
| `SanitizerSteps.MergeDict` | flaskinventory/main/sanitizer.py:225-226 | a dict result is merged in with its keys winning |
| `SanitizerSteps.MergeList` | flaskinventory/main/sanitizer.py:227-228 | a list result extends the list already stored |
| `SanitizerSteps.MergeSet` | flaskinventory/main/sanitizer.py:229-230 | a set result is united with the elements already stored |
| `SanitizerSteps.MergeReplaces` | flaskinventory/main/sanitizer.py:231-232 | any other result, or a list or set for a new predicate, replaces the stored value |
| `SanitizerSteps.DefaultOnlyWhenMissing` | flaskinventory/main/sanitizer.py:223-246 | a field without input gets its default when it has one and no autocode, and is left out otherwise; autocode runs only when its input key is present |
| `SanitizerSteps.FieldsOverwrite` | flaskinventory/main/sanitizer.py:219-253 | an upsert collects, under the entry's uid, the predicates of every overwrite field in field order |
| `SanitizerSteps.FieldsKeepOverwrite` | flaskinventory/main/sanitizer.py:252-253 | a non-upsert collects nothing to overwrite |
| `SanitizerSteps.ParseOverwrite` | flaskinventory/main/sanitizer.py:212-256 | after parsing, the overwrite map is the overwrite predicates under the entry's uid for an upsert and empty otherwise |
| `SanitizerSteps.OrganizationTyped` | flaskinventory/main/sanitizer.py:342-351 | a new organization's type list gets `Organization` appended; upserts and plain sanitizers are left unchanged; a new organization without a type raises KeyError |
| `SanitizerSteps.Dedup` | flaskinventory/main/sanitizer.py:163 | the de-duplicated names are the same names, each once |
| `SanitizerSteps.Drop` | flaskinventory/main/sanitizer.py:168-169 | removing the chosen name leaves every other name and keeps them distinct |
| `SanitizerSteps.SubunitNames` | flaskinventory/main/sanitizer.py:153-175 | the subunit is named by its English name, else its local name, else the query; the other names are the remaining ones, each once |
| `SanitizerSteps.StampSubunitFacts` | flaskinventory/main/sanitizer.py:194-195 | a resolved subunit keeps its country code and is stamped as a new, pending entry |
| `SanitizerSteps.RegisterOutcome` | flaskinventory/main/sanitizer.py:196-207 | a subunit whose unique name exists becomes a reference to it; otherwise it gets that unique name and a new id and is queued as new |
| `SanitizerSteps.ResolveSubunitOutcome` | flaskinventory/main/sanitizer.py:191-210 | an unknown place or country raises a validation error; otherwise the subunit is registered as above |
| `Sanitizer.Sanitizer.Init` | flaskinventory/main/sanitizer.py:44-52 | a fresh sanitizer holds its inputs, an empty entry, no overwrites and no new subunits |
| `Sanitizer.Sanitizer.Create` | flaskinventory/main/sanitizer.py:34-53 | construction appends the extra fields to the shared list once the inputs are valid, and succeeds or fails exactly as the step functions say, with their final state |
| `Sanitizer.Sanitizer.Edit` | flaskinventory/main/sanitizer.py:65-82 | `edit` fails or builds an upsert exactly as the edit rules say |
| `Sanitizer.Sanitizer.Parse` | flaskinventory/main/sanitizer.py:212-256 | parsing in place reaches the state the step functions compute, or their error |
| `Sanitizer.Sanitizer.ParseEntryReviewStatus` | flaskinventory/main/sanitizer.py:270-281 | the review-status hook updates only the entry, as the step says |
| `Sanitizer.Sanitizer.ParseUid` | flaskinventory/main/sanitizer.py:258-268 | the uid hook sets the entry and the upsert flag as the step says |
| `Sanitizer.Sanitizer.AddEntryMeta` | flaskinventory/main/sanitizer.py:116-138 | stamping returns the stamped entry, adding the types only to the sanitizer's own entry of a non-upsert |
| `Sanitizer.Sanitizer.ParseUniqueName` | flaskinventory/main/sanitizer.py:283-309 | the unique-name hook updates only the entry, as the step says |
| `Sanitizer.Sanitizer.GenerateUniqueName` | flaskinventory/main/sanitizer.py:323-339 | generating a unique name updates only the entry, as the step says, and raises TypeError when the name is not a string |
| `Sanitizer.Sanitizer.ParseWikidata` | flaskinventory/main/sanitizer.py:311-321 | the loop over Wikidata items merges them as the fold says |
| `Sanitizer.Sanitizer.ParseFields` | flaskinventory/main/sanitizer.py:222-253 | the loop over the field list updates the entry and the overwrite map as the fold says |
| `Sanitizer.Sanitizer.ParseField` | flaskinventory/main/sanitizer.py:223-253 | one field updates the entry and the overwrite map as one fold step says |
| `Sanitizer.Sanitizer.MergeValue` | flaskinventory/main/sanitizer.py:225-232 | a validated value is merged into the entry by the merge rules |
| `Sanitizer.Sanitizer.ResolveSubunit` | flaskinventory/main/sanitizer.py:191-210 | resolving a subunit returns the record and queues new subunits as the step says |
| `Sanitizer.Sanitizer.DeleteNquads` | flaskinventory/main/sanitizer.py:89-103 | only an upsert has deletions; they are exactly the (node, predicate) pairs of the overwrite map, each once |

## Left out

- I/O is not modelled. Every database query, the geocoder, Wikidata, the login
  check and date parsing are function parameters.
- Transactions and the mutation itself are not modelled. `set_nquads` and
  `dict_to_nquad` are not part of this model. `DeleteNquads` returns the
  (uid, predicate) pairs that would become `uid predicate *` deletions, not
  their N-Quad text.
- The overwrite map is a Dafny `map`. Python's insertion order of its keys,
  and the order `list(set(...))` yields, are not modelled. `DeleteNquads`
  picks the order freely and its contract states the set of pairs.
- `SanitizerSteps.OtherNames` uses one fixed order, because Python set order
  is unspecified. Its contracts state only which names appear and that each
  appears once.
- Coordinates are floats in the source (`GeoScalar('Point', [lon, lat])`).
  The point is an opaque value supplied by the geocoder parameter.
- A geocoder answer without `address` or `namedetails` would raise KeyError.
  The geocoder is modelled as a record, so that error is not modelled.
- `SanitizerSteps.WikidataId` parses only plain decimal digits. Python's
  `int()` also accepts signs, surrounding whitespace and underscores.
- `strip()` and `lower()` are modelled for ASCII. Unicode whitespace and case
  mapping are not.
- The clock is one value `now` per submission. The source reads it separately
  for each stamp.
- The random tokens are parameters. The same 4-character token serves both
  unique-name calls of one submission.
- `str(UID)` is taken to be the uid text, when comparing a unique-name owner
  with the entry being edited.
- Python compares dicts regardless of key order. The model's `==` on `Dict`
  is order-sensitive. This matters only to `entry == self.entry` in
  `_add_entry_meta`, where the sanitizer passes its own entry.
- `allow_new` only prints a message in the source. The model ignores it.
- The values of `USER_ROLES` are assumed (see above).
- `edit` refuses when the user is below Reviewer or is the user who added
  the entry (sanitizer.py:78); the model does the same.
- `_resolve_subunit` is modelled as a method of the class. As in the
  sanitizer file, no modelled step calls it; the field validators that use
  it are not part of this model.
- `entry_fields` and `organization_fields` are not part of this model. The
  field list is a parameter.
- `languages_pretty` in `get_source` looks languages up in `icu_codes`, which
  is not part of this model. The step is left out.
- The query text of `get_source` and `get_paper` is not modelled. Their row
  reshaping is.
- Iterating over a set is not modelled (`Iter` does not accept sets).
  Lists and dicts inside query text render as the empty string.
- `restore_sequence`, `Schema.get_type` and `dateparser.parse` are parameters.
- `get_rejected` returns False and `get_entry` returns None; both are
  modelled as `None` of an `Option`.
- For `get_rejected`, the model proves only that the query's braces balance.
- `list_by_type` in the view computes `normalize` but never uses it (it
  appends an empty string). The model computes it the same way and uses it
  for nothing.
- `Dgraph.FieldNames`: stated only for the case where the fields are a list
  of strings. Other iterables follow Python's `" ".join`, and the model
  states nothing about them.
- The schema registry records only the attributes listed in `Model.Attr`.
  The other predicates of each class (a source's `channel`, a paper's
  `authors`, `title` and `published_date`, an organization's `owns`, and so
  on) are not recorded, so `Model.Lookup` says nothing about them.
- `slugify` is a parameter on strings. Its transliteration is not modelled;
  only its TypeError on a value that is not a string is.
- The rest of `dgraph.py` (users, posts, archives, organizations, channels,
  countries, orphans) is not part of this model.

/**
 * The detail and listing queries of the inventory's view layer
 * (flaskinventory/view/dgraph.py): `get_entry`, `get_rejected` and the
 * view's own `list_by_type`. The database is an oracle from query text to
 * the rows of the query's single block, `Schema.get_type` and
 * `restore_sequence` are oracles too.
 *
 * The detail queries are kept as token sequences: words of text and the
 * curly braces between them, so that the nesting of the query can be
 * counted. `Text` renders the tokens to the string that is sent.
 */
module View {
  import opened Values
  import Dgraph

  // ---------------------------------------------------------------------------
  // Query text as tokens
  // ---------------------------------------------------------------------------

  datatype Tok = Word(s: string) | Open | Close

  function Text(ts: seq<Tok>): string
  {
    if ts == [] then ""
    else (match ts[0] case Word(s) => s case Open => "{" case Close => "}") + Text(ts[1..])
  }

  function Step(t: Tok): int
  {
    if t.Open? then 1 else if t.Close? then -1 else 0
  }

  /** Opened minus closed braces. */
  function Depth(ts: seq<Tok>): int
  {
    if ts == [] then 0 else Step(ts[0]) + Depth(ts[1..])
  }

  lemma {:induction false} DepthAppend(a: seq<Tok>, b: seq<Tok>)
    ensures Depth(a + b) == Depth(a) + Depth(b)
  {
    if a == [] {
      assert a + b == b;
    } else {
      assert (a + b)[1..] == a[1..] + b;
      DepthAppend(a[1..], b);
    }
  }

  lemma {:induction false} TextAppend(a: seq<Tok>, b: seq<Tok>)
    ensures Text(a + b) == Text(a) + Text(b)
  {
    if a == [] {
      assert a + b == b;
    } else {
      assert (a + b)[1..] == a[1..] + b;
      TextAppend(a[1..], b);
    }
  }

  /** The lines of a query, run together. */
  function Flat(lines: seq<seq<Tok>>): seq<Tok>
  {
    if lines == [] then [] else lines[0] + Flat(lines[1..])
  }

  function LinesDepth(lines: seq<seq<Tok>>): int
  {
    if lines == [] then 0 else Depth(lines[0]) + LinesDepth(lines[1..])
  }

  lemma {:induction false} DepthFlat(lines: seq<seq<Tok>>)
    ensures Depth(Flat(lines)) == LinesDepth(lines)
  {
    if lines != [] {
      DepthFlat(lines[1..]);
      DepthAppend(lines[0], Flat(lines[1..]));
    }
  }

  /** A brace followed by a word opens one brace and reads as the brace then the word. */
  lemma OpenWord(w: string)
    ensures Depth([Open, Word(w)]) == 1
    ensures Text([Open, Word(w)]) == "{" + w
  {
    assert [Open, Word(w)][1..] == [Word(w)];
    assert [Word(w)][1..] == [];
    assert Depth([Word(w)]) == 0;
    assert Text([Word(w)]) == w + "" == w;
  }

  // ---------------------------------------------------------------------------
  // get_entry
  // ---------------------------------------------------------------------------

  /** The query function: by unique name when one is given, else by uid, else none. */
  function EntryFunc(uniqueName: Value, uid: Value): Option<seq<Tok>>
  {
    if Truthy(uniqueName) then Some([Open, Word(" entry(func: eq(unique_name, \"" + Str(uniqueName) + "\"))")])
    else if Truthy(uid) then Some([Open, Word(" entry(func: uid(" + Str(uid) + "))")])
    else None
  }

  /**
   * The type filter and the type the branch below compares: a given type
   * must be a string and is canonicalised by `getType`; without one the
   * filter asks for any typed node and the type stays as it was.
   */
  function TypeFilter(dgraphType: Value, getType: string -> Value): Result<(Value, Tok)>
  {
    if Truthy(dgraphType) then
      if !dgraphType.StrV? then Err(AssertionError)
      else
        var t := getType(dgraphType.s);
        Ok((t, Word("@filter(type(" + Str(t) + "))")))
    else Ok((dgraphType, Word("@filter(has(dgraph.type))")))
  }

  /** The projection every detail query starts with; it leaves one brace open. */
  const EntryFields: seq<Tok> :=
    [Open, Word(" uid dgraph.type expand(_all_) "),
     Open, Word(" uid unique_name name entry_review_status user_displayname authors @facets title channel "),
     Open, Word(" name unique_name "), Close, Word(" "), Close]

  // The type-specific reverse edges and counts of the detail query, line by line.

  /** The `Source` branch, flaskinventory/view/dgraph.py:29-33. */
  const SourceLines: seq<seq<Tok>> :=
    [[Word("published_by: ~publishes @facets @filter(type(\"Organization\")) "), Open, Word(" name unique_name uid "), Close, Word(" \n")],
     [Word("                            archives: ~sources_included @facets @filter(type(\"Archive\")) "), Open, Word(" name unique_name uid "), Close, Word(" \n")],
     [Word("                            datasets: ~sources_included @facets @filter(type(\"Dataset\")) "), Open, Word(" name unique_name uid "), Close, Word("\n")],
     [Word("                            papers: ~sources_included @facets @filter(type(\"ResearchPaper\")) "), Open, Word(" uid title published_date authors @facets "), Close, Word(" \n")],
     [Word("                        "), Close, Word(" "), Close]]

  /** The `Organization` branch, flaskinventory/view/dgraph.py:36. */
  const OrganizationLines: seq<seq<Tok>> :=
    [[Word("owned_by: ~owns @filter(type(Organization)) "), Open, Word(" uid name unique_name "), Close, Word(" "), Close, Word(" "), Close]]

  /** The `Channel` branch, flaskinventory/view/dgraph.py:39. */
  const ChannelLines: seq<seq<Tok>> :=
    [[Word("num_sources: count(~channel) "), Close, Word(" "), Close]]

  /** The `Archive` branch, flaskinventory/view/dgraph.py:42. */
  const ArchiveLines: seq<seq<Tok>> :=
    [[Word("num_sources: count(sources_included) "), Close, Word(" "), Close]]

  /** The `Dataset` branch, flaskinventory/view/dgraph.py:45-47. */
  const DatasetLines: seq<seq<Tok>> :=
    [[Word("\n")],
     [Word("                        num_sources: count(sources_included) "), Close, Word(" "), Close, Word("\n")],
     [Word("                        ")]]

  /** The `Corpus` branch, flaskinventory/view/dgraph.py:50-54. */
  const CorpusLines: seq<seq<Tok>> :=
    [[Word("\n")],
     [Word("                        num_sources: count(sources_included) \n")],
     [Word("                        papers: ~corpus_used @facets @filter(type(\"ResearchPaper\")) "), Open, Word(" uid title published_date name authors @facets "), Close, Word(" \n")],
     [Word("                        "), Close, Word(" "), Close, Word("\n")],
     [Word("                        ")]]

  /** The `Country` branch, flaskinventory/view/dgraph.py:57-60. */
  const CountryLines: seq<seq<Tok>> :=
    [[Word("\n")],
     [Word("                        num_sources: count(~country @filter(type(\"Source\")))  \n")],
     [Word("                        num_orgs: count(~country @filter(type(\"Organization\"))) "), Close, Word(" "), Close, Word("\n")],
     [Word("                        ")]]

  /** The `Multinational` branch, flaskinventory/view/dgraph.py:63-65. */
  const MultinationalLines: seq<seq<Tok>> :=
    [[Word("\n")],
     [Word("                        num_sources: count(~country @filter(type(\"Source\"))) "), Close, Word(" "), Close, Word("\n")],
     [Word("                        ")]]

  /** The `Subunit` branch, flaskinventory/view/dgraph.py:68-70. */
  const SubunitLines: seq<seq<Tok>> :=
    [[Word("\n")],
     [Word("                        num_sources: count(~geographic_scope_subunit @filter(type(\"Source\"))) "), Close, Word(" "), Close, Word("\n")],
     [Word("                        ")]]

  /** The `Operation` branch, flaskinventory/view/dgraph.py:73-75. */
  const OperationLines: seq<seq<Tok>> :=
    [[Word("\n")],
     [Word("                        tools: ~used_for @filter(type(\"Tool\")) "), Open, Word(" uid name unique_name authors @facets published_date programming_languages platform "), Close, Word(" "), Close, Word(" "), Close, Word("\n")],
     [Word("                        ")]]

  /** The `FileFormat` branch, flaskinventory/view/dgraph.py:78-83. */
  const FileFormatLines: seq<seq<Tok>> :=
    [[Word("\n")],
     [Word("                        tools_input: ~input_file_format @filter(type(\"Tool\")) "), Open, Word(" uid name unique_name authors @facets published_date programming_languages platform "), Close, Word(" \n")],
     [Word("                        tools_output: ~output_file_format @filter(type(\"Tool\")) "), Open, Word(" uid name unique_name authors @facets published_date programming_languages platform "), Close, Word("\n")],
     [Word("                        datasets: ~file_format @filter(type(\"Dataset\"))  "), Open, Word(" uid name unique_name authors @facets published_date "), Close, Word("\n")],
     [Word("                        "), Close, Word(" "), Close, Word("\n")],
     [Word("                        ")]]

  /** The `MetaVar` branch, flaskinventory/view/dgraph.py:86-90. */
  const MetaVarLines: seq<seq<Tok>> :=
    [[Word("\n")],
     [Word("                        datasets: ~meta_vars @filter(type(\"Dataset\"))  "), Open, Word(" uid name unique_name authors @facets published_date "), Close, Word("\n")],
     [Word("                        corpus: ~meta_vars @filter(type(\"Corpus\"))  "), Open, Word(" uid name unique_name authors @facets published_date "), Close, Word("\n")],
     [Word("                        "), Close, Word(" "), Close, Word("\n")],
     [Word("                        ")]]

  /** The `ConceptVar` branch, flaskinventory/view/dgraph.py:93-97. */
  const ConceptVarLines: seq<seq<Tok>> :=
    [[Word("\n")],
     [Word("                        datasets: ~concept_vars @filter(type(\"Dataset\"))  "), Open, Word(" uid name unique_name authors @facets published_date "), Close, Word("\n")],
     [Word("                        corpus: ~concept_vars @filter(type(\"Corpus\"))  "), Open, Word(" uid name unique_name authors @facets published_date "), Close, Word("\n")],
     [Word("                        "), Close, Word(" "), Close, Word("\n")],
     [Word("                        ")]]

  /** The `TextUnit` branch, flaskinventory/view/dgraph.py:100-103. */
  const TextUnitLines: seq<seq<Tok>> :=
    [[Word("\n")],
     [Word("                        corpus: ~text_units @filter(type(\"Corpus\"))  "), Open, Word(" uid name unique_name authors @facets published_date "), Close, Word("\n")],
     [Word("                        "), Close, Word(" "), Close, Word("\n")],
     [Word("                        ")]]

  /** The default branch, flaskinventory/view/dgraph.py:105. */
  const OtherLines: seq<seq<Tok>> :=
    [[Close, Word(" "), Close]]

  /** The lines of the branch chosen by the (canonical) type. */
  function TypeLines(t: Value): seq<seq<Tok>>
  {
    if t == StrV("Source") then SourceLines
    else if t == StrV("Organization") then OrganizationLines
    else if t == StrV("Channel") then ChannelLines
    else if t == StrV("Archive") then ArchiveLines
    else if t == StrV("Dataset") then DatasetLines
    else if t == StrV("Corpus") then CorpusLines
    else if t == StrV("Country") then CountryLines
    else if t == StrV("Multinational") then MultinationalLines
    else if t == StrV("Subunit") then SubunitLines
    else if t == StrV("Operation") then OperationLines
    else if t == StrV("FileFormat") then FileFormatLines
    else if t == StrV("MetaVar") then MetaVarLines
    else if t == StrV("ConceptVar") then ConceptVarLines
    else if t == StrV("TextUnit") then TextUnitLines
    else OtherLines
  }

  /** The detail query, or None when neither a unique name nor a uid is given. */
  function EntryQuery(uniqueName: Value, uid: Value, dgraphType: Value, getType: string -> Value): Result<Option<seq<Tok>>>
  {
    match EntryFunc(uniqueName, uid)
    case None => Ok(None)
    case Some(func) =>
      var (t, filter) :- TypeFilter(dgraphType, getType);
      Ok(Some(func + [filter] + EntryFields + Flat(TypeLines(t))))
  }

  /**
   * `get_entry`: the first row of the detail query after `restore`, or None
   * when no id was given or nothing matched.
   */
  function GetEntry(uniqueName: Value, uid: Value, dgraphType: Value, getType: string -> Value,
                    db: string -> seq<Dict>, restore: Dict -> Dict): (r: Result<Option<Dict>>)
    ensures !Truthy(uniqueName) && !Truthy(uid) ==> r == Ok(None)
    ensures r.Err? <==> (Truthy(uniqueName) || Truthy(uid)) && Truthy(dgraphType) && !dgraphType.StrV?
    ensures r.Err? ==> r.error == AssertionError
  {
    var query :- EntryQuery(uniqueName, uid, dgraphType, getType);
    match query
    case None => Ok(None)
    case Some(ts) =>
      var rows := db(Text(ts));
      if |rows| == 0 then Ok(None) else Ok(Some(restore(rows[0])))
  }

  /** With a unique name the uid is never consulted. */
  lemma UniqueNameFirst(uniqueName: Value, uid1: Value, uid2: Value, dgraphType: Value, getType: string -> Value,
                        db: string -> seq<Dict>, restore: Dict -> Dict)
    requires Truthy(uniqueName)
    ensures GetEntry(uniqueName, uid1, dgraphType, getType, db, restore)
         == GetEntry(uniqueName, uid2, dgraphType, getType, db, restore)
    ensures EntryQuery(uniqueName, uid1, dgraphType, getType).Ok? ==>
              var q := EntryQuery(uniqueName, uid1, dgraphType, getType).value;
              q.Some? && q.value[..2] == [Open, Word(" entry(func: eq(unique_name, \"" + Str(uniqueName) + "\"))")]
  {
  }

  /** Without a unique name the uid selects the node. */
  lemma UidSecond(uid: Value, dgraphType: Value, getType: string -> Value)
    requires Truthy(uid)
    ensures EntryQuery(NoneV, uid, dgraphType, getType).Ok? ==>
              var q := EntryQuery(NoneV, uid, dgraphType, getType).value;
              q.Some? && q.value[..2] == [Open, Word(" entry(func: uid(" + Str(uid) + "))")]
  {
  }

  /** The filter follows the function: a type test with a type, `has(dgraph.type)` without one. */
  lemma EntryTypeFilter(uniqueName: Value, uid: Value, dgraphType: Value, getType: string -> Value)
    requires EntryQuery(uniqueName, uid, dgraphType, getType).Ok?
    requires EntryQuery(uniqueName, uid, dgraphType, getType).value.Some?
    ensures var ts := EntryQuery(uniqueName, uid, dgraphType, getType).value.value;
            |ts| > 2 &&
            ts[2] == if Truthy(dgraphType) then Word("@filter(type(" + Str(getType(dgraphType.s)) + "))")
                     else Word("@filter(has(dgraph.type))")
  {
  }

  lemma SourceCloses()
    ensures Depth(Flat(SourceLines)) == -2
  {
    DepthFlat(SourceLines);
  }

  lemma OrganizationCloses()
    ensures Depth(Flat(OrganizationLines)) == -2
  {
    DepthFlat(OrganizationLines);
  }

  lemma ChannelCloses()
    ensures Depth(Flat(ChannelLines)) == -2
  {
    DepthFlat(ChannelLines);
  }

  lemma ArchiveCloses()
    ensures Depth(Flat(ArchiveLines)) == -2
  {
    DepthFlat(ArchiveLines);
  }

  lemma DatasetCloses()
    ensures Depth(Flat(DatasetLines)) == -2
  {
    DepthFlat(DatasetLines);
  }

  lemma CorpusCloses()
    ensures Depth(Flat(CorpusLines)) == -2
  {
    DepthFlat(CorpusLines);
  }

  lemma CountryCloses()
    ensures Depth(Flat(CountryLines)) == -2
  {
    DepthFlat(CountryLines);
  }

  lemma MultinationalCloses()
    ensures Depth(Flat(MultinationalLines)) == -2
  {
    DepthFlat(MultinationalLines);
  }

  lemma SubunitCloses()
    ensures Depth(Flat(SubunitLines)) == -2
  {
    DepthFlat(SubunitLines);
  }

  lemma OperationCloses()
    ensures Depth(Flat(OperationLines)) == -2
  {
    DepthFlat(OperationLines);
  }

  lemma FileFormatCloses()
    ensures Depth(Flat(FileFormatLines)) == -2
  {
    DepthFlat(FileFormatLines);
  }

  lemma MetaVarCloses()
    ensures Depth(Flat(MetaVarLines)) == -2
  {
    DepthFlat(MetaVarLines);
  }

  lemma ConceptVarCloses()
    ensures Depth(Flat(ConceptVarLines)) == -2
  {
    DepthFlat(ConceptVarLines);
  }

  lemma TextUnitCloses()
    ensures Depth(Flat(TextUnitLines)) == -2
  {
    DepthFlat(TextUnitLines);
  }

  lemma OtherCloses()
    ensures Depth(Flat(OtherLines)) == -2
  {
    DepthFlat(OtherLines);
  }


  /** The base projection opens three braces and closes two. */
  lemma BaseLeavesOpen()
    ensures Depth(EntryFields) == 1
  {
  }

  /** Whatever the type, the branch closes the brace the base projection leaves open and the query's own. */
  lemma BranchCloses(t: Value)
    ensures Depth(Flat(TypeLines(t))) == -2
  {
    if t == StrV("Source") {
      SourceCloses();
    }     else if t == StrV("Organization") {
      OrganizationCloses();
    }     else if t == StrV("Channel") {
      ChannelCloses();
    }     else if t == StrV("Archive") {
      ArchiveCloses();
    }     else if t == StrV("Dataset") {
      DatasetCloses();
    }     else if t == StrV("Corpus") {
      CorpusCloses();
    }     else if t == StrV("Country") {
      CountryCloses();
    }     else if t == StrV("Multinational") {
      MultinationalCloses();
    }     else if t == StrV("Subunit") {
      SubunitCloses();
    }     else if t == StrV("Operation") {
      OperationCloses();
    }     else if t == StrV("FileFormat") {
      FileFormatCloses();
    }     else if t == StrV("MetaVar") {
      MetaVarCloses();
    }     else if t == StrV("ConceptVar") {
      ConceptVarCloses();
    }     else if t == StrV("TextUnit") {
      TextUnitCloses();
    } else {
      OtherCloses();
    }
  }

  /** Hence every detail query that is sent is balanced. */
  lemma EntryQueryBalanced(uniqueName: Value, uid: Value, dgraphType: Value, getType: string -> Value)
    requires EntryQuery(uniqueName, uid, dgraphType, getType).Ok?
    requires EntryQuery(uniqueName, uid, dgraphType, getType).value.Some?
    ensures Depth(EntryQuery(uniqueName, uid, dgraphType, getType).value.value) == 0
  {
    var func := EntryFunc(uniqueName, uid).value;
    var (t, filter) := TypeFilter(dgraphType, getType).value;
    OpenWord(func[1].s);
    assert func == [Open, Word(func[1].s)];
    assert Depth([filter]) == 0;
    BaseLeavesOpen();
    BranchCloses(t);
    DepthAppend(func, [filter]);
    DepthAppend(func + [filter], EntryFields);
    DepthAppend(func + [filter] + EntryFields, Flat(TypeLines(t)));
  }

  /** The result is the first matching row, restored, or None when no row matched. */
  lemma GetEntryResult(uniqueName: Value, uid: Value, dgraphType: Value, getType: string -> Value,
                       db: string -> seq<Dict>, restore: Dict -> Dict)
    requires EntryQuery(uniqueName, uid, dgraphType, getType).Ok?
    requires EntryQuery(uniqueName, uid, dgraphType, getType).value.Some?
    ensures var rows := db(Text(EntryQuery(uniqueName, uid, dgraphType, getType).value.value));
            GetEntry(uniqueName, uid, dgraphType, getType, db, restore)
            == Ok(if rows == [] then None else Some(restore(rows[0])))
  {
  }

  // ---------------------------------------------------------------------------
  // get_rejected
  // ---------------------------------------------------------------------------

  /** The query for one rejected entry: its uid, then the audit fields. */
  function RejectedQuery(uid: Value): seq<Tok>
  {
    [Open, Word(" q(func: uid(" + Str(uid) + ")) @filter(type(Rejected)) \n")] + Flat(RejectedFields)
  }

  /** The projection of a rejected entry, flaskinventory/view/dgraph.py:123-127. */
  const RejectedFields: seq<seq<Tok>> :=
    [[Word("                        "), Open, Word(" uid name unique_name other_names \n")],
     [Word("                            creation_date entry_added "), Open, Word(" uid user_displayname "), Close, Word(" \n")],
     [Word("                            entry_notes entry_review_status reviewed_by "), Open, Word(" uid user_displayname "), Close, Word("\n")],
     [Word("                        "), Close, Word("\n")],
     [Word("                        "), Close]]

  /** `get_rejected`: the first row, or None where the source returns `False`. */
  function GetRejected(uid: Value, db: string -> seq<Dict>): (r: Option<Dict>)
    ensures r.None? <==> db(Text(RejectedQuery(uid))) == []
    ensures r.Some? ==> r.value == db(Text(RejectedQuery(uid)))[0]
  {
    var rows := db(Text(RejectedQuery(uid)));
    if |rows| > 0 then Some(rows[0]) else None
  }

  /** The projection closes its own brace and the query's. */
  lemma RejectedFieldsClose()
    ensures Depth(Flat(RejectedFields)) == -1
  {
    DepthFlat(RejectedFields);
  }

  /** The query for a rejected entry is balanced. */
  lemma RejectedQueryBalanced(uid: Value)
    ensures Depth(RejectedQuery(uid)) == 0
  {
    var w := " q(func: uid(" + Str(uid) + ")) @filter(type(Rejected)) \n";
    OpenWord(w);
    RejectedFieldsClose();
    DepthAppend([Open, Word(w)], Flat(RejectedFields));
  }

  // ---------------------------------------------------------------------------
  // list_by_type (view)
  // ---------------------------------------------------------------------------

  /** The head: every listing is ordered by name; a truthy `filt` adds its filter. */
  function ListHead(typename: string, filt: Value): Result<string>
  {
    var head := "{ q(func: type(\"" + typename + "\"), orderasc: name) ";
    if Truthy(filt) then
      var f :- Dgraph.BuildFiltString(filt, "AND");
      Ok(head + f)
    else Ok(head)
  }

  const SourceDefault: string :=
    " uid unique_name name founded other_names\n                                channel { name }\n                                "
  const OrganizationDefault: string :=
    " uid unique_name name founded other_names\n                                publishes: count(publishes)\n                                owns: count(owns)\n                                "
  const CollectionDefault: string :=
    " uid unique_name name access other_names\n                                sources_included: count(sources_included)\n                                "
  const PaperDefault: string :=
    " uid title authors @facets published_date journal\n                                sources_included: count(sources_included)\n                                "
  const SubunitDefault: string :=
    " uid name unique_name other_names "
  const ToolDefault: string :=
    " uid name authors @facets published_date journal\n                                "

  /**
   * The projection and the `normalize` flag when no fields are named: the
   * flag is switched on, then each of the six tests that matches overwrites
   * the projection (and switches the flag off for papers, subunits and
   * tools). A type no test matches keeps the empty projection.
   */
  function DefaultChoice(typename: string): (string, bool)
  {
    var c0 := ("", true);
    var c1 := if typename == "Source" then (SourceDefault, c0.1) else c0;
    var c2 := if typename == "Organization" then (OrganizationDefault, c1.1) else c1;
    var c3 := if typename in ["Archive", "Dataset"] then (CollectionDefault, c2.1) else c2;
    var c4 := if typename == "ResearchPaper" then (PaperDefault, false) else c3;
    var c5 := if typename == "Subunit" then (SubunitDefault, false) else c4;
    if typename == "Tool" then (ToolDefault, false) else c5
  }

  /** The projection: `'all'` expands every predicate, other truthy fields are joined with spaces. */
  function ListFields(typename: string, fields: Value): Result<string>
  {
    if fields == StrV("all") then Ok(" expand(_all_) ")
    else if Truthy(fields) then
      var names :- Dgraph.FieldNames(fields);
      Ok(Join(names, " "))
    else Ok(DefaultChoice(typename).0)
  }

  /** The first `n` keys of `relation_filt`, concatenated in iteration order. */
  function KeyText(rel: Dict, n: nat): string
    requires n <= |rel|
  {
    if n == 0 then "" else KeyText(rel, n - 1) + rel[n - 1].0
  }

  /** What the loop over `relation_filt` adds to the head and to the relation part. */
  function CascadeParts(rel: Dict, build: Value -> Result<string>, fieldsNone: bool, n: nat): Result<(string, string)>
    requires n <= |rel|
  {
    var relation :- Dgraph.RelationClauses(rel, build, fieldsNone, n);
    Ok((KeyText(rel, n), relation))
  }

  /** The query the view's `list_by_type` sends. */
  function ListQuery(typename: string, filt: Value, relationFilt: Value, fields: Value): Result<Dgraph.ListQuery>
  {
    ListFrom(ListHead(typename, filt), ListFields(typename, fields), relationFilt, fields == NoneV)
  }

  /** The query once the head and the projection are chosen (or have failed). */
  function ListFrom(head: Result<string>, projection: Result<string>, relationFilt: Value, fieldsNone: bool): Result<Dgraph.ListQuery>
  {
    var h :- head;
    var p :- projection;
    if Truthy(relationFilt) then
      if !relationFilt.DictV? then Err(AttributeError)
      else
        var parts :- CascadeParts(relationFilt.d, Dgraph.AndFilter(), fieldsNone, |relationFilt.d|);
        Ok(Dgraph.ListQuery(h + " @cascade(" + parts.0 + ")", p, parts.1))
    else Ok(Dgraph.ListQuery(h, p + Dgraph.CountryProjection, ""))
  }

  /** The types whose rows get their sequences restored. */
  predicate Sequenced(typename: string)
  {
    typename in ["ResearchPaper", "Tool", "Corpus", "Dataset"]
  }

  /** The loop over `relation_filt`: each key joins the cascade list and adds its clause. */
  method CascadeText(rel: Dict, build: Value -> Result<string>, fieldsNone: bool) returns (r: Result<(string, string)>)
    ensures r == CascadeParts(rel, build, fieldsNone, |rel|)
  {
    var keys, relation := "", "";
    var i := 0;
    while i < |rel|
      invariant 0 <= i <= |rel|
      invariant keys == KeyText(rel, i)
      invariant Dgraph.RelationClauses(rel, build, fieldsNone, i) == Ok(relation)
    {
      keys := keys + rel[i].0;
      var f := build(rel[i].1);
      if f.Err? {
        Dgraph.RelationClausesErr(rel, build, fieldsNone, i + 1, |rel|);
        return Err(f.error);
      }
      relation := relation + Dgraph.RelationClause(rel[i].0, f.value, fieldsNone);
      i := i + 1;
    }
    r := Ok((keys, relation));
  }

  /** The projection of a projection step that did not raise. */
  function Projected(chosen: Result<(string, bool)>): Result<string>
  {
    var c :- chosen;
    Ok(c.0)
  }

  /** The projection step, with the `normalize` flag it leaves. */
  method ChooseFields(typename: string, fields: Value, normalize: bool) returns (r: Result<(string, bool)>)
    ensures Projected(r) == ListFields(typename, fields)
    ensures r.Ok? ==> (r.value.1 <==> if Truthy(fields) then normalize else DefaultChoice(typename).1)
  {
    if fields == StrV("all") {
      r := Ok((" expand(_all_) ", normalize));
    } else if Truthy(fields) {
      var names :- Dgraph.FieldNames(fields);
      r := Ok((Join(names, " "), normalize));
    } else {
      var projection, norm := DefaultFields(typename);
      r := Ok((projection, norm));
    }
  }

  /** The six tests of the no-fields case, in the order the source makes them. */
  method DefaultFields(typename: string) returns (projection: string, norm: bool)
    ensures (projection, norm) == DefaultChoice(typename)
  {
    projection, norm := "", true;
    if typename == "Source" {
      projection := SourceDefault;
    }
    if typename == "Organization" {
      projection := OrganizationDefault;
    }
    if typename in ["Archive", "Dataset"] {
      projection := CollectionDefault;
    }
    if typename == "ResearchPaper" {
      norm := false;
      projection := PaperDefault;
    }
    if typename == "Subunit" {
      norm := false;
      projection := SubunitDefault;
    }
    if typename == "Tool" {
      norm := false;
      projection := ToolDefault;
    }
  }

  /**
   * The statements of the view's `list_by_type` that assemble the query. The
   * `normalize` flag only ever appends the empty string, so the query does
   * not depend on it.
   */
  method BuildListQuery(typename: string, filt: Value, relationFilt: Value, fields: Value, normalize: bool)
    returns (r: Result<Dgraph.ListQuery>)
    ensures r == ListQuery(typename, filt, relationFilt, fields)
  {
    var head := ListHead(typename, filt);
    var chosen := ChooseFields(typename, fields, normalize);
    r := AssembleList(head, chosen, relationFilt, fields == NoneV);
  }

  /** The relation loop or the country projection, then the no-op `normalize` step. */
  method AssembleList(head: Result<string>, chosen: Result<(string, bool)>, relationFilt: Value, fieldsNone: bool)
    returns (r: Result<Dgraph.ListQuery>)
    ensures r == ListFrom(head, Projected(chosen), relationFilt, fieldsNone)
  {
    var head' :- head;
    var c :- chosen;
    var projection, norm, relation := c.0, c.1, "";
    if Truthy(relationFilt) {
      if !relationFilt.DictV? {
        return Err(AttributeError);
      }
      var parts :- CascadeText(relationFilt.d, Dgraph.AndFilter(), fieldsNone);
      head' := head' + " @cascade(" + parts.0 + ")";
      relation := parts.1;
    } else {
      projection := projection + Dgraph.CountryProjection;
    }
    if norm {
      head' := head' + "";
      assert head'[..|head'|] == head';
    }
    r := Ok(Dgraph.ListQuery(head', projection, relation));
  }

  /** `restore_sequence` applied to every row, in place in the source. */
  method RestoreEach(rows: seq<Dict>, restore: Dict -> Dict) returns (out: seq<Dict>)
    ensures |out| == |rows|
    ensures forall i :: 0 <= i < |rows| ==> out[i] == restore(rows[i])
  {
    out := rows;
    var i := 0;
    while i < |rows|
      invariant 0 <= i <= |rows| && |out| == |rows|
      invariant forall j :: 0 <= j < i ==> out[j] == restore(rows[j])
      invariant forall j :: i <= j < |rows| ==> out[j] == rows[j]
    {
      out := out[i := restore(out[i])];
      i := i + 1;
    }
  }

  /**
   * The view's `list_by_type`: `False` (NoRows) when nothing matched, else the
   * rows, each restored when the type carries ordered sequences.
   */
  method ListByType(typename: string, filt: Value, relationFilt: Value, fields: Value, normalize: bool,
                    db: string -> seq<Dict>, restore: Dict -> Dict) returns (r: Result<Dgraph.Listing>)
    ensures r.Ok? <==> ListQuery(typename, filt, relationFilt, fields).Ok?
    ensures r.Err? ==> r.error == ListQuery(typename, filt, relationFilt, fields).error
    ensures r.Ok? ==>
              var rows := db(Dgraph.Render(ListQuery(typename, filt, relationFilt, fields).value));
              (r.value.NoRows? <==> rows == []) &&
              (r.value.Rows? ==> |r.value.rows| == |rows| &&
                                 forall i :: 0 <= i < |rows| ==>
                                   r.value.rows[i] == if Sequenced(typename) then restore(rows[i]) else rows[i])
  {
    var query :- BuildListQuery(typename, filt, relationFilt, fields, normalize);
    var rows := db(Dgraph.Render(query));
    if |rows| == 0 {
      return Ok(Dgraph.NoRows);
    }
    if Sequenced(typename) {
      rows := RestoreEach(rows, restore);
    }
    r := Ok(Dgraph.Rows(rows));
  }

  /** Every listing is ordered by name, with the filter right after the type function. */
  lemma ListOrderedByName(typename: string, filt: Value, relationFilt: Value, fields: Value)
    requires ListQuery(typename, filt, relationFilt, fields).Ok?
    ensures StartsWith(ListQuery(typename, filt, relationFilt, fields).value.head,
                       "{ q(func: type(\"" + typename + "\"), orderasc: name) ")
  {
  }

  /** `'all'` expands every predicate; a list of names is joined with single spaces. */
  lemma ListFieldsNamed(typename: string, fields: Value)
    ensures fields == StrV("all") ==> ListFields(typename, fields) == Ok(" expand(_all_) ")
    ensures fields.ListV? && fields.items != [] && (forall i :: 0 <= i < |fields.items| ==> fields.items[i].StrV?) ==>
              ListFields(typename, fields) == Ok(Join(seq(|fields.items|, i requires 0 <= i < |fields.items| => fields.items[i].s), " "))
  {
  }

  /** Unlike the graph layer's listing, a type without a default gets an empty projection. */
  lemma DefaultChoiceUnknown(typename: string)
    requires typename !in ["Source", "Organization", "Archive", "Dataset", "ResearchPaper", "Subunit", "Tool"]
    ensures DefaultChoice(typename) == ("", true)
  {
  }

  /** Normalization ends up off exactly for research papers, subunits and tools. */
  lemma DefaultChoiceNormalize(typename: string)
    ensures !DefaultChoice(typename).1 <==> typename in ["ResearchPaper", "Subunit", "Tool"]
  {
  }

  /** Archives and datasets share one projection, and every listed type gets its own text. */
  lemma DefaultChoiceKnown(typename: string)
    ensures typename == "Source" ==> DefaultChoice(typename).0 == SourceDefault
    ensures typename == "Organization" ==> DefaultChoice(typename).0 == OrganizationDefault
    ensures typename in ["Archive", "Dataset"] ==> DefaultChoice(typename).0 == CollectionDefault
    ensures typename == "ResearchPaper" ==> DefaultChoice(typename).0 == PaperDefault
    ensures typename == "Subunit" ==> DefaultChoice(typename).0 == SubunitDefault
    ensures typename == "Tool" ==> DefaultChoice(typename).0 == ToolDefault
  {
  }

  /** Without relation filters the country projection closes the fields. */
  lemma ListCountry(typename: string, filt: Value, relationFilt: Value, fields: Value)
    requires !Truthy(relationFilt)
    requires ListQuery(typename, filt, relationFilt, fields).Ok?
    ensures var q := ListQuery(typename, filt, relationFilt, fields).value;
            q.fields == ListFields(typename, fields).value + Dgraph.CountryProjection && q.relation == ""
  {
  }

  /**
   * With relation filters the head cascades over the filter keys in
   * iteration order and the country projection is left out.
   */
  lemma ListCascade(typename: string, filt: Value, relationFilt: Value, fields: Value)
    requires Truthy(relationFilt)
    requires ListQuery(typename, filt, relationFilt, fields).Ok?
    ensures relationFilt.DictV? && ListHead(typename, filt).Ok? && ListFields(typename, fields).Ok?
    ensures var q := ListQuery(typename, filt, relationFilt, fields).value;
            q.head == ListHead(typename, filt).value + " @cascade(" + KeyText(relationFilt.d, |relationFilt.d|) + ")" &&
            q.fields == ListFields(typename, fields).value
  {
  }

  /** The cascade list of two filter maps in a row is the two lists in a row. */
  lemma {:induction false} KeyTextAppend(a: Dict, b: Dict)
    ensures KeyText(a + b, |a + b|) == KeyText(a, |a|) + KeyText(b, |b|)
    decreases |b|
  {
    if b == [] {
      assert a + b == a;
    } else {
      var b' := b[..|b| - 1];
      assert (a + b)[..|a + b| - 1] == a + b';
      KeyTextPrefix(a + b, |a + b| - 1);
      KeyTextPrefix(b, |b| - 1);
      KeyTextAppend(a, b');
    }
  }

  /** The keys of a prefix are the keys of the prefix taken alone. */
  lemma {:induction false} KeyTextPrefix(rel: Dict, n: nat)
    requires n <= |rel|
    decreases n
    ensures KeyText(rel, n) == KeyText(rel[..n], n)
  {
    if n > 0 {
      KeyTextPrefix(rel, n - 1);
      KeyTextPrefix(rel[..n], n - 1);
      assert rel[..n][..n - 1] == rel[..n - 1];
    }
  }
}

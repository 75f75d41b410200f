/** The two list builders of apiHelper.js that the cache layer feeds: the
    database filter of loadDatabases and the de-duplicated table identifiers
    of createNavOptDbTablesJson. */
module TableLists {
  import opened JsValues

  const ImpalaBuiltins: string := "_impala_builtins"

  /** The databases loadDatabases keeps, in order: every name except the
      system database `_impala_builtins`, lower-cased. */
  function CleanDatabases(databases: seq<string>): seq<string>
  {
    if databases == [] then []
    else
      var last := databases[|databases| - 1];
      CleanDatabases(databases[..|databases| - 1]) + (if last != ImpalaBuiltins then [Lower(last)] else [])
  }

  /** A kept name is the lower-cased form of a listed name other than
      `_impala_builtins`, and every such name is kept. The filter looks at
      the name before lower-casing it. */
  lemma {:induction false} CleanDatabasesMembers(databases: seq<string>)
    ensures forall x :: x in CleanDatabases(databases) <==>
              exists d :: d in databases && d != ImpalaBuiltins && Lower(d) == x
    ensures forall x :: x in CleanDatabases(databases) ==> IsLower(x)
    ensures |CleanDatabases(databases)| <= |databases|
  {
    if databases != [] {
      var init := databases[..|databases| - 1];
      var last := databases[|databases| - 1];
      CleanDatabasesMembers(init);
      assert databases == init + [last];
      LowerIsLower(last);
      forall x | x in CleanDatabases(databases)
        ensures exists d :: d in databases && d != ImpalaBuiltins && Lower(d) == x
      {
        if x in CleanDatabases(init) {
          var d :| d in init && d != ImpalaBuiltins && Lower(d) == x;
          assert d in databases;
        } else {
          assert x == Lower(last);
        }
      }
    }
  }

  /** An upper-case spelling of the system database passes the filter. */
  lemma UpperCaseBuiltinsKept()
    ensures CleanDatabases(["_IMPALA_BUILTINS", "default"]) == ["_impala_builtins", "default"]
  {
    var names := ["_IMPALA_BUILTINS", "default"];
    assert names[..1][..0] == [] && names[..1] == ["_IMPALA_BUILTINS"];
    LowerIsLower("default");
    assert Lower("_IMPALA_BUILTINS") == "_impala_builtins";
  }

  /** The loop in loadDatabases' success callback: `data.databases || []`,
      filtered and lower-cased into a fresh array. */
  method CleanDatabaseList(databases: Option<seq<string>>) returns (clean: seq<string>)
    ensures clean == CleanDatabases(if databases.Some? then databases.value else [])
  {
    var names := if databases.Some? then databases.value else [];
    clean := [];
    for i := 0 to |names|
      invariant clean == CleanDatabases(names[..i])
    {
      assert names[..i + 1][..i] == names[..i];
      if names[i] != ImpalaBuiltins {
        clean := clean + [Lower(names[i])];
      }
    }
    assert names[..|names|] == names;
  }

  /** One element of an identifier chain; `name` is None where it is
      undefined or null. */
  datatype IdentifierPart = IdentifierPart(name: Option<string>)

  /** A table reference of a parsed statement. */
  datatype TableRef = TableRef(subQuery: bool, identifierChain: Option<seq<IdentifierPart>>)

  /** `$.map(chain, id => id.name)`: jQuery's map drops undefined and null
      results. */
  function Names(chain: seq<IdentifierPart>): (names: seq<string>)
    ensures forall x :: x in names <==> exists i :: 0 <= i < |chain| && chain[i].name == Some(x)
  {
    if chain == [] then []
    else (if chain[0].name.Some? then [chain[0].name.value] else []) + Names(chain[1..])
  }

  /** The identifier createNavOptDbTablesJson builds for a table: the first
      chain element is taken as the database when the chain is longer than
      one and its lower-cased name is a known database; otherwise the
      default database (when truthy) is put in front; the names are then
      joined with '.'. */
  function TableIdentifier(chain: seq<IdentifierPart>, databases: seq<string>, defaultDatabase: Option<string>): string
  {
    if |chain| > 1 && Present(chain[0].name) && Lower(chain[0].name.value) in databases then
      chain[0].name.value + "." + Join(Names(chain[1..]), ".")
    else if Present(defaultDatabase) then
      defaultDatabase.value + "." + Join(Names(chain), ".")
    else
      Join(Names(chain), ".")
  }

  /** Tables that are sub-queries or have no identifier chain are skipped. */
  predicate Eligible(t: TableRef)
  {
    !t.subQuery && t.identifierChain.Some?
  }

  /** The identifiers of the eligible tables, in order, before de-duplication. */
  function Identifiers(tables: seq<TableRef>, databases: seq<string>, defaultDatabase: Option<string>): seq<string>
  {
    if tables == [] then []
    else
      var last := tables[|tables| - 1];
      Identifiers(tables[..|tables| - 1], databases, defaultDatabase) +
        (if Eligible(last) then [TableIdentifier(last.identifierChain.value, databases, defaultDatabase)] else [])
  }

  /** The first occurrence of every element, in order of first occurrence. */
  function Dedup(s: seq<string>): seq<string>
  {
    if s == [] then []
    else
      var init := Dedup(s[..|s| - 1]);
      if s[|s| - 1] in init then init else init + [s[|s| - 1]]
  }

  predicate Distinct(s: seq<string>)
  {
    forall i, j :: 0 <= i < j < |s| ==> s[i] != s[j]
  }

  /** The index of the first occurrence of `x` in `s`. */
  function FirstIndex(s: seq<string>, x: string): (k: nat)
    requires x in s
    ensures k < |s| && s[k] == x && x !in s[..k]
  {
    if s[0] == x then 0
    else
      var k := 1 + FirstIndex(s[1..], x);
      assert s[..k] == [s[0]] + s[1..][..k - 1];
      k
  }

  /** The first occurrence of an element of a prefix lies in that prefix. */
  lemma FirstIndexOfPrefix(s: seq<string>, n: nat, x: string)
    requires n <= |s| && x in s[..n]
    ensures x in s && FirstIndex(s, x) == FirstIndex(s[..n], x)
  {
  }

  /** Dedup keeps exactly the elements of its input, each once, in order of
      first occurrence. */
  lemma {:induction false} DedupSpec(s: seq<string>)
    ensures Distinct(Dedup(s))
    ensures forall x :: x in Dedup(s) <==> x in s
    ensures forall i, j :: 0 <= i < j < |Dedup(s)| ==> FirstIndex(s, Dedup(s)[i]) < FirstIndex(s, Dedup(s)[j])
  {
    if s != [] {
      var init := s[..|s| - 1];
      var last := s[|s| - 1];
      var d := Dedup(init);
      DedupSpec(init);
      assert s == init + [last];
      forall x | x in init ensures FirstIndex(s, x) == FirstIndex(init, x) {
        FirstIndexOfPrefix(s, |s| - 1, x);
      }
      if last !in d {
        assert FirstIndex(s, last) == |s| - 1;
      }
    }
  }

  /** One more table adds its identifier when it is eligible. */
  lemma IdentifiersStep(tables: seq<TableRef>, i: nat, databases: seq<string>, defaultDatabase: Option<string>)
    requires i < |tables|
    ensures !Eligible(tables[i]) ==>
              Identifiers(tables[..i + 1], databases, defaultDatabase) == Identifiers(tables[..i], databases, defaultDatabase)
    ensures Eligible(tables[i]) ==>
              Identifiers(tables[..i + 1], databases, defaultDatabase) ==
              Identifiers(tables[..i], databases, defaultDatabase) +
              [TableIdentifier(tables[i].identifierChain.value, databases, defaultDatabase)]
  {
    assert tables[..i + 1][..i] == tables[..i];
    assert Identifiers(tables[..i], databases, defaultDatabase) + [] == Identifiers(tables[..i], databases, defaultDatabase);
  }

  /** One more element is kept exactly when it is new. */
  lemma DedupStep(s: seq<string>, x: string)
    ensures Dedup(s + [x]) == if x in Dedup(s) then Dedup(s) else Dedup(s) + [x]
  {
    assert (s + [x])[..|s|] == s;
  }

  /** `createNavOptDbTablesJson` once the known databases are in: the table
      identifiers, skipping ineligible tables and every identifier already
      pushed (tracked in `tableIndex`). The JSON serialisation of the result
      is not modelled. */
  method CreateNavOptDbTables(tables: seq<TableRef>, databases: seq<string>, defaultDatabase: Option<string>)
    returns (result: seq<string>)
    ensures result == Dedup(Identifiers(tables, databases, defaultDatabase))
  {
    result := [];
    var tableIndex: map<string, bool> := map[];
    for i := 0 to |tables|
      invariant result == Dedup(Identifiers(tables[..i], databases, defaultDatabase))
      invariant forall x :: x in tableIndex <==> x in result
      invariant forall x :: x in tableIndex ==> tableIndex[x]
    {
      IdentifiersStep(tables, i, databases, defaultDatabase);
      var table := tables[i];
      if table.subQuery || table.identifierChain.None? {
        continue;
      }
      var identifier := TableIdentifier(table.identifierChain.value, databases, defaultDatabase);
      DedupStep(Identifiers(tables[..i], databases, defaultDatabase), identifier);
      if !(identifier in tableIndex && tableIndex[identifier]) {
        result := result + [identifier];
        tableIndex := tableIndex[identifier := true];
      }
      assert result == Dedup(Identifiers(tables[..i], databases, defaultDatabase) + [identifier]);
    }
    assert tables[..|tables|] == tables;
  }

  /** The properties the de-duplication promises: no identifier twice,
      exactly the identifiers of the eligible tables, and in the order in
      which they first occur. */
  lemma NavOptTablesSpec(tables: seq<TableRef>, databases: seq<string>, defaultDatabase: Option<string>)
    ensures var ids := Identifiers(tables, databases, defaultDatabase);
            var r := Dedup(ids);
            && Distinct(r)
            && (forall x :: x in r <==> x in ids)
            && (forall i, j :: 0 <= i < j < |r| ==> FirstIndex(ids, r[i]) < FirstIndex(ids, r[j]))
  {
    DedupSpec(Identifiers(tables, databases, defaultDatabase));
  }

  /** An eligible table's identifier is among the results. */
  lemma {:induction false} EligibleTablesListed(tables: seq<TableRef>, databases: seq<string>,
                                                defaultDatabase: Option<string>, k: nat)
    requires k < |tables| && Eligible(tables[k])
    ensures TableIdentifier(tables[k].identifierChain.value, databases, defaultDatabase)
              in Identifiers(tables, databases, defaultDatabase)
  {
    var init := tables[..|tables| - 1];
    if k < |tables| - 1 {
      assert init[k] == tables[k];
      EligibleTablesListed(init, databases, defaultDatabase, k);
    }
  }

  /** The database prefix: a two-part chain whose first part is a known
      database keeps it as written; otherwise the default database is put in
      front of the whole chain. */
  lemma DatabasePrefix(db: string, table: string, databases: seq<string>, defaultDatabase: string)
    requires db != "" && defaultDatabase != ""
    ensures Lower(db) in databases ==>
              TableIdentifier([IdentifierPart(Some(db)), IdentifierPart(Some(table))], databases, Some(defaultDatabase))
              == db + "." + table
    ensures Lower(db) !in databases ==>
              TableIdentifier([IdentifierPart(Some(db)), IdentifierPart(Some(table))], databases, Some(defaultDatabase))
              == defaultDatabase + "." + db + "." + table
  {
    var chain := [IdentifierPart(Some(db)), IdentifierPart(Some(table))];
    assert Names(chain[1..]) == [table];
    assert Names(chain) == [db, table] by {
      assert chain[1..] == [IdentifierPart(Some(table))];
    }
    assert Join([db, table], ".") == db + "." + table by {
      assert [db, table][..1] == [db];
    }
  }
}

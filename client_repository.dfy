/**
 * The client queries: the multi-criteria search of the @Query predicate and
 * the derived queries, as functions of the client table (the stored rows in
 * the store's order).
 */
module ClientRepository {
  import opened Wrappers
  import opened Enums
  import opened Text
  import opened Seqs
  import opened Entities

  /** `:name IS NULL OR LOWER(c.name) LIKE LOWER(CONCAT('%', :name, '%'))`;
      a NULL column never satisfies LIKE. */
  predicate NameMatches(c: ClientData, name: Option<string>) {
    name.None? || (c.name.Some? && ContainsIgnoreCase(c.name.value, name.value))
  }

  /** The whole WHERE clause: each non-null criterion must hold. */
  predicate Matches(c: ClientData, name: Option<string>, clientType: Option<ClientType>, riskLevel: Option<RiskLevel>) {
    && NameMatches(c, name)
    && (clientType.None? || c.clientType == clientType)
    && (riskLevel.None? || c.riskLevel == riskLevel)
  }

  /** searchClients(name, clientType, riskLevel). */
  function SearchClients(table: seq<ClientData>, name: Option<string>, clientType: Option<ClientType>,
                         riskLevel: Option<RiskLevel>): (r: seq<ClientData>)
    requires name.Some? ==> NoLikeWildcards(name.value)
    ensures forall c :: c in r <==> c in table && Matches(c, name, clientType, riskLevel)
    ensures forall c :: multiset(r)[c] == if Matches(c, name, clientType, riskLevel) then multiset(table)[c] else 0
  {
    Filter(table, c => Matches(c, name, clientType, riskLevel))
  }

  /** With no criterion at all the search returns the whole table. */
  lemma SearchWithoutCriteria(table: seq<ClientData>)
    ensures SearchClients(table, None, None, None) == table
  {
    FilterAll(table, c => Matches(c, None, None, None));
  }

  /** The empty name is no constraint on clients that have a name. */
  lemma SearchEmptyName(table: seq<ClientData>, clientType: Option<ClientType>, riskLevel: Option<RiskLevel>)
    requires forall c :: c in table ==> c.name.Some?
    ensures SearchClients(table, Some(""), clientType, riskLevel) == SearchClients(table, None, clientType, riskLevel)
  {
    forall c | c in table
      ensures Matches(c, Some(""), clientType, riskLevel) == Matches(c, None, clientType, riskLevel)
    {
      ContainsEmpty(Lower(c.name.value));
    }
    FilterCongruent(table, c => Matches(c, Some(""), clientType, riskLevel), c => Matches(c, None, clientType, riskLevel));
  }

  /** The criteria combine by AND: searching with all three is searching
      the name-only result again with the type and the risk level. */
  lemma SearchIsConjunction(table: seq<ClientData>, name: Option<string>, clientType: Option<ClientType>,
                            riskLevel: Option<RiskLevel>)
    requires name.Some? ==> NoLikeWildcards(name.value)
    ensures SearchClients(table, name, clientType, riskLevel)
         == SearchClients(SearchClients(table, name, None, None), None, clientType, riskLevel)
  {
    SearchConjunctionStep(table, name, clientType, riskLevel);
  }

  lemma {:induction false} SearchConjunctionStep(table: seq<ClientData>, name: Option<string>,
                                                 clientType: Option<ClientType>, riskLevel: Option<RiskLevel>)
    requires name.Some? ==> NoLikeWildcards(name.value)
    ensures Filter(table, c => Matches(c, name, clientType, riskLevel))
         == Filter(Filter(table, c => Matches(c, name, None, None)), c => Matches(c, None, clientType, riskLevel))
  {
    if table != [] {
      SearchConjunctionStep(table[1..], name, clientType, riskLevel);
    }
  }

  /** The worked example: "abc" finds "ABC Corp" and "xabcx" but not "Other". */
  lemma SearchExample(a: ClientData, b: ClientData, o: ClientData)
    requires a.name == Some("ABC Corp") && b.name == Some("xabcx") && o.name == Some("Other")
    ensures NoLikeWildcards("abc")
    ensures var r := SearchClients([a, b, o], Some("abc"), None, None);
      a in r && b in r && o !in r
  {
    ExampleNeedle();
    ExampleMatchesPrefix();
    ExampleMatchesInside();
    ExampleMisses();
    var r := SearchClients([a, b, o], Some("abc"), None, None);
    assert Matches(a, Some("abc"), None, None) && Matches(b, Some("abc"), None, None);
    assert !Matches(o, Some("abc"), None, None);
  }

  lemma ExampleNeedle()
    ensures Lower("abc") == "abc" && NoLikeWildcards("abc")
  {
    assert "abc"[0] == 'a' && "abc"[1] == 'b' && "abc"[2] == 'c';
    LowerAt("abc", 0); LowerAt("abc", 1); LowerAt("abc", 2);
  }

  lemma ExampleMatchesPrefix()
    ensures ContainsIgnoreCase("ABC Corp", "abc")
  {
    ExampleNeedle();
    var l := Lower("ABC Corp");
    LowerAt("ABC Corp", 0); LowerAt("ABC Corp", 1); LowerAt("ABC Corp", 2);
    assert l[0..3] == "abc";
    assert OccursAt(l, "abc", 0);
    ContainsAt(l, "abc");
  }

  lemma ExampleMatchesInside()
    ensures ContainsIgnoreCase("xabcx", "abc")
  {
    ExampleNeedle();
    var l := Lower("xabcx");
    LowerAt("xabcx", 1); LowerAt("xabcx", 2); LowerAt("xabcx", 3);
    assert l[1..4] == "abc";
    assert OccursAt(l, "abc", 1);
    ContainsAt(l, "abc");
  }

  lemma ExampleMisses()
    ensures !ContainsIgnoreCase("Other", "abc")
  {
    ExampleNeedle();
    var l := Lower("Other");
    LowerAt("Other", 0); LowerAt("Other", 1); LowerAt("Other", 2);
    LowerAt("Other", 3); LowerAt("Other", 4);
    assert l == "other";
    ContainsAt(l, "abc");
    assert forall i :: !OccursAt(l, "abc", i);
  }

  /** findByClientType: derived equality query. */
  function FindByClientType(table: seq<ClientData>, clientType: ClientType): (r: seq<ClientData>)
    ensures forall c :: c in r <==> c in table && c.clientType == Some(clientType)
    ensures forall c :: multiset(r)[c] == (if c.clientType == Some(clientType) then multiset(table)[c] else 0)
  {
    Filter(table, (c: ClientData) => c.clientType == Some(clientType))
  }

  /** findByRiskLevel: derived equality query. */
  function FindByRiskLevel(table: seq<ClientData>, riskLevel: RiskLevel): (r: seq<ClientData>)
    ensures forall c :: c in r <==> c in table && c.riskLevel == Some(riskLevel)
    ensures forall c :: multiset(r)[c] == (if c.riskLevel == Some(riskLevel) then multiset(table)[c] else 0)
  {
    Filter(table, (c: ClientData) => c.riskLevel == Some(riskLevel))
  }

  /** The derived type query is the search restricted to that type. */
  lemma FindByClientTypeIsSearch(table: seq<ClientData>, clientType: ClientType)
    ensures FindByClientType(table, clientType) == SearchClients(table, None, Some(clientType), None)
  {
    FilterCongruent(table, (c: ClientData) => c.clientType == Some(clientType), c => Matches(c, None, Some(clientType), None));
  }

  /** The derived risk query is the search restricted to that level. */
  lemma FindByRiskLevelIsSearch(table: seq<ClientData>, riskLevel: RiskLevel)
    ensures FindByRiskLevel(table, riskLevel) == SearchClients(table, None, None, Some(riskLevel))
  {
    FilterCongruent(table, (c: ClientData) => c.riskLevel == Some(riskLevel), c => Matches(c, None, None, Some(riskLevel)));
  }

  predicate SortedByName(s: seq<ClientData>) {
    forall i, j :: 0 <= i < j < |s| ==> LexLeq(NameKey(s[i]), NameKey(s[j]))
  }

  function InsertByName(c: ClientData, s: seq<ClientData>): (r: seq<ClientData>)
    ensures multiset(r) == multiset(s) + multiset{c}
  {
    if s == [] || LexLeq(NameKey(c), NameKey(s[0])) then [c] + s
    else
      assert s == [s[0]] + s[1..];
      [s[0]] + InsertByName(c, s[1..])
  }

  /** Insertion sort: a stable ordering by name. */
  function SortByName(s: seq<ClientData>): (r: seq<ClientData>)
    ensures multiset(r) == multiset(s)
  {
    if s == [] then []
    else
      assert s == [s[0]] + s[1..];
      InsertByName(s[0], SortByName(s[1..]))
  }

  lemma {:induction false} InsertSorted(c: ClientData, s: seq<ClientData>)
    requires SortedByName(s)
    ensures SortedByName(InsertByName(c, s))
  {
    if s == [] {
    } else if LexLeq(NameKey(c), NameKey(s[0])) {
      forall j | 0 <= j < |s| ensures LexLeq(NameKey(c), NameKey(s[j])) {
        if j > 0 {
          LexLeqTransitive(NameKey(c), NameKey(s[0]), NameKey(s[j]));
        }
      }
      var r := [c] + s;
      forall i, j | 0 <= i < j < |r| ensures LexLeq(NameKey(r[i]), NameKey(r[j])) {
        if i > 0 {
          assert r[i] == s[i - 1] && r[j] == s[j - 1];
        } else {
          assert r[j] == s[j - 1];
        }
      }
    } else {
      LexLeqTotal(NameKey(c), NameKey(s[0]));
      var rest := InsertByName(c, s[1..]);
      InsertSorted(c, s[1..]);
      forall k | 0 <= k < |rest| ensures LexLeq(NameKey(s[0]), NameKey(rest[k])) {
        assert rest[k] in multiset(rest);
        if rest[k] != c {
          assert rest[k] in multiset(s[1..]);
          var j :| 0 <= j < |s[1..]| && s[1..][j] == rest[k];
          assert s[j + 1] == rest[k];
        }
      }
      var r := [s[0]] + rest;
      forall i, j | 0 <= i < j < |r| ensures LexLeq(NameKey(r[i]), NameKey(r[j])) {
        if i > 0 {
          assert r[i] == rest[i - 1] && r[j] == rest[j - 1];
        } else {
          assert r[j] == rest[j - 1];
        }
      }
    }
  }

  lemma {:induction false} SortSorted(s: seq<ClientData>)
    ensures SortedByName(SortByName(s))
  {
    if s != [] {
      SortSorted(s[1..]);
      InsertSorted(s[0], SortByName(s[1..]));
    }
  }

  /** findByRiskLevelOrderByNameAsc: exactly the clients at that level, each as
      often as in the table, ordered by name ascending. */
  function FindByRiskLevelOrderByNameAsc(table: seq<ClientData>, riskLevel: RiskLevel): (r: seq<ClientData>)
    ensures forall c :: c in r <==> c in table && c.riskLevel == Some(riskLevel)
    ensures forall c :: multiset(r)[c] == if c.riskLevel == Some(riskLevel) then multiset(table)[c] else 0
    ensures forall i, j :: 0 <= i < j < |r| ==> LexLeq(NameKey(r[i]), NameKey(r[j]))
  {
    var r := SortByName(Filter(table, (c: ClientData) => c.riskLevel == Some(riskLevel)));
    SortSorted(Filter(table, (c: ClientData) => c.riskLevel == Some(riskLevel)));
    assert forall c :: c in r <==> c in multiset(r);
    r
  }
}

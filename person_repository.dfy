/** The person queries, as functions of the person table. */
module PersonRepository {
  import opened Wrappers
  import opened Enums
  import opened Text
  import opened Seqs
  import opened Entities

  /** findByClientId: the persons whose client association has that id. */
  function FindByClientId(persons: seq<PersonData>, clientId: int): (r: seq<PersonData>)
    ensures forall p :: p in r <==> p in persons && p.clientId == Some(clientId)
    ensures forall p :: multiset(r)[p] == if p.clientId == Some(clientId) then multiset(persons)[p] else 0
  {
    Filter(persons, (p: PersonData) => p.clientId == Some(clientId))
  }

  /** findByRelationshipType: derived equality query. */
  function FindByRelationshipType(persons: seq<PersonData>, relationshipType: RelationshipType): (r: seq<PersonData>)
    ensures forall p :: p in r <==> p in persons && p.relationshipType == Some(relationshipType)
    ensures forall p :: multiset(r)[p] == (if p.relationshipType == Some(relationshipType) then multiset(persons)[p] else 0)
  {
    Filter(persons, (p: PersonData) => p.relationshipType == Some(relationshipType))
  }

  /** `LOWER(CONCAT(p.firstName, ' ', p.lastName)) LIKE LOWER(CONCAT('%', :fullName, '%'))`;
      CONCAT with a NULL name is NULL and matches nothing. */
  predicate FullNameMatches(p: PersonData, fullName: string) {
    p.firstName.Some? && p.lastName.Some? &&
    ContainsIgnoreCase(p.firstName.value + " " + p.lastName.value, fullName)
  }

  /** findByFullNameContaining: a null argument makes CONCAT('%', NULL, '%') NULL,
      so the LIKE holds for no row. */
  function FindByFullNameContaining(persons: seq<PersonData>, fullName: Option<string>): (r: seq<PersonData>)
    requires fullName.Some? ==> NoLikeWildcards(fullName.value)
    ensures fullName.None? ==> r == []
    ensures forall p :: p in r <==> p in persons && fullName.Some? && FullNameMatches(p, fullName.value)
    ensures forall p ::
      multiset(r)[p] == (if fullName.Some? && FullNameMatches(p, fullName.value) then multiset(persons)[p] else 0)
  {
    if fullName.None? then []
    else Filter(persons, (p: PersonData) => FullNameMatches(p, fullName.value))
  }

  /** For a person with both names, the queried concatenation is the entity's full name. */
  lemma FullNameMatchesFullName(p: PersonData, fullName: string)
    requires p.firstName.Some? && p.lastName.Some?
    ensures FullNameMatches(p, fullName) <==> ContainsIgnoreCase(FullName(p), fullName)
  {
  }

  /** Any person with both names is found by the first name alone and by the last name alone. */
  lemma FullNameFindsEachPart(p: PersonData)
    requires p.firstName.Some? && p.lastName.Some?
    ensures FullNameMatches(p, p.firstName.value)
    ensures FullNameMatches(p, p.lastName.value)
  {
    var first, last := p.firstName.value, p.lastName.value;
    var whole := first + " " + last;
    LowerAppend(first + " ", last);
    LowerAppend(first, " ");
    ContainsAt(Lower(whole), Lower(first));
    assert OccursAt(Lower(whole), Lower(first), 0);
    ContainsAt(Lower(whole), Lower(last));
    assert OccursAt(Lower(whole), Lower(last), |first| + 1);
  }

  predicate IsBeneficialOwner(p: PersonData) {
    p.relationshipType == Some(BENEFICIAL_OWNER)
  }

  /** `WHERE p.relationshipType = 'BENEFICIAL_OWNER'`. */
  function FindAllBeneficialOwners(persons: seq<PersonData>): (r: seq<PersonData>)
    ensures forall p :: p in r <==> p in persons && IsBeneficialOwner(p)
    ensures forall p :: multiset(r)[p] == if IsBeneficialOwner(p) then multiset(persons)[p] else 0
  {
    Filter(persons, IsBeneficialOwner)
  }

  /** The literal query returns the same persons, in the same order, as the derived one. */
  lemma BeneficialOwnersByType(persons: seq<PersonData>)
    ensures FindAllBeneficialOwners(persons) == FindByRelationshipType(persons, BENEFICIAL_OWNER)
  {
    FilterCongruent(persons, IsBeneficialOwner, (p: PersonData) => p.relationshipType == Some(BENEFICIAL_OWNER));
  }
}

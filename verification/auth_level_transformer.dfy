/**
  The query transformer of the auth-level security policy: every listing query is
  rewritten so that it only returns documents whose classification is NULL or is
  governed by the requesting principal's group.
*/
module AuthLevelTransformer {
  import opened Wrappers
  import opened Nxql
  import opened AuthLevelSecurityPolicy

  /** The principals that are never restricted. */
  predicate Bypasses(principal: Principal)
  {
    principal.name == "system" || principal.name == "Administrator"
  }

  /** The groups the transformer knows, highest priority first. */
  const PRIORITY: seq<string> := [PRINCIPAL_GROUP1, PRINCIPAL_GROUP2, PRINCIPAL_GROUP3]

  /**
    The first entry of `order` that is one of `groups`: the same first-match search as
    `FindRule` over the classification table, here over the priority order of groups.
  */
  function FirstMember(order: seq<string>, groups: set<string>): (r: Option<string>)
    ensures r.None? <==> forall i :: 0 <= i < |order| ==> order[i] !in groups
    ensures r.Some? ==> r.value in groups
    ensures r.Some? ==>
      exists i :: 0 <= i < |order| && order[i] == r.value &&
        forall j :: 0 <= j < i ==> order[j] !in groups
  {
    if |order| == 0 then None
    else if order[0] in groups then Some(order[0])
    else
      var r := FirstMember(order[1..], groups);
      assert forall i :: 1 <= i < |order| ==> order[i] == order[1..][i - 1];
      r
  }

  /** The priority order, unfolded: ACA-HO first, then ACA-FR, then ACA-CLNT. */
  lemma {:induction false} FirstMemberInPriority(groups: set<string>)
    ensures FirstMember(PRIORITY, groups) ==
      if PRINCIPAL_GROUP1 in groups then Some(PRINCIPAL_GROUP1)
      else if PRINCIPAL_GROUP2 in groups then Some(PRINCIPAL_GROUP2)
      else if PRINCIPAL_GROUP3 in groups then Some(PRINCIPAL_GROUP3)
      else None
  {
    assert PRIORITY[0] == PRINCIPAL_GROUP1 && PRIORITY[1] == PRINCIPAL_GROUP2 && PRIORITY[2] == PRINCIPAL_GROUP3;
  }

  /** The group whose documents a principal is shown, None when it is in none of them. */
  function GoverningGroup(principal: Principal): Option<string>
  {
    FirstMember(PRIORITY, principal.groups)
  }

  /**
    Whether a listing restricted to `group` may show the document: its classification
    is NULL, or the classification table gives it to `group`.
  */
  predicate VisibleTo(group: string, doc: Document)
  {
    match AuthLevel(doc)
    case None => true
    case Some(code) => FindRule(RULES, code).Some? && FindRule(RULES, code).value.group == group
  }

  /**
    The restriction predicate for a principal with these groups, chosen by the first
    group it is a member of in priority order; None when it is in none of them. It
    admits exactly the documents the classification table makes visible to that group.
  */
  function Restriction(groups: set<string>): (r: Option<Predicate>)
    ensures r.None? <==> FirstMember(PRIORITY, groups).None?
    ensures r.Some? ==>
      forall doc :: Eval(r.value, doc) <==> VisibleTo(FirstMember(PRIORITY, groups).value, doc)
  {
    var field := AUTH_LEVEL_FIELD;
    var r :=
      if PRINCIPAL_GROUP1 in groups then
        Some(Or(IsNull(field), In(field, [RIGHTS_DEFAULT, RIGHTS_GROUP1])))
      else if PRINCIPAL_GROUP2 in groups then
        Some(Or(IsNull(field), Eq(field, RIGHTS_GROUP2)))
      else if PRINCIPAL_GROUP3 in groups then
        Some(Or(IsNull(field), Eq(field, RIGHTS_GROUP3)))
      else
        None;
    FirstMemberInPriority(groups);
    forall doc | r.Some?
      ensures Eval(r.value, doc) <==> VisibleTo(FirstMember(PRIORITY, groups).value, doc)
    {
      FindRuleInRules(if AuthLevel(doc).Some? then AuthLevel(doc).value else "");
    }
    r
  }

  /**
    Adds the restriction to an existing filter: the restriction alone when there is
    none, otherwise the conjunction with the existing filter, untouched, on the left.
  */
  function Compose(existing: Option<Predicate>, restriction: Predicate): (p: Predicate)
    ensures existing.None? ==> p == restriction
    ensures existing.Some? ==> p.And? && p.left == existing.value && p.right == restriction
    ensures forall doc :: Eval(p, doc) <==>
      (existing.None? || Eval(existing.value, doc)) && Eval(restriction, doc)
  {
    match existing
    case None => restriction
    case Some(e) => And(e, restriction)
  }

  /**
    The rewritten query. `system` and `Administrator`, and principals in none of the
    three groups, get the query back unchanged. Every other principal gets the same
    query whose WHERE filter is the old one conjoined with its restriction, so it
    lists exactly the documents the old query listed that are visible to its group.
  */
  function Transform(principal: Principal, query: Query): (r: Query)
    ensures SameClausesBesidesWhere(r, query)
    ensures Bypasses(principal) ==> r == query
    ensures GoverningGroup(principal).None? ==> r == query
    ensures !Bypasses(principal) && GoverningGroup(principal).Some? ==>
      && WherePredicate(r) == Some(Compose(WherePredicate(query), Restriction(principal.groups).value))
      && forall doc :: Admits(r, doc) <==> Admits(query, doc) && VisibleTo(GoverningGroup(principal).value, doc)
  {
    if Bypasses(principal) then
      query
    else
      match Restriction(principal.groups)
      case None => query
      case Some(restriction) =>
        var filter := Compose(WherePredicate(query), restriction);
        Query(query.select, query.from, Some(WhereClause(Some(filter))),
              query.groupBy, query.having, query.orderBy, query.limit, query.offset)
  }

  /**
    Rewriting a rewritten query lists the same documents: the restriction added a
    second time changes nothing but the shape of the filter.
  */
  lemma TransformIdempotent(principal: Principal, query: Query, doc: Document)
    ensures SameClausesBesidesWhere(Transform(principal, Transform(principal, query)), query)
    ensures Admits(Transform(principal, Transform(principal, query)), doc) <==>
            Admits(Transform(principal, query), doc)
  {
  }

  /** A principal in ACA-FR but not ACA-HO gets `auth_level_cde IS NULL OR auth_level_cde = MCD_HOFLD`. */
  lemma FieldRestriction(groups: set<string>)
    requires PRINCIPAL_GROUP2 in groups && PRINCIPAL_GROUP1 !in groups
    ensures Restriction(groups) ==
      Some(Or(IsNull("file_schema:auth_level_cde"), Eq("file_schema:auth_level_cde", "MCD_HOFLD")))
  {
  }

  /** A principal in ACA-CLNT only, of the three groups, gets `auth_level_cde IS NULL OR auth_level_cde = MCD_HOCLNT`. */
  lemma ClientRestriction(groups: set<string>)
    requires PRINCIPAL_GROUP3 in groups && PRINCIPAL_GROUP1 !in groups && PRINCIPAL_GROUP2 !in groups
    ensures Restriction(groups) ==
      Some(Or(IsNull("file_schema:auth_level_cde"), Eq("file_schema:auth_level_cde", "MCD_HOCLNT")))
  {
  }

  /** A member of ACA-HO querying without a WHERE clause gets exactly the ACA-HO restriction. */
  lemma HeadOfficeScenario(name: string, groups: set<string>, query: Query)
    requires name != "system" && name != "Administrator"
    requires PRINCIPAL_GROUP1 in groups
    requires WherePredicate(query).None?
    ensures WherePredicate(Transform(Principal(name, groups), query)) ==
      Some(Or(IsNull("file_schema:auth_level_cde"), In("file_schema:auth_level_cde", ["MCD_DEFAULT", "MCD_HOONLY"])))
  {
  }
}

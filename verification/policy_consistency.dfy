/**
  How the two halves of the policy relate: what a restricted listing shows is never
  denied by the point decision, and where the two deliberately differ.

  Each lemma gives both halves the same principal: the principal the point decision
  is asked about is taken to have the groups the user directory gives its name,
  which is where the query transformer reads them.
*/
module PolicyConsistency {
  import opened Wrappers
  import opened Nxql
  import opened AuthLevelSecurityPolicy
  import opened AuthLevelTransformer

  /**
    Soundness of the listing restriction: every document a restricted principal's
    rewritten query lists is one the point decision does not deny. Unclassified
    documents get UNKNOWN, classified ones GRANT.
  */
  lemma ListingIsSound(
    principal: Principal, query: Query, doc: Document, mergedAcp: Acp, permission: string,
    resolvedPermissions: seq<string>, additionalPrincipals: seq<string>)
    requires !Bypasses(principal) && GoverningGroup(principal).Some?
    requires Admits(Transform(principal, query), doc)
    ensures var r := CheckPermission(doc, mergedAcp, principal, permission, resolvedPermissions, additionalPrincipals);
      && r != Deny
      && (AuthLevel(doc).None? ==> r == Unknown)
      && (AuthLevel(doc).Some? ==> r == Grant)
  {
  }

  /**
    The converse holds for the principal's own group: a document the original query
    lists and whose classification the table gives to the governing group is still
    listed, and the point decision grants it.
  */
  lemma ListingKeepsGovernedDocuments(
    principal: Principal, query: Query, doc: Document, mergedAcp: Acp, permission: string,
    resolvedPermissions: seq<string>, additionalPrincipals: seq<string>)
    requires !Bypasses(principal) && GoverningGroup(principal).Some?
    requires Admits(query, doc)
    requires AUTH_LEVEL_FIELD in doc.properties
    requires FindRule(RULES, doc.properties[AUTH_LEVEL_FIELD]) == Some(Rule(doc.properties[AUTH_LEVEL_FIELD], GoverningGroup(principal).value))
    ensures Admits(Transform(principal, query), doc)
    ensures CheckPermission(doc, mergedAcp, principal, permission, resolvedPermissions, additionalPrincipals) == Grant
  {
  }

  /**
    A restricted principal's listing hides every document whose classification is
    outside the table, although the point decision has no opinion on it.
  */
  lemma UngovernedClassificationHiddenFromRestricted(
    principal: Principal, query: Query, doc: Document, mergedAcp: Acp, permission: string,
    resolvedPermissions: seq<string>, additionalPrincipals: seq<string>)
    requires !Bypasses(principal) && GoverningGroup(principal).Some?
    requires AUTH_LEVEL_FIELD in doc.properties
    requires doc.properties[AUTH_LEVEL_FIELD] !in {RIGHTS_DEFAULT, RIGHTS_GROUP1, RIGHTS_GROUP2, RIGHTS_GROUP3}
    ensures !Admits(Transform(principal, query), doc)
    ensures CheckPermission(doc, mergedAcp, principal, permission, resolvedPermissions, additionalPrincipals) == Unknown
  {
  }

  /**
    A principal in none of the three groups is not restricted at the query level,
    yet the point decision denies it every governed document.
  */
  lemma {:induction false} UngovernedPrincipalListedButDenied(
    principal: Principal, query: Query, doc: Document, mergedAcp: Acp, permission: string,
    resolvedPermissions: seq<string>, additionalPrincipals: seq<string>)
    requires GoverningGroup(principal).None?
    requires AUTH_LEVEL_FIELD in doc.properties
    requires doc.properties[AUTH_LEVEL_FIELD] in {RIGHTS_DEFAULT, RIGHTS_GROUP1, RIGHTS_GROUP2, RIGHTS_GROUP3}
    ensures Transform(principal, query) == query
    ensures CheckPermission(doc, mergedAcp, principal, permission, resolvedPermissions, additionalPrincipals) == Deny
  {
    FindRuleInRules(doc.properties[AUTH_LEVEL_FIELD]);
    FirstMemberInPriority(principal.groups);
  }

  /**
    The name exemption belongs to the transformer only: `Administrator` outside
    ACA-HO gets an unrestricted listing but is denied an MCD_DEFAULT document.
  */
  lemma AdministratorExemptFromListingOnly(query: Query, mergedAcp: Acp, permission: string)
    ensures var admin := Principal("Administrator", {PRINCIPAL_GROUP2});
      && Transform(admin, query) == query
      && CheckPermission(Document(map[AUTH_LEVEL_FIELD := RIGHTS_DEFAULT], {}), mergedAcp, admin, permission, [], []) == Deny
  {
  }

  /**
    Priority over precision: a member of both ACA-HO and ACA-FR is granted an
    MCD_HOFLD document, but its listing, restricted for ACA-HO, does not show it.
  */
  lemma SecondGroupDocumentsHiddenFromFirstGroup(query: Query, mergedAcp: Acp, permission: string)
    ensures var p := Principal("jdoe", {PRINCIPAL_GROUP1, PRINCIPAL_GROUP2});
      var doc := Document(map[AUTH_LEVEL_FIELD := RIGHTS_GROUP2], {});
      && CheckPermission(doc, mergedAcp, p, permission, [], []) == Grant
      && !Admits(Transform(p, query), doc)
  {
  }
}

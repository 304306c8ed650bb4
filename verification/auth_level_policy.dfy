/**
  The point access decision of the auth-level security policy: a document carries
  an optional `auth_level_cde` classification; four classifications are governed,
  each by exactly one user group, and everything else is left to other policies.
*/
module AuthLevelSecurityPolicy {
  import opened Wrappers
  import opened Nxql

  const AUTH_LEVEL_FIELD: string := "file_schema:auth_level_cde"

  const RIGHTS_DEFAULT: string := "MCD_DEFAULT"
  const RIGHTS_GROUP1: string := "MCD_HOONLY"
  const RIGHTS_GROUP2: string := "MCD_HOFLD"
  const RIGHTS_GROUP3: string := "MCD_HOCLNT"

  const PRINCIPAL_GROUP1: string := "ACA-HO"
  const PRINCIPAL_GROUP2: string := "ACA-FR"
  const PRINCIPAL_GROUP3: string := "ACA-CLNT"

  datatype Access = Grant | Deny | Unknown

  /** A principal as resolved by the user directory: its name and every group it is a member of. */
  datatype Principal = Principal(name: string, groups: set<string>)

  predicate IsMemberOf(p: Principal, group: string)
  {
    group in p.groups
  }

  /** The merged access control policy of the document; this policy never reads it. */
  datatype Acp = Acp(entries: seq<string>)

  /** One line of the classification table: documents with `code` are for members of `group`. */
  datatype Rule = Rule(code: string, group: string)

  /** The classification table, in its documented order. */
  const RULES: seq<Rule> := [
    Rule(RIGHTS_DEFAULT, PRINCIPAL_GROUP1),
    Rule(RIGHTS_GROUP1, PRINCIPAL_GROUP1),
    Rule(RIGHTS_GROUP2, PRINCIPAL_GROUP2),
    Rule(RIGHTS_GROUP3, PRINCIPAL_GROUP3)
  ]

  /**
    The first rule of `table` for `code`, if any. The transformer's `FirstMember` is the
    same first-match search over its priority order of groups.
  */
  function FindRule(table: seq<Rule>, code: string): (r: Option<Rule>)
    ensures r.None? <==> forall i :: 0 <= i < |table| ==> table[i].code != code
    ensures r.Some? ==> r.value.code == code
    ensures r.Some? ==>
      exists i :: 0 <= i < |table| && table[i] == r.value &&
        forall j :: 0 <= j < i ==> table[j].code != code
  {
    if |table| == 0 then None
    else if table[0].code == code then Some(table[0])
    else
      var r := FindRule(table[1..], code);
      assert forall i :: 1 <= i < |table| ==> table[i] == table[1..][i - 1];
      r
  }

  /** The table entry governing each classification, unfolded. */
  lemma {:induction false} FindRuleInRules(code: string)
    ensures FindRule(RULES, code) ==
      if code == RIGHTS_DEFAULT then Some(Rule(RIGHTS_DEFAULT, PRINCIPAL_GROUP1))
      else if code == RIGHTS_GROUP1 then Some(Rule(RIGHTS_GROUP1, PRINCIPAL_GROUP1))
      else if code == RIGHTS_GROUP2 then Some(Rule(RIGHTS_GROUP2, PRINCIPAL_GROUP2))
      else if code == RIGHTS_GROUP3 then Some(Rule(RIGHTS_GROUP3, PRINCIPAL_GROUP3))
      else None
  {
    assert RULES[0].code == RIGHTS_DEFAULT && RULES[1].code == RIGHTS_GROUP1;
    assert RULES[2].code == RIGHTS_GROUP2 && RULES[3].code == RIGHTS_GROUP3;
  }

  /** No classification appears twice in the table, so the first match is the only one. */
  lemma RuleCodesUnique()
    ensures forall i, j :: 0 <= i < j < |RULES| ==> RULES[i].code != RULES[j].code
  {
  }

  /** The classification of a document, None when the property is not set. */
  function AuthLevel(doc: Document): Option<string>
  {
    PropertyValue(doc, AUTH_LEVEL_FIELD)
  }

  /**
    The decision for one document and one principal. The permission asked for, the
    merged ACP, the resolved permissions and the additional principals are part of
    the host's interface and do not take part in the decision.
  */
  function CheckPermission(
    doc: Document, mergedAcp: Acp, principal: Principal, permission: string,
    resolvedPermissions: seq<string>, additionalPrincipals: seq<string>): (r: Access)
    ensures AuthLevel(doc).None? ==> r == Unknown
    ensures AuthLevel(doc).Some? && FindRule(RULES, AuthLevel(doc).value).None? ==> r == Unknown
    ensures AuthLevel(doc).Some? && FindRule(RULES, AuthLevel(doc).value).Some? ==>
      r == if IsMemberOf(principal, FindRule(RULES, AuthLevel(doc).value).value.group) then Grant else Deny
  {
    FindRuleInRules(if AuthLevel(doc).Some? then AuthLevel(doc).value else "");
    var rights := AuthLevel(doc);
    if rights.Some? then
      if rights.value == RIGHTS_DEFAULT then
        if IsMemberOf(principal, PRINCIPAL_GROUP1) then Grant else Deny
      else if rights.value == RIGHTS_GROUP1 then
        if IsMemberOf(principal, PRINCIPAL_GROUP1) then Grant else Deny
      else if rights.value == RIGHTS_GROUP2 then
        if IsMemberOf(principal, PRINCIPAL_GROUP2) then Grant else Deny
      else if rights.value == RIGHTS_GROUP3 then
        if IsMemberOf(principal, PRINCIPAL_GROUP3) then Grant else Deny
      else
        Unknown
    else
      Unknown
  }

  /** The policy never declares itself as restricting a permission. */
  function IsRestrictingPermission(permission: string): (r: bool)
    ensures !r
  {
    false
  }

  /** The policy can always be applied as a query restriction. */
  function IsExpressibleInQuery(repositoryName: string): (r: bool)
    ensures r
  {
    true
  }

  /** A document without a classification gets no opinion, whoever asks. */
  lemma NoClassificationIsUnknown(
    doc: Document, mergedAcp: Acp, principal: Principal, permission: string,
    resolvedPermissions: seq<string>, additionalPrincipals: seq<string>)
    requires AUTH_LEVEL_FIELD !in doc.properties
    ensures CheckPermission(doc, mergedAcp, principal, permission, resolvedPermissions, additionalPrincipals) == Unknown
  {
  }

  /** A classification outside the four governed codes gets no opinion, whoever asks. */
  lemma UngovernedClassificationIsUnknown(
    doc: Document, mergedAcp: Acp, principal: Principal, permission: string,
    resolvedPermissions: seq<string>, additionalPrincipals: seq<string>)
    requires AUTH_LEVEL_FIELD in doc.properties
    requires doc.properties[AUTH_LEVEL_FIELD] !in {RIGHTS_DEFAULT, RIGHTS_GROUP1, RIGHTS_GROUP2, RIGHTS_GROUP3}
    ensures CheckPermission(doc, mergedAcp, principal, permission, resolvedPermissions, additionalPrincipals) == Unknown
  {
  }

  /**
    For each governed classification, the decision is GRANT exactly for members of
    its group and DENY for everyone else; it is never UNKNOWN.
  */
  lemma GovernedClassificationDecision(
    doc: Document, mergedAcp: Acp, principal: Principal, permission: string,
    resolvedPermissions: seq<string>, additionalPrincipals: seq<string>, group: string)
    requires AUTH_LEVEL_FIELD in doc.properties
    requires (doc.properties[AUTH_LEVEL_FIELD], group) in
      {(RIGHTS_DEFAULT, PRINCIPAL_GROUP1), (RIGHTS_GROUP1, PRINCIPAL_GROUP1),
       (RIGHTS_GROUP2, PRINCIPAL_GROUP2), (RIGHTS_GROUP3, PRINCIPAL_GROUP3)}
    ensures var r := CheckPermission(doc, mergedAcp, principal, permission, resolvedPermissions, additionalPrincipals);
      && (r == Grant <==> group in principal.groups)
      && (r == Deny <==> group !in principal.groups)
      && r != Unknown
  {
  }

  /**
    The decision depends on the document's classification and the principal's groups
    only: the principal's name, the permission, the ACP, the resolved permissions,
    the additional principals and every other property of the document are ignored.
  */
  lemma DecisionDependsOnlyOnClassificationAndGroups(
    doc1: Document, acp1: Acp, p1: Principal, perm1: string, resolved1: seq<string>, additional1: seq<string>,
    doc2: Document, acp2: Acp, p2: Principal, perm2: string, resolved2: seq<string>, additional2: seq<string>)
    requires AuthLevel(doc1) == AuthLevel(doc2)
    requires p1.groups == p2.groups
    ensures CheckPermission(doc1, acp1, p1, perm1, resolved1, additional1) ==
            CheckPermission(doc2, acp2, p2, perm2, resolved2, additional2)
  {
  }

  /** A member of ACA-FR only: GRANT on MCD_HOFLD, DENY on MCD_HOCLNT, UNKNOWN without a classification. */
  lemma FieldGroupScenario(acp: Acp, permission: string)
    ensures var p := Principal("jdoe", {PRINCIPAL_GROUP2});
      && CheckPermission(Document(map[AUTH_LEVEL_FIELD := RIGHTS_GROUP2], {}), acp, p, permission, [], []) == Grant
      && CheckPermission(Document(map[AUTH_LEVEL_FIELD := RIGHTS_GROUP3], {}), acp, p, permission, [], []) == Deny
      && CheckPermission(Document(map[], {}), acp, p, permission, [], []) == Unknown
  {
  }
}

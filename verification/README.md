# Auth-level security policy, modelled in Dafny

This project models `AuthLevelSecurityPolicy`, a document security policy for the Nuxeo
content platform. A document may carry a classification in its `file_schema:auth_level_cde`
property. Four classifications are governed, each by one user group:

| classification | group |
|---|---|
| `MCD_DEFAULT` | `ACA-HO` |
| `MCD_HOONLY` | `ACA-HO` |
| `MCD_HOFLD` | `ACA-FR` |
| `MCD_HOCLNT` | `ACA-CLNT` |

The policy has two halves, both pure:

- **The point decision** (`checkPermission`). It gives `GRANT` to members of the
  classification's group and `DENY` to everyone else. It gives `UNKNOWN` when the document
  has no classification or one outside the table.
- **The query transformer** (`AuthLevelTransformer.transform`). It rewrites every listing
  query of a principal that is not `system` or `Administrator`. The principal's first group,
  in the order `ACA-HO`, `ACA-FR`, `ACA-CLNT`, picks a restriction: "classification IS NULL
  OR classification is one of that group's codes". The restriction is ANDed to the right of
  any existing WHERE filter. All other clauses are kept. A principal in none of the three
  groups gets its query back unchanged.

Modules:

- `Wrappers` (`wrappers.dfy`): the `Option` type.
- `Nxql` (`nxql.dfy`): the minimal query shape the transformer works on. It has a predicate
  tree (`IsNull`, `In`, `Eq`, `Or`, `And`, and `Opaque` for conditions the policy never
  builds), a WHERE clause that may hold no filter, and a query whose other clauses are
  carried along. A document is its set properties plus the opaque conditions it satisfies.
  `Eval` and `Admits` give the rows a filter and a query let through.
- `AuthLevelSecurityPolicy` (`auth_level_policy.dfy`): the constants and the classification
  table `RULES`. It also holds the point decision `CheckPermission` and the two capability
  flags. `CheckPermission` is written as the source's chain of comparisons and is proved to
  agree with a first-match lookup in `RULES`.
- `AuthLevelTransformer` (`auth_level_transformer.dfy`): the first-match group choice, the
  restriction predicate, its composition with an existing filter, and `Transform`.
- `PolicyConsistency` (`policy_consistency.dfy`): how the two halves relate. Whatever a
  restricted listing shows, the point decision does not deny. The lemmas also pin down
  where the two halves deliberately differ.

Inputs that come from the host are parameters:

- the resolved principal, as a name and the set of all its groups;
- the document's property values;
- the query.

## Model

| member | source | states |
|---|---|---|
| `AuthLevelSecurityPolicy.FindRule` | src/main/java/org/nuxeo/sample/AuthLevelSecurityPolicy.java:64-79 | looks up the documented classification table: the result is the first entry with the code, and None exactly when no entry has it |
| `AuthLevelSecurityPolicy.FindRuleInRules` | src/main/java/org/nuxeo/sample/AuthLevelSecurityPolicy.java:69-78 | the table maps MCD_DEFAULT and MCD_HOONLY to ACA-HO, MCD_HOFLD to ACA-FR and MCD_HOCLNT to ACA-CLNT, and maps nothing else |
| `AuthLevelSecurityPolicy.RuleCodesUnique` | src/main/java/org/nuxeo/sample/AuthLevelSecurityPolicy.java:49-52 | no classification code appears twice in the table |
| `AuthLevelSecurityPolicy.CheckPermission` | src/main/java/org/nuxeo/sample/AuthLevelSecurityPolicy.java:61-125 | UNKNOWN without a classification; UNKNOWN for a classification outside the table; otherwise GRANT when the principal is in the table's group for it, and DENY when not |
| `AuthLevelSecurityPolicy.IsRestrictingPermission` | src/main/java/org/nuxeo/sample/AuthLevelSecurityPolicy.java:127-130 | the policy never declares any permission restricted |
| `AuthLevelSecurityPolicy.IsExpressibleInQuery` | src/main/java/org/nuxeo/sample/AuthLevelSecurityPolicy.java:132-135 | the policy is always expressible as a query restriction, for every repository |
| `AuthLevelSecurityPolicy.NoClassificationIsUnknown` | src/main/java/org/nuxeo/sample/AuthLevelSecurityPolicy.java:80-123 | a document without the auth_level_cde property gets UNKNOWN for every principal and every request |
| `AuthLevelSecurityPolicy.UngovernedClassificationIsUnknown` | src/main/java/org/nuxeo/sample/AuthLevelSecurityPolicy.java:84-123 | a classification that is none of the four codes gets UNKNOWN for every principal |
| `AuthLevelSecurityPolicy.GovernedClassificationDecision` | src/main/java/org/nuxeo/sample/AuthLevelSecurityPolicy.java:84-120 | for each of the four (code, group) pairs: GRANT iff the principal is in the group, DENY iff it is not, never UNKNOWN |
| `AuthLevelSecurityPolicy.DecisionDependsOnlyOnClassificationAndGroups` | src/main/java/org/nuxeo/sample/AuthLevelSecurityPolicy.java:61-123 | two requests with the same classification and the same groups get the same decision, whatever the permission, ACP, resolved permissions, additional principals, principal name or other properties |
| `AuthLevelSecurityPolicy.FieldGroupScenario` | src/main/java/org/nuxeo/sample/AuthLevelSecurityPolicy.java:103-123 | an ACA-FR-only member gets GRANT on MCD_HOFLD, DENY on MCD_HOCLNT and UNKNOWN on an unclassified document |
| `AuthLevelTransformer.FirstMember` | src/main/java/org/nuxeo/sample/AuthLevelSecurityPolicy.java:158-184 | first-match selection: the result is a group of the principal; every group before it in the order is not; None exactly when the principal is in no listed group |
| `AuthLevelTransformer.FirstMemberInPriority` | src/main/java/org/nuxeo/sample/AuthLevelSecurityPolicy.java:159-181 | the priority order is ACA-HO, then ACA-FR, then ACA-CLNT |
| `AuthLevelTransformer.Restriction` | src/main/java/org/nuxeo/sample/AuthLevelSecurityPolicy.java:158-184 | there is a restriction exactly when the principal is in one of the three groups; it admits exactly the documents that are unclassified or that the table gives to the first such group |
| `AuthLevelTransformer.Compose` | src/main/java/org/nuxeo/sample/AuthLevelSecurityPolicy.java:186-195 | with no existing filter the result is the restriction; otherwise it is AND with the existing filter untouched on the left; either way it admits exactly what both admit |
| `AuthLevelTransformer.Transform` | src/main/java/org/nuxeo/sample/AuthLevelSecurityPolicy.java:144-196 | all clauses other than WHERE are kept; `system`, `Administrator` and principals in no group get the query unchanged; for others the new filter is the old one composed with the restriction, and the query lists exactly the old query's documents that are visible to the principal's group |
| `AuthLevelTransformer.TransformIdempotent` | src/main/java/org/nuxeo/sample/AuthLevelSecurityPolicy.java:186-195 | rewriting an already rewritten query keeps the other clauses and lists the same documents |
| `AuthLevelTransformer.FieldRestriction` | src/main/java/org/nuxeo/sample/AuthLevelSecurityPolicy.java:169-174 | a principal in ACA-FR and not in ACA-HO gets exactly `auth_level_cde IS NULL OR auth_level_cde = MCD_HOFLD` |
| `AuthLevelTransformer.ClientRestriction` | src/main/java/org/nuxeo/sample/AuthLevelSecurityPolicy.java:176-181 | a principal in ACA-CLNT and in neither ACA-HO nor ACA-FR gets exactly `auth_level_cde IS NULL OR auth_level_cde = MCD_HOCLNT` |
| `AuthLevelTransformer.HeadOfficeScenario` | src/main/java/org/nuxeo/sample/AuthLevelSecurityPolicy.java:159-191 | an ACA-HO member's query without a filter gets exactly `auth_level_cde IS NULL OR auth_level_cde IN (MCD_DEFAULT, MCD_HOONLY)` |
| `PolicyConsistency.ListingIsSound` | src/main/java/org/nuxeo/sample/AuthLevelSecurityPolicy.java:141-196 | every document a restricted principal's rewritten query lists is not denied by the point decision: unclassified ones get UNKNOWN, classified ones GRANT |
| `PolicyConsistency.ListingKeepsGovernedDocuments` | src/main/java/org/nuxeo/sample/AuthLevelSecurityPolicy.java:159-195 | a listed document whose classification belongs to the principal's governing group stays listed after the rewrite and is granted |
| `PolicyConsistency.UngovernedClassificationHiddenFromRestricted` | src/main/java/org/nuxeo/sample/AuthLevelSecurityPolicy.java:158-184 | a classification outside the table is hidden from every restricted listing, while the point decision gives UNKNOWN for it |
| `PolicyConsistency.UngovernedPrincipalListedButDenied` | src/main/java/org/nuxeo/sample/AuthLevelSecurityPolicy.java:182-184 | a principal in no group gets its query unchanged, yet the point decision denies it every governed document |
| `PolicyConsistency.AdministratorExemptFromListingOnly` | src/main/java/org/nuxeo/sample/AuthLevelSecurityPolicy.java:153-156 | the name exemption applies to the transformer only: `Administrator` outside ACA-HO is listed everything but is denied an MCD_DEFAULT document |
| `PolicyConsistency.SecondGroupDocumentsHiddenFromFirstGroup` | src/main/java/org/nuxeo/sample/AuthLevelSecurityPolicy.java:158-174 | a member of both ACA-HO and ACA-FR is granted an MCD_HOFLD document but does not see it in its listing |

Two asymmetries of the code are kept:

- The exemption of `system` and `Administrator` is in the transformer only (lines 153-156).
  `checkPermission` decides for them like for anyone else (`AdministratorExemptFromListingOnly`).
- The two halves test group membership on different principals. `checkPermission` tests the
  principal it is given, cast to `NuxeoPrincipal` (lines 63, 85, 95, 104 and 113).
  `transform` tests its name against the exemption (line 154), but tests groups on the
  principal the user directory returns for that name (lines 148 and 159-176). The model
  gives each half one `Principal` value: its name and its groups.

## Left out

- The user directory lookup (`Framework.getService(UserManager.class)` and `getPrincipal`,
  lines 146-148) is an external service. The resolved principal is a parameter, and its
  `groups` are all groups `isMemberOf` answers true for.
- Java host failures are not modelled: the cast to `NuxeoPrincipal`, a null principal or
  name, a null result from `getPrincipal`, and a property value that is not a string. A null
  result from `getPrincipal` is dereferenced only for names other than `system` and
  `Administrator`, at line 159; for those two names the query still comes back unchanged,
  as `Transform` returns it.
- The lemmas of `PolicyConsistency` pass one `Principal` to both `CheckPermission` and
  `Transform`. They assume that the principal the host hands to `checkPermission` has the
  same groups as the directory entry `transform` looks up for its name. A session principal
  whose groups differ from its directory entry is not covered by them.
- `log.trace` output (lines 86-122) is logging only.
- The NXQL classes (`SQLQuery`, `WhereClause`, `Predicate`, `Expression`, `Reference`,
  `LiteralList`, `Operator`) are reduced to the datatypes in `Nxql`. Parsing and execution
  of queries belong to the host. The clauses other than WHERE are opaque values.
- Predicate evaluation is two-valued and has no negation. With AND and OR only over these
  atoms, it selects the same rows as SQL's three-valued WHERE. Filters that use NOT around
  the restriction are not modelled.
- `Document.getPropertyValue` and schema resolution are left out. A document is given by
  its property values.
- `getQueryTransformer`, the `AUTH_LEVEL_TRANSFORMER` singleton and `serialVersionUID`
  (lines 139, 199-204) are registration plumbing.
- Object identity is not modelled. The source returns the very same `query` object on
  pass-through, and the model returns an equal value.

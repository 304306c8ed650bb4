/**
  The small part of the host's NXQL query model that the transformer touches:
  a predicate tree, a WHERE clause that may hold no predicate, and a query whose
  other clauses are carried along without being interpreted.

  A document is seen the way the query executor sees it: the string properties it
  has set (a property missing from the map is NULL), and the conditions this model
  does not interpret that hold of it.
*/
module Nxql {
  import opened Wrappers

  datatype Document = Document(properties: map<string, string>, holds: set<string>)

  /** The value of a property, None when it is NULL on the document. */
  function PropertyValue(doc: Document, field: string): Option<string>
  {
    if field in doc.properties then Some(doc.properties[field]) else None
  }

  /**
    Predicates. `Opaque` stands for any condition of an existing WHERE clause that
    the policy never builds nor inspects (LIKE, STARTSWITH, a comparison, ...).
    There is no negation: with only AND/OR over these atoms, two-valued evaluation
    (an atom over a NULL property is false) selects exactly the rows SQL's
    three-valued WHERE selects.
  */
  datatype Predicate =
    | IsNull(field: string)
    | In(field: string, values: seq<string>)
    | Eq(field: string, value: string)
    | Or(left: Predicate, right: Predicate)
    | And(left: Predicate, right: Predicate)
    | Opaque(condition: string)

  predicate Eval(p: Predicate, doc: Document)
  {
    match p
    case IsNull(f) => PropertyValue(doc, f).None?
    case In(f, vs) => PropertyValue(doc, f).Some? && PropertyValue(doc, f).value in vs
    case Eq(f, v) => PropertyValue(doc, f) == Some(v)
    case Or(l, r) => Eval(l, doc) || Eval(r, doc)
    case And(l, r) => Eval(l, doc) && Eval(r, doc)
    case Opaque(c) => c in doc.holds
  }

  /** A clause the policy copies without looking at it (SELECT, FROM, GROUP BY, ...). */
  datatype Clause = Clause(text: string)

  /** A WHERE clause; `filter` is None when it holds no predicate. */
  datatype WhereClause = WhereClause(filter: Option<Predicate>)

  datatype Query = Query(
    select: Clause,
    from: Clause,
    where: Option<WhereClause>,
    groupBy: Clause,
    having: Clause,
    orderBy: Clause,
    limit: int,
    offset: int)

  /** The filtering predicate of a query: None when there is no WHERE clause or it holds none. */
  function WherePredicate(q: Query): Option<Predicate>
  {
    if q.where.None? then None else q.where.value.filter
  }

  /** Whether the query lets the document through its WHERE clause. */
  predicate Admits(q: Query, doc: Document)
  {
    match WherePredicate(q)
    case None => true
    case Some(p) => Eval(p, doc)
  }

  /** The two queries agree on every clause except WHERE. */
  predicate SameClausesBesidesWhere(a: Query, b: Query)
  {
    && a.select == b.select
    && a.from == b.from
    && a.groupBy == b.groupBy
    && a.having == b.having
    && a.orderBy == b.orderBy
    && a.limit == b.limit
    && a.offset == b.offset
  }
}

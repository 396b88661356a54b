/** Declared cascading deletes, and the records a deletion reaches through them. */
module Cascades {
  import opened Records
  import opened Graphs

  /** `fields` of the model that declares the relation name `targetFields` of the target's identity. */
  datatype Relation = Relation(name: string, model: string, target: string, fields: seq<string>,
                               targetFields: seq<string>, cascades: bool)

  /** The rows of a database a cascade looks through: visible rows and before images. */
  datatype Rows = Rows(main: Table, before: Table)

  function Get(fields: Fields, name: string): Value {
    if name in fields then fields[name] else Null
  }

  /** The row points at `parent` through `relation`; pairs stop at the shorter field list. */
  predicate PointsAt(relation: Relation, row: Fields, parent: Key) {
    forall i :: 0 <= i < |relation.fields| && i < |relation.targetFields| ==>
      Get(row, relation.fields[i]) == Get(parent.identity, relation.targetFields[i])
  }

  predicate ChildThrough(relation: Relation, row: Row, parent: Key, child: Key) {
    && relation.cascades && relation.target == parent.model && relation.model == child.model
    && row.Some? && PointsAt(relation, row.value, parent)
  }

  predicate IsChild(relations: seq<Relation>, rows: Rows, parent: Key, child: Key) {
    exists i :: 0 <= i < |relations| &&
      (ChildThrough(relations[i], At(rows.main, child), parent, child)
       || ChildThrough(relations[i], At(rows.before, child), parent, child))
  }

  function Children(relations: seq<Relation>, rows: Rows, parent: Key): (r: set<Key>)
    ensures forall k :: k in r <==> IsChild(relations, rows, parent, k)
  {
    set k | k in rows.main.Keys + rows.before.Keys && IsChild(relations, rows, parent, k)
  }

  function Step(relations: seq<Relation>, rows: Rows): Key -> set<Key> {
    k => Children(relations, rows, k)
  }

  /** `k` is `parent` or hangs below it through declared cascading deletes. */
  ghost predicate Under(relations: seq<Relation>, rows: Rows, parent: Key, k: Key) {
    Reachable(Step(relations, rows), parent, k)
  }

  /** Every record reachable from `parent` through declared cascading deletes, in visible rows or
      before images, once each and without the parent; it ends on any relation graph. */
  method Descendants(relations: seq<Relation>, rows: Rows, parent: Key) returns (result: seq<Key>)
    ensures NoDuplicates(result)
    ensures forall k :: k in result <==> k != parent && Under(relations, rows, parent, k)
  {
    result := Closure(Step(relations, rows), parent, rows.main.Keys + rows.before.Keys + {parent});
  }
}

/** The recursive JSON merge behind configuration patches. Unlike the merge patch of section 2
    of RFC 7396, null is a value that overwrites. */
module JsonMerge {
  import opened Bytes

  datatype Json =
    | Null
    | Boolean(b: bool)
    | Number(text: string)
    | Text(s: string)
    | Array(items: seq<Json>)
    | Object(fields: map<string, Json>)

  /** Objects merge field by field; anything else is replaced. */
  ghost function Merge(base: Json, patch: Json): (r: Json)
    ensures r.Object? <==> patch.Object?
    decreases patch
  {
    if base.Object? && patch.Object?
    then Object(map k | k in base.fields.Keys + patch.fields.Keys :: Pick(base, patch, k))
    else patch
  }

  /** The value of field k of a merged object. */
  ghost function Pick(base: Json, patch: Json, k: string): (v: Json)
    requires base.Object? && patch.Object? && (k in base.fields || k in patch.fields)
    decreases patch, 0
  {
    if k !in patch.fields then base.fields[k]
    else if k !in base.fields then patch.fields[k]
    else Merge(base.fields[k], patch.fields[k])
  }

  lemma MergeAt(base: Json, patch: Json, k: string)
    requires base.Object? && patch.Object? && (k in base.fields || k in patch.fields)
    ensures k in Merge(base, patch).fields
    ensures Merge(base, patch).fields[k] ==
              if k !in patch.fields then base.fields[k]
              else if k !in base.fields then patch.fields[k]
              else Merge(base.fields[k], patch.fields[k])
  {
  }

  lemma MergeKeys(base: Json, patch: Json)
    requires base.Object? && patch.Object?
    ensures Merge(base, patch).fields.Keys == base.fields.Keys + patch.fields.Keys
  {
  }

  /** Keys outside `todo` are settled, those inside still show the base. */
  ghost predicate Partly(base: map<string, Json>, todo: set<string>, target: map<string, Json>, now: map<string, Json>)
  {
    forall k :: k in base || k in target ==>
      if k in todo then (k in now <==> k in base) && (k in base ==> now[k] == base[k])
      else k in now && k in target && now[k] == target[k]
  }

  lemma PartlyStep(base: map<string, Json>, todo: set<string>, target: map<string, Json>, now: map<string, Json>, k: string)
    requires Partly(base, todo, target, now) && k in target
    ensures Partly(base, todo - {k}, target, now[k := target[k]])
  {
  }

  lemma PartlyStart(base: Json, patch: Json)
    requires base.Object? && patch.Object?
    ensures Partly(base.fields, patch.fields.Keys, Merge(base, patch).fields, base.fields)
  {
    MergeKeys(base, patch);
    forall k | k in base.fields && k !in patch.fields
      ensures Merge(base, patch).fields[k] == base.fields[k]
    {
      MergeAt(base, patch, k);
    }
  }

  /** mergeObject: updates base key by key. */
  method MergeObject(base: Json, patch: Json) returns (r: Json)
    requires base.Object? && patch.Object?
    ensures r == Merge(base, patch)
    decreases patch
  {
    var fields, todo := base.fields, patch.fields.Keys;
    ghost var target := Merge(base, patch).fields;
    PartlyStart(base, patch);
    MergeKeys(base, patch);
    while todo != {}
      invariant todo <= patch.fields.Keys && fields.Keys <= target.Keys
      invariant Partly(base.fields, todo, target, fields)
      decreases |todo|
    {
      var k :| k in todo;
      var value := patch.fields[k];
      MergeAt(base, patch, k);
      if value.Object? && k in fields && fields[k].Object? {
        value := MergeObject(fields[k], value);
      }
      PartlyStep(base.fields, todo, target, fields, k);
      todo := todo - {k};
      fields := fields[k := value];
    }
    assert fields == target;
    r := Object(fields);
  }

  lemma {:induction false} MergeSame(p: Json)
    ensures Merge(p, p) == p
    decreases p
  {
    if p.Object? {
      MergeKeys(p, p);
      forall k | k in p.fields
        ensures Merge(p, p).fields[k] == p.fields[k]
      {
        MergeAt(p, p, k);
        MergeSame(p.fields[k]);
      }
      assert Merge(p, p).fields == p.fields;
    }
  }

  /** Applying a patch twice is applying it once. */
  lemma {:induction false} MergeIdempotent(a: Json, p: Json)
    ensures Merge(Merge(a, p), p) == Merge(a, p)
    decreases p
  {
    if a.Object? && p.Object? {
      var m := Merge(a, p);
      MergeKeys(a, p);
      MergeKeys(m, p);
      forall k | k in m.fields
        ensures Merge(m, p).fields[k] == m.fields[k]
      {
        MergeAt(a, p, k);
        MergeAt(m, p, k);
        if k in p.fields {
          if k in a.fields {
            MergeIdempotent(a.fields[k], p.fields[k]);
          } else {
            MergeSame(p.fields[k]);
          }
        }
      }
      assert Merge(m, p).fields == m.fields;
    } else {
      MergeSame(p);
    }
  }

  // ---------------------------------------------------------------------------------
  // Paths

  /** The value at a path of field names, if the path exists. */
  function Get(j: Json, path: seq<string>): (r: Option<Json>)
  {
    if path == [] then Some(j)
    else if j.Object? && path[0] in j.fields then Get(j.fields[path[0]], path[1..])
    else None
  }

  /** No prefix of the path, nor the path itself, leads to a value the patch sets. */
  predicate Uncovered(p: Json, path: seq<string>)
  {
    path != [] && p.Object? && (path[0] !in p.fields || Uncovered(p.fields[path[0]], path[1..]))
  }

  lemma {:induction false} UncoveredAbsent(p: Json, path: seq<string>)
    requires Uncovered(p, path)
    ensures Get(p, path).None?
    decreases path
  {
    if path[0] in p.fields {
      UncoveredAbsent(p.fields[path[0]], path[1..]);
    }
  }

  /** Merging leaves alone every path the patch does not cover. */
  lemma {:induction false} MergeUncovered(a: Json, p: Json, path: seq<string>)
    requires a.Object? && Uncovered(p, path)
    ensures Get(Merge(a, p), path) == Get(a, path)
    decreases path
  {
    var k := path[0];
    if k in a.fields || k in p.fields {
      MergeAt(a, p, k);
    }
    if k in p.fields {
      if k in a.fields && a.fields[k].Object? {
        MergeUncovered(a.fields[k], p.fields[k], path[1..]);
      } else {
        UncoveredAbsent(p.fields[k], path[1..]);
      }
    } else {
      MergeKeys(a, p);
    }
  }

  /** Every value the patch sets is there afterwards. */
  lemma {:induction false} MergeCovered(a: Json, p: Json, path: seq<string>)
    requires Get(p, path).Some? && !Get(p, path).value.Object?
    ensures Get(Merge(a, p), path) == Get(p, path)
    decreases path
  {
    if path != [] && a.Object? {
      var k := path[0];
      MergeAt(a, p, k);
      if k in a.fields {
        MergeCovered(a.fields[k], p.fields[k], path[1..]);
      }
    }
  }

  // ---------------------------------------------------------------------------------
  // Two patches in turn

  /** p nowhere replaces a nonempty object of a by something that is no object. */
  ghost predicate KeepsObjects(a: Json, p: Json)
    decreases p
  {
    a.Object? ==>
      if p.Object? then forall k :: k in a.fields && k in p.fields ==> KeepsObjects(a.fields[k], p.fields[k])
      else a.fields == map[]
  }

  lemma MergeEmpty(q: Json)
    ensures Merge(Object(map[]), q) == q
  {
    if q.Object? {
      MergeKeys(Object(map[]), q);
      forall k | k in q.fields
        ensures Merge(Object(map[]), q).fields[k] == q.fields[k]
      {
        MergeAt(Object(map[]), q, k);
      }
      assert Merge(Object(map[]), q).fields == q.fields;
    }
  }

  /** Then applying p and q in turn is applying their merge. */
  lemma {:induction false} MergeAssoc(a: Json, p: Json, q: Json)
    requires KeepsObjects(a, p)
    ensures Merge(Merge(a, p), q) == Merge(a, Merge(p, q))
    decreases p
  {
    if a.Object? && p.Object? && q.Object? {
      var l, r := Merge(Merge(a, p), q), Merge(a, Merge(p, q));
      MergeKeys(a, p);
      MergeKeys(p, q);
      MergeKeys(Merge(a, p), q);
      MergeKeys(a, Merge(p, q));
      forall k | k in l.fields
        ensures l.fields[k] == r.fields[k]
      {
        MergeAssocAt(a, p, q, k);
        if k in a.fields && k in p.fields && k in q.fields {
          MergeAssoc(a.fields[k], p.fields[k], q.fields[k]);
        }
      }
      assert l.fields == r.fields;
    } else if a.Object? && !p.Object? {
      MergeEmpty(q);
    }
  }

  /** Field k of both sides. */
  lemma MergeAssocAt(a: Json, p: Json, q: Json, k: string)
    requires a.Object? && p.Object? && q.Object? && (k in a.fields || k in p.fields || k in q.fields)
    ensures k in Merge(Merge(a, p), q).fields && k in Merge(a, Merge(p, q)).fields
    ensures k in a.fields && k in p.fields && k in q.fields ==>
              && Merge(Merge(a, p), q).fields[k] == Merge(Merge(a.fields[k], p.fields[k]), q.fields[k])
              && Merge(a, Merge(p, q)).fields[k] == Merge(a.fields[k], Merge(p.fields[k], q.fields[k]))
    ensures !(k in a.fields && k in p.fields && k in q.fields) ==>
              Merge(Merge(a, p), q).fields[k] == Merge(a, Merge(p, q)).fields[k]
  {
    MergeKeys(a, p);
    MergeKeys(p, q);
    if k in a.fields || k in p.fields { MergeAt(a, p, k); }
    if k in p.fields || k in q.fields { MergeAt(p, q, k); }
    MergeAt(Merge(a, p), q, k);
    MergeAt(a, Merge(p, q), k);
  }

  /** Where p does replace a nonempty object, some second patch tells the two apart. */
  lemma {:induction false} MergeNotAssoc(a: Json, p: Json) returns (q: Json)
    requires !KeepsObjects(a, p)
    ensures Merge(Merge(a, p), q) != Merge(a, Merge(p, q))
    decreases p
  {
    if p.Object? {
      var k :| k in a.fields && k in p.fields && !KeepsObjects(a.fields[k], p.fields[k]);
      var inner := MergeNotAssoc(a.fields[k], p.fields[k]);
      q := Object(map[k := inner]);
      MergeAssocAt(a, p, q, k);
    } else {
      q := Object(map[]);
      MergeKeys(a, q);
      assert Merge(a, Merge(p, q)).fields.Keys == a.fields.Keys;
    }
  }

  /** So the law holds for every second patch exactly when p keeps the base's objects. */
  lemma MergeAssocIff(a: Json, p: Json)
    ensures KeepsObjects(a, p) <==> forall q: Json :: Merge(Merge(a, p), q) == Merge(a, Merge(p, q))
  {
    if KeepsObjects(a, p) {
      forall q: Json
        ensures Merge(Merge(a, p), q) == Merge(a, Merge(p, q))
      {
        MergeAssoc(a, p, q);
      }
    } else {
      var q := MergeNotAssoc(a, p);
    }
  }
}

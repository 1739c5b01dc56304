/**
 * The effective field list: the requested fields whose storage key is not
 * excluded, in their original order.
 */
module FieldFilter {
  import opened ExportArgs

  /** Keeps the fields whose key is not in `exclude`, scanning front to back. */
  function EffectiveFields(fields: seq<Field>, exclude: seq<string>): (r: seq<Field>)
    ensures |r| <= |fields|
  {
    if |fields| == 0 then []
    else (if fields[0].key in exclude then [] else [fields[0]]) + EffectiveFields(fields[1..], exclude)
  }

  /**
   * Reference definition: the positions of the kept fields, ascending, built
   * from the back of the list.
   */
  function KeptPositions(fields: seq<Field>, exclude: seq<string>): seq<nat>
  {
    if |fields| == 0 then []
    else
      var n := |fields| - 1;
      KeptPositions(fields[..n], exclude) + (if fields[n].key in exclude then [] else [n])
  }

  /** Kept positions are in range, strictly ascending, and are exactly the non-excluded ones. */
  lemma {:induction false} KeptPositionsSpec(fields: seq<Field>, exclude: seq<string>)
    ensures var p := KeptPositions(fields, exclude);
      (forall k :: 0 <= k < |p| ==> p[k] < |fields|) &&
      (forall k, l :: 0 <= k < l < |p| ==> p[k] < p[l]) &&
      (forall i :: 0 <= i < |fields| ==> (i in p <==> fields[i].key !in exclude))
  {
    if |fields| > 0 {
      var n := |fields| - 1;
      KeptPositionsSpec(fields[..n], exclude);
    }
  }

  /** Filtering commutes with concatenation: no field moves past another. */
  lemma {:induction false} EffectiveFieldsAppend(a: seq<Field>, b: seq<Field>, exclude: seq<string>)
    ensures EffectiveFields(a + b, exclude) == EffectiveFields(a, exclude) + EffectiveFields(b, exclude)
  {
    if |a| > 0 {
      assert (a + b)[1..] == a[1..] + b;
      EffectiveFieldsAppend(a[1..], b, exclude);
    } else {
      assert a + b == b;
    }
  }

  /**
   * The effective list is the requested list read at the kept positions:
   * same length, and entry k is the field at the k-th kept position.
   */
  lemma {:induction false} EffectiveFieldsAtKept(fields: seq<Field>, exclude: seq<string>)
    ensures var r, p := EffectiveFields(fields, exclude), KeptPositions(fields, exclude);
      |r| == |p| && forall k :: 0 <= k < |r| ==> p[k] < |fields| && r[k] == fields[p[k]]
  {
    if |fields| > 0 {
      var n := |fields| - 1;
      var init, last := fields[..n], fields[n];
      EffectiveFieldsAtKept(init, exclude);
      assert fields == init + [last];
      EffectiveFieldsAppend(init, [last], exclude);
      var tail := EffectiveFields([last], exclude);
      assert tail == if last.key in exclude then [] else [last];
      var r0, p0 := EffectiveFields(init, exclude), KeptPositions(init, exclude);
      assert EffectiveFields(fields, exclude) == r0 + tail;
      assert KeptPositions(fields, exclude) == p0 + (if last.key in exclude then [] else [n]);
      forall k | 0 <= k < |r0|
        ensures p0[k] < |fields| && r0[k] == fields[p0[k]]
      {
        assert init[p0[k]] == fields[p0[k]];
      }
    }
  }

  /** A field is in the effective list exactly when it is requested and its key is not excluded. */
  lemma {:induction false} EffectiveFieldsMembers(fields: seq<Field>, exclude: seq<string>)
    ensures forall f :: f in EffectiveFields(fields, exclude) <==> f in fields && f.key !in exclude
  {
    var r, p := EffectiveFields(fields, exclude), KeptPositions(fields, exclude);
    EffectiveFieldsAtKept(fields, exclude);
    KeptPositionsSpec(fields, exclude);
    forall f | f in r
      ensures f in fields && f.key !in exclude
    {
      var k :| 0 <= k < |r| && r[k] == f;
      assert p[k] in p;
    }
    forall f | f in fields && f.key !in exclude
      ensures f in r
    {
      var i :| 0 <= i < |fields| && fields[i] == f;
      assert i in p;
      var k :| 0 <= k < |p| && p[k] == i;
      assert r[k] == f;
    }
  }

  /** A key absent from the list makes no difference to the filter. */
  lemma {:induction false} ExcludeAbsentKey(fields: seq<Field>, exclude: seq<string>, key: string)
    requires forall f :: f in fields ==> f.key != key
    ensures EffectiveFields(fields, exclude + [key]) == EffectiveFields(fields, exclude)
  {
    if |fields| > 0 {
      assert fields[0] in fields;
      ExcludeAbsentKey(fields[1..], exclude, key);
    }
  }

  /**
   * Excluding one more key, held by exactly one requested field, removes that
   * one field and keeps every other kept field in its place.
   */
  lemma ExcludeOneMore(a: seq<Field>, f: Field, b: seq<Field>, exclude: seq<string>)
    requires f.key !in exclude
    requires forall g :: g in a + b ==> g.key != f.key
    ensures EffectiveFields(a + [f] + b, exclude) == EffectiveFields(a, exclude) + [f] + EffectiveFields(b, exclude)
    ensures EffectiveFields(a + [f] + b, exclude + [f.key]) == EffectiveFields(a, exclude) + EffectiveFields(b, exclude)
  {
    var ex := exclude + [f.key];
    assert a + [f] + b == a + ([f] + b);
    assert EffectiveFields(a + [f] + b, exclude) == EffectiveFields(a, exclude) + [f] + EffectiveFields(b, exclude) by {
      EffectiveFieldsAppend(a, [f] + b, exclude);
      EffectiveFieldsAppend([f], b, exclude);
      KeepOne(f, exclude);
    }
    assert EffectiveFields(a + [f] + b, ex) == EffectiveFields(a, exclude) + EffectiveFields(b, exclude) by {
      EffectiveFieldsAppend(a, [f] + b, ex);
      EffectiveFieldsAppend([f], b, ex);
      KeepOne(f, ex);
      assert forall g :: g in a ==> g in a + b;
      assert forall g :: g in b ==> g in a + b;
      ExcludeAbsentKey(a, exclude, f.key);
      ExcludeAbsentKey(b, exclude, f.key);
    }
  }

  /** A single field is kept exactly when its key is not excluded. */
  lemma KeepOne(f: Field, exclude: seq<string>)
    ensures EffectiveFields([f], exclude) == if f.key in exclude then [] else [f]
  {
  }

  /** With an empty exclude list (a caller-supplied one replaces the default) every field is kept. */
  lemma {:induction false} NothingExcluded(fields: seq<Field>)
    ensures EffectiveFields(fields, []) == fields
  {
    if |fields| > 0 {
      NothingExcluded(fields[1..]);
      assert fields == [fields[0]] + fields[1..];
    }
  }
}

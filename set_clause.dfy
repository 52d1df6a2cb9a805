/** The dynamic `UPDATE ... SET` builder that `updateMoodPreset`,
    `updateMoodTrigger` and `updateMoodMap` share: every defined field of
    the update object becomes `key = $k`, numbered from 1 in field order,
    and the row id is bound to the next number. */
module SetClause {
  import opened Common
  import opened Text

  /** A value bound to a query parameter. `SqlNull` is an explicit `null`,
      which is sent; an undefined field is not. */
  datatype SqlValue =
    | SqlNum(n: real)
    | SqlText(s: string)
    | SqlBool(b: bool)
    | SqlRange(lo: int, hi: int)
    | SqlNull

  /** One `[key, value]` pair of `Object.entries`; `None` is `undefined`. */
  datatype Entry<V> = Entry(key: string, value: Option<V>)

  /** The entries whose value is not `undefined`, in order. */
  function Defined<V>(entries: seq<Entry<V>>): (r: seq<Entry<V>>)
    ensures |r| <= |entries|
    ensures forall j :: 0 <= j < |r| ==> r[j].value.Some? && r[j] in entries
    ensures (forall j :: 0 <= j < |entries| ==> entries[j].value.None?) <==> r == []
  {
    if entries == [] then []
    else if entries[0].value.Some? then [entries[0]] + Defined(entries[1..])
    else Defined(entries[1..])
  }

  /** The text `key = $index`. */
  function Assignment(key: string, index: nat): string {
    key + " = $" + NatToString(index)
  }

  lemma DefinedStep<V>(entries: seq<Entry<V>>, i: nat)
    requires i < |entries|
    ensures Defined(entries[..i + 1])
      == Defined(entries[..i]) + (if entries[i].value.Some? then [entries[i]] else [])
    decreases i
  {
    if i > 0 {
      assert entries[..i + 1][1..] == entries[1..][..i];
      assert entries[..i][1..] == entries[1..][..i - 1];
      DefinedStep(entries[1..], i - 1);
    }
  }

  /** `setClause` and `values` number the defined entries `$1..$n` in
      order. */
  ghost predicate Numbered<V>(setClause: seq<string>, values: seq<V>, defined: seq<Entry<V>>) {
    |setClause| == |values| == |defined| &&
    (forall j :: 0 <= j < |setClause| ==> setClause[j] == Assignment(defined[j].key, j + 1)) &&
    (forall j :: 0 <= j < |values| ==> defined[j].value.Some? && values[j] == defined[j].value.value)
  }

  lemma NumberedAppend<V>(setClause: seq<string>, values: seq<V>, defined: seq<Entry<V>>, e: Entry<V>)
    requires Numbered(setClause, values, defined) && e.value.Some?
    ensures Numbered(setClause + [Assignment(e.key, |setClause| + 1)], values + [e.value.value], defined + [e])
  {
  }

  /** The `forEach` over `Object.entries(data)`: `setClause` holds one
      assignment per defined field, numbered `$1..$n` in field order,
      `values` the matching values, and `paramIndex` is `n + 1`. */
  method BuildSetClause<V>(entries: seq<Entry<V>>) returns (setClause: seq<string>, values: seq<V>, paramIndex: nat)
    ensures |setClause| == |values| == |Defined(entries)|
    ensures paramIndex == |setClause| + 1
    ensures forall j :: 0 <= j < |setClause| ==>
      setClause[j] == Assignment(Defined(entries)[j].key, j + 1)
    ensures forall j :: 0 <= j < |values| ==> values[j] == Defined(entries)[j].value.value
  {
    setClause, values, paramIndex := [], [], 1;
    ghost var defined: seq<Entry<V>> := [];
    for i := 0 to |entries|
      invariant defined == Defined(entries[..i])
      invariant paramIndex == |setClause| + 1
      invariant Numbered(setClause, values, defined)
    {
      DefinedStep(entries, i);
      var entry := entries[i];
      if entry.value.Some? {
        NumberedAppend(setClause, values, defined, entry);
        setClause := setClause + [Assignment(entry.key, paramIndex)];
        values := values + [entry.value.value];
        paramIndex := paramIndex + 1;
        defined := defined + [entry];
      }
    }
    assert entries[..|entries|] == entries;
  }

  /** What an update helper does with its builder's output. */
  datatype UpdatePlan<V> =
    | ReturnCurrent
    | RunUpdate(assignments: string, params: seq<V>, idIndex: nat)

  /** An update with no defined field runs no `UPDATE` and returns the row
      as it is; otherwise the assignments are joined with ", " and the id is
      the last parameter, numbered `$(n + 1)`. */
  method PlanUpdate<V>(id: V, entries: seq<Entry<V>>) returns (plan: UpdatePlan<V>)
    ensures plan.ReturnCurrent? <==> Defined(entries) == []
    ensures plan.RunUpdate? ==>
      plan.idIndex == |Defined(entries)| + 1 &&
      |plan.params| == plan.idIndex &&
      plan.params[plan.idIndex - 1] == id &&
      (forall j :: 0 <= j < |Defined(entries)| ==> plan.params[j] == Defined(entries)[j].value.value)
  {
    var setClause, values, paramIndex := BuildSetClause(entries);
    if |setClause| == 0 {
      return ReturnCurrent;
    }
    values := values + [id];
    plan := RunUpdate(Join(setClause, ", "), values, paramIndex);
  }
}

/** The parameterised SQL statements the stores hand to the database plugin,
    and the `field = $k` lists their partial-update functions build. Only the
    statement text and the parameter list are modelled; executing one is not. */
module Sql {
  import opened Common

  datatype Statement = Statement(sql: string, params: seq<JsValue>)

  /** A `Partial<Row>` update object: the keys present, with their values. */
  type Record = map<string, JsValue>

  /** `updates[field]`: `undefined` when the key is absent. */
  function Get(updates: Record, field: string): JsValue {
    if field in updates then updates[field] else Undefined
  }

  function Placeholder(k: int): string {
    "$" + IntToString(k)
  }

  /** `${field} = $${k}`. */
  function Assignment(field: string, k: int): string {
    field + " = " + Placeholder(k)
  }

  /** The assignments of `fields` numbered consecutively from `first`. */
  function Numbered(fields: seq<string>, first: int): (sets: seq<string>)
    ensures |sets| == |fields|
    ensures forall k :: 0 <= k < |fields| ==> sets[k] == Assignment(fields[k], first + k)
  {
    seq(|fields|, k requires 0 <= k < |fields| => Assignment(fields[k], first + k))
  }

  /** `UPDATE ${table} SET ${sets.join(", ")} WHERE id = $${idIndex}`. */
  function UpdateSql(table: string, sets: seq<string>, idIndex: int): string {
    "UPDATE " + table + " SET " + Join(sets, ", ") + " WHERE id = " + Placeholder(idIndex)
  }

  function BoolToInt(b: bool): int {
    if b then 1 else 0
  }

  /** `value ? 1 : 0`. */
  function TruthToNum(v: JsValue): JsValue {
    Num(BoolToInt(Truthy(v)))
  }

  /** The fields of a whitelist that an update object defines, in whitelist order. */
  function DefinedFields(whitelist: seq<string>, updates: Record): seq<string> {
    Filter(whitelist, (f: string) => Get(updates, f) != Undefined)
  }

  /** `a || fallback` on a value of the update object. */
  function Or(v: JsValue, fallback: JsValue): (r: JsValue)
    ensures FallsBack(r, v, fallback)
    ensures Truthy(fallback) ==> Truthy(r)
  {
    if Truthy(v) then v else fallback
  }

  /** What `option || fallback` promises: the option when it is truthy, the fallback otherwise. */
  predicate FallsBack(v: JsValue, option: JsValue, fallback: JsValue) {
    (Truthy(option) ==> v == option) && (!Truthy(option) ==> v == fallback)
  }

  /** `value || null`. */
  function OrNull(v: JsValue): JsValue {
    Or(v, Null)
  }

  function OptionToJs(o: Option<string>): JsValue {
    match o
    case None => Null
    case Some(s) => Str(s)
  }

  /** `DELETE FROM ${table} WHERE id = $1` with the id as its one parameter. */
  function DeleteStatement(table: string, id: string): Statement {
    Statement("DELETE FROM " + table + " WHERE id = $1", [Str(id)])
  }

  /** A defined field of the whitelist is named exactly when the update object
      defines it, and the names come out in whitelist order. */
  lemma DefinedFieldsSpec(whitelist: seq<string>, updates: Record, front: seq<string>, back: seq<string>)
    ensures forall f :: f in DefinedFields(whitelist, updates) <==> f in whitelist && Get(updates, f) != Undefined
    ensures DefinedFields(front + back, updates) == DefinedFields(front, updates) + DefinedFields(back, updates)
    ensures |DefinedFields(whitelist, updates)| <= |whitelist|
  {
    var p := (f: string) => Get(updates, f) != Undefined;
    FilterMembers(whitelist, p);
    FilterAppend(front, back, p);
    FilterPartition(whitelist, p, (f: string) => !p(f));
  }

  function FieldValues(fields: seq<string>, updates: Record): (vs: seq<JsValue>)
    ensures |vs| == |fields|
    ensures forall k :: 0 <= k < |fields| ==> vs[k] == Get(updates, fields[k])
  {
    seq(|fields|, k requires 0 <= k < |fields| => Get(updates, fields[k]))
  }

  /** `UPDATE ${table} SET f1 = $1, …, fn = $n WHERE id = $(n+1)` with the
      values of f1..fn and then the id as parameters. */
  function PartialUpdate(table: string, fields: seq<string>, values: seq<JsValue>, id: string): Statement {
    Statement(UpdateSql(table, Numbered(fields, 1), |fields| + 1), values + [Str(id)])
  }

  /** A partial update restricted to a whitelist: no statement when the update
      object defines none of its fields. */
  function WhitelistUpdate(table: string, whitelist: seq<string>, id: string, updates: Record): Option<Statement> {
    var fs := DefinedFields(whitelist, updates);
    if fs == [] then None else Some(PartialUpdate(table, fs, FieldValues(fs, updates), id))
  }

  /** The statement names exactly the defined whitelisted fields (a null value
      counts as defined) in whitelist order, numbers them 1..n, carries their
      values and puts the id at $(n+1); and there is one exactly when some
      whitelisted field is defined. */
  lemma WhitelistUpdateSpec(table: string, whitelist: seq<string>, id: string, updates: Record)
    ensures var fs := DefinedFields(whitelist, updates);
            && (WhitelistUpdate(table, whitelist, id, updates).None? <==> forall f :: f in whitelist ==> Get(updates, f) == Undefined)
            && (forall f :: f in fs <==> f in whitelist && Get(updates, f) != Undefined)
            && (forall f :: f in whitelist && Get(updates, f) == Null ==> f in fs)
            && (WhitelistUpdate(table, whitelist, id, updates).Some? ==>
                  var st := WhitelistUpdate(table, whitelist, id, updates).value;
                  && |st.params| == |fs| + 1
                  && st.params[|fs|] == Str(id)
                  && (forall k :: 0 <= k < |fs| ==> st.params[k] == Get(updates, fs[k]) != Undefined)
                  && st.sql == UpdateSql(table, Numbered(fs, 1), |fs| + 1))
  {
    DefinedFieldsSpec(whitelist, updates, [], []);
    var fs := DefinedFields(whitelist, updates);
    if fs != [] {
      assert fs[0] in fs;
      WhitelistSome(table, whitelist, id, updates);
    }
  }

  lemma WhitelistSome(table: string, whitelist: seq<string>, id: string, updates: Record)
    requires DefinedFields(whitelist, updates) != []
    requires forall f :: f in DefinedFields(whitelist, updates) ==> Get(updates, f) != Undefined
    ensures var fs := DefinedFields(whitelist, updates);
            var st := WhitelistUpdate(table, whitelist, id, updates).value;
            && |st.params| == |fs| + 1
            && st.params[|fs|] == Str(id)
            && (forall k :: 0 <= k < |fs| ==> st.params[k] == Get(updates, fs[k]) != Undefined)
            && st.sql == UpdateSql(table, Numbered(fs, 1), |fs| + 1)
  {
    var fs := DefinedFields(whitelist, updates);
    var st := PartialUpdate(table, fs, FieldValues(fs, updates), id);
    assert WhitelistUpdate(table, whitelist, id, updates) == Some(st);
    forall k | 0 <= k < |fs| ensures st.params[k] == Get(updates, fs[k]) != Undefined {
      assert fs[k] in fs;
    }
  }

  /** An update object with one defined key, which occurs once in the whitelist, names only that key. */
  lemma {:induction false} DefinedSingle(before: seq<string>, key: string, after: seq<string>, v: JsValue)
    requires v != Undefined && key !in before && key !in after
    ensures DefinedFields(before + [key] + after, map[key := v]) == [key]
  {
    var u := map[key := v];
    var p := (f: string) => Get(u, f) != Undefined;
    FilterAppend(before + [key], after, p);
    FilterAppend(before, [key], p);
    FilterDropsAll(before, p);
    FilterDropsAll(after, p);
  }

  /** One more whitelisted field: it joins the defined ones when the update object defines it. */
  lemma DefinedStep(fields: seq<string>, i: nat, updates: Record)
    requires i < |fields|
    ensures DefinedFields(fields[..i + 1], updates)
            == DefinedFields(fields[..i], updates) + (if Get(updates, fields[i]) != Undefined then [fields[i]] else [])
  {
    assert fields[..i + 1] == fields[..i] + [fields[i]];
    FilterAppend(fields[..i], [fields[i]], (f: string) => Get(updates, f) != Undefined);
  }

  /** Numbering one more field gives it the next number. */
  lemma NumberedSnoc(fields: seq<string>, f: string, first: int)
    ensures Numbered(fields + [f], first) == Numbered(fields, first) + [Assignment(f, first + |fields|)]
  {
  }

  lemma FieldValuesSnoc(fields: seq<string>, f: string, updates: Record)
    ensures FieldValues(fields + [f], updates) == FieldValues(fields, updates) + [Get(updates, f)]
  {
  }

  /** A whitelisted update of one key is the one-assignment statement. */
  lemma WhitelistSingle(table: string, before: seq<string>, key: string, after: seq<string>, v: JsValue, id: string)
    requires v != Undefined && key !in before && key !in after
    ensures WhitelistUpdate(table, before + [key] + after, id, map[key := v]) == Some(PartialUpdate(table, [key], [v], id))
  {
    DefinedSingle(before, key, after, v);
    assert FieldValues([key], map[key := v]) == [v];
  }

  /** Distinct placeholder numbers give distinct placeholders. */
  lemma {:induction false} PlaceholderInjective(j: nat, k: nat)
    requires Placeholder(j) == Placeholder(k)
    ensures j == k
  {
    NatToStringValue(j);
    NatToStringValue(k);
    assert NatToString(j) == Placeholder(j)[1..];
  }
}

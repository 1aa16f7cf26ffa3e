/**
 * The custom field values set on an issue.
 *
 * A field is named by the caller and identified on the server by an id; the collection resolves
 * names against the fields the server offers in its current context (editing the issue, or
 * performing one workflow action on it), comparing names without regard to case.
 */
module CustomFields {
  import opened Wrappers
  import opened Text
  import Issues

  /** A field as the server describes it. */
  datatype Field = Field(id: string, name: string)

  /** A value set on the issue for one custom field. */
  datatype CustomFieldValue = CustomFieldValue(id: string, name: string, values: seq<string>)

  /** Which of the server's field lists names are resolved against. */
  datatype Context = ForEditContext | ForActionContext(actionId: string)

  /** Thrown (as `InvalidOperationException`) when no offered field has the name. */
  datatype FieldError = FieldNotFound(name: string, context: Context)

  function NameMatches(fold: char -> char, name: string): Field -> bool
  {
    (f: Field) => EqualsIgnoreCase(fold, f.name, name)
  }

  /** The id of the first offered field whose name equals `name` up to case. */
  function ResolveFieldId(offered: seq<Field>, fold: char -> char, name: string, context: Context): (r: Result<string, FieldError>)
    ensures r.Failure? <==> forall j :: 0 <= j < |offered| ==> !EqualsIgnoreCase(fold, offered[j].name, name)
    ensures r.Failure? ==> r.error == FieldNotFound(name, context)
    ensures r.Success? ==> exists i :: 0 <= i < |offered| && EqualsIgnoreCase(fold, offered[i].name, name)
                                       && r.value == offered[i].id
                                       && forall j :: 0 <= j < i ==> !EqualsIgnoreCase(fold, offered[j].name, name)
  {
    var k := FirstIndex(offered, NameMatches(fold, name));
    if k.None? then Failure(FieldNotFound(name, context))
    else Success(offered[k.value].id)
  }

  /** Names that are equal up to case resolve alike. */
  lemma ResolveIgnoresCase(offered: seq<Field>, fold: char -> char, name1: string, name2: string, context: Context)
    requires EqualsIgnoreCase(fold, name1, name2)
    ensures ResolveFieldId(offered, fold, name1, context).Success? == ResolveFieldId(offered, fold, name2, context).Success?
    ensures ResolveFieldId(offered, fold, name1, context).Success? ==>
              ResolveFieldId(offered, fold, name1, context).value == ResolveFieldId(offered, fold, name2, context).value
  {
    forall j | 0 <= j < |offered|
      ensures EqualsIgnoreCase(fold, offered[j].name, name1) == EqualsIgnoreCase(fold, offered[j].name, name2)
    {
      EqualsIgnoreCaseIsEquivalence(fold, offered[j].name, name1, name2);
      EqualsIgnoreCaseIsEquivalence(fold, offered[j].name, name2, name1);
      EqualsIgnoreCaseIsEquivalence(fold, name1, name2, offered[j].name);
    }
    var r1, r2 := ResolveFieldId(offered, fold, name1, context), ResolveFieldId(offered, fold, name2, context);
    if r1.Success? {
      var i1 :| 0 <= i1 < |offered| && EqualsIgnoreCase(fold, offered[i1].name, name1) && r1.value == offered[i1].id
                && forall j :: 0 <= j < i1 ==> !EqualsIgnoreCase(fold, offered[j].name, name1);
      var i2 :| 0 <= i2 < |offered| && EqualsIgnoreCase(fold, offered[i2].name, name2) && r2.value == offered[i2].id
                && forall j :: 0 <= j < i2 ==> !EqualsIgnoreCase(fold, offered[j].name, name2);
      assert i1 == i2;
    }
  }

  /** The first value whose id is `id`, if any. */
  function Lookup(items: seq<CustomFieldValue>, id: string): (r: Option<CustomFieldValue>)
    ensures r.None? <==> forall j :: 0 <= j < |items| ==> items[j].id != id
    ensures r.Some? ==> exists i :: 0 <= i < |items| && items[i] == r.value && r.value.id == id
                                    && forall j :: 0 <= j < i ==> items[j].id != id
  {
    var k := FirstIndex(items, (v: CustomFieldValue) => v.id == id);
    if k.None? then None else Some(items[k.value])
  }

  /** A value appended after values of other ids is the one found for its id. */
  lemma {:induction false} LookupAfterAppend(items: seq<CustomFieldValue>, v: CustomFieldValue)
    ensures Lookup(items + [v], v.id) == (if Lookup(items, v.id).Some? then Lookup(items, v.id) else Some(v))
  {
    var all := items + [v];
    if Lookup(items, v.id).None? {
      assert forall j :: 0 <= j < |items| ==> all[j] == items[j];
      assert all[|items|] == v;
    } else {
      assert forall j :: 0 <= j < |items| ==> all[j] == items[j];
    }
  }

  /** Appending a value leaves the value found for every other id as it was. */
  lemma LookupOtherAfterAppend(items: seq<CustomFieldValue>, v: CustomFieldValue, id: string)
    requires id != v.id
    ensures Lookup(items + [v], id) == Lookup(items, id)
  {
    var all := items + [v];
    assert forall j :: 0 <= j < |items| ==> all[j] == items[j];
  }

  /** The wire form of a collection: one field value per item, in order. */
  function RemoteFields(items: seq<CustomFieldValue>): (r: seq<Issues.RemoteFieldValue>)
    ensures |r| == |items|
    ensures forall i :: 0 <= i < |items| ==> r[i].id == items[i].id
    ensures forall i :: 0 <= i < |items| ==>
              |r[i].values| == |items[i].values|
              && forall k :: 0 <= k < |items[i].values| ==> r[i].values[k] == Some(items[i].values[k])
  {
    if items == [] then []
    else [Issues.RemoteFieldValue(items[0].id, SomeAll(items[0].values))] + RemoteFields(items[1..])
  }

  function SomeAll(vs: seq<string>): (r: seq<Option<string>>)
    ensures |r| == |vs| && forall k :: 0 <= k < |vs| ==> r[k] == Some(vs[k])
  {
    if vs == [] then [] else [Some(vs[0])] + SomeAll(vs[1..])
  }

  /**
   * `CustomFieldValueCollection`. The server's field lists are fixed answers: `forEdit` for the
   * issue's edit screen, `forAction(actionId)` for an action's screen.
   */
  class CustomFieldValueCollection {
    const forEdit: seq<Field>
    const forAction: string -> seq<Field>
    const fold: char -> char
    var items: seq<CustomFieldValue>
    var context: Context

    function Offered(): seq<Field>
      reads this
    {
      match context
      case ForEditContext => forEdit
      case ForActionContext(a) => forAction(a)
    }

    /** The id a name resolves to in the current context. */
    function FieldId(name: string): Result<string, FieldError>
      reads this
    {
      ResolveFieldId(Offered(), fold, name, context)
    }

    /** A collection over `list`, operating for edit. */
    constructor (forEdit: seq<Field>, forAction: string -> seq<Field>, fold: char -> char, list: seq<CustomFieldValue> := [])
      ensures this.forEdit == forEdit && this.forAction == forAction && this.fold == fold
      ensures items == list && context == ForEditContext
    {
      this.forEdit, this.forAction, this.fold := forEdit, forAction, fold;
      items := list;
      context := ForEditContext;
    }

    /** `Add(name, values)`: appends one value under the resolved id, or fails and changes nothing. */
    method Add(name: string, values: seq<string>) returns (r: Result<CustomFieldValueCollection, FieldError>)
      modifies this
      ensures context == old(context)
      ensures old(FieldId(name)).Failure? ==> r == Failure(old(FieldId(name)).error) && items == old(items)
      ensures old(FieldId(name)).Success? ==>
                r == Success(this) && items == old(items) + [CustomFieldValue(old(FieldId(name)).value, name, values)]
    {
      var id := FieldId(name);
      if id.Failure? {
        return Failure(id.error);
      }
      items := items + [CustomFieldValue(id.value, name, values)];
      r := Success(this);
    }

    /** `Add(name, value)`: a single value. */
    method AddValue(name: string, value: string) returns (r: Result<CustomFieldValueCollection, FieldError>)
      modifies this
      ensures context == old(context)
      ensures old(FieldId(name)).Failure? ==> r == Failure(old(FieldId(name)).error) && items == old(items)
      ensures old(FieldId(name)).Success? ==>
                r == Success(this) && items == old(items) + [CustomFieldValue(old(FieldId(name)).value, name, [value])]
    {
      r := Add(name, [value]);
    }

    /** `AddArray(name, values...)`. */
    method AddArray(name: string, values: seq<string>) returns (r: Result<CustomFieldValueCollection, FieldError>)
      modifies this
      ensures context == old(context)
      ensures old(FieldId(name)).Failure? ==> r == Failure(old(FieldId(name)).error) && items == old(items)
      ensures old(FieldId(name)).Success? ==>
                r == Success(this) && items == old(items) + [CustomFieldValue(old(FieldId(name)).value, name, values)]
    {
      r := Add(name, values);
    }

    /** The indexer: the first value whose id the name resolves to, none when none was set. */
    method Get(name: string) returns (r: Result<Option<CustomFieldValue>, FieldError>)
      ensures FieldId(name).Failure? ==> r == Failure(FieldId(name).error)
      ensures FieldId(name).Success? ==> r.Success? && r.value == Lookup(items, FieldId(name).value)
    {
      var id := FieldId(name);
      if id.Failure? {
        return Failure(id.error);
      }
      r := Success(Lookup(items, id.value));
    }

    /** `ForEdit`: later names resolve against the edit screen; the values stay. */
    method ForEdit() returns (r: CustomFieldValueCollection)
      modifies this
      ensures r == this && context == ForEditContext && items == old(items)
    {
      context := ForEditContext;
      r := this;
    }

    /** `ForAction(actionId)`: later names resolve against that action's screen; the values stay. */
    method ForAction(actionId: string) returns (r: CustomFieldValueCollection)
      modifies this
      ensures r == this && context == ForActionContext(actionId) && items == old(items)
    {
      context := ForActionContext(actionId);
      r := this;
    }

    /** `GetRemoteFields`. */
    method GetRemoteFields() returns (r: seq<Issues.RemoteFieldValue>)
      ensures r == RemoteFields(items)
    {
      r := RemoteFields(items);
    }
  }

  /** After adding a field not yet set, looking its name up again finds exactly what was added. */
  lemma AddThenGet(items: seq<CustomFieldValue>, id: string, name: string, values: seq<string>)
    requires Lookup(items, id).None?
    ensures Lookup(items + [CustomFieldValue(id, name, values)], id) == Some(CustomFieldValue(id, name, values))
  {
    LookupAfterAppend(items, CustomFieldValue(id, name, values));
  }
}

/** The common model base (backend/app/models/base.py): every table carries
    `id`, `created_at` and `updated_at`; `to_dict` maps each column to its
    value and `update_from_dict` sets every key that names an attribute.
    A model instance is an object whose attribute values live in a map. */
module BaseModel {
  import opened Common

  /** The columns `TimestampMixin` gives every model. */
  const TimestampColumns: seq<string> := ["id", "created_at", "updated_at"]

  /** `data` laid over `values`: a key naming an attribute takes its new
      value, every other key of `data` is ignored. */
  function Overlay(values: map<string, Value>, attributes: set<string>, data: map<string, Value>): (r: map<string, Value>)
    requires values.Keys == attributes
    ensures r.Keys == attributes
  {
    map a | a in attributes :: if a in data then data[a] else values[a]
  }

  /** Every attribute named in `data` is set to the given value. */
  lemma OverlaySets(values: map<string, Value>, attributes: set<string>, data: map<string, Value>, a: string)
    requires values.Keys == attributes && a in attributes && a in data
    ensures Overlay(values, attributes, data)[a] == data[a]
  {
  }

  /** Attributes absent from `data` keep their values. */
  lemma OverlayKeeps(values: map<string, Value>, attributes: set<string>, data: map<string, Value>, a: string)
    requires values.Keys == attributes && a in attributes && a !in data
    ensures Overlay(values, attributes, data)[a] == values[a]
  {
  }

  /** Keys naming no attribute have no effect. */
  lemma OverlayIgnoresUnknown(values: map<string, Value>, attributes: set<string>, data: map<string, Value>)
    requires values.Keys == attributes
    ensures Overlay(values, attributes, data) == Overlay(values, attributes, map k | k in data && k in attributes :: data[k])
  {
  }

  /** Applying the same update twice is applying it once. */
  lemma OverlayIdempotent(values: map<string, Value>, attributes: set<string>, data: map<string, Value>)
    requires values.Keys == attributes
    ensures Overlay(Overlay(values, attributes, data), attributes, data) == Overlay(values, attributes, data)
  {
  }

  /** Two updates in a row are one update with the later values winning. */
  lemma OverlayTwice(values: map<string, Value>, attributes: set<string>, d1: map<string, Value>, d2: map<string, Value>)
    requires values.Keys == attributes
    ensures Overlay(Overlay(values, attributes, d1), attributes, d2) == Overlay(values, attributes, d1 + d2)
  {
  }

  /** The dictionary of a row: one entry per column, with its value. */
  function ColumnDict(columns: seq<string>, values: map<string, Value>): (r: map<string, Value>)
    requires forall c :: c in columns ==> c in values
    ensures r.Keys == set c | c in columns
    ensures forall c :: c in columns ==> r[c] == values[c]
  {
    map c | c in columns :: values[c]
  }

  /** After an update, a column's entry holds the sent value when `data`
      names it and the old one otherwise. */
  lemma ColumnDictAfterOverlay(columns: seq<string>, values: map<string, Value>, attributes: set<string>,
                               data: map<string, Value>, c: string)
    requires values.Keys == attributes && (forall x :: x in columns ==> x in attributes) && c in columns
    ensures ColumnDict(columns, Overlay(values, attributes, data))[c] == if c in data then data[c] else values[c]
  {
  }

  /** An instance of a model class: its table's columns, the names
      `hasattr` accepts (columns, relationships and methods) and the
      current value of each. */
  class ModelInstance {
    const columns: seq<string>
    const attributes: set<string>
    var values: map<string, Value>

    ghost predicate Valid()
      reads this
    {
      && (forall i :: 0 <= i < |TimestampColumns| ==> TimestampColumns[i] in columns)
      && (forall c :: c in columns ==> c in attributes)
      && values.Keys == attributes
    }

    /** An instance of a table whose own columns are `own`, after the
        mixin's, with further attributes `extra`. */
    constructor (own: seq<string>, extra: set<string>, init: map<string, Value>)
      requires init.Keys == (set c | c in TimestampColumns + own) + extra
      ensures Valid()
      ensures columns == TimestampColumns + own && attributes == init.Keys && values == init
    {
      columns := TimestampColumns + own;
      attributes := init.Keys;
      values := init;
      new;
      assert forall i :: 0 <= i < |TimestampColumns| ==> columns[i] == TimestampColumns[i];
    }

    /** `to_dict`. */
    function ToDict(): (r: map<string, Value>)
      reads this
      requires Valid()
      ensures r == ColumnDict(columns, values)
      ensures forall i :: 0 <= i < |TimestampColumns| ==> TimestampColumns[i] in r
    {
      ColumnDict(columns, values)
    }

    /** `update_from_dict`, one key at a time. */
    method UpdateFromDict(data: map<string, Value>)
      requires Valid()
      modifies this
      ensures Valid()
      ensures values == Overlay(old(values), attributes, data)
    {
      var pending := data.Keys;
      ghost var done: map<string, Value> := map[];
      while pending != {}
        invariant Valid()
        invariant pending <= data.Keys && done.Keys == data.Keys - pending
        invariant forall k :: k in done ==> done[k] == data[k]
        invariant values == Overlay(old(values), attributes, done)
        decreases pending
      {
        var key :| key in pending;
        if key in attributes {
          values := values[key := data[key]];
        }
        done := done[key := data[key]];
        pending := pending - {key};
      }
      assert done == data;
    }
  }
}

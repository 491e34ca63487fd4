/** What merged and nested overrides hold, path by path: the last word on a path wins. */
module ConfigPaths {
  import opened Common
  import opened ConfigMerge

  /** What stands at a path. */
  function Get(v: Value, path: seq<string>): Option<Value>
    decreases |path|
  {
    if path == [] then Some(v)
    else if v.Node? && path[0] in v.fields then Get(v.fields[path[0]], path[1..])
    else None
  }

  /** `v` says nothing about the path: some mapping on the way lacks the next key. */
  predicate Silent(v: Value, path: seq<string>)
    decreases |path|
  {
    path != [] && v.Node? && (path[0] !in v.fields || Silent(v.fields[path[0]], path[1..]))
  }

  ghost predicate Holds(v: Value, path: seq<string>, text: string) {
    Get(v, path) == Some(Scalar(text))
  }

  /** A merged config holds a scalar at a path iff the overlay does, or the base does and the overlay
      says nothing about the path. */
  lemma {:induction false} MergedPath(x: Value, y: Value, path: seq<string>, text: string)
    ensures Holds(Merge(x, y), path, text) <==> Holds(y, path, text) || (Silent(y, path) && Holds(x, path, text))
    decreases |path|
  {
    if path != [] && x.Node? && y.Node? {
      var k := path[0];
      MergedAt(x.fields, y.fields, k);
      if k in x.fields && k in y.fields {
        MergedPath(x.fields[k], y.fields[k], path[1..], text);
      }
    }
  }

  /** One item: its key's segments lead to its value, and it says nothing elsewhere. */
  lemma {:induction false} WrappedPath(parts: seq<string>, leaf: Value, path: seq<string>)
    ensures parts <= path ==> Get(Wrap(parts, leaf), path) == Get(leaf, path[|parts|..])
    ensures parts <= path ==> (Silent(Wrap(parts, leaf), path) <==> Silent(leaf, path[|parts|..]))
    ensures !(parts <= path) && !(path <= parts) ==> Silent(Wrap(parts, leaf), path)
    ensures path <= parts && path != parts ==> Get(Wrap(parts, leaf), path).Some? && Get(Wrap(parts, leaf), path).value.Node?
    decreases |path|
  {
    if parts != [] && path != [] && parts[0] == path[0] {
      WrappedPath(parts[1..], leaf, path[1..]);
      assert parts <= path <==> parts[1..] <= path[1..];
      assert path <= parts <==> path[1..] <= parts[1..];
      assert parts <= path ==> path[|parts|..] == path[1..][|parts| - 1..];
    } else if parts == [] {
      assert path[|parts|..] == path;
    }
  }

  /** The scalar a list of items puts at a path, on top of `nested`. */
  ghost predicate LastWord(fields: seq<Field>, nested: Value, path: seq<string>, text: string) {
    || (exists i :: 0 <= i < |fields| && Says(fields, i, path, text) && SilentAfter(fields, i + 1, path))
    || (Holds(nested, path, text) && SilentAfter(fields, 0, path))
  }

  ghost predicate Says(fields: seq<Field>, i: nat, path: seq<string>, text: string)
    requires i < |fields|
  {
    NestField(fields[i]).Ok? && Holds(NestField(fields[i]).value, path, text)
  }

  /** From the i-th on no item says anything about the path. */
  ghost predicate SilentAfter(fields: seq<Field>, i: nat, path: seq<string>) {
    forall j :: i <= j < |fields| ==> NestField(fields[j]).Ok? && Silent(NestField(fields[j]).value, path)
  }

  lemma {:induction false} NestedPath(fields: seq<Field>, nested: Value, path: seq<string>, text: string)
    requires NestAll(fields, nested).Ok?
    ensures Holds(NestAll(fields, nested).value, path, text) <==> LastWord(fields, nested, path, text)
    decreases |fields|
  {
    if fields != [] {
      var v, rest := NestField(fields[0]).value, fields[1..];
      NestedPath(rest, Merge(nested, v), path, text);
      MergedPath(nested, v, path, text);
      ShiftWord(fields, nested, path, text);
    }
  }

  /** The first item as part of what the others are put on top of. */
  lemma {:induction false} ShiftWord(fields: seq<Field>, nested: Value, path: seq<string>, text: string)
    requires fields != [] && NestField(fields[0]).Ok?
    ensures var v, rest := NestField(fields[0]).value, fields[1..];
      LastWord(fields, nested, path, text) <==>
        || (exists i :: 0 <= i < |rest| && Says(rest, i, path, text) && SilentAfter(rest, i + 1, path))
        || ((Holds(v, path, text) || (Silent(v, path) && Holds(nested, path, text))) && SilentAfter(rest, 0, path))
  {
    var rest := fields[1..];
    assert forall j :: 0 <= j < |rest| ==> rest[j] == fields[j + 1];
    forall i: nat | i <= |rest| ensures SilentAfter(rest, i, path) <==> SilentAfter(fields, i + 1, path) {
      assert forall j :: i + 1 <= j < |fields| ==> fields[j] == rest[j - 1];
    }
    assert SilentAfter(fields, 0, path) <==> Silent(NestField(fields[0]).value, path) && SilentAfter(fields, 1, path);
    assert Says(fields, 0, path, text) <==> Holds(NestField(fields[0]).value, path, text);
    if i :| 0 <= i < |fields| && Says(fields, i, path, text) && SilentAfter(fields, i + 1, path) {
      if i > 0 {
        assert Says(rest, i - 1, path, text) && SilentAfter(rest, i, path);
      } else {
        assert SilentAfter(rest, 0, path);
      }
    }
    if i :| 0 <= i < |rest| && Says(rest, i, path, text) && SilentAfter(rest, i + 1, path) {
      assert Says(fields, i + 1, path, text) && SilentAfter(fields, i + 2, path);
    }
  }

  /** Accepted overrides hold a scalar at a path iff it is the one that the last item to say anything
      about the path puts there, an item's dotted key leading to its value segment by segment. */
  lemma {:induction false} LastItemWins(fields: seq<Field>, path: seq<string>, text: string)
    requires Nest(fields).Ok?
    ensures Holds(Nest(fields).value, path, text) <==>
      exists i :: 0 <= i < |fields| && Says(fields, i, path, text) && SilentAfter(fields, i + 1, path)
  {
    NestedPath(fields, Node(map[]), path, text);
  }

  /** What one item with a scalar says. */
  lemma {:induction false} ScalarItem(key: string, written: string, path: seq<string>, text: string)
    ensures NestField(Field(key, RawScalar(written))).Ok? ==>
      && (Says([Field(key, RawScalar(written))], 0, path, text) <==> path == Split(key) && text == written)
      && (SilentAfter([Field(key, RawScalar(written))], 0, path) <==> !(path <= Split(key)) && !(Split(key) <= path))
  {
    var f, parts, leaf := Field(key, RawScalar(written)), Split(key), Scalar(written);
    WrappedPath(parts, leaf, path);
    assert [f][0] == f;
    if parts <= path {
      assert path == parts || path[|parts|..] != [];
    } else if !(path <= parts) {
      NothingThere(Wrap(parts, leaf), path);
    }
    if path <= parts {
      NotSilentInside(parts, leaf, path);
    }
  }

  /** What one item with a mapping says: what the mapping says, under its key. */
  lemma {:induction false} MappingItem(key: string, fields: seq<Field>, path: seq<string>, text: string)
    requires NestField(Field(key, RawNode(fields))).Ok?
    ensures Nest(fields).Ok?
    ensures Holds(NestField(Field(key, RawNode(fields))).value, Split(key) + path, text) <==> Holds(Nest(fields).value, path, text)
  {
    WrappedPath(Split(key), Nest(fields).value, Split(key) + path);
    assert (Split(key) + path)[|Split(key)|..] == path;
  }

  lemma {:induction false} NothingThere(v: Value, path: seq<string>)
    requires Silent(v, path)
    ensures Get(v, path).None?
    decreases |path|
  {
    if path[0] in v.fields {
      NothingThere(v.fields[path[0]], path[1..]);
    }
  }

  lemma {:induction false} NotSilentInside(parts: seq<string>, leaf: Value, path: seq<string>)
    requires path <= parts
    ensures path != parts ==> !Silent(Wrap(parts, leaf), path)
    decreases |path|
  {
    if path != [] && path != parts {
      NotSilentInside(parts[1..], leaf, path[1..]);
    }
  }
}

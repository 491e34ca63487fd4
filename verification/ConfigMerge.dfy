/** `deep_merge` and `nest_overrides` of regression/t4/gateway.py. */
module ConfigMerge {
  import opened Common

  /** A config value: a mapping, or anything else as opaque text. */
  datatype Value = Scalar(text: string) | Node(fields: map<string, Value>)

  // ---------------------------------------------------------------- deep_merge

  /** What ends up under a key that held `x` once `y` is merged over it. */
  function Merge(x: Value, y: Value): Value
    decreases y
  {
    if x.Node? && y.Node? then
      Node(map k | k in x.fields.Keys + y.fields.Keys ::
        if k in x.fields && k in y.fields then Merge(x.fields[k], y.fields[k])
        else if k in y.fields then y.fields[k] else x.fields[k])
    else y
  }

  lemma {:induction false} SameMap(a: map<string, Value>, b: map<string, Value>)
    requires forall k :: k in a <==> k in b
    requires forall k :: k in a ==> a[k] == b[k]
    ensures a == b
  {
    assert a.Keys == b.Keys;
  }

  /** What a merged mapping holds under each key. */
  lemma {:induction false} MergedAt(x: map<string, Value>, y: map<string, Value>, k: string)
    ensures k in Merge(Node(x), Node(y)).fields <==> k in x || k in y
    ensures k in x && k in y ==> Merge(Node(x), Node(y)).fields[k] == Merge(x[k], y[k])
    ensures k !in x && k in y ==> Merge(Node(x), Node(y)).fields[k] == y[k]
    ensures k in x && k !in y ==> Merge(Node(x), Node(y)).fields[k] == x[k]
  {
  }

  /** What a key of `over` ends up with. */
  function Overlaid(base: map<string, Value>, over: map<string, Value>, k: string): Value
    requires k in over
  {
    if k in base then Merge(base[k], over[k]) else over[k]
  }

  lemma {:induction false} MergedIs(base: map<string, Value>, over: map<string, Value>, merged: map<string, Value>)
    requires forall k :: k in merged <==> k in base || k in over
    requires forall k :: k in base && k !in over ==> merged[k] == base[k]
    requires forall k :: k in over ==> merged[k] == Overlaid(base, over, k)
    ensures Node(merged) == Merge(Node(base), Node(over))
  {
    var target := Merge(Node(base), Node(over)).fields;
    forall k
      ensures (k in merged <==> k in target) && (k in merged ==> merged[k] == target[k])
    {
      MergedAt(base, over, k);
    }
    SameMap(merged, target);
  }

  method DeepMerge(base: map<string, Value>, over: map<string, Value>) returns (merged: map<string, Value>)
    ensures Node(merged) == Merge(Node(base), Node(over))
    decreases Node(over)
  {
    merged := base;
    var todo := over.Keys;
    while todo != {}
      invariant todo <= over.Keys
      invariant forall k :: k in merged <==> k in base || (k in over && k !in todo)
      invariant forall k :: k in base && (k !in over || k in todo) ==> merged[k] == base[k]
      invariant forall k :: k in over && k !in todo ==> merged[k] == Overlaid(base, over, k)
      decreases |todo|
    {
      var key :| key in todo;
      var value := over[key];
      if key in merged && merged[key].Node? && value.Node? {
        var inner := DeepMerge(merged[key].fields, value.fields);
        value := Node(inner);
      }
      assert value == Overlaid(base, over, key);
      merged, todo := merged[key := value], todo - {key};
    }
    MergedIs(base, over, merged);
  }

  /** Overlaying the same overrides twice changes nothing. */
  lemma {:induction false} MergeTwice(x: Value, y: Value)
    ensures Merge(Merge(x, y), y) == Merge(x, y)
    decreases y
  {
    MergeSelf(y);
    if x.Node? && y.Node? {
      forall k | k in x.fields && k in y.fields
        ensures Merge(Merge(x.fields[k], y.fields[k]), y.fields[k]) == Merge(x.fields[k], y.fields[k])
      {
        MergeTwice(x.fields[k], y.fields[k]);
      }
      forall k | k in y.fields && k !in x.fields
        ensures Merge(y.fields[k], y.fields[k]) == y.fields[k]
      {
        MergeSelf(y.fields[k]);
      }
    }
  }

  lemma {:induction false} MergeSelf(y: Value)
    ensures Merge(y, y) == y
    decreases y
  {
    if y.Node? {
      forall k | k in y.fields
        ensures Merge(y.fields[k], y.fields[k]) == y.fields[k]
      {
        MergeSelf(y.fields[k]);
      }
    }
  }

  /** `y` already says everything `x` does: it has the keys of `x` wherever both are mappings. */
  ghost predicate Absorbed(x: Value, y: Value)
    decreases y
  {
    x.Node? && y.Node? ==> forall k :: k in x.fields ==> k in y.fields && Absorbed(x.fields[k], y.fields[k])
  }

  lemma {:induction false} AbsorbedMeans(x: Value, y: Value)
    ensures Merge(x, y) == y <==> Absorbed(x, y)
    decreases y
  {
    if x.Node? && y.Node? {
      forall k | k in x.fields && k in y.fields
        ensures Merge(x.fields[k], y.fields[k]) == y.fields[k] <==> Absorbed(x.fields[k], y.fields[k])
      {
        AbsorbedMeans(x.fields[k], y.fields[k]);
      }
      AbsorbedByKey(x, y);
    }
  }

  lemma {:induction false} AbsorbedByKey(x: Value, y: Value)
    requires x.Node? && y.Node?
    ensures Merge(x, y) == y <==>
      forall k :: k in x.fields ==> k in y.fields && Merge(x.fields[k], y.fields[k]) == y.fields[k]
  {
    var m := Merge(x, y).fields;
    forall k
      ensures k in m <==> k in x.fields || k in y.fields
      ensures k in x.fields && k in y.fields ==> m[k] == Merge(x.fields[k], y.fields[k])
      ensures k !in x.fields && k in y.fields ==> m[k] == y.fields[k]
    {
      MergedAt(x.fields, y.fields, k);
    }
    if forall k :: k in x.fields ==> k in y.fields && Merge(x.fields[k], y.fields[k]) == y.fields[k] {
      SameMap(m, y.fields);
    }
  }

  /** The merge of the three does not depend on the bracketing. */
  ghost predicate Same(x: Value, y: Value, z: Value) {
    Merge(Merge(x, y), z) == Merge(x, Merge(y, z))
  }

  /** Wherever the middle operand puts a scalar between two mappings, the last one absorbs the first. */
  ghost predicate Associates(x: Value, y: Value, z: Value)
    decreases z
  {
    x.Node? && z.Node? ==>
      if y.Scalar? then Absorbed(x, z)
      else forall k :: k in x.fields && k in y.fields && k in z.fields ==> Associates(x.fields[k], y.fields[k], z.fields[k])
  }

  lemma {:induction false} MergeAssociates(x: Value, y: Value, z: Value)
    ensures Same(x, y, z) <==> Associates(x, y, z)
    decreases z
  {
    if x.Node? && z.Node? {
      if y.Scalar? {
        AbsorbedMeans(x, z);
      } else {
        forall k | k in x.fields && k in y.fields && k in z.fields
          ensures Same(x.fields[k], y.fields[k], z.fields[k]) <==> Associates(x.fields[k], y.fields[k], z.fields[k])
        {
          MergeAssociates(x.fields[k], y.fields[k], z.fields[k]);
        }
        if Associates(x, y, z) {
          AssociatesByKey(x, y, z);
        } else {
          var k :| k in x.fields && k in y.fields && k in z.fields && !Associates(x.fields[k], y.fields[k], z.fields[k]);
          AssociatesAt(x, y, z, k);
        }
      }
    }
  }

  /** A key that is not in all three mappings never tells the two sides apart. */
  lemma {:induction false} AssociatesAt(x: Value, y: Value, z: Value, k: string)
    requires x.Node? && y.Node? && z.Node?
    ensures var l, r := Merge(Merge(x, y), z).fields, Merge(x, Merge(y, z)).fields;
      && (k in l <==> k in r)
      && (k in l && k in x.fields && k in y.fields && k in z.fields ==>
        && l[k] == Merge(Merge(x.fields[k], y.fields[k]), z.fields[k])
        && r[k] == Merge(x.fields[k], Merge(y.fields[k], z.fields[k])))
      && (k in l && !(k in x.fields && k in y.fields && k in z.fields) ==> l[k] == r[k])
  {
    var xy, yz := Merge(x, y).fields, Merge(y, z).fields;
    assert k in xy <==> k in x.fields || k in y.fields;
    assert k in yz <==> k in y.fields || k in z.fields;
  }

  /** Mappings associate when their common keys do. */
  lemma {:induction false} AssociatesByKey(x: Value, y: Value, z: Value)
    requires x.Node? && y.Node? && z.Node?
    requires forall k :: k in x.fields && k in y.fields && k in z.fields ==> Same(x.fields[k], y.fields[k], z.fields[k])
    ensures Same(x, y, z)
  {
    var l, r := Merge(Merge(x, y), z), Merge(x, Merge(y, z));
    forall k
      ensures (k in l.fields <==> k in r.fields) && (k in l.fields ==> l.fields[k] == r.fields[k])
    {
      AssociatesAt(x, y, z, k);
    }
    SameMap(l.fields, r.fields);
  }

  /** No path has a scalar in the middle operand and mappings in both outer ones. */
  ghost predicate NoClash(x: Value, y: Value, z: Value)
    decreases z
  {
    x.Node? && z.Node? ==>
      y.Node? && forall k :: k in x.fields && k in y.fields && k in z.fields ==> NoClash(x.fields[k], y.fields[k], z.fields[k])
  }

  lemma {:induction false} NoClashAssociates(x: Value, y: Value, z: Value)
    requires NoClash(x, y, z)
    ensures Same(x, y, z)
  {
    NoClashMeans(x, y, z);
    MergeAssociates(x, y, z);
  }

  lemma {:induction false} NoClashMeans(x: Value, y: Value, z: Value)
    requires NoClash(x, y, z)
    ensures Associates(x, y, z)
    decreases z
  {
    if x.Node? && z.Node? {
      forall k | k in x.fields && k in y.fields && k in z.fields
        ensures Associates(x.fields[k], y.fields[k], z.fields[k])
      {
        NoClashMeans(x.fields[k], y.fields[k], z.fields[k]);
      }
    }
  }

  /** A scalar under a key of the middle mapping forgets the first mapping from one side only. */
  lemma {:induction false} NotAssociative()
    ensures var x, y, z := Node(map["k" := Node(map["a" := Scalar("1")])]), Node(map["k" := Scalar("0")]), Node(map["k" := Node(map[])]);
      Merge(Merge(x, y), z) != Merge(x, Merge(y, z))
  {
    var low: Value := Node(map["a" := Scalar("1")]);
    var x, y, z := Node(map["k" := low]), Node(map["k" := Scalar("0")]), Node(map["k" := Node(map[])]);
    assert "a" in low.fields && !Absorbed(low, Node(map[]));
    assert x.fields["k"] == low && !Associates(low, y.fields["k"], z.fields["k"]);
    MergeAssociates(x, y, z);
  }

  // ---------------------------------------------------------------- nest_overrides

  /** A mapping as written in a scenario: its items in order. */
  datatype Raw = RawScalar(text: string) | RawNode(fields: seq<Field>)
  datatype Field = Field(key: string, value: Raw)

  datatype ConfigError = BlankKey(key: string) | EmptySegment(key: string)

  predicate Blank(s: string) {
    forall c :: c in s ==> IsSpace(c)
  }

  /** `s.split(".")` */
  function Split(s: string): (r: seq<string>)
    ensures r != []
    decreases |s|
  {
    if s == [] then [""]
    else
      var rest := Split(s[1..]);
      if s[0] == '.' then [""] + rest else [[s[0]] + rest[0]] + rest[1..]
  }

  function Wrap(parts: seq<string>, leaf: Value): Value
    decreases |parts|
  {
    if parts == [] then leaf else Node(map[parts[0] := Wrap(parts[1..], leaf)])
  }

  /** The nested mapping that one item stands for. */
  function NestField(f: Field): Result<Value, ConfigError>
    decreases f
  {
    if Blank(f.key) then Err(BlankKey(f.key))
    else
      var parts := Split(f.key);
      if "" in parts then Err(EmptySegment(f.key))
      else
        match f.value
        case RawScalar(text) => Ok(Wrap(parts, Scalar(text)))
        case RawNode(fields) =>
          match NestAll(fields, Node(map[]))
          case Err(e) => Err(e)
          case Ok(v) => Ok(Wrap(parts, v))
  }

  function NestAll(fields: seq<Field>, nested: Value): Result<Value, ConfigError>
    decreases fields
  {
    if fields == [] then Ok(nested)
    else
      match NestField(fields[0])
      case Err(e) => Err(e)
      case Ok(v) => NestAll(fields[1..], Merge(nested, v))
  }

  function Nest(fields: seq<Field>): Result<Value, ConfigError> {
    NestAll(fields, Node(map[]))
  }

  /** A key that is refused: blank, or with an empty segment. */
  predicate BadKey(key: string) {
    Blank(key) || "" in Split(key)
  }

  /** Some key, at any depth, is refused. */
  predicate HasBad(fields: seq<Field>)
    decreases fields
  {
    fields != [] && (FieldBad(fields[0]) || HasBad(fields[1..]))
  }

  predicate FieldBad(f: Field)
    decreases f
  {
    BadKey(f.key) || (f.value.RawNode? && HasBad(f.value.fields))
  }

  lemma {:induction false} FieldRefused(f: Field)
    ensures NestField(f).Err? <==> FieldBad(f)
    decreases f
  {
    if f.value.RawNode? {
      AllRefused(f.value.fields, Node(map[]));
    }
  }

  lemma {:induction false} AllRefused(fields: seq<Field>, nested: Value)
    ensures NestAll(fields, nested).Err? <==> HasBad(fields)
    decreases fields
  {
    if fields != [] {
      FieldRefused(fields[0]);
      if NestField(fields[0]).Ok? {
        AllRefused(fields[1..], Merge(nested, NestField(fields[0]).value));
      }
    }
  }

  /** Overrides are refused iff some key of theirs, at any depth, is blank or has an empty segment. */
  lemma {:induction false} NestRefuses(fields: seq<Field>)
    ensures Nest(fields).Err? <==> HasBad(fields)
  {
    AllRefused(fields, Node(map[]));
  }

  /** And they are refused for the first item that has such a key: its own key, if that is the one,
      blank keys being told from empty segments, and otherwise what its mapping is refused for. */
  lemma {:induction false} NestReportsFirst(fields: seq<Field>, nested: Value) returns (i: nat)
    requires NestAll(fields, nested).Err?
    ensures i < |fields| && !HasBad(fields[..i]) && FieldBad(fields[i])
    ensures var f, e := fields[i], NestAll(fields, nested).error;
      && (Blank(f.key) ==> e == BlankKey(f.key))
      && (!Blank(f.key) && "" in Split(f.key) ==> e == EmptySegment(f.key))
      && (!BadKey(f.key) ==> f.value.RawNode? && Nest(f.value.fields) == Err(e))
    decreases |fields|
  {
    FieldRefused(fields[0]);
    if NestField(fields[0]).Err? {
      i := 0;
      assert fields[..0] == [];
    } else {
      var k := NestReportsFirst(fields[1..], Merge(nested, NestField(fields[0]).value));
      i := k + 1;
      assert fields[..i][0] == fields[0] && fields[..i][1..] == fields[1..][..k];
    }
  }

  method NestOverrides(raw: seq<Field>) returns (r: Result<Value, ConfigError>)
    ensures r == Nest(raw)
    ensures r.Ok? ==> r.value.Node?
    decreases raw
  {
    var nested: map<string, Value> := map[];
    for i := 0 to |raw|
      invariant Nest(raw) == NestAll(raw[i..], Node(nested))
    {
      var f := raw[i];
      assert raw[i..][0] == f && raw[i..][1..] == raw[i + 1..];
      if forall c :: c in f.key ==> IsSpace(c) {
        return Err(BlankKey(f.key));
      }
      var parts := Split(f.key);
      if "" in parts {
        return Err(EmptySegment(f.key));
      }
      var leaf;
      if f.value.RawNode? {
        assert f == raw[i];
        var inner := NestOverrides(f.value.fields);
        if inner.Err? {
          return Err(inner.error);
        }
        leaf := inner.value;
      } else {
        leaf := Scalar(f.value.text);
      }
      ghost var bare := leaf;
      assert NestField(f) == Ok(Wrap(parts, bare));
      var j := |parts|;
      assert parts[j..] == [];
      while j > 1
        invariant 1 <= j <= |parts| && leaf == Wrap(parts[j..], bare)
      {
        j := j - 1;
        assert parts[j..][1..] == parts[j + 1..];
        leaf := Node(map[parts[j] := leaf]);
      }
      nested := DeepMerge(nested, map[parts[0] := leaf]);
    }
    assert raw[|raw|..] == [];
    r := Ok(Node(nested));
  }

  // ---------------------------------------------------------------- the keys of the result

  /** Every key, at any depth, satisfies `p`. */
  ghost predicate AllKeys(v: Value, p: string -> bool)
    decreases v
  {
    v.Node? ==> forall k :: k in v.fields ==> p(k) && AllKeys(v.fields[k], p)
  }

  predicate Plain(key: string) { key != "" && '.' !in key }

  predicate Visible(key: string) { !Blank(key) }

  /** Every segment of an accepted key, at any depth, satisfies `p`. */
  ghost predicate AllSegments(fields: seq<Field>, p: string -> bool)
    decreases fields
  {
    forall f :: f in fields ==>
      && ("" !in Split(f.key) ==> forall s :: s in Split(f.key) ==> p(s))
      && (f.value.RawNode? ==> AllSegments(f.value.fields, p))
  }

  lemma {:induction false} MergeKeys(x: Value, y: Value, p: string -> bool)
    requires AllKeys(x, p) && AllKeys(y, p)
    ensures AllKeys(Merge(x, y), p)
    decreases y
  {
    if x.Node? && y.Node? {
      var m := Merge(x, y).fields;
      forall k | k in m
        ensures p(k) && AllKeys(m[k], p)
      {
        if k in x.fields && k in y.fields {
          MergeKeys(x.fields[k], y.fields[k], p);
        }
      }
    }
  }

  lemma {:induction false} WrapKeys(parts: seq<string>, leaf: Value, p: string -> bool)
    requires AllKeys(leaf, p) && forall s :: s in parts ==> p(s)
    ensures AllKeys(Wrap(parts, leaf), p)
    decreases |parts|
  {
    if parts != [] {
      WrapKeys(parts[1..], leaf, p);
      var m := Wrap(parts, leaf).fields;
      assert m == map[parts[0] := Wrap(parts[1..], leaf)];
    }
  }

  lemma {:induction false} FieldKeys(f: Field, p: string -> bool)
    requires AllSegments([f], p)
    ensures NestField(f).Ok? ==> AllKeys(NestField(f).value, p)
    decreases f
  {
    if NestField(f).Ok? {
      assert f in [f];
      if f.value.RawNode? {
        NestKeys(f.value.fields, Node(map[]), p);
        WrapKeys(Split(f.key), Nest(f.value.fields).value, p);
      } else {
        WrapKeys(Split(f.key), Scalar(f.value.text), p);
      }
    }
  }

  lemma {:induction false} NestKeys(fields: seq<Field>, nested: Value, p: string -> bool)
    requires AllSegments(fields, p) && AllKeys(nested, p)
    ensures NestAll(fields, nested).Ok? ==> AllKeys(NestAll(fields, nested).value, p)
    decreases fields
  {
    if fields != [] && NestField(fields[0]).Ok? {
      FieldKeys(fields[0], p);
      MergeKeys(nested, NestField(fields[0]).value, p);
      NestKeys(fields[1..], Merge(nested, NestField(fields[0]).value), p);
    }
  }

  lemma {:induction false} SplitHasNoDots(s: string)
    ensures forall part :: part in Split(s) ==> '.' !in part
    decreases |s|
  {
    if s != [] {
      SplitHasNoDots(s[1..]);
      assert Split(s[1..])[0] in Split(s[1..]);
    }
  }

  lemma {:induction false} SegmentsArePlain(fields: seq<Field>)
    ensures AllSegments(fields, Plain)
    decreases fields
  {
    forall f | f in fields
      ensures "" !in Split(f.key) ==> forall s :: s in Split(f.key) ==> Plain(s)
      ensures f.value.RawNode? ==> AllSegments(f.value.fields, Plain)
    {
      SplitHasNoDots(f.key);
      if f.value.RawNode? {
        SegmentsArePlain(f.value.fields);
      }
    }
  }

  /** Whatever is accepted comes out with no dotted and no empty key at any depth. */
  lemma {:induction false} NestLeavesNoDots(fields: seq<Field>)
    ensures Nest(fields).Ok? ==> Nest(fields).value.Node? && AllKeys(Nest(fields).value, Plain)
  {
    SegmentsArePlain(fields);
    NestKeys(fields, Node(map[]), Plain);
    NestIsNode(fields, Node(map[]));
  }

  lemma {:induction false} NestIsNode(fields: seq<Field>, nested: Value)
    requires nested.Node?
    ensures NestAll(fields, nested).Ok? ==> NestAll(fields, nested).value.Node?
    decreases |fields|
  {
    if fields != [] && NestField(fields[0]).Ok? {
      NestIsNode(fields[1..], Merge(nested, NestField(fields[0]).value));
    }
  }

  // ---------------------------------------------------------------- nesting again

  /** `raw` is `v` written out, its items in some order. */
  ghost predicate Lists(raw: Raw, v: Value)
    decreases raw
  {
    match raw
    case RawScalar(text) => v == Scalar(text)
    case RawNode(fields) => v.Node? && ListsAll(fields, v.fields)
  }

  ghost predicate ListsAll(fields: seq<Field>, m: map<string, Value>)
    decreases fields
  {
    if fields == [] then m == map[]
    else fields[0].key in m && Lists(fields[0].value, m[fields[0].key]) && ListsAll(fields[1..], m - {fields[0].key})
  }

  lemma {:induction false} PlainSplit(key: string)
    requires '.' !in key
    ensures Split(key) == [key]
    decreases |key|
  {
    if key != [] {
      PlainSplit(key[1..]);
      assert [key[0]] + key[1..] == key;
    }
  }

  lemma {:induction false} MergeNew(a: map<string, Value>, k: string, v: Value)
    requires k !in a
    ensures Merge(Node(a), Node(map[k := v])) == Node(a[k := v])
  {
  }

  lemma {:induction false} FieldAgain(f: Field, v: Value)
    requires Lists(f.value, v) && AllKeys(v, Plain) && Plain(f.key)
    ensures NestField(f).Ok? <==> Visible(f.key) && AllKeys(v, Visible)
    ensures NestField(f).Ok? ==> NestField(f).value == Node(map[f.key := v])
    decreases f
  {
    PlainSplit(f.key);
    assert forall leaf :: Wrap([f.key], leaf) == Node(map[f.key := Wrap([f.key][1..], leaf)]);
    assert [f.key][1..] == [];
    if f.value.RawNode? {
      ListAgain(f.value.fields, v.fields, map[]);
      assert map[] + v.fields == v.fields;
    }
  }

  lemma {:induction false} ListAgain(fields: seq<Field>, m: map<string, Value>, done: map<string, Value>)
    requires ListsAll(fields, m) && AllKeys(Node(m), Plain) && done.Keys !! m.Keys
    ensures NestAll(fields, Node(done)).Ok? <==> AllKeys(Node(m), Visible)
    ensures NestAll(fields, Node(done)).Ok? ==> NestAll(fields, Node(done)).value == Node(done + m)
    decreases fields
  {
    if fields == [] {
      assert done + m == done;
    } else {
      var k := fields[0].key;
      FieldAgain(fields[0], m[k]);
      KeysWithout(m, k, Plain);
      KeysWithout(m, k, Visible);
      if NestField(fields[0]).Ok? {
        MergeNew(done, k, m[k]);
        ListAgain(fields[1..], m - {k}, done[k := m[k]]);
        assert done[k := m[k]] + (m - {k}) == done + m;
      }
    }
  }

  lemma {:induction false} KeysWithout(m: map<string, Value>, k: string, p: string -> bool)
    requires k in m
    ensures AllKeys(Node(m), p) <==> p(k) && AllKeys(m[k], p) && AllKeys(Node(m - {k}), p)
  {
    var rest := m - {k};
    assert forall j :: j in m ==> j == k || (j in rest && rest[j] == m[j]);
    assert forall j :: j in rest ==> j in m && rest[j] == m[j];
    assert AllKeys(Node(m), p) <==> forall j :: j in Node(m).fields ==> p(j) && AllKeys(Node(m).fields[j], p);
  }

  /** Nesting the nested form again, in any order `again` of its items, gives it back iff no key of
      `again` is refused; and since it has no dotted or empty key, that is iff none is blank. */
  lemma {:induction false} NestAgain(fields: seq<Field>, again: seq<Field>)
    requires Nest(fields).Ok? && Lists(RawNode(again), Nest(fields).value)
    ensures Nest(again) == Nest(fields) <==> !HasBad(again)
    ensures HasBad(again) <==> !AllKeys(Nest(fields).value, Visible)
  {
    var v := Nest(fields).value;
    NestLeavesNoDots(fields);
    ListAgain(again, v.fields, map[]);
    assert map[] + v.fields == v.fields;
    NestRefuses(again);
  }

  /** So nesting is idempotent for input without whitespace-only segments. */
  lemma {:induction false} NestIdempotent(fields: seq<Field>, again: seq<Field>)
    requires Nest(fields).Ok? && Lists(RawNode(again), Nest(fields).value)
    requires AllSegments(fields, Visible)
    ensures Nest(again) == Nest(fields)
  {
    NestKeys(fields, Node(map[]), Visible);
    NestAgain(fields, again);
  }

  /** `{"a. ": 1}` is accepted, and its nested form is not. */
  lemma {:induction false} NotIdempotent()
    ensures var fields := [Field("a. ", RawScalar("1"))];
      var again := [Field("a", RawNode([Field(" ", RawScalar("1"))]))];
      && Nest(fields).Ok? && Lists(RawNode(again), Nest(fields).value)
      && Nest(again) == Err(BlankKey(" "))
  {
    var fields, inner := [Field("a. ", RawScalar("1"))], [Field(" ", RawScalar("1"))];
    var again := [Field("a", RawNode(inner))];
    SpacedNests();
    assert Blank(" ") && NestField(inner[0]) == Err(BlankKey(" "));
    assert !IsSpace('a') && 'a' in "a";
    PlainSplit("a");
    assert NestField(again[0]) == Err(BlankKey(" "));
    var low, high: map<string, Value> := map[" " := Scalar("1")], map["a" := Node(map[" " := Scalar("1")])];
    assert low - {" "} == map[] && high - {"a"} == map[];
    assert inner[1..] == [] && again[1..] == [];
    assert ListsAll(inner, low);
    assert ListsAll(again, high);
  }

  lemma {:induction false} SpacedNests()
    ensures Nest([Field("a. ", RawScalar("1"))]) == Ok(Node(map["a" := Node(map[" " := Scalar("1")])]))
  {
    var f, v := Field("a. ", RawScalar("1")), Node(map["a" := Node(map[" " := Scalar("1")])]);
    assert "a. " == "a" + "." + " " && !IsSpace("a. "[0]);
    DottedSplit("a", " ");
    PlainSplit(" ");
    WrapMore("a", [" "], Scalar("1"));
    WrapMore(" ", [], Scalar("1"));
    assert [" "] + [] == [" "];
    MergeEmpty(v);
    assert NestField(f) == Ok(v) && [f][1..] == [];
  }

  // ---------------------------------------------------------------- dotted and nested spellings

  /** Both refuse, or both accept and mean the same. */
  ghost predicate Agree(a: Result<Value, ConfigError>, b: Result<Value, ConfigError>) {
    if a.Ok? then a == b else b.Err?
  }

  lemma {:induction false} DottedSplit(p: string, q: string)
    requires '.' !in p
    ensures Split(p + "." + q) == [p] + Split(q)
    decreases |p|
  {
    var s := p + "." + q;
    if p == [] {
      assert s[1..] == q;
    } else {
      assert s[1..] == p[1..] + "." + q;
      DottedSplit(p[1..], q);
      var rest := [p[1..]] + Split(q);
      assert rest[1..] == Split(q) && [p[0]] + p[1..] == p;
    }
  }

  /** The dotted and the nested spelling of one item agree, except that the nested one also
      refuses whitespace-only segments. */
  lemma {:induction false} DottedAgrees(p: string, q: string, value: Raw)
    requires '.' !in p
    ensures Agree(NestField(Field(p + "." + q, value)), NestField(Field(p, RawNode([Field(q, value)]))))
      <==> ((!Blank(p) && !Blank(q)) || p == "" || "" in Split(q) || (value.RawNode? && HasBad(value.fields)))
  {
    if value.RawNode? {
      NestRefuses(value.fields);
    }
    var key, inner := p + "." + q, Field(q, value);
    DottedSplit(p, q);
    PlainSplit(p);
    assert '.' in key && !IsSpace('.');
    assert "" in [p] + Split(q) <==> p == "" || "" in Split(q);
    assert [inner][0] == inner && [inner][1..] == [];
    if value.RawNode? {
      NestIsNode(value.fields, Node(map[]));
    }
    if NestField(inner).Ok? {
      var leaf := if value.RawNode? then Nest(value.fields).value else Scalar(value.text);
      WrapMore(p, Split(q), leaf);
      assert Nest([inner]) == NestAll([], Merge(Node(map[]), Wrap(Split(q), leaf)));
      MergeEmpty(Wrap(Split(q), leaf));
      WrapMore(p, [], Wrap(Split(q), leaf));
    }
  }

  lemma {:induction false} WrapMore(p: string, parts: seq<string>, leaf: Value)
    ensures Wrap([p] + parts, leaf) == Node(map[p := Wrap(parts, leaf)])
  {
    assert ([p] + parts)[1..] == parts;
  }

  lemma {:induction false} MergeEmpty(v: Value)
    ensures Merge(Node(map[]), v) == v
  {
    if v.Node? {
      assert Merge(Node(map[]), v).fields == v.fields;
    }
  }

  lemma {:induction false} AgreeInPlace(before: seq<Field>, f: Field, g: Field, after: seq<Field>, nested: Value)
    requires Agree(NestField(f), NestField(g))
    ensures Agree(NestAll(before + [f] + after, nested), NestAll(before + [g] + after, nested))
    decreases |before|
  {
    var a, b := before + [f] + after, before + [g] + after;
    if before == [] {
      assert a == [f] + after && b == [g] + after;
      assert a[1..] == after && b[1..] == after;
    } else {
      assert a[1..] == before[1..] + [f] + after && b[1..] == before[1..] + [g] + after;
      if NestField(before[0]).Ok? {
        AgreeInPlace(before[1..], f, g, after, Merge(nested, NestField(before[0]).value));
      }
    }
  }

  /** Rewriting a dotted item as a nested mapping, in place, does not change the overrides. */
  lemma {:induction false} RewriteInPlace(before: seq<Field>, p: string, q: string, value: Raw, after: seq<Field>)
    requires '.' !in p && !Blank(p) && !Blank(q)
    ensures Agree(Nest(before + [Field(p + "." + q, value)] + after),
                  Nest(before + [Field(p, RawNode([Field(q, value)]))] + after))
  {
    DottedAgrees(p, q, value);
    AgreeInPlace(before, Field(p + "." + q, value), Field(p, RawNode([Field(q, value)])), after, Node(map[]));
  }
}

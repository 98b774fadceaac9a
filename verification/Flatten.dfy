/**
 Field maps on their way into and out of a hash: `unpack` flattens a map into command arguments (utils.go), the
 scripts of the broker pass the arguments to HMSET and regroup what HGETALL returns (broker_redis.go).
 */
module Flatten {
  import opened Codec
  import opened CodecLaws

  /** An element of Go's `[]interface{}`: a key, or a value (the leading TTL of HMSETEXPIRE included). */
  datatype Arg = Key(f: Field) | Item(v: Value)

  /** Alternating keys and values that name each field of `m` once, in any order. */
  predicate Flattens(args: seq<Arg>, m: Data) {
    && |args| == 2 * |m|
    && (forall i :: 0 <= i < |m| ==>
          args[2 * i].Key? && args[2 * i].f in m && args[2 * i + 1] == Item(m[args[2 * i].f]))
    && (forall i, j :: 0 <= i < j < |m| ==> args[2 * i] != args[2 * j])
  }

  predicate Alternates(args: seq<Arg>) {
    |args| % 2 == 0 && forall i :: 0 <= i < |args| ==> (args[i].Key? <==> i % 2 == 0)
  }

  /** Pairing arguments up again; a later pair wins. */
  function Regroup(args: seq<Arg>): Data
    requires Alternates(args)
  {
    if args == [] then map[]
    else
      var n := |args|;
      Regroup(args[..n - 2])[args[n - 2].f := args[n - 1].v]
  }

  lemma FlattensAlternates(args: seq<Arg>, m: Data)
    requires Flattens(args, m)
    ensures Alternates(args)
  {
    forall i | 0 <= i < |args| ensures args[i].Key? <==> i % 2 == 0 {
      var j := i / 2;
      assert args[2 * j].Key? && args[2 * j + 1] == Item(m[args[2 * j].f]);
    }
  }

  /** Regrouping gives the map back, whatever order its fields were flattened in. */
  lemma {:induction false} RegroupFlattened(args: seq<Arg>, m: Data)
    requires Flattens(args, m)
    ensures Alternates(args) && Regroup(args) == m
    decreases |args|
  {
    FlattensAlternates(args, m);
    if args == [] {
      assert m == map[];
    } else {
      var n := |m|;
      var f := args[2 * (n - 1)].f;
      var rest := m - {f};
      assert rest.Keys == m.Keys - {f};
      assert |rest| == |rest.Keys| && |m| == |m.Keys|;
      var init := args[..|args| - 2];
      forall i | 0 <= i < |rest|
        ensures init[2 * i].Key? && init[2 * i].f in rest && init[2 * i + 1] == Item(rest[init[2 * i].f])
      {
        assert args[2 * i] != args[2 * (n - 1)];
        assert args[2 * i].Key?;
      }
      forall i, j | 0 <= i < j < |rest| ensures init[2 * i] != init[2 * j] {
        assert args[2 * i] != args[2 * j];
      }
      RegroupFlattened(init, rest);
      assert m == rest[f := m[f]];
    }
  }

  /** `unpack`: Go ranges over a map in an unspecified order. */
  method Unpack(fields: Data) returns (args: array<Arg>)
    ensures fresh(args) && Flattens(args[..], fields)
  {
    args := new Arg[|fields| * 2](_ => Key(Id));
    var i := 0;
    var left := fields.Keys;
    ghost var done: seq<Field> := [];
    while left != {}
      invariant left <= fields.Keys && i == 2 * |done| && |done| + |left| == |fields.Keys|
      invariant forall j :: 0 <= j < |done| ==>
        done[j] in fields && done[j] !in left && args[2 * j] == Key(done[j]) && args[2 * j + 1] == Item(fields[done[j]])
      invariant forall j, k :: 0 <= j < k < |done| ==> done[j] != done[k]
      decreases |left|
    {
      var k :| k in left;
      left := left - {k};
      args[i] := Key(k);
      args[i + 1] := Item(fields[k]);
      i := i + 2;
      done := done + [k];
    }
    assert |fields| == |fields.Keys|;
    assert forall j :: 0 <= j < |fields| ==> args[..][2 * j] == Key(done[j]);
  }

  /** The `collate` loop of MULTIHGETALL over what HGETALL returned. */
  method Collate(raw: seq<Arg>) returns (data: Data)
    requires Alternates(raw)
    ensures data == Regroup(raw)
  {
    data := map[];
    var idx := 0;
    while idx < |raw|
      invariant 0 <= idx <= |raw| && idx % 2 == 0
      invariant data == Regroup(raw[..idx])
    {
      data := data[raw[idx].f := raw[idx + 1].v];
      assert raw[..idx + 2][..idx] == raw[..idx];
      idx := idx + 2;
    }
    assert raw[..|raw|] == raw;
  }

  /** HMSET of alternating keys and values; Redis keeps every value as text. */
  function HMSet(h: Data, args: seq<Arg>): Data
    requires Alternates(args)
  {
    if args == [] then h
    else
      var n := |args|;
      HMSet(h, args[..n - 2])[args[n - 2].f := Str(TextOf(args[n - 1].v))]
  }

  lemma {:induction false} HMSetMerges(h: Data, args: seq<Arg>)
    requires Alternates(args)
    ensures HMSet(h, args) == h + Wire(Regroup(args))
    decreases |args|
  {
    if args == [] {
      assert Wire(map[]) == map[];
    } else {
      var n := |args|;
      var init := Regroup(args[..n - 2]);
      HMSetMerges(h, args[..n - 2]);
      assert Wire(init[args[n - 2].f := args[n - 1].v]) == Wire(init)[args[n - 2].f := Str(TextOf(args[n - 1].v))];
    }
  }

  /** HMSETEXPIRE: its arguments are the TTL followed by the fields; the TTL is taken off before HMSET. */
  function HMSetExpire(h: Data, argv: seq<Arg>): (Data, Value)
    requires argv != [] && argv[0].Item? && Alternates(argv[1..])
  {
    (HMSet(h, argv[1..]), argv[0].v)
  }

  /**
   Saving with and without a TTL stores the same fields, whatever order they are flattened in, and regrouping the
   stored hash from HGETALL, in whatever order that returns it, gives the hash back.
   */
  lemma SameFields(h: Data, data: Data, plain: seq<Arg>, withTtl: seq<Arg>, ttl: int, raw: seq<Arg>)
    requires Flattens(plain, data) && Flattens(withTtl, data)
    ensures Alternates(plain) && HMSet(h, plain) == h + Wire(data)
    ensures ([Item(Num(ttl))] + withTtl)[1..] == withTtl && Alternates(withTtl)
    ensures HMSetExpire(h, [Item(Num(ttl))] + withTtl) == (HMSet(h, plain), Num(ttl))
    ensures Flattens(raw, h + Wire(data)) ==> Alternates(raw) && Regroup(raw) == HMSet(h, plain)
  {
    RegroupFlattened(plain, data);
    RegroupFlattened(withTtl, data);
    HMSetMerges(h, plain);
    HMSetMerges(h, withTtl);
    assert ([Item(Num(ttl))] + withTtl)[1..] == withTtl;
    if Flattens(raw, h + Wire(data)) {
      RegroupFlattened(raw, h + Wire(data));
    }
  }
}

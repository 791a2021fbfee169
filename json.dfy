/**
  The untyped JSON value that the OpenCode event stream carries in its
  envelopes (the counterpart of `serde_json::Value`), with the lookups that
  decoding and encoding need.
 */
module Json {

  datatype Option<+T> = None | Some(value: T)

  /** A JSON value. `Int` is a number written without a fraction or an
      exponent that fits in 64 bits (signed or unsigned), kept exactly; any
      other number (`3.0`, `1e2`, or an integer beyond 64 bits), which
      serde_json parses as `f64`, is a `Float` kept as its literal text and
      never interpreted. An object is a sequence of
      members in wire order; a `serde_json::Value` object never repeats a key,
      so looking up the first occurrence is looking up the only one. */
  datatype Json =
    | Null
    | Bool(b: bool)
    | Int(i: int)
    | Float(literal: string)
    | Str(s: string)
    | Arr(items: seq<Json>)
    | Obj(members: seq<Member>)

  datatype Member = Member(key: string, value: Json)

  /** The value stored under `key`: the first member with that key, if any. */
  function Lookup(members: seq<Member>, key: string): Option<Json>
  {
    if members == [] then None
    else if members[0].key == key then Some(members[0].value)
    else Lookup(members[1..], key)
  }

  /** `Lookup` finds nothing exactly when no member has the key, and
      otherwise finds the value of the first member that has it. */
  lemma {:induction false} LookupFindsFirst(members: seq<Member>, key: string)
    ensures Lookup(members, key).None? <==> forall i | 0 <= i < |members| :: members[i].key != key
    ensures Lookup(members, key).Some? ==>
              exists i | 0 <= i < |members| ::
                members[i] == Member(key, Lookup(members, key).value) &&
                forall k | 0 <= k < i :: members[k].key != key
  {
    if members != [] && members[0].key != key {
      var rest := members[1..];
      LookupFindsFirst(rest, key);
      assert forall i | 1 <= i < |members| :: members[i] == rest[i - 1];
      if Lookup(rest, key).Some? {
        var i :| 0 <= i < |rest| && rest[i] == Member(key, Lookup(rest, key).value) &&
                 forall k | 0 <= k < i :: rest[k].key != key;
        assert members[i + 1] == Member(key, Lookup(members, key).value);
      }
    } else if members != [] {
      assert members[0] == Member(key, Lookup(members, key).value);
    }
  }

  /** Looking up a key in `front + back`: `back` is consulted only when `front`
      does not hold the key. */
  lemma {:induction false} LookupAppend(front: seq<Member>, back: seq<Member>, key: string)
    ensures Lookup(front + back, key) ==
              if Lookup(front, key).Some? then Lookup(front, key) else Lookup(back, key)
  {
    if front != [] {
      assert (front + back)[1..] == front[1..] + back;
      LookupAppend(front[1..], back, key);
    } else {
      assert front + back == back;
    }
  }

  /** The keys of an object, in wire order. */
  function Keys(members: seq<Member>): (ks: seq<string>)
    ensures |ks| == |members|
    ensures forall i | 0 <= i < |members| :: ks[i] == members[i].key
  {
    if members == [] then [] else [members[0].key] + Keys(members[1..])
  }

  /** The keys of concatenated members are the concatenated keys. */
  lemma KeysAppend(front: seq<Member>, back: seq<Member>)
    ensures Keys(front + back) == Keys(front) + Keys(back)
  {
    var ks, joined := Keys(front + back), Keys(front) + Keys(back);
    assert |ks| == |joined|;
    forall i | 0 <= i < |ks| ensures ks[i] == joined[i] {
      if i < |front| {
        assert (front + back)[i] == front[i];
      } else {
        assert (front + back)[i] == back[i - |front|];
      }
    }
  }

  /** No `null` appears anywhere inside `j`, at any depth. */
  predicate NullFree(j: Json)
  {
    match j
    case Null => false
    case Arr(items) => forall i | 0 <= i < |items| :: NullFree(items[i])
    case Obj(members) => forall i | 0 <= i < |members| :: NullFree(members[i].value)
    case _ => true
  }

  /** An object built from two member lists is null-free exactly when both
      lists are. */
  lemma NullFreeAppend(a: seq<Member>, b: seq<Member>)
    ensures NullFree(Obj(a + b)) <==> NullFree(Obj(a)) && NullFree(Obj(b))
  {
    var m := a + b;
    if NullFree(Obj(a)) && NullFree(Obj(b)) {
      forall i | 0 <= i < |m| ensures NullFree(m[i].value) {
        if i < |a| { assert m[i] == a[i]; } else { assert m[i] == b[i - |a|]; }
      }
    }
    if NullFree(Obj(m)) {
      forall i | 0 <= i < |a| ensures NullFree(a[i].value) { assert m[i] == a[i]; }
      forall i | 0 <= i < |b| ensures NullFree(b[i].value) { assert m[|a| + i] == b[i]; }
    }
  }
}

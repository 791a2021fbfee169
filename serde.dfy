/**
  The decoding rules that `serde` derives for the OpenCode schemas, stated
  once: what JSON each Rust field type accepts, and how a field that is
  missing, `null` or of the wrong shape is treated.

  - A field with no `#[serde(default)]` and a non-`Option` type is required:
    a missing key is a failure.
  - A field of type `Option<T>` gives `None` when its key is missing or holds
    `null`, and otherwise holds what `T` decodes to.
  - A `#[serde(default)]` field of a non-`Option` type gives its default when
    the key is missing; a `null` there is decoded like any other value, so it
    fails for strings, vectors, maps and integers.
  - Keys that no field names are ignored.
  - A value of the wrong JSON type makes the whole structure fail.
 */
module Serde {
  import opened Json

  /** The outcome of decoding: a value, or serde's error (whose message the
      source only logs, so it is not kept). */
  datatype Decoded<+T> = Ok(value: T) | Fail {
    predicate IsFailure() { Fail? }

    function PropagateFailure<U>(): Decoded<U>
      requires Fail?
    {
      Fail
    }

    function Extract(): T
      requires Ok?
    {
      value
    }
  }

  /** Rust's `u32`. */
  newtype u32 = x: int | 0 <= x < 0x1_0000_0000

  // -- What one Rust type accepts --

  /** `String` */
  function AsString(j: Json): Decoded<string>
  {
    if j.Str? then Ok(j.s) else Fail
  }

  /** `bool` */
  function AsBool(j: Json): Decoded<bool>
  {
    if j.Bool? then Ok(j.b) else Fail
  }

  /** `u32`: an integral number in range; a negative, too large or
      fractional number is refused. */
  function AsU32(j: Json): Decoded<u32>
  {
    if j.Int? && 0 <= j.i < 0x1_0000_0000 then Ok(j.i as u32) else Fail
  }

  /** `f64`: any number, kept as received. */
  function AsNumber(j: Json): Decoded<Json>
  {
    if j.Int? || j.Float? then Ok(j) else Fail
  }

  /** `serde_json::Value`: anything, copied through. */
  function AsValue(j: Json): Decoded<Json>
  {
    Ok(j)
  }

  /** A struct or a `HashMap<String, Value>`: an object, whose members are
      kept as received. */
  function AsObject(j: Json): Decoded<seq<Member>>
  {
    if j.Obj? then Ok(j.members) else Fail
  }

  /** `Vec<T>`: an array every element of which decodes. */
  function AsList<T>(j: Json, dec: Json -> Decoded<T>): Decoded<seq<T>>
  {
    if j.Arr? then DecodeAll(j.items, dec) else Fail
  }

  /** Decodes every element in order; one failing element fails the whole. */
  function DecodeAll<T>(items: seq<Json>, dec: Json -> Decoded<T>): (r: Decoded<seq<T>>)
    ensures r.Ok? <==> forall i | 0 <= i < |items| :: dec(items[i]).Ok?
    ensures r.Ok? ==> (|r.value| == |items| &&
                       forall i | 0 <= i < |items| :: dec(items[i]) == Ok(r.value[i]))
  {
    if items == [] then Ok([])
    else
      var head :- dec(items[0]);
      var tail :- DecodeAll(items[1..], dec);
      assert forall i | 1 <= i < |items| :: items[i] == items[1..][i - 1];
      Ok([head] + tail)
  }

  // -- How one field of a struct is read --

  /** A required field. */
  function Required<T>(members: seq<Member>, key: string, dec: Json -> Decoded<T>): Decoded<T>
  {
    match Lookup(members, key)
    case None => Fail
    case Some(v) => dec(v)
  }

  /** A field of type `Option<T>`. */
  function Optional<T>(members: seq<Member>, key: string, dec: Json -> Decoded<T>): Decoded<Option<T>>
  {
    match Lookup(members, key)
    case None => Ok(None)
    case Some(Null) => Ok(None)
    case Some(v) => var x :- dec(v); Ok(Some(x))
  }

  /** A `#[serde(default)]` field of a non-`Option` type. */
  function Defaulted<T>(members: seq<Member>, key: string, dec: Json -> Decoded<T>, default: T): Decoded<T>
  {
    match Lookup(members, key)
    case None => Ok(default)
    case Some(v) => dec(v)
  }

  /** The tag of an internally tagged enum (`#[serde(tag = "...")]`): the
      object's members and the tag's string, which must be present. */
  function Tagged(j: Json, tag: string): Decoded<(seq<Member>, string)>
  {
    var members :- AsObject(j);
    var name :- Required(members, tag, AsString);
    Ok((members, name))
  }

  // -- What a decoded field says about the wire --

  /** `key` holds a string. */
  predicate HasString(members: seq<Member>, key: string)
  {
    Lookup(members, key).Some? && Lookup(members, key).value.Str?
  }

  /** `key` is missing or holds `null`. */
  predicate Absent(members: seq<Member>, key: string)
  {
    Lookup(members, key).None? || Lookup(members, key).value == Null
  }

  /** What an `Option<String>` field accepts: no value, or a string. */
  predicate OptionalStringOk(members: seq<Member>, key: string)
  {
    Absent(members, key) || HasString(members, key)
  }

  /** What an `Option<T>` field accepts: no value, or one that `T` accepts. */
  predicate OptionalDecodes<T>(members: seq<Member>, key: string, dec: Json -> Decoded<T>)
  {
    Absent(members, key) || dec(Lookup(members, key).value).Ok?
  }

  /** An `Option<String>` field that reads `o`: `None` for no value, and
      otherwise the string on the wire. */
  predicate OptionalStringIs(members: seq<Member>, key: string, o: Option<string>)
  {
    match o
    case None => Absent(members, key)
    case Some(s) => Lookup(members, key) == Some(Str(s))
  }

  /** An `Option` field of opaque JSON that reads `o`: the wire value itself. */
  predicate OptionalValueIs(members: seq<Member>, key: string, o: Option<Json>)
  {
    match o
    case None => Absent(members, key)
    case Some(v) => v != Null && Lookup(members, key) == Some(v)
  }

  /** An `Option<T>` field that reads `o`: `None` for no value, and otherwise
      what `T` decodes the wire value to. */
  predicate OptionalIs<T(==)>(members: seq<Member>, key: string, dec: Json -> Decoded<T>, o: Option<T>)
  {
    match o
    case None => Absent(members, key)
    case Some(x) => !Absent(members, key) && dec(Lookup(members, key).value) == Ok(x)
  }

  // -- Laws of the field rules --

  /** An `Option` field never fails on a missing key or a `null`, and a
      present non-null value is decoded exactly as the inner type decodes it. */
  lemma OptionalLaw<T>(members: seq<Member>, key: string, dec: Json -> Decoded<T>)
    ensures Lookup(members, key) in {None, Some(Null)} ==> Optional(members, key, dec) == Ok(None)
    ensures forall v | Lookup(members, key) == Some(v) && v != Null ::
              Optional(members, key, dec) == (if dec(v).Ok? then Ok(Some(dec(v).value)) else Fail)
  {
  }

  /** Decoding a list of encodings gives the list back, when every element
      round-trips on its own. */
  lemma {:induction false} DecodeAllRoundTrip<T>(xs: seq<T>, enc: T -> Json, dec: Json -> Decoded<T>)
    requires forall x | x in xs :: dec(enc(x)) == Ok(x)
    ensures DecodeAll(seq(|xs|, i requires 0 <= i < |xs| => enc(xs[i])), dec) == Ok(xs)
  {
    var encoded := seq(|xs|, i requires 0 <= i < |xs| => enc(xs[i]));
    if xs != [] {
      var rest := seq(|xs[1..]|, i requires 0 <= i < |xs[1..]| => enc(xs[1..][i]));
      assert encoded[1..] == rest;
      DecodeAllRoundTrip(xs[1..], enc, dec);
      assert dec(encoded[0]) == Ok(xs[0]);
      assert xs == [xs[0]] + xs[1..];
    }
  }
}

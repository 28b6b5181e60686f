/** Lists of atoms packed into a message, and unpacked again. */
module AtomModel {
  import opened Seqs

  datatype Atom = Long(value: int) | Float(number: real) | Symbol(name: string) | Other(kind: int)

  // the message schema
  datatype Type = A_LONG | A_FLOAT | A_SYMBOL | A_ARR_LONG | A_ARR_FLOAT | UNKNOWN(code: int)

  datatype Data =
    | Unset
    | Int(int_: int)
    | Flt(float_: real)
    | Str(string_: string)
    | IntArray(ints: seq<int>)
    | FloatArray(floats: seq<real>)

  datatype ProtoAtom = ProtoAtom(typ: Type, data: Data)

  /** The conversions of the host's atoms, and rounding to 32-bit floats. */
  datatype Conversions = Conversions(
    narrow: real -> real,
    asLong: Atom -> int,
    asFloat: Atom -> real)

  ghost predicate Lawful(conv: Conversions) {
    && (forall x :: conv.narrow(conv.narrow(x)) == conv.narrow(x))
    && (forall v :: conv.asLong(Long(v)) == v)
    && (forall x :: conv.asFloat(Float(x)) == x)
  }

  /** Narrowing to sint32. */
  function ToInt32(v: int): int {
    var r := v % 0x1_0000_0000;
    if r >= 0x8000_0000 then r - 0x1_0000_0000 else r
  }

  predicate FitsInt32(v: int) {
    -0x8000_0000 <= v < 0x8000_0000
  }

  // ---------- packing

  function Encode(conv: Conversions, a: Atom): ProtoAtom {
    match a
    case Long(v) => ProtoAtom(A_LONG, Int(ToInt32(v)))
    case Float(x) => ProtoAtom(A_FLOAT, Flt(conv.narrow(x)))
    case Symbol(s) => ProtoAtom(A_SYMBOL, Str(s))
    case Other(_) => ProtoAtom(A_LONG, Unset)
  }

  function EncodeAll(conv: Conversions, atoms: seq<Atom>): (r: seq<ProtoAtom>)
    ensures |r| == |atoms|
  {
    seq(|atoms|, i requires 0 <= i < |atoms| => Encode(conv, atoms[i]))
  }

  function Longs(conv: Conversions, atoms: seq<Atom>): (r: seq<int>)
    ensures |r| == |atoms|
  {
    seq(|atoms|, i requires 0 <= i < |atoms| => conv.asLong(atoms[i]))
  }

  function Floats(conv: Conversions, atoms: seq<Atom>): (r: seq<real>)
    ensures |r| == |atoms|
  {
    seq(|atoms|, i requires 0 <= i < |atoms| => conv.narrow(conv.asFloat(atoms[i])))
  }

  datatype ArrayType = LONGS | FLOATS

  datatype Push = One(atom: Atom) | Many(atoms: seq<Atom>) | Array(elements: seq<Atom>, arrayType: ArrayType)

  function Pushed(conv: Conversions, p: Push): seq<ProtoAtom> {
    match p
    case One(a) => [Encode(conv, a)]
    case Many(atoms) => EncodeAll(conv, atoms)
    case Array(atoms, LONGS) => [ProtoAtom(A_ARR_LONG, IntArray(Longs(conv, atoms)))]
    case Array(atoms, FLOATS) => [ProtoAtom(A_ARR_FLOAT, FloatArray(Floats(conv, atoms)))]
  }

  /** A fresh message after a sequence of pushes, each of which appends. */
  function Packed(conv: Conversions, pushes: seq<Push>): seq<ProtoAtom> {
    if |pushes| == 0 then [] else Pushed(conv, pushes[0]) + Packed(conv, pushes[1..])
  }

  // ---------- unpacking

  /** An accessor of a field that is not set yields the schema's default. */
  function Decode(p: ProtoAtom): seq<Atom> {
    match p.typ
    case A_LONG => [Long(if p.data.Int? then p.data.int_ else 0)]
    case A_FLOAT => [Float(if p.data.Flt? then p.data.float_ else 0.0)]
    case A_SYMBOL => [Symbol(if p.data.Str? then p.data.string_ else "")]
    case A_ARR_LONG => FromLongs(if p.data.IntArray? then p.data.ints else [])
    case A_ARR_FLOAT => FromFloats(if p.data.FloatArray? then p.data.floats else [])
    case UNKNOWN(_) => []
  }

  function FromLongs(vs: seq<int>): (r: seq<Atom>)
    ensures |r| == |vs|
  {
    seq(|vs|, i requires 0 <= i < |vs| => Long(vs[i]))
  }

  function FromFloats(xs: seq<real>): (r: seq<Atom>)
    ensures |r| == |xs|
  {
    seq(|xs|, i requires 0 <= i < |xs| => Float(xs[i]))
  }

  function Unpacked(message: seq<ProtoAtom>): seq<Atom> {
    if |message| == 0 then [] else Decode(message[0]) + Unpacked(message[1..])
  }

  // ---------- what survives the round trip

  function Normal(conv: Conversions, a: Atom): Atom {
    match a
    case Long(v) => Long(ToInt32(v))
    case Float(x) => Float(conv.narrow(x))
    case Symbol(_) => a
    case Other(_) => Long(0)
  }

  /** Array elements keep 64 bits. */
  function NormalElement(conv: Conversions, a: Atom, t: ArrayType): Atom {
    match t
    case LONGS => Long(conv.asLong(a))
    case FLOATS => Float(conv.narrow(conv.asFloat(a)))
  }

  function NormalPush(conv: Conversions, p: Push): seq<Atom> {
    match p
    case One(a) => [Normal(conv, a)]
    case Many(atoms) => seq(|atoms|, i requires 0 <= i < |atoms| => Normal(conv, atoms[i]))
    case Array(atoms, t) => seq(|atoms|, i requires 0 <= i < |atoms| => NormalElement(conv, atoms[i], t))
  }

  function NormalPushes(conv: Conversions, pushes: seq<Push>): seq<Atom> {
    if |pushes| == 0 then [] else NormalPush(conv, pushes[0]) + NormalPushes(conv, pushes[1..])
  }

  lemma {:induction false} UnpackedConcat(a: seq<ProtoAtom>, b: seq<ProtoAtom>)
    ensures Unpacked(a + b) == Unpacked(a) + Unpacked(b)
    decreases |a|
  {
    if |a| == 0 {
      assert a + b == b;
    } else {
      UnpackedCons(a, b);
      UnpackedConcat(a[1..], b);
      ConcatAssociates(Decode(a[0]), Unpacked(a[1..]), Unpacked(b));
    }
  }

  lemma UnpackedCons(a: seq<ProtoAtom>, b: seq<ProtoAtom>)
    requires |a| > 0
    ensures Unpacked(a + b) == Decode(a[0]) + Unpacked(a[1..] + b)
  {
    assert (a + b)[1..] == a[1..] + b;
  }

  lemma UnpackedOne(p: ProtoAtom)
    ensures Unpacked([p]) == Decode(p)
  {
    assert [p][1..] == [];
  }

  lemma {:induction false} ManyRoundTrips(conv: Conversions, atoms: seq<Atom>)
    ensures Unpacked(EncodeAll(conv, atoms)) == NormalPush(conv, Many(atoms))
    decreases |atoms|
  {
    if |atoms| > 0 {
      ManyRoundTrips(conv, atoms[1..]);
      assert EncodeAll(conv, atoms)[1..] == EncodeAll(conv, atoms[1..]);
      assert NormalPush(conv, Many(atoms)) == [Normal(conv, atoms[0])] + NormalPush(conv, Many(atoms[1..]));
    }
  }

  lemma PushRoundTrips(conv: Conversions, p: Push)
    ensures Unpacked(Pushed(conv, p)) == NormalPush(conv, p)
  {
    match p
    case One(a) => UnpackedOne(Encode(conv, a));
    case Many(atoms) => ManyRoundTrips(conv, atoms);
    case Array(atoms, LONGS) => UnpackedOne(ProtoAtom(A_ARR_LONG, IntArray(Longs(conv, atoms))));
    case Array(atoms, FLOATS) => UnpackedOne(ProtoAtom(A_ARR_FLOAT, FloatArray(Floats(conv, atoms))));
  }

  /** After any sequence of pushes on a fresh message, unpacking gives the concatenation
      of the normalised inputs, in order. */
  lemma {:induction false} RoundTrip(conv: Conversions, pushes: seq<Push>)
    ensures Unpacked(Packed(conv, pushes)) == NormalPushes(conv, pushes)
    decreases |pushes|
  {
    if |pushes| > 0 {
      RoundTrip(conv, pushes[1..]);
      PushRoundTrips(conv, pushes[0]);
      UnpackedConcat(Pushed(conv, pushes[0]), Packed(conv, pushes[1..]));
    }
  }

  /** Scalar integers survive exactly when they fit sint32. */
  lemma ScalarExact(conv: Conversions, v: int)
    ensures NormalPush(conv, One(Long(v))) == [Long(v)] <==> FitsInt32(v)
  {
    if FitsInt32(v) {
      assert v % 0x1_0000_0000 == if v < 0 then v + 0x1_0000_0000 else v;
    } else {
      assert FitsInt32(ToInt32(v));
    }
  }

  /** Narrowing keeps the value modulo 2^32, in the range of sint32. */
  lemma NarrowingIsModular(v: int)
    ensures FitsInt32(ToInt32(v)) && (ToInt32(v) - v) % 0x1_0000_0000 == 0
  {
    assert v == 0x1_0000_0000 * (v / 0x1_0000_0000) + v % 0x1_0000_0000;
    WholeMultiple(if v % 0x1_0000_0000 >= 0x8000_0000 then -1 - v / 0x1_0000_0000 else -(v / 0x1_0000_0000));
  }

  lemma WholeMultiple(k: int)
    ensures (0x1_0000_0000 * k) % 0x1_0000_0000 == 0
  {
  }

  /** What goes into a message for a scalar: the schema's type with the field of that type,
      and the default type with no field at all for an atom of another kind. */
  lemma ScalarFormat(conv: Conversions, a: Atom)
    ensures |Pushed(conv, One(a))| == 1
    ensures var p := Pushed(conv, One(a))[0];
            match a
            case Long(v) => p.typ == A_LONG && p.data.Int? && (p.data.int_ - v) % 0x1_0000_0000 == 0
            case Float(x) => p == ProtoAtom(A_FLOAT, Flt(conv.narrow(x)))
            case Symbol(s) => p == ProtoAtom(A_SYMBOL, Str(s))
            case Other(_) => p == ProtoAtom(A_LONG, Unset)
  {
    if a.Long? {
      NarrowingIsModular(a.value);
    }
  }

  /** And for an array: one atom that holds every element. */
  lemma ArrayFormat(conv: Conversions, atoms: seq<Atom>)
    ensures var r := Pushed(conv, Array(atoms, LONGS));
            && |r| == 1 && r[0].typ == A_ARR_LONG && r[0].data.IntArray? && |r[0].data.ints| == |atoms|
            && forall i :: 0 <= i < |atoms| ==> r[0].data.ints[i] == conv.asLong(atoms[i])
    ensures var r := Pushed(conv, Array(atoms, FLOATS));
            && |r| == 1 && r[0].typ == A_ARR_FLOAT && r[0].data.FloatArray? && |r[0].data.floats| == |atoms|
            && forall i :: 0 <= i < |atoms| ==> r[0].data.floats[i] == conv.narrow(conv.asFloat(atoms[i]))
  {
  }

  /** A received atom whose field does not match its type reads as the schema's default, and
      one of an unknown type as nothing. */
  lemma MismatchReadsAsDefault(p: ProtoAtom)
    ensures p.typ.A_LONG? && !p.data.Int? ==> Unpacked([p]) == [Long(0)]
    ensures p.typ.A_FLOAT? && !p.data.Flt? ==> Unpacked([p]) == [Float(0.0)]
    ensures p.typ.A_SYMBOL? && !p.data.Str? ==> Unpacked([p]) == [Symbol("")]
    ensures p.typ.A_ARR_LONG? && !p.data.IntArray? ==> Unpacked([p]) == []
    ensures p.typ.A_ARR_FLOAT? && !p.data.FloatArray? ==> Unpacked([p]) == []
    ensures p.typ.UNKNOWN? ==> Unpacked([p]) == []
  {
    UnpackedOne(p);
  }

  /** Atoms as unpacking yields them: floats are already narrow. */
  ghost predicate Settled(conv: Conversions, atoms: seq<Atom>) {
    forall i :: 0 <= i < |atoms| ==> SettledAtom(conv, atoms[i])
  }

  predicate SettledAtom(conv: Conversions, a: Atom) {
    !a.Other? && (a.Float? ==> conv.narrow(a.number) == a.number)
  }

  lemma NormalSettles(conv: Conversions, a: Atom, t: ArrayType)
    requires Lawful(conv)
    ensures SettledAtom(conv, Normal(conv, a)) && SettledAtom(conv, NormalElement(conv, a, t))
  {
    if a.Float? {
      NarrowTwice(conv, a.number);
    }
    NarrowTwice(conv, conv.asFloat(a));
  }

  lemma NarrowTwice(conv: Conversions, x: real)
    requires Lawful(conv)
    ensures conv.narrow(conv.narrow(x)) == conv.narrow(x)
  {
  }

  lemma PushSettles(conv: Conversions, p: Push)
    requires Lawful(conv)
    ensures Settled(conv, NormalPush(conv, p))
  {
    match p
    case One(a) => NormalSettles(conv, a, LONGS);
    case Many(atoms) =>
      forall i | 0 <= i < |atoms| ensures SettledAtom(conv, NormalPush(conv, p)[i]) {
        NormalSettles(conv, atoms[i], LONGS);
      }
    case Array(atoms, t) =>
      forall i | 0 <= i < |atoms| ensures SettledAtom(conv, NormalPush(conv, p)[i]) {
        NormalSettles(conv, atoms[i], t);
      }
  }

  lemma {:induction false} UnpackedSettles(conv: Conversions, pushes: seq<Push>)
    requires Lawful(conv)
    ensures Settled(conv, NormalPushes(conv, pushes))
    decreases |pushes|
  {
    if |pushes| > 0 {
      UnpackedSettles(conv, pushes[1..]);
      PushSettles(conv, pushes[0]);
    }
  }

  ghost predicate IntegersFit(atoms: seq<Atom>) {
    forall i :: 0 <= i < |atoms| && atoms[i].Long? ==> FitsInt32(atoms[i].value)
  }

  /** Pushing an unpacked list again is a fixed point if and only if every integer of it
      fits sint32; array elements need not. */
  lemma FixedPointExact(conv: Conversions, pushes: seq<Push>)
    requires Lawful(conv)
    ensures var r := Unpacked(Packed(conv, pushes));
            Unpacked(Packed(conv, [Many(r)])) == r <==> IntegersFit(r)
  {
    var r := Unpacked(Packed(conv, pushes));
    RoundTrip(conv, pushes);
    UnpackedSettles(conv, pushes);
    RoundTrip(conv, [Many(r)]);
    var again := NormalPush(conv, Many(r));
    assert [Many(r)][1..] == [] && NormalPushes(conv, [Many(r)]) == again;
    forall i | 0 <= i < |r| && r[i].Long?
      ensures again[i] == r[i] <==> FitsInt32(r[i].value)
    {
      ScalarExact(conv, r[i].value);
      assert again[i] == NormalPush(conv, One(r[i]))[0];
    }
    if IntegersFit(r) {
      assert forall i :: 0 <= i < |r| ==> again[i] == r[i];
    } else {
      var i :| 0 <= i < |r| && r[i].Long? && !FitsInt32(r[i].value);
      assert again[i] != r[i];
    }
  }
}

/** The message class of the generic atom message. */
module MaxMessages {
  import opened AtomModel
  import opened Seqs

  class MaxMessage {
    const conv: Conversions
    var proto: seq<ProtoAtom>

    constructor (conv: Conversions)
      ensures this.conv == conv && proto == []
    {
      this.conv := conv;
      proto := [];
    }

    method PushAtom(atomIn: Atom)
      modifies this
      ensures proto == old(proto) + Pushed(conv, One(atomIn))
    {
      var newAtom := ProtoAtom(A_LONG, Unset);
      match atomIn {
        case Long(v) => newAtom := ProtoAtom(A_LONG, Int(ToInt32(v)));
        case Float(x) => newAtom := ProtoAtom(A_FLOAT, Flt(conv.narrow(x)));
        case Symbol(s) => newAtom := ProtoAtom(A_SYMBOL, Str(s));
        case Other(_) =>
      }
      proto := proto + [newAtom];
    }

    method PushAtoms(atms: seq<Atom>)
      modifies this
      ensures proto == old(proto) + Pushed(conv, Many(atms))
    {
      var i := 0;
      while i < |atms|
        invariant 0 <= i <= |atms|
        invariant proto == old(proto) + EncodeAll(conv, atms)[..i]
      {
        PushAtom(atms[i]);
        assert EncodeAll(conv, atms)[i] == Encode(conv, atms[i]);
        i := i + 1;
      }
    }

    /** Only long and float arrays are valid. */
    method PushAtomArray(atms: seq<Atom>, arrayType: ArrayType)
      modifies this
      ensures proto == old(proto) + Pushed(conv, Array(atms, arrayType))
    {
      var i := 0;
      if arrayType == LONGS {
        var arr: seq<int> := [];
        while i < |atms|
          invariant 0 <= i <= |atms|
          invariant arr == Longs(conv, atms)[..i]
        {
          arr := arr + [conv.asLong(atms[i])];
          i := i + 1;
        }
        assert arr == Longs(conv, atms);
        proto := proto + [ProtoAtom(A_ARR_LONG, IntArray(arr))];
      } else {
        var arr: seq<real> := [];
        while i < |atms|
          invariant 0 <= i <= |atms|
          invariant arr == Floats(conv, atms)[..i]
        {
          arr := arr + [conv.narrow(conv.asFloat(atms[i]))];
          i := i + 1;
        }
        assert arr == Floats(conv, atms);
        proto := proto + [ProtoAtom(A_ARR_FLOAT, FloatArray(arr))];
      }
    }

    method GetAtoms() returns (outAtoms: seq<Atom>)
      ensures outAtoms == Unpacked(proto)
    {
      outAtoms := [];
      var i := 0;
      assert proto[0..] == proto;
      while i < |proto|
        invariant 0 <= i <= |proto|
        invariant outAtoms + Unpacked(proto[i..]) == Unpacked(proto)
      {
        assert proto[i..][1..] == proto[i + 1..];
        ghost var before := outAtoms;
        outAtoms := AppendAtom(outAtoms, proto[i]);
        ConcatAssociates(before, Decode(proto[i]), Unpacked(proto[i + 1..]));
        i := i + 1;
      }
    }

    /** The body of the outer loop of get_atoms. */
    method AppendAtom(atoms: seq<Atom>, p: ProtoAtom) returns (r: seq<Atom>)
      ensures r == atoms + Decode(p)
    {
      match p.typ {
        case A_LONG => r := atoms + [Long(if p.data.Int? then p.data.int_ else 0)];
        case A_FLOAT => r := atoms + [Float(if p.data.Flt? then p.data.float_ else 0.0)];
        case A_SYMBOL => r := atoms + [Symbol(if p.data.Str? then p.data.string_ else "")];
        case A_ARR_LONG => r := AppendLongs(atoms, if p.data.IntArray? then p.data.ints else []);
        case A_ARR_FLOAT => r := AppendFloats(atoms, if p.data.FloatArray? then p.data.floats else []);
        case UNKNOWN(_) => r := atoms;
      }
    }

    /** The inner loop of get_atoms over an integer array. */
    method AppendLongs(atoms: seq<Atom>, vals: seq<int>) returns (r: seq<Atom>)
      ensures r == atoms + FromLongs(vals)
    {
      r := atoms;
      var j := 0;
      while j < |vals|
        invariant 0 <= j <= |vals|
        invariant r == atoms + FromLongs(vals)[..j]
      {
        r := r + [Long(vals[j])];
        j := j + 1;
      }
    }

    /** The inner loop of get_atoms over a float array. */
    method AppendFloats(atoms: seq<Atom>, vals: seq<real>) returns (r: seq<Atom>)
      ensures r == atoms + FromFloats(vals)
    {
      r := atoms;
      var j := 0;
      while j < |vals|
        invariant 0 <= j <= |vals|
        invariant r == atoms + FromFloats(vals)[..j]
      {
        r := r + [Float(vals[j])];
        j := j + 1;
      }
    }
  }
}

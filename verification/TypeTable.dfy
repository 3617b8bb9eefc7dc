/** The hash-consed type table of the assembly compiler: a type is a number, and a pointer or array type
    is a descriptor that refers to its inner type by number. */
module TypeTable {
  const PRIMITIVE_COUNT: nat := 20
  const TABLE_CAP: nat := 256
  const TWO64: nat := 0x1_0000_0000_0000_0000
  const TWO32: nat := 0x1_0000_0000

  datatype Kind = Invalid | Prim | Ptr | Array

  /** A descriptor: kind, mutability byte, inner type and array length. */
  datatype Desc = Desc(kind: Kind, mut: nat, inner: nat, size: nat)

  // ----- what the numbers mean -----

  datatype Type =
    | Primitive(id: nat)
    | Pointer(mut: nat, target: Type)
    | ArrayOf(element: Type, length: nat)

  ghost predicate DescFormed(ds: seq<Desc>, i: nat)
    requires i < |ds|
  {
    if i < PRIMITIVE_COUNT then ds[i] == Desc(Prim, 0, i, 0)
    else (ds[i].kind.Ptr? && ds[i].size == 0) || (ds[i].kind.Array? && ds[i].mut == 0)
  }

  /** The primitive types, then pointer and array types, no descriptor twice. */
  ghost predicate Formed(ds: seq<Desc>) {
    && PRIMITIVE_COUNT <= |ds| <= TABLE_CAP
    && (forall i {:trigger DescFormed(ds, i)} :: 1 <= i < |ds| ==> DescFormed(ds, i))
    && (forall i, j :: PRIMITIVE_COUNT <= i < j < |ds| ==> ds[i] != ds[j])
  }

  ghost predicate DescSound(ds: seq<Desc>, i: nat)
    requires i < |ds|
  {
    DescFormed(ds, i) && (i >= PRIMITIVE_COUNT ==> 0 < ds[i].inner < i)
  }

  /** And every inner type is an earlier one. */
  ghost predicate Sound(ds: seq<Desc>) {
    Formed(ds) && forall i {:trigger DescSound(ds, i)} :: 1 <= i < |ds| ==> DescSound(ds, i)
  }

  ghost function Meaning(ds: seq<Desc>, id: nat): Type
    requires Sound(ds) && 0 < id < |ds|
    decreases id
  {
    assert DescSound(ds, id);
    if id < PRIMITIVE_COUNT then Primitive(id)
    else if ds[id].kind.Ptr? then Pointer(ds[id].mut, Meaning(ds, ds[id].inner))
    else ArrayOf(Meaning(ds, ds[id].inner), ds[id].size)
  }

  /** Equal types have equal numbers: two numbers never mean the same. */
  lemma {:induction false} MeaningsDiffer(ds: seq<Desc>, i: nat, j: nat)
    requires Sound(ds) && 0 < i < |ds| && 0 < j < |ds|
    ensures Meaning(ds, i) == Meaning(ds, j) <==> i == j
    decreases i + j
  {
    assert DescSound(ds, i) && DescSound(ds, j);
    if i >= PRIMITIVE_COUNT && j >= PRIMITIVE_COUNT && i != j {
      MeaningsDiffer(ds, ds[i].inner, ds[j].inner);
    }
  }

  /** Growing the table changes no meaning. */
  lemma {:induction false} MeaningKept(ds: seq<Desc>, more: seq<Desc>, id: nat)
    requires Sound(ds) && Sound(more) && ds <= more && 0 < id < |ds|
    ensures Meaning(more, id) == Meaning(ds, id)
    decreases id
  {
    assert DescSound(ds, id) && DescSound(more, id);
    if id >= PRIMITIVE_COUNT {
      MeaningKept(ds, more, ds[id].inner);
    }
  }

  // ----- interning -----

  /** The first number of a descriptor, or the number of types if there is none. */
  function IndexOf(ds: seq<Desc>, d: Desc, from: nat): (i: nat)
    requires from <= |ds|
    ensures from <= i <= |ds|
    ensures i < |ds| ==> ds[i] == d
    ensures forall k :: from <= k < i ==> ds[k] != d
    decreases |ds| - from
  {
    if from == |ds| then from else if ds[from] == d then from else IndexOf(ds, d, from + 1)
  }

  datatype Result = Result(ds: seq<Desc>, id: nat)

  function Intern(ds: seq<Desc>, d: Desc): Result
    requires PRIMITIVE_COUNT <= |ds|
  {
    var i := IndexOf(ds, d, PRIMITIVE_COUNT);
    if i < |ds| then Result(ds, i)
    else if |ds| >= TABLE_CAP then Result(ds, 0)
    else Result(ds + [d], i)
  }

  function PtrDesc(inner: nat, mut: nat): Desc {
    Desc(Ptr, mut % 256, inner % TWO32, 0)
  }

  function ArrayDesc(element: nat, size: nat): Desc {
    Desc(Array, 0, element % TWO32, size % TWO64)
  }

  /** A descriptor over a type already there. */
  ghost predicate Interns(ds: seq<Desc>, d: Desc) {
    0 < d.inner < |ds| && ((d.kind.Ptr? && d.size == 0) || (d.kind.Array? && d.mut == 0))
  }

  ghost function TypeOf(ds: seq<Desc>, d: Desc): Type
    requires Sound(ds) && Interns(ds, d)
  {
    if d.kind.Ptr? then Pointer(d.mut, Meaning(ds, d.inner)) else ArrayOf(Meaning(ds, d.inner), d.size)
  }

  /** Whatever is interned, the table stays formed. */
  lemma {:induction false} InternFormed(ds: seq<Desc>, d: Desc)
    requires Formed(ds) && ((d.kind.Ptr? && d.size == 0) || (d.kind.Array? && d.mut == 0))
    ensures var r := Intern(ds, d); Formed(r.ds) && ds <= r.ds && r.id < |r.ds|
  {
    var r := Intern(ds, d);
    forall i | 1 <= i < |r.ds|
      ensures DescFormed(r.ds, i)
    {
      if i < |ds| {
        assert DescFormed(ds, i);
      }
    }
  }

  /** A sound table stays sound exactly when the inner type is one of the types so far, or nothing is added. */
  lemma {:induction false} SoundIff(ds: seq<Desc>, op: Op)
    requires Sound(ds)
    ensures var r := Intern(ds, DescOf(op)); Sound(r.ds) <==> Interns(ds, DescOf(op)) || r.ds == ds
  {
    var d := DescOf(op);
    var r := Intern(ds, d);
    if Interns(ds, d) {
      InternSound(ds, d);
    } else if r.ds != ds {
      assert r.ds[|ds|] == d;
      assert !DescSound(r.ds, |ds|);
    }
  }

  lemma {:induction false} InternSound(ds: seq<Desc>, d: Desc)
    requires Sound(ds) && Interns(ds, d)
    ensures var r := Intern(ds, d); Sound(r.ds) && ds <= r.ds && r.id < |r.ds|
  {
    var r := Intern(ds, d);
    InternFormed(ds, d);
    forall i | 1 <= i < |r.ds|
      ensures DescSound(r.ds, i)
    {
      if i < |ds| {
        assert DescSound(ds, i);
      }
    }
  }

  /** Interning yields the one number that means the type: an old one exactly when the type was there already,
      a new one when there is room, and 0 when there is none. */
  lemma {:induction false} InternMeans(ds: seq<Desc>, d: Desc)
    requires Sound(ds) && Interns(ds, d)
    ensures var r := Intern(ds, d);
      && Sound(r.ds) && r.id < |r.ds|
      && (r.id > 0 ==> Meaning(r.ds, r.id) == TypeOf(ds, d))
      && (0 < r.id < |ds| <==> exists k :: 0 < k < |ds| && Meaning(ds, k) == TypeOf(ds, d))
      && (r.id == 0 <==> |ds| == TABLE_CAP && !exists k :: 0 < k < |ds| && Meaning(ds, k) == TypeOf(ds, d))
      && forall k :: 0 < k < |ds| ==> Meaning(r.ds, k) == Meaning(ds, k)
  {
    var r := Intern(ds, d);
    InternSound(ds, d);
    forall k | 0 < k < |ds|
      ensures Meaning(r.ds, k) == Meaning(ds, k)
    {
      MeaningKept(ds, r.ds, k);
    }
    if k :| 0 < k < |ds| && Meaning(ds, k) == TypeOf(ds, d) {
      assert DescSound(ds, k);
      MeaningsDiffer(ds, ds[k].inner, d.inner);
      assert ds[k] == d;
    }
    if r.id > 0 {
      assert DescSound(r.ds, r.id);
    }
  }

  /** The number that interning yields means the type; 0 comes out when there are 256 types and none is that one. */
  ghost predicate Yields(ds: seq<Desc>, r: Result, t: Type)
    requires Sound(ds)
  {
    && Sound(r.ds) && r.id < |r.ds| && ds <= r.ds
    && (r.id > 0 ==> Meaning(r.ds, r.id) == t)
    && (r.id == 0 <==> |ds| == 256 && forall k :: 0 < k < |ds| ==> Meaning(ds, k) != t)
    && (r.ds == ds || (r.ds[..|ds|] == ds && |r.ds| == |ds| + 1 && r.id == |ds|))
  }

  /** Interning a pointer to a type, or an array of it, is numbering that very pointer or array type: the mutability is
      one byte, the length 64 bits. */
  lemma {:induction false} InternNames(ds: seq<Desc>, inner: nat, mut: nat, size: nat)
    requires Sound(ds) && 0 < inner < |ds|
    ensures Yields(ds, Intern(ds, PtrDesc(inner, mut)), Pointer(mut % 256, Meaning(ds, inner)))
    ensures Yields(ds, Intern(ds, ArrayDesc(inner, size)), ArrayOf(Meaning(ds, inner), size % 0x1_0000_0000_0000_0000))
  {
    var p, a := PtrDesc(inner, mut), ArrayDesc(inner, size);
    assert Interns(ds, p) && Interns(ds, a);
    assert TypeOf(ds, p) == Pointer(mut % 256, Meaning(ds, inner));
    assert TypeOf(ds, a) == ArrayOf(Meaning(ds, inner), size % 0x1_0000_0000_0000_0000);
    InternMeans(ds, p);
    InternMeans(ds, a);
  }

  // ----- runs -----

  datatype Op = InternPtr(inner: nat, mut: nat) | InternArray(element: nat, size: nat)

  function DescOf(op: Op): Desc {
    match op
    case InternPtr(inner, mut) => PtrDesc(inner, mut)
    case InternArray(element, size) => ArrayDesc(element, size)
  }

  /** The inner type is one of the types so far. */
  predicate Sensible(ds: seq<Desc>, op: Op) {
    match op
    case InternPtr(inner, _) => 0 < inner < |ds|
    case InternArray(element, _) => 0 < element < |ds|
  }

  /** Operations whose inner types are not there are not performed. */
  function Run(ds: seq<Desc>, ops: seq<Op>): seq<Desc>
    requires PRIMITIVE_COUNT <= |ds|
    decreases ops
  {
    if ops == [] then ds
    else Run(if Sensible(ds, ops[0]) then Intern(ds, DescOf(ops[0])).ds else ds, ops[1..])
  }

  /** Over any run, the table stays sound and no number ever changes its meaning. */
  lemma {:induction false} RunKeepsMeanings(ds: seq<Desc>, ops: seq<Op>)
    requires Sound(ds)
    ensures Sound(Run(ds, ops)) && ds <= Run(ds, ops)
    ensures forall id :: 0 < id < |ds| ==> Meaning(Run(ds, ops), id) == Meaning(ds, id)
    decreases ops
  {
    if ops != [] {
      if Sensible(ds, ops[0]) {
        SmallInner(ds, ops[0]);
        InternSound(ds, DescOf(ops[0]));
      }
      RunKeepsMeanings(if Sensible(ds, ops[0]) then Intern(ds, DescOf(ops[0])).ds else ds, ops[1..]);
    }
    forall id | 0 < id < |ds|
      ensures Meaning(Run(ds, ops), id) == Meaning(ds, id)
    {
      MeaningKept(ds, Run(ds, ops), id);
    }
  }

  lemma {:induction false} SmallInner(ds: seq<Desc>, op: Op)
    requires Sound(ds) && Sensible(ds, op)
    ensures Interns(ds, DescOf(op))
  {}

  // ----- slot counts -----

  /** The product of the dimensions; an array of length 0 counts as one slot, whatever its elements are. */
  ghost function Dimensions(t: Type): nat {
    match t
    case ArrayOf(e, n) => if n == 0 then 1 else n * Dimensions(e)
    case _ => 1
  }

  lemma {:induction false} WrapTimes(a: nat, n: nat)
    ensures (a % TWO64 * n) % TWO64 == (a * n) % TWO64
  {
    var q := a / TWO64;
    assert a == q * TWO64 + a % TWO64;
    assert a * n == (q * n) * TWO64 + a % TWO64 * n by {
      assert (q * TWO64 + a % TWO64) * n == q * TWO64 * n + a % TWO64 * n;
    }
    ModMultiple(a % TWO64 * n, q * n);
  }

  lemma {:induction false} ModMultiple(x: nat, k: nat)
    ensures (k * TWO64 + x) % TWO64 == x % TWO64
  {}

  // ----- the table -----

  class Types {
    const table: array<Desc>
    var count: nat

    ghost predicate Valid()
      reads this, table
    {
      table.Length == TABLE_CAP && count <= TABLE_CAP && Formed(View())
    }

    ghost function View(): seq<Desc>
      requires count <= table.Length
      reads this, table
    {
      table[..count]
    }

    /** The primitive types, numbered from 1. */
    constructor ()
      ensures Valid() && Sound(View()) && count == PRIMITIVE_COUNT && fresh(table)
    {
      table := new Desc[TABLE_CAP](_ => Desc(Invalid, 0, 0, 0));
      count := PRIMITIVE_COUNT;
      new;
      var rcx: nat := 1;
      while rcx < PRIMITIVE_COUNT
        invariant 1 <= rcx <= PRIMITIVE_COUNT && count == PRIMITIVE_COUNT
        invariant forall i :: 1 <= i < rcx ==> table[i] == Desc(Prim, 0, i, 0)
      {
        table[rcx] := Desc(Prim, 0, rcx, 0);
        rcx := rcx + 1;
      }
    }

    method InternPtr(inner: nat, mut: nat) returns (id: nat)
      requires Valid()
      modifies this`count, table
      ensures Valid()
      ensures Result(View(), id) == Intern(old(View()), PtrDesc(inner, mut))
    {
      ghost var d := PtrDesc(inner, mut);
      ghost var ds := View();
      InternFormed(ds, d);
      var i := PRIMITIVE_COUNT;
      while i < count
        invariant PRIMITIVE_COUNT <= i <= count
        invariant IndexOf(ds, d, PRIMITIVE_COUNT) == IndexOf(ds, d, i)
      {
        assert DescFormed(ds, i) && table[i] == ds[i];
        if table[i].kind == Ptr && table[i].mut == mut % 256 && table[i].inner == inner % TWO32 {
          return i;
        }
        i := i + 1;
      }
      if count >= TABLE_CAP {
        return 0;
      }
      table[count] := Desc(Ptr, mut % 256, inner % TWO32, 0);
      count := count + 1;
      assert View() == ds + [d];
      return count - 1;
    }

    method InternArray(element: nat, size: nat) returns (id: nat)
      requires Valid()
      modifies this`count, table
      ensures Valid()
      ensures Result(View(), id) == Intern(old(View()), ArrayDesc(element, size))
    {
      ghost var d := ArrayDesc(element, size);
      ghost var ds := View();
      InternFormed(ds, d);
      var i := PRIMITIVE_COUNT;
      while i < count
        invariant PRIMITIVE_COUNT <= i <= count
        invariant IndexOf(ds, d, PRIMITIVE_COUNT) == IndexOf(ds, d, i)
      {
        assert DescFormed(ds, i) && table[i] == ds[i];
        if table[i].kind == Array && table[i].inner == element % TWO32 && table[i].size == size % TWO64 {
          return i;
        }
        i := i + 1;
      }
      if count >= TABLE_CAP {
        return 0;
      }
      table[count] := Desc(Array, 0, element % TWO32, size % TWO64);
      count := count + 1;
      assert View() == ds + [d];
      return count - 1;
    }

    /** The inner type of a pointer type, or 0. */
    method GetInner(id: nat) returns (inner: nat)
      requires Valid()
      ensures inner == if PRIMITIVE_COUNT <= id < count && table[id].kind.Ptr? then table[id].inner else 0
      ensures Sound(View()) && 0 < id < count ==>
        (inner > 0 <==> Meaning(View(), id).Pointer?) && (inner > 0 ==> inner < count && Meaning(View(), id).target == Meaning(View(), inner))
    {
      if 0 < id < count {
        assert DescFormed(View(), id) && View()[id] == table[id];
        assert Sound(View()) ==> DescSound(View(), id);
      }
      if id < PRIMITIVE_COUNT || id >= count || table[id].kind != Ptr {
        return 0;
      }
      return table[id].inner;
    }

    /** The element type of an array type, or 0. */
    method GetElementOfArray(id: nat) returns (element: nat)
      requires Valid()
      ensures element == if PRIMITIVE_COUNT <= id < count && table[id].kind.Array? then table[id].inner else 0
      ensures Sound(View()) && 0 < id < count ==>
        (element > 0 <==> Meaning(View(), id).ArrayOf?)
        && (element > 0 ==> element < count && Meaning(View(), id).element == Meaning(View(), element))
    {
      if 0 < id < count {
        assert DescFormed(View(), id) && View()[id] == table[id];
        assert Sound(View()) ==> DescSound(View(), id);
      }
      if id < PRIMITIVE_COUNT || id >= count || table[id].kind != Array {
        return 0;
      }
      return table[id].inner;
    }

    /** The length of an array type; 0 for other types. */
    method ArrayCount(id: nat) returns (length: nat)
      requires Valid()
      ensures length == if PRIMITIVE_COUNT <= id < count && table[id].kind.Array? then table[id].size else 0
      ensures Sound(View()) && 0 < id < count ==> length == match Meaning(View(), id) case ArrayOf(_, n) => n case _ => 0
    {
      if 0 < id < count {
        assert DescFormed(View(), id) && View()[id] == table[id];
        assert Sound(View()) ==> DescSound(View(), id);
      }
      if id < PRIMITIVE_COUNT || id >= count || table[id].kind != Array {
        return 0;
      }
      return table[id].size;
    }

    /** The product of a type's dimensions, as far as 64 bits hold it; 1 for a number that is no type. */
    method SlotCount(id: nat) returns (slots: nat)
      requires Valid() && Sound(View())
      ensures slots == if 0 < id < count then Dimensions(Meaning(View(), id)) % TWO64 else 1
      decreases id
    {
      slots := 1;
      if 0 < id < count {
        assert DescFormed(View(), id) && View()[id] == table[id];
        assert Sound(View()) ==> DescSound(View(), id);
      }
      if id < PRIMITIVE_COUNT || id >= count || table[id].kind != Array {
        return;
      }
      var length := ArrayCount(id);
      if length == 0 {
        return;
      }
      var element := GetElementOfArray(id);
      if element != 0 {
        var inner := SlotCount(element);
        WrapTimes(Dimensions(Meaning(View(), element)), length);
        slots := inner * length % TWO64;
      }
    }
  }
}

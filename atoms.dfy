/** The atom factory: a bimap that numbers hashable objects 1, 2, 3, ...
    in the order it first sees them. */
module Atoms {
  import opened Wrappers

  /** The exceptions the factory's operations raise: the `KeyError` of a
      locked factory asked for an object it does not hold, the `IndexError`
      of an atom outside the list, and the `IllegalOperation` of
      `convertAtom`. */
  datatype Error = KeyError | IndexError | IllegalOperation

  /** No object occurs twice in `s`. */
  ghost predicate Distinct<T>(s: seq<T>)
  {
    forall i, j :: 0 <= i < j < |s| ==> s[i] != s[j]
  }

  /** The bimap invariant: `s` lists each object of `m` once, and the atom
      of the object at position `i` is `i + 1`. */
  ghost predicate IsBimap<T>(m: map<T, int>, s: seq<T>)
  {
    && Distinct(s)
    && (forall o :: o in m ==> o in s)
    && (forall i :: 0 <= i < |s| ==> s[i] in m && m[s[i]] == i + 1)
  }

  /** Every object of a bimap sits at the position its atom names. */
  lemma AtomNamesPosition<T>(m: map<T, int>, s: seq<T>, o: T)
    requires IsBimap(m, s) && o in m
    ensures 1 <= m[o] <= |s| && s[m[o] - 1] == o
  {
    var i :| 0 <= i < |s| && s[i] == o;
  }

  /** Distinct objects get distinct atoms. */
  lemma AtomsDistinct<T>(m: map<T, int>, s: seq<T>, o1: T, o2: T)
    requires IsBimap(m, s) && o1 in m && o2 in m && o1 != o2
    ensures m[o1] != m[o2]
  {
    AtomNamesPosition(m, s, o1);
    AtomNamesPosition(m, s, o2);
  }

  /** A bimap is determined by its sequence of objects. */
  lemma BimapDeterminedBySequence<T>(m1: map<T, int>, m2: map<T, int>, s: seq<T>)
    requires IsBimap(m1, s) && IsBimap(m2, s)
    ensures m1 == m2
  {
    forall o | o in m1 ensures o in m2 && m1[o] == m2[o] {
      AtomNamesPosition(m1, s, o);
    }
  }

  /** Adding an absent object with the next atom keeps the invariant. */
  lemma InsertKeepsBimap<T>(m: map<T, int>, s: seq<T>, o: T)
    requires IsBimap(m, s) && o !in m
    ensures IsBimap(m[o := |s| + 1], s + [o])
  {
    var m', s' := m[o := |s| + 1], s + [o];
    forall i | 0 <= i < |s'| ensures s'[i] in m' && m'[s'[i]] == i + 1 {
      if i < |s| { assert s'[i] == s[i]; }
    }
  }

  lemma {:induction false} DistinctElementCount<T>(s: seq<T>)
    requires Distinct(s)
    ensures |set x | x in s| == |s|
  {
    if s != [] {
      var init, last := s[..|s| - 1], s[|s| - 1];
      assert Distinct(init);
      DistinctElementCount(init);
      assert s == init + [last];
      assert (set x | x in s) == (set x | x in init) + {last};
      assert last !in init;
    }
  }

  /** The number of atoms handed out equals the number of objects held. */
  lemma {:induction false} BimapSize<T>(m: map<T, int>, s: seq<T>)
    requires IsBimap(m, s)
    ensures |m| == |s|
  {
    assert m.Keys == set x | x in s;
    DistinctElementCount(s);
  }

  /** The objects of `s` not in `objects`, in their original order. */
  function Filter<T>(s: seq<T>, objects: set<T>): seq<T>
  {
    if s == [] then []
    else Filter(s[..|s| - 1], objects) + (if s[|s| - 1] in objects then [] else [s[|s| - 1]])
  }

  lemma {:induction false} FilterMembers<T>(s: seq<T>, objects: set<T>, x: T)
    ensures x in Filter(s, objects) <==> x in s && x !in objects
  {
    if s != [] {
      FilterMembers(s[..|s| - 1], objects, x);
      assert s == s[..|s| - 1] + [s[|s| - 1]];
    }
  }

  lemma {:induction false} FilterDistinct<T>(s: seq<T>, objects: set<T>)
    requires Distinct(s)
    ensures Distinct(Filter(s, objects))
  {
    if s != [] {
      var init, last := s[..|s| - 1], s[|s| - 1];
      assert Distinct(init);
      FilterDistinct(init, objects);
      FilterMembers(init, objects, last);
      assert last !in init;
    }
  }

  /** Removing nothing keeps everything, in order. */
  lemma {:induction false} FilterNothing<T>(s: seq<T>, objects: set<T>)
    requires forall i :: 0 <= i < |s| ==> s[i] !in objects
    ensures Filter(s, objects) == s
  {
    if s != [] {
      FilterNothing(s[..|s| - 1], objects);
    }
  }

  class AtomFactory<T(==)> {
    var name: string
    var objToAtom: map<T, int>
    var atomToObj: seq<T>
    var locked: bool

    ghost predicate Valid()
      reads this
    {
      IsBimap(objToAtom, atomToObj)
    }

    constructor (name: string)
      ensures Valid()
      ensures this.name == name && objToAtom == map[] && atomToObj == [] && !locked
    {
      this.name := name;
      objToAtom := map[];
      atomToObj := [];
      locked := false;
    }

    /** `af[obj]`: look the object up, inserting it with the next atom when
        it is new and the factory is unlocked. */
    method Get(obj: T) returns (r: Result<int, Error>)
      requires Valid()
      modifies this
      ensures Valid()
      ensures name == old(name) && locked == old(locked)
      ensures obj in old(objToAtom) ==>
        r == Ok(old(objToAtom)[obj]) && objToAtom == old(objToAtom) && atomToObj == old(atomToObj)
      ensures obj !in old(objToAtom) && old(locked) ==>
        r == Err(KeyError) && objToAtom == old(objToAtom) && atomToObj == old(atomToObj)
      ensures obj !in old(objToAtom) && !old(locked) ==>
        && r == Ok(|old(atomToObj)| + 1)
        && atomToObj == old(atomToObj) + [obj]
        && objToAtom == old(objToAtom)[obj := |old(atomToObj)| + 1]
      ensures r.Ok? ==> 1 <= r.value <= |atomToObj| && atomToObj[r.value - 1] == obj
    {
      if obj in objToAtom {
        AtomNamesPosition(objToAtom, atomToObj, obj);
        return Ok(objToAtom[obj]);
      }
      if locked {
        return Err(KeyError);
      }
      var a := |atomToObj| + 1;
      InsertKeepsBimap(objToAtom, atomToObj, obj);
      objToAtom := objToAtom[obj := a];
      atomToObj := atomToObj + [obj];
      return Ok(a);
    }

    /** `af.get_object(a)`, also spelled `af(a)`: the list is indexed at
        `a - 1`, so an atom from `-len + 1` to `0` counts from the end of
        the list, as Python's negative indices do; any other atom outside
        `1..len` is an `IndexError`. */
    function GetObject(a: int): (r: Result<T, Error>)
      reads this
      requires Valid()
      ensures r.Err? <==> !(-|atomToObj| < a <= |atomToObj|)
      ensures r.Err? ==> r.error == IndexError
      ensures 1 <= a <= |atomToObj| ==> r == Ok(atomToObj[a - 1]) && objToAtom[r.value] == a
      ensures -|atomToObj| < a <= 0 ==> r.Ok? && r.value in objToAtom && objToAtom[r.value] == a + |atomToObj|
    {
      if 1 <= a <= |atomToObj| then Ok(atomToObj[a - 1])
      else if -|atomToObj| < a <= 0 then Ok(atomToObj[a - 1 + |atomToObj|])
      else Err(IndexError)
    }

    /** `len(af)` */
    function Len(): (n: nat)
      reads this
      requires Valid()
      ensures n == |objToAtom|
    {
      BimapSize(objToAtom, atomToObj);
      |atomToObj|
    }

    /** `obj in af` */
    function Contains(obj: T): (b: bool)
      reads this
      requires Valid()
      ensures b <==> obj in atomToObj
    {
      obj in objToAtom
    }

    /** Refuse new objects from now on; what is held stays as it is. */
    method Lock()
      requires Valid()
      modifies this`locked
      ensures Valid() && locked
    {
      locked := true;
    }

    /** A new, unlocked factory with the same name holding every object
        not in `objects`, renumbered in first-seen order. */
    method Remove(objects: set<T>) returns (r: AtomFactory<T>)
      requires Valid()
      ensures fresh(r) && r.Valid()
      ensures r.name == name && !r.locked
      ensures r.atomToObj == Filter(atomToObj, objects)
    {
      r := new AtomFactory(name);
      var i := 0;
      while i < |atomToObj|
        invariant 0 <= i <= |atomToObj|
        invariant fresh(r) && r.Valid() && r.name == name && !r.locked
        invariant r.atomToObj == Filter(atomToObj[..i], objects)
      {
        var obj := atomToObj[i];
        assert atomToObj[..i + 1] == atomToObj[..i] + [obj];
        if obj !in objects {
          FilterMembers(atomToObj[..i], objects, obj);
          var _ := r.Get(obj);
        }
        i := i + 1;
      }
      assert atomToObj[..i] == atomToObj;
    }
  }

  /** Where a kept object lands after `Remove`: its new atom is one more
      than the number of kept objects before it. */
  lemma RemoveRenumbers<T>(m: map<T, int>, s: seq<T>, objects: set<T>, m': map<T, int>, o: T)
    requires IsBimap(m, s) && IsBimap(m', Filter(s, objects))
    requires o in m && o !in objects
    ensures o in m' && m'[o] == |Filter(s[..m[o] - 1], objects)| + 1
  {
    AtomNamesPosition(m, s, o);
    var k := m[o] - 1;
    var t := s[k + 1..];
    assert s == s[..k] + [o] + t;
    FilterAppend(s[..k] + [o], t, objects);
    assert (s[..k] + [o])[..k] == s[..k];
    var f := Filter(s, objects);
    assert f[|Filter(s[..k], objects)|] == o;
  }

  lemma {:induction false} FilterAppend<T>(a: seq<T>, b: seq<T>, objects: set<T>)
    ensures Filter(a + b, objects) == Filter(a, objects) + Filter(b, objects)
  {
    if b != [] {
      assert (a + b)[..|a + b| - 1] == a + b[..|b| - 1];
      FilterAppend(a, b[..|b| - 1], objects);
    } else {
      assert a + b == a;
    }
  }

  /** `convertAtom(oldAF, newAF, atom)`: the target factory's atom for the
      object `atom` names in the source factory. The target is only
      queried, never grown; the `IndexError` of `get_object` passes
      through. */
  function ConvertAtom<T>(oldAF: AtomFactory<T>, newAF: AtomFactory<T>, atom: int): (r: Result<int, Error>)
    reads oldAF, newAF
    requires oldAF.Valid() && newAF.Valid()
    ensures oldAF.GetObject(atom).Err? ==> r == Err(IndexError)
    ensures oldAF.GetObject(atom).Ok? ==> (r.Ok? <==> oldAF.GetObject(atom).value in newAF.atomToObj)
    ensures oldAF.GetObject(atom).Ok? && r.Err? ==> r.error == IllegalOperation
    ensures r.Ok? ==> && oldAF.GetObject(atom).Ok?
                      && 1 <= r.value <= |newAF.atomToObj|
                      && newAF.atomToObj[r.value - 1] == oldAF.GetObject(atom).value
  {
    var o := oldAF.GetObject(atom);
    if o.Err? then Err(o.error)
    else if !newAF.Contains(o.value) then Err(IllegalOperation)
    else
      AtomNamesPosition(newAF.objToAtom, newAF.atomToObj, o.value);
      Ok(newAF.objToAtom[o.value])
  }

  /** Converting between a factory and itself is the identity on its
      atoms. */
  lemma ConvertToSelf<T>(af: AtomFactory<T>, atom: int)
    requires af.Valid() && 1 <= atom <= |af.atomToObj|
    ensures ConvertAtom(af, af, atom) == Ok(atom)
  {
  }

  /** Every entry of `av` whose atom is below `bound` and whose object the
      target holds is in `r`, re-keyed by the target's atom. */
  ghost predicate KeepsConvertible<T, V>(oldAF: AtomFactory<T>, newAF: AtomFactory<T>, av: map<int, V>, bound: int, r: map<int, V>)
    reads oldAF, newAF
    requires forall a :: a in av ==> 1 <= a <= |oldAF.atomToObj|
  {
    forall a :: a in av && a < bound && oldAF.atomToObj[a - 1] in newAF.objToAtom ==>
      newAF.objToAtom[oldAF.atomToObj[a - 1]] in r && r[newAF.objToAtom[oldAF.atomToObj[a - 1]]] == av[a]
  }

  /** Every entry of `r` comes from the entry of `av` (with atom below
      `bound`) naming the same object. */
  ghost predicate OnlyConverted<T, V>(oldAF: AtomFactory<T>, newAF: AtomFactory<T>, av: map<int, V>, bound: int, r: map<int, V>)
    reads oldAF, newAF
  {
    forall b :: b in r ==>
      && 1 <= b <= |newAF.atomToObj|
      && newAF.atomToObj[b - 1] in oldAF.objToAtom
      && oldAF.objToAtom[newAF.atomToObj[b - 1]] in av
      && oldAF.objToAtom[newAF.atomToObj[b - 1]] < bound
      && r[b] == av[oldAF.objToAtom[newAF.atomToObj[b - 1]]]
  }

  /** `convertAtomVector(oldAF, newAF, av)` with the vector as a finite map
      from atom to value: every entry whose object the target holds,
      re-keyed by the target's atom; the others dropped. */
  method ConvertAtomVector<T, V>(oldAF: AtomFactory<T>, newAF: AtomFactory<T>, av: map<int, V>)
    returns (r: map<int, V>)
    requires oldAF.Valid() && newAF.Valid()
    requires forall a :: a in av ==> 1 <= a <= |oldAF.atomToObj|
    ensures forall a :: a in av && oldAF.atomToObj[a - 1] in newAF.objToAtom ==>
      newAF.objToAtom[oldAF.atomToObj[a - 1]] in r && r[newAF.objToAtom[oldAF.atomToObj[a - 1]]] == av[a]
    ensures forall b :: b in r ==>
      && 1 <= b <= |newAF.atomToObj|
      && newAF.atomToObj[b - 1] in oldAF.objToAtom
      && oldAF.objToAtom[newAF.atomToObj[b - 1]] in av
      && r[b] == av[oldAF.objToAtom[newAF.atomToObj[b - 1]]]
  {
    r := map[];
    var a := 1;
    while a <= |oldAF.atomToObj|
      invariant 1 <= a <= |oldAF.atomToObj| + 1
      invariant KeepsConvertible(oldAF, newAF, av, a, r)
      invariant OnlyConverted(oldAF, newAF, av, a, r)
    {
      if a in av {
        var c := ConvertAtom(oldAF, newAF, a);
        if c.Ok? {
          StepConversion(oldAF, newAF, av, r, a, c.value);
          r := r[c.value := av[a]];
        }
      }
      a := a + 1;
    }
  }

  /** Adding the converted entry for atom `a` keeps both halves of the
      loop's invariant. */
  lemma StepConversion<T, V>(oldAF: AtomFactory<T>, newAF: AtomFactory<T>, av: map<int, V>, r: map<int, V>, a: int, c: int)
    requires oldAF.Valid() && newAF.Valid()
    requires forall a :: a in av ==> 1 <= a <= |oldAF.atomToObj|
    requires a in av
    requires oldAF.atomToObj[a - 1] in newAF.objToAtom && c == newAF.objToAtom[oldAF.atomToObj[a - 1]]
    requires KeepsConvertible(oldAF, newAF, av, a, r) && OnlyConverted(oldAF, newAF, av, a, r)
    ensures KeepsConvertible(oldAF, newAF, av, a + 1, r[c := av[a]])
    ensures OnlyConverted(oldAF, newAF, av, a + 1, r[c := av[a]])
  {
    var o := oldAF.atomToObj[a - 1];
    AtomNamesPosition(newAF.objToAtom, newAF.atomToObj, o);
    forall a' | a' in av && a' < a && oldAF.atomToObj[a' - 1] in newAF.objToAtom
      ensures newAF.objToAtom[oldAF.atomToObj[a' - 1]] != c
    {
      var o' := oldAF.atomToObj[a' - 1];
      assert o' != o;
      AtomsDistinct(newAF.objToAtom, newAF.atomToObj, o, o');
    }
  }

  /** The example of the class's documentation: apples get atom 1, oranges
      atom 2, and atom 1 names apples again. */
  method DocumentedExample() returns (apples: int, oranges: int, first: string)
    ensures apples == 1 && oranges == 2 && first == "apples"
  {
    var af := new AtomFactory<string>("tokens");
    var r1 := af.Get("apples");
    var r2 := af.Get("oranges");
    apples, oranges := r1.value, r2.value;
    first := af.GetObject(1).value;
  }

  /** Atom 0 names the last object; an atom past the end is an error. */
  method IndexExample() returns (last: Result<string, Error>, beyond: Result<string, Error>)
    ensures last == Ok("oranges") && beyond == Err(IndexError)
  {
    var af := new AtomFactory<string>("tokens");
    var _ := af.Get("apples");
    var _ := af.Get("oranges");
    last := af.GetObject(0);
    beyond := af.GetObject(3);
  }

  /** Looking an object up twice gives the same answer, grows the factory
      at most once, and the atom names the object again. */
  method LookupTwice<T>(af: AtomFactory<T>, obj: T) returns (r1: Result<int, Error>, r2: Result<int, Error>)
    requires af.Valid()
    modifies af
    ensures af.Valid()
    ensures r2 == r1
    ensures r1.Ok? ==> af.GetObject(r1.value) == Ok(obj)
    ensures r1.Err? ==> r1 == Err(KeyError) && af.atomToObj == old(af.atomToObj)
    ensures |af.atomToObj| <= |old(af.atomToObj)| + 1
  {
    r1 := af.Get(obj);
    r2 := af.Get(obj);
  }

  /** After `lock()`, a held object is still found and a new one is refused. */
  method LockedExample() returns (held: Result<int, Error>, unseen: Result<int, Error>)
    ensures held == Ok(1) && unseen == Err(KeyError)
  {
    var af := new AtomFactory<string>("tokens");
    var _ := af.Get("apples");
    af.Lock();
    held := af.Get("apples");
    unseen := af.Get("pears");
  }

  /** Filtering one more object at the end. */
  lemma FilterSnoc<T>(s: seq<T>, o: T, objects: set<T>)
    ensures Filter(s + [o], objects) == Filter(s, objects) + (if o in objects then [] else [o])
  {
    assert (s + [o])[..|s|] == s;
  }

  /** Removing the middle one of three objects keeps the other two, in
      order. */
  lemma FilterExample<T>(a: T, x: T, b: T)
    requires a != x && b != x
    ensures Filter([a, x, b], {x}) == [a, b]
  {
    FilterSnoc([], a, {x});
    assert [] + [a] == [a];
    FilterSnoc([a], x, {x});
    assert [a] + [x] == [a, x];
    FilterSnoc([a, x], b, {x});
    assert [a, x] + [b] == [a, x, b];
  }

  /** The only bimap over the sequence `a`, `b` gives them atoms 1 and 2. */
  lemma RemoveExampleBimap(m: map<string, int>)
    requires IsBimap(m, ["a", "b"])
    ensures m == map["a" := 1, "b" := 2]
  {
    var s: seq<string> := ["a", "b"];
    assert "a" != "b";
    assert IsBimap(map["a" := 1, "b" := 2], s);
    BimapDeterminedBySequence(m, map["a" := 1, "b" := 2], s);
  }

  /** A factory that has seen `a`, `x` and `b`, in that order. */
  method ThreeTokens() returns (af: AtomFactory<string>, a: int, x: int, b: int)
    ensures fresh(af) && af.Valid()
    ensures af.atomToObj == ["a", "x", "b"]
    ensures a == 1 && x == 2 && b == 3
  {
    assert "a" != "x" && "a" != "b" && "x" != "b";
    af := new AtomFactory<string>("tokens");
    var ra := af.Get("a");
    assert af.objToAtom == map["a" := 1];
    var rx := af.Get("x");
    assert af.objToAtom.Keys == {"a", "x"};
    var rb := af.Get("b");
    a, x, b := ra.value, rx.value, rb.value;
  }

  /** Removing `x` from a factory that saw `a`, `x`, `b` gives a factory in
      which `a` and `b` have atoms 1 and 2; the original keeps its atoms. */
  method RemoveExample() returns (af: AtomFactory<string>, a: int, x: int, b: int, a': int, b': int, size': nat)
    ensures a == 1 && x == 2 && b == 3
    ensures af.atomToObj == ["a", "x", "b"]
    ensures a' == 1 && b' == 2 && size' == 2
  {
    af, a, x, b := ThreeTokens();
    var af' := af.Remove({"x"});
    FilterExample("a", "x", "b");
    RemoveExampleBimap(af'.objToAtom);
    var ra' := af'.Get("a");
    var rb' := af'.Get("b");
    a', b', size' := ra'.value, rb'.value, af'.Len();
  }

}

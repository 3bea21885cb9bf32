/**
 * The container base class of the prototype models, `models/abstract.py`:
 * a list of objects (variables, parameters or update rules) that can be
 * added to, indexed like a list, searched by symbol and edited in place.
 * Variables and parameters are checked for duplicate symbols when added,
 * update rules are not.
 */
module ModelContainers {
  import opened Wrappers

  /** What `__add__` is given: a container of the same type, one object of the contained type, or anything else. */
  datatype Addend<T> = SameContainer(objects: seq<T>) | Element(obj: T) | OtherValue

  /**
   * What `__getitem__` is given: a slice (of step 1, with bounds that may be
   * missing or negative), an int, a name or symbol, or anything else.
   */
  datatype Index = SliceIndex(start: Option<int>, stop: Option<int>) | IntIndex(i: int) | SymbolIndex(name: string) | OtherIndex

  /**
   * What `__getitem__` returns: a new container of the same type holding the
   * objects `objects`, one object, or `None`.
   */
  datatype Item<T> = Sub(objects: seq<T>) | Single(obj: T) | NoItem

  /** What `_objectify` is given: a name or symbol, an object of the contained type, or anything else. */
  datatype Lookup<T> = ByName(name: string) | ByObject(obj: T) | OtherLookup

  /** The `edit_type` of `_edit`: "remove", "replace", "add", or any other string. */
  datatype EditType = RemoveEdit | ReplaceEdit | AddEdit | OtherEdit

  /** The position a Python list index denotes (negative ones count from the end); `None` when out of range. */
  function ListIndex(n: nat, i: int): (r: Option<nat>)
    ensures r.Some? <==> -(n as int) <= i < n
    ensures r.Some? ==> r.value < n && r.value == if i < 0 then i + n else i
  {
    if 0 <= i < n then Some(i) else if -(n as int) <= i < 0 then Some(i + n) else None
  }

  /** A slice bound of a list of length `n`, after Python's adjustment of missing, negative and too large bounds. */
  function SliceBound(n: nat, b: Option<int>, default: nat): (r: nat)
    requires default <= n
    ensures r <= n
    ensures b.None? ==> r == default
    ensures b.Some? && 0 <= b.value <= n ==> r == b.value
    ensures b.Some? && -(n as int) <= b.value < 0 ==> r == b.value + n
  {
    if b.None? then default
    else if b.value < 0 then (if b.value + n < 0 then 0 else b.value + n)
    else if b.value > n then n
    else b.value
  }

  /** `s[start:stop]` */
  function Slice<T>(s: seq<T>, start: Option<int>, stop: Option<int>): (r: seq<T>)
    ensures |r| <= |s|
    ensures forall k :: 0 <= k < |r| ==> SliceBound(|s|, start, 0) + k < |s| && r[k] == s[SliceBound(|s|, start, 0) + k]
  {
    var a := SliceBound(|s|, start, 0);
    var b := SliceBound(|s|, stop, |s|);
    if a < b then s[a..b] else []
  }

  /** `s[:k] + s[k:] == s`, for every `k`, negative or out of range ones included. */
  lemma SliceSplit<T>(s: seq<T>, k: int)
    ensures Slice(s, None, Some(k)) + Slice(s, Some(k), None) == s
  {
    var b := SliceBound(|s|, Some(k), |s|);
    assert SliceBound(|s|, Some(k), 0) == b;
    if b == 0 {
      assert Slice(s, Some(k), None) == s[0..|s|];
    } else if b == |s| {
      assert Slice(s, None, Some(k)) == s[0..|s|];
    } else {
      assert s[0..b] + s[b..|s|] == s;
    }
  }

  /** `_duplicates(list, object)`: a bare `Exception` when the object is already in the list. */
  function Duplicates<U(==)>(list: seq<U>, x: U): (r: Result<()>)
    ensures r.Err? <==> x in list
    ensures r.Err? ==> r.error == GeneralException
  {
    if x in list then Err(GeneralException) else Ok(())
  }

  /** The position of the first object whose symbol is `name`, as the generator in `_objectify` finds it. */
  function FirstWithSymbol<T>(objects: seq<T>, symbolOf: T -> string, name: string): (r: Option<nat>)
    ensures r.Some? <==> exists k :: 0 <= k < |objects| && symbolOf(objects[k]) == name
    ensures r.Some? ==> r.value < |objects| && symbolOf(objects[r.value]) == name
    ensures r.Some? ==> forall k :: 0 <= k < r.value ==> symbolOf(objects[k]) != name
    decreases |objects|
  {
    if objects == [] then None
    else if symbolOf(objects[0]) == name then Some(0)
    else
      match FirstWithSymbol(objects[1..], symbolOf, name)
      case None => None
      case Some(k) => Some(k + 1)
  }

  /**
   * `_edit(edit_type, index, object)` on the list `objects`, as written:
   * "remove" deletes the object at a list index (`TypeError` without one,
   * `IndexError` out of range); "add" appends the object unless that very
   * object is already in the list; "replace" checks the object the same way
   * and then assigns `self[index]`, which a container does not support
   * (`TypeError`); any other edit type changes nothing.
   */
  function EditAsWritten<T(==)>(objects: seq<T>, editType: EditType, index: Option<int>, obj: T): (r: Result<seq<T>>)
    ensures editType.ReplaceEdit? ==> r.Err?
    ensures editType.ReplaceEdit? ==> r.error == if obj in objects then GeneralException else TypeError
    ensures !editType.ReplaceEdit? ==> r == Edit(objects, editType, index, obj)
  {
    match editType
    case ReplaceEdit =>
      var _ :- Duplicates(objects, obj);
      Err(TypeError)
    case _ => Edit(objects, editType, index, obj)
  }

  /**
   * `_edit(edit_type, index, object)` on the list `objects`, with "replace"
   * assigning the object at the list index once the duplicate check passes,
   * as `self[index] = object` is meant to. The other edit types are as
   * written.
   */
  function Edit<T(==)>(objects: seq<T>, editType: EditType, index: Option<int>, obj: T): (r: Result<seq<T>>)
    ensures editType.RemoveEdit? || editType.ReplaceEdit? ==>
      (r.Err? && r.error == TypeError <==> index.None? && !(editType.ReplaceEdit? && obj in objects))
    ensures editType.RemoveEdit? && index.Some? ==>
      (r.Ok? <==> ListIndex(|objects|, index.value).Some?) && (r.Err? ==> r.error == IndexError)
    ensures editType.RemoveEdit? && r.Ok? ==>
      var k := ListIndex(|objects|, index.value).value;
      r.value == objects[..k] + objects[k + 1..] &&
      multiset(r.value) + multiset{objects[k]} == multiset(objects)
    ensures editType.ReplaceEdit? ==>
      (r.Ok? <==> obj !in objects && index.Some? && ListIndex(|objects|, index.value).Some?)
    ensures editType.ReplaceEdit? && obj in objects ==> r == Err(GeneralException)
    ensures editType.ReplaceEdit? && r.Ok? ==>
      var k := ListIndex(|objects|, index.value).value;
      |r.value| == |objects| && r.value[k] == obj &&
      forall l :: 0 <= l < |objects| && l != k ==> r.value[l] == objects[l]
    ensures editType.AddEdit? ==> (r.Ok? <==> obj !in objects) && (r.Err? ==> r.error == GeneralException)
    ensures editType.AddEdit? && r.Ok? ==> |r.value| == |objects| + 1
    ensures editType.AddEdit? && r.Ok? ==> r.value[..|objects|] == objects && r.value[|objects|..] == [obj]
    ensures editType.OtherEdit? ==> r == Ok(objects)
  {
    match editType
    case RemoveEdit =>
      if index.None? then Err(TypeError)
      else
        (match ListIndex(|objects|, index.value)
         case None => Err(IndexError)
         case Some(k) =>
           assert objects == objects[..k] + [objects[k]] + objects[k + 1..];
           Ok(objects[..k] + objects[k + 1..]))
    case ReplaceEdit =>
      var _ :- Duplicates(objects, obj);
      if index.None? then Err(TypeError)
      else
        (match ListIndex(|objects|, index.value)
         case None => Err(IndexError)
         case Some(k) => Ok(objects[k := obj]))
    case AddEdit =>
      var _ :- Duplicates(objects, obj);
      Ok(objects + [obj])
    case OtherEdit => Ok(objects)
  }

  /**
   * A container of variables, parameters or update rules. Its type decides
   * the duplicate check and the symbol of an object, which stay fixed.
   */
  class Container<T(==)> {
    var objects: seq<T>
    /** `check_duplicates`: set for variables and parameters, not for update rules */
    const checkDuplicates: bool
    /** the `symbol` attribute of a contained object */
    const symbolOf: T -> string

    /** `Container.__init__(objects)`: `None` becomes an empty list. */
    constructor(objects: Option<seq<T>>, checkDuplicates: bool, symbolOf: T -> string)
      ensures objects.None? ==> this.objects == []
      ensures objects.Some? ==> this.objects == objects.value
      ensures this.checkDuplicates == checkDuplicates && this.symbolOf == symbolOf
    {
      this.objects := if objects.Some? then objects.value else [];
      this.checkDuplicates := checkDuplicates;
      this.symbolOf := symbolOf;
    }

    /** `get_symbols()`: the symbols of the objects, in order */
    function Symbols(): (r: seq<string>)
      reads this
      ensures |r| == |objects| && forall k :: 0 <= k < |objects| ==> r[k] == symbolOf(objects[k])
    {
      seq(|objects|, k requires 0 <= k < |objects| reads this => symbolOf(objects[k]))
    }

    /** The objects `__add__` adds: those of a container, or the one object. */
    static function ToAdd(other: Addend<T>): seq<T>
    {
      match other
      case SameContainer(objs) => objs
      case Element(x) => [x]
      case OtherValue => []
    }

    /**
     * `self + other`, as a specification: `TypeError` for anything but a
     * container of the same type or one contained object; with the duplicate
     * check, an `Exception` when an added object's symbol is already one of
     * this container's; otherwise the objects of a new container, this
     * container's followed by the added ones.
     */
    function Plus(other: Addend<T>): (r: Result<seq<T>>)
      reads this
      ensures other.OtherValue? ==> r == Err(TypeError)
      ensures !other.OtherValue? ==>
        (r.Err? <==> checkDuplicates && exists x :: x in ToAdd(other) && symbolOf(x) in Symbols())
      ensures !other.OtherValue? && r.Err? ==> r.error == GeneralException
      ensures r.Ok? ==> |r.value| == |objects| + |ToAdd(other)|
      ensures r.Ok? ==> r.value[..|objects|] == objects && r.value[|objects|..] == ToAdd(other)
    {
      if other.OtherValue? then Err(TypeError)
      else if checkDuplicates && exists x :: x in ToAdd(other) && symbolOf(x) in Symbols() then Err(GeneralException)
      else Ok(objects + ToAdd(other))
    }

    /** `self + other`: the added objects are checked one by one against this container's symbols. */
    method Add(other: Addend<T>) returns (r: Result<Container<T>>)
      ensures r.Err? <==> Plus(other).Err?
      ensures r.Err? ==> r.error == Plus(other).error
      ensures r.Ok? ==> fresh(r.value) && r.value.objects == Plus(other).value
      ensures r.Ok? ==> r.value.checkDuplicates == checkDuplicates && r.value.symbolOf == symbolOf
    {
      if other.OtherValue? {
        return Err(TypeError);
      }
      var toAdd := ToAdd(other);
      var symbols := Symbols();
      var i := 0;
      while i < |toAdd|
        invariant 0 <= i <= |toAdd|
        invariant checkDuplicates ==> forall k :: 0 <= k < i ==> symbolOf(toAdd[k]) !in symbols
      {
        if checkDuplicates {
          var check := Duplicates(symbols, symbolOf(toAdd[i]));
          if check.Err? {
            return Err(check.error);
          }
        }
        i := i + 1;
      }
      var c := new Container(Some(objects + toAdd), checkDuplicates, symbolOf);
      return Ok(c);
    }

    /**
     * `_objectify(expr)`: for a name or symbol, the first object with that
     * symbol (`StopIteration` when there is none); an object of the contained
     * type as it is; `TypeError` for anything else.
     */
    function Objectify(expr: Lookup<T>): (r: Result<T>)
      reads this
      ensures expr.ByName? ==> (r.Ok? <==> expr.name in Symbols())
      ensures expr.ByName? && r.Ok? ==>
        exists k :: 0 <= k < |objects| && objects[k] == r.value && symbolOf(r.value) == expr.name &&
                    forall l :: 0 <= l < k ==> symbolOf(objects[l]) != expr.name
      ensures expr.ByName? && r.Err? ==> r.error == StopIteration
      ensures expr.ByObject? ==> r == Ok(expr.obj)
      ensures expr.OtherLookup? ==> r == Err(TypeError)
    {
      match expr
      case ByName(name) =>
        (match FirstWithSymbol(objects, symbolOf, name)
         case None => Err(StopIteration)
         case Some(k) => Ok(objects[k]))
      case ByObject(x) => Ok(x)
      case OtherLookup => Err(TypeError)
    }

    /**
     * `self[index]`: a slice gives a new container of the same type, an int
     * the object at that list index (`IndexError` out of range), a name or
     * symbol the object `_objectify` finds, and anything else `None`.
     */
    function GetItem(index: Index): (r: Result<Item<T>>)
      reads this
      ensures index.SliceIndex? ==> r.Ok? && r.value.Sub? && r.value.objects == Slice(objects, index.start, index.stop)
      ensures index.IntIndex? ==> (r.Ok? <==> -|objects| <= index.i < |objects|) && (r.Err? ==> r.error == IndexError)
      ensures index.IntIndex? && r.Ok? ==>
        r.value == Single(if index.i < 0 then objects[|objects| + index.i] else objects[index.i])
      ensures index.SymbolIndex? ==> (r.Ok? <==> Objectify(ByName(index.name)).Ok?)
      ensures index.SymbolIndex? && r.Ok? ==> r.value == Single(Objectify(ByName(index.name)).value)
      ensures index.OtherIndex? ==> r == Ok(NoItem)
    {
      match index
      case SliceIndex(start, stop) => Ok(Sub(Slice(objects, start, stop)))
      case IntIndex(i) =>
        (match ListIndex(|objects|, i)
         case None => Err(IndexError)
         case Some(k) => Ok(Single(objects[k])))
      case SymbolIndex(name) =>
        var x :- Objectify(ByName(name));
        Ok(Single(x))
      case OtherIndex => Ok(NoItem)
    }

    /**
     * `_edit(edit_type, index, object)` as written, changing this container's
     * list in place: a replacing edit always raises and leaves the list as it was.
     */
    method EditObjectsAsWritten(editType: EditType, index: Option<int>, obj: T) returns (r: Result<()>)
      modifies this
      ensures r.Ok? <==> EditAsWritten(old(objects), editType, index, obj).Ok?
      ensures r.Err? ==> r.error == EditAsWritten(old(objects), editType, index, obj).error && objects == old(objects)
      ensures r.Ok? ==> objects == EditAsWritten(old(objects), editType, index, obj).value
    {
      var edited := EditAsWritten(objects, editType, index, obj);
      if edited.Err? {
        return Err(edited.error);
      }
      objects := edited.value;
      return Ok(());
    }

    /**
     * `_edit(edit_type, index, object)` with "replace" corrected as `Edit`
     * states, changing this container's list in place.
     */
    method EditObjects(editType: EditType, index: Option<int>, obj: T) returns (r: Result<()>)
      modifies this
      ensures r.Ok? <==> Edit(old(objects), editType, index, obj).Ok?
      ensures r.Err? ==> r.error == Edit(old(objects), editType, index, obj).error && objects == old(objects)
      ensures r.Ok? ==> objects == Edit(old(objects), editType, index, obj).value
    {
      var edited := Edit(objects, editType, index, obj);
      if edited.Err? {
        return Err(edited.error);
      }
      objects := edited.value;
      return Ok(());
    }
  }

  /**
   * Adding to an empty container never raises: `__add__` checks the added
   * objects against this container only, not against each other.
   */
  lemma AddedNotCheckedAgainstEachOther<T>(c: Container<T>, objs: seq<T>)
    requires c.objects == []
    ensures c.Plus(SameContainer(objs)) == Ok(objs)
  {
    assert c.Symbols() == [];
  }
}

/**
 * How the client turns its arguments into parameter arrays and its decoded
 * responses into domain objects.
 */
module Marshalling {
  import opened Wrappers
  import opened Wire

  /**
   * A photo filter or sorting parameter, as far as the client sees it: the
   * name of its concrete class (what `get_class` returns) and the attribute
   * array its `toArray()` produces.
   */
  datatype PhotoObject = PhotoObject(className: string, attributes: map<string, Value>)

  type PhotoFilter = PhotoObject
  type PhotoSortingParameter = PhotoObject

  /** The class names that occur in a list of filters or sorting parameters. */
  function ClassNames(objects: seq<PhotoObject>): set<string> {
    set i | 0 <= i < |objects| :: objects[i].className
  }

  /**
   * The array that assigning `array[get_class(o)] = o->toArray()` for each
   * `o` in turn builds, starting from an empty array.
   */
  function ByClassName(objects: seq<PhotoObject>): map<string, Value>
    decreases |objects|
  {
    if objects == [] then map[]
    else
      var last := objects[|objects| - 1];
      ByClassName(objects[..|objects| - 1])[last.className := Map(last.attributes)]
  }

  /** The keys of the flattened array are exactly the class names present. */
  lemma {:induction false} ByClassNameKeys(objects: seq<PhotoObject>)
    ensures ByClassName(objects).Keys == ClassNames(objects)
    decreases |objects|
  {
    if objects != [] {
      var n := |objects| - 1;
      var init := objects[..n];
      ByClassNameKeys(init);
      forall name | name in ClassNames(objects)
        ensures name in ClassNames(init) + {objects[n].className}
      {
        var i :| 0 <= i < |objects| && objects[i].className == name;
        if i < n {
          assert init[i] == objects[i];
        }
      }
      forall name | name in ClassNames(init)
        ensures name in ClassNames(objects)
      {
        var i :| 0 <= i < |init| && init[i].className == name;
        assert objects[i] == init[i];
      }
    }
  }

  /**
   * Each class name is bound to the attributes of the LAST object with that
   * class name: an object that no later object shares a class with wins.
   */
  lemma {:induction false} ByClassNameLastWins(objects: seq<PhotoObject>, i: nat)
    requires i < |objects|
    requires forall j :: i < j < |objects| ==> objects[j].className != objects[i].className
    ensures objects[i].className in ByClassName(objects)
    ensures ByClassName(objects)[objects[i].className] == Map(objects[i].attributes)
    decreases |objects|
  {
    var n := |objects| - 1;
    if i < n {
      var init := objects[..n];
      forall j | i < j < |init| ensures init[j].className != init[i].className {
        assert init[j] == objects[j];
      }
      ByClassNameLastWins(init, i);
      assert init[i] == objects[i];
    }
  }

  /** Duplicate class names collapse, so there are never more entries than objects. */
  lemma {:induction false} ByClassNameSize(objects: seq<PhotoObject>)
    ensures |ByClassName(objects)| <= |objects|
    decreases |objects|
  {
    if objects != [] {
      var n := |objects| - 1;
      ByClassNameSize(objects[..n]);
      var m := ByClassName(objects[..n]);
      var key := objects[n].className;
      if key in m {
        assert m[key := Map(objects[n].attributes)].Keys == m.Keys;
      } else {
        assert m[key := Map(objects[n].attributes)].Keys == m.Keys + {key};
      }
    }
  }

  /**
   * The parameter value sent for an optional list of filters or sorting
   * parameters: `null` when the list is absent or empty (the array is never
   * created), otherwise the array keyed by class name.
   */
  function Flattened(objects: Option<seq<PhotoObject>>): (v: Value)
    ensures v.Null? <==> objects.None? || |objects.value| == 0
    ensures !v.Null? ==> v.Map? && v.entries.Keys == ClassNames(objects.value)
                         && |v.entries| <= |objects.value|
  {
    match objects
    case None => Null
    case Some(s) =>
      if |s| == 0 then Null
      else
        ByClassNameKeys(s);
        ByClassNameSize(s);
        Map(ByClassName(s))
  }

  /** The two `foreach` loops of listPhotos that fill the filter and sorting arrays. */
  method FlattenByClassName(objects: Option<seq<PhotoObject>>) returns (flattened: Value)
    ensures flattened == Flattened(objects)
  {
    flattened := Null;
    if objects.Some? {
      var s := objects.value;
      for i := 0 to |s|
        invariant flattened == if i == 0 then Null else Map(ByClassName(s[..i]))
      {
        var entries := if flattened.Map? then flattened.entries else map[];
        flattened := Map(entries[s[i].className := Map(s[i].attributes)]);
        assert s[..i + 1][..i] == s[..i];
      }
      assert s[..|s|] == s;
    }
  }

  /** The parameter value of an optional collection-id list: `null` passes through as `null`. */
  function CollectionIdList(ids: Option<seq<string>>): (v: Value)
    ensures v.Null? <==> ids.None?
    ensures ids.Some? ==> v.List? && |v.items| == |ids.value|
                          && forall i :: 0 <= i < |ids.value| ==> v.items[i] == Str(ids.value[i])
  {
    match ids
    case None => Null
    case Some(s) => List(seq(|s|, i requires 0 <= i < |s| => Str(s[i])))
  }

  /** `decoded` is the response's elements, each mapped through `fromArray`, in order. */
  ghost predicate ElementwiseDecoded<T>(decoded: seq<T>, response: Json, fromArray: Json -> T) {
    |decoded| == |Elements(response)|
    && forall i :: 0 <= i < |decoded| ==> decoded[i] == fromArray(Elements(response)[i])
  }

  /** The `foreach` loop that appends `X::fromArray($item)` for every item of a response. */
  method DecodeList<T>(response: Json, fromArray: Json -> T) returns (decoded: seq<T>)
    ensures ElementwiseDecoded(decoded, response, fromArray)
  {
    var elements := Elements(response);
    decoded := [];
    for i := 0 to |elements|
      invariant |decoded| == i
      invariant forall k :: 0 <= k < i ==> decoded[k] == fromArray(elements[k])
    {
      decoded := decoded + [fromArray(elements[i])];
    }
  }
}

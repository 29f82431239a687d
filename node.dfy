/**
 * The step registry of `node.py`: a list shared by every step class, to which
 * `Node.register()` appends, and from which the discriminated union of all
 * step types is built.
 */
module Node {
  import opened Wrappers

  /** A class object handed to `register`: its name, its default `type` tag and whether it derives from `Node`. */
  datatype ClassRef = ClassRef(name: string, tag: string, isNode: bool)

  /** The base class itself: tag `"node"`. */
  const NodeClass: ClassRef := ClassRef("Node", "node", true)

  /** `Annotated[Union[...], Field(discriminator="type")]`: the member classes and the discriminating field. */
  datatype UnionSchema = UnionSchema(members: seq<ClassRef>, discriminator: string)

  predicate Distinct<T(==)>(s: seq<T>) {
    forall i, j :: 0 <= i < j < |s| ==> s[i] != s[j]
  }

  /**
   * `typing.Union` drops repeated arguments and keeps the first occurrence of
   * each, so a class registered twice appears once in the union.
   */
  function Dedup(s: seq<ClassRef>): (r: seq<ClassRef>)
    ensures forall c :: c in r <==> c in s
    ensures Distinct(r)
    ensures Distinct(s) ==> r == s
  {
    if |s| == 0 then []
    else
      var prefix := Dedup(s[..|s| - 1]);
      var last := s[|s| - 1];
      assert s == s[..|s| - 1] + [last];
      if last in prefix then prefix else prefix + [last]
  }

  /** Position of the first occurrence of `c` in `s`. */
  function FirstIndex(s: seq<ClassRef>, c: ClassRef): (k: nat)
    requires c in s
    ensures k < |s| && s[k] == c
    ensures forall m :: 0 <= m < k ==> s[m] != c
  {
    if s[0] == c then 0 else 1 + FirstIndex(s[1..], c)
  }

  /** The union lists the classes in the order of their first registration. */
  lemma {:induction false} DedupKeepsRegistrationOrder(s: seq<ClassRef>, i: nat, j: nat)
    requires i < j < |Dedup(s)|
    ensures FirstIndex(s, Dedup(s)[i]) < FirstIndex(s, Dedup(s)[j])
  {
    var init := s[..|s| - 1];
    var last := s[|s| - 1];
    var prefix := Dedup(init);
    assert s == init + [last];
    var a, b := Dedup(s)[i], Dedup(s)[j];
    FirstIndexOfPrefix(init, last, a);
    FirstIndexOfPrefix(init, last, b);
    if j < |prefix| {
      DedupKeepsRegistrationOrder(init, i, j);
    } else {
      assert b == last && last !in prefix && a in init;
      assert FirstIndex(s, a) < |init|;
    }
  }

  lemma FirstIndexOfPrefix(init: seq<ClassRef>, last: ClassRef, c: ClassRef)
    requires c in init + [last]
    ensures c in init ==> FirstIndex(init + [last], c) == FirstIndex(init, c)
    ensures c !in init ==> FirstIndex(init + [last], c) == |init|
  {
    var s := init + [last];
    assert forall m :: 0 <= m < |init| ==> s[m] == init[m];
    if c in init {
      var m := FirstIndex(init, c);
      assert s[m] == c;
    }
  }

  /** The class-level `registry` list shared by `Node` and everything registered through it. */
  class Registry {
    var registry: seq<ClassRef>

    constructor ()
      ensures registry == []
    {
      registry := [];
    }

    /** `Node.register()(subcls)`: any class is accepted, appended without de-duplication, and returned as is. */
    method Register(cls: ClassRef) returns (r: ClassRef)
      modifies this
      ensures registry == old(registry) + [cls]
      ensures r == cls
    {
      registry := registry + [cls];
      r := cls;
    }

    /**
     * `Node.build_discriminated_union()`: fails on an empty registry; otherwise
     * the union of the registered classes discriminated on `type`. It only
     * reads the registry, so two builds with no registration between them agree.
     */
    function BuildDiscriminatedUnion(): (r: Result<UnionSchema>)
      reads this
      ensures r.Failure? <==> registry == []
      ensures r.Failure? ==> r.error == RuntimeError("No Node types registered.")
      ensures r.Success? ==> r.value.discriminator == "type"
      ensures r.Success? ==> (forall c :: c in r.value.members <==> c in registry) && Distinct(r.value.members)
      ensures r.Success? && Distinct(registry) ==> r.value.members == registry
    {
      if registry == [] then Failure(RuntimeError("No Node types registered."))
      else Success(UnionSchema(Dedup(registry), "type"))
    }
  }
}

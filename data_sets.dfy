/** Mapping a document type to the analytics data set it is stored in:
    the [DataSet("name")] attribute and the default provider that reads it,
    falling back to the type's own name, with a per-type cache. */
module DataSets {
  import opened Common

  /** A constructed [DataSet] attribute. Its name is fixed at construction. */
  datatype DataSetAttribute = DataSetAttribute(name: string)

  /** Only attributes built by NewDataSetAttribute exist in the program. */
  predicate ValidAttribute(a: DataSetAttribute)
  {
    a.name != ""
  }

  /** The attribute constructor: a null or empty name is rejected with
      ArgumentException; any other name, whitespace included, is kept as given. */
  function NewDataSetAttribute(name: Option<string>): (r: Result<DataSetAttribute>)
    ensures r.Failure? <==> IsNullOrEmpty(name)
    ensures r.Failure? ==> r.error == Argument("name", "Value cannot be null or empty.")
    ensures r.Success? ==> name.Some? && r.value.name == name.value && ValidAttribute(r.value)
  {
    if name.None? || name.value == "" then Failure(Argument("name", "Value cannot be null or empty."))
    else Success(DataSetAttribute(name.value))
  }

  /** A name made only of spaces passes the check, since only null and empty are refused. */
  lemma WhiteSpaceNameAccepted(name: string)
    requires name != []
    requires forall i :: 0 <= i < |name| ==> name[i] == ' '
    ensures NewDataSetAttribute(Some(name)).Success?
    ensures IsNullOrWhiteSpace(Some(name))
  {
  }

  /** A CLR type: its simple name, the [DataSet] attribute declared on it, if
      any, and its base type. */
  datatype ClrType = ClrType(name: string, attribute: Option<DataSetAttribute>, baseType: Option<ClrType>)

  /** Every attribute on the type and its ancestors was constructed successfully. */
  predicate ValidType(t: ClrType)
  {
    (t.attribute.Some? ==> ValidAttribute(t.attribute.value))
    && (t.baseType.Some? ==> ValidType(t.baseType.value))
  }

  /** GetCustomAttribute<DataSetAttribute>(inherit: true): the attribute on the
      type itself, else the nearest one up the inheritance chain. */
  function FindAttribute(t: ClrType): (r: Option<DataSetAttribute>)
    ensures t.attribute.Some? ==> r == t.attribute
    ensures r.None? ==> t.attribute.None? && (t.baseType.Some? ==> FindAttribute(t.baseType.value).None?)
    ensures ValidType(t) && r.Some? ==> ValidAttribute(r.value)
  {
    if t.attribute.Some? then t.attribute
    else if t.baseType.Some? then FindAttribute(t.baseType.value)
    else None
  }

  /** An attribute anywhere up the chain is found when no nearer type declares one. */
  ghost predicate DeclaredOnAncestor(t: ClrType, a: DataSetAttribute)
  {
    t.attribute == Some(a)
    || (t.attribute.None? && t.baseType.Some? && DeclaredOnAncestor(t.baseType.value, a))
  }

  lemma {:induction false} FindAttributeNearest(t: ClrType, a: DataSetAttribute)
    requires DeclaredOnAncestor(t, a)
    ensures FindAttribute(t) == Some(a)
  {
    if t.attribute != Some(a) {
      FindAttributeNearest(t.baseType.value, a);
    }
  }

  /** The name the provider computes on a cache miss: `attribute?.Name ?? type.Name`. */
  function DataSetNameOf(t: ClrType): (r: string)
    ensures FindAttribute(t).Some? ==> r == FindAttribute(t).value.name
    ensures FindAttribute(t).None? ==> r == t.name
    ensures ValidType(t) && FindAttribute(t).Some? ==> r != ""
  {
    var a := FindAttribute(t);
    if a.Some? then a.value.name else t.name
  }

  /** The default data set name provider and its memo cache. */
  class DefaultDataSetNameProvider {
    var cache: map<ClrType, string>

    /** Every cached name is the one the type's attributes or name give. */
    ghost predicate Valid()
      reads this
    {
      forall t :: t in cache ==> cache[t] == DataSetNameOf(t)
    }

    constructor ()
      ensures Valid() && cache == map[]
    {
      cache := map[];
    }

    /** GetDataSetName: a null type is rejected; otherwise the cached name, or
        the computed one, which is added to the cache for that type only. */
    method GetDataSetName(t: Option<ClrType>) returns (r: Result<string>)
      requires Valid()
      modifies this
      ensures Valid()
      ensures t.None? ==> r == Failure(ArgumentNull("type")) && cache == old(cache)
      ensures t.Some? ==> r == Success(DataSetNameOf(t.value))
      ensures t.Some? && t.value in old(cache) ==> r == Success(old(cache)[t.value]) && cache == old(cache)
      ensures t.Some? && t.value !in old(cache) ==> cache == old(cache)[t.value := r.value]
    {
      if t.None? {
        return Failure(ArgumentNull("type"));
      }
      var key := t.value;
      if key in cache {
        r := Success(cache[key]);
      } else {
        var name := DataSetNameOf(key);
        cache := cache[key := name];
        r := Success(name);
      }
    }
  }

  /** Asking twice for the same type gives the same name, and the second call
      leaves the cache as the first one left it. */
  method RepeatedLookup(p: DefaultDataSetNameProvider, t: ClrType) returns (first: string, second: string)
    requires p.Valid()
    modifies p
    ensures p.Valid()
    ensures first == second == DataSetNameOf(t)
    ensures p.cache == old(p.cache)[t := first]
  {
    var r1 := p.GetDataSetName(Some(t));
    var r2 := p.GetDataSetName(Some(t));
    first, second := r1.value, r2.value;
  }
}

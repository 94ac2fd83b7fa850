/** The closed set of runtime type tags. In the interpreter a tag is a string
    constant; here each constant is a constructor, and `Name` gives the string
    the interpreter uses for it. Most object categories come in a pair: the tag
    of an instance (`INTEGER`) and the tag of the category's class object
    (`INTEGER_CLASS`). */
module TypeTags {
  import opened Wrappers

  datatype TypeTag =
    | Eigenclass
    | FunctionTag
    | ReturnValueTag
    | BasicObject
    | BasicObjectClass
    | Object
    | ObjectClass
    | Class
    | ClassClass
    | Array
    | ArrayClass
    | Integer
    | IntegerClass
    | Str
    | StrClass
    | Symbol
    | Boolean
    | BooleanClass
    | Nil
    | NilClass
    | ErrorTag
    | Exception
    | ExceptionClass
    | Module
    | ModuleClass
    | BuiltinTag
  {
    /** The position of the constant in the declaration order. */
    function Ordinal(): (i: nat)
      ensures i < |AllTags| && AllTags[i] == this
    {
      match this
      case Eigenclass => 0
      case FunctionTag => 1
      case ReturnValueTag => 2
      case BasicObject => 3
      case BasicObjectClass => 4
      case Object => 5
      case ObjectClass => 6
      case Class => 7
      case ClassClass => 8
      case Array => 9
      case ArrayClass => 10
      case Integer => 11
      case IntegerClass => 12
      case Str => 13
      case StrClass => 14
      case Symbol => 15
      case Boolean => 16
      case BooleanClass => 17
      case Nil => 18
      case NilClass => 19
      case ErrorTag => 20
      case Exception => 21
      case ExceptionClass => 22
      case Module => 23
      case ModuleClass => 24
      case BuiltinTag => 25
    }

    /** The string value of the tag constant. */
    function Name(): string {
      match this
      case Eigenclass => "EIGENCLASS"
      case FunctionTag => "FUNCTION"
      case ReturnValueTag => "RETURN_VALUE"
      case BasicObject => "BASIC_OBJECT"
      case BasicObjectClass => "BASIC_OBJECT_CLASS"
      case Object => "OBJECT"
      case ObjectClass => "OBJECT_CLASS"
      case Class => "CLASS"
      case ClassClass => "CLASS_CLASS"
      case Array => "ARRAY"
      case ArrayClass => "ARRAY_CLASS"
      case Integer => "INTEGER"
      case IntegerClass => "INTEGER_CLASS"
      case Str => "STRING"
      case StrClass => "STRING_CLASS"
      case Symbol => "SYMBOL"
      case Boolean => "BOOLEAN"
      case BooleanClass => "BOOLEAN_CLASS"
      case Nil => "NIL"
      case NilClass => "NIL_CLASS"
      case ErrorTag => "ERROR"
      case Exception => "EXCEPTION"
      case ExceptionClass => "EXCEPTION_CLASS"
      case Module => "MODULE"
      case ModuleClass => "MODULE_CLASS"
      case BuiltinTag => "BUILTIN"
    }
  }

  /** Every tag, in the order the constants are declared. */
  const AllTags: seq<TypeTag> := [
    Eigenclass, FunctionTag, ReturnValueTag, BasicObject, BasicObjectClass,
    Object, ObjectClass, Class, ClassClass, Array, ArrayClass, Integer,
    IntegerClass, Str, StrClass, Symbol, Boolean, BooleanClass, Nil, NilClass,
    ErrorTag, Exception, ExceptionClass, Module, ModuleClass, BuiltinTag
  ]

  /** A tag of `tags` whose string value is `s`, if there is one. */
  function Lookup(s: string, tags: seq<TypeTag>): (r: Option<TypeTag>)
    ensures r.Some? ==> r.value in tags && r.value.Name() == s
    ensures r.None? ==> forall i :: 0 <= i < |tags| ==> tags[i].Name() != s
  {
    if |tags| == 0 then None
    else if tags[0].Name() == s then Some(tags[0])
    else Lookup(s, tags[1..])
  }

  /** The tag whose string value is `s`, if there is one. */
  function FromName(s: string): Option<TypeTag> {
    Lookup(s, AllTags)
  }

  /** No two tag constants share a string value. */
  lemma NamesDistinct(a: TypeTag, b: TypeTag)
    ensures a.Name() == b.Name() <==> a == b
  {
  }

  /** The enumeration lists every tag: 26 constants, pairwise distinct. */
  lemma AllTagsComplete()
    ensures |AllTags| == 26
    ensures forall t: TypeTag :: t in AllTags
    ensures forall i, j :: 0 <= i < j < |AllTags| ==> AllTags[i] != AllTags[j]
  {
    forall t: TypeTag
      ensures t in AllTags
    {
      assert AllTags[t.Ordinal()] == t;
    }
  }

  /** Reading back a tag's string value yields the tag, and strings that are
      no tag's value read back as nothing. */
  lemma FromNameName(t: TypeTag, s: string)
    ensures FromName(t.Name()) == Some(t)
    ensures FromName(s).None? <==> forall u: TypeTag :: u.Name() != s
  {
    AllTagsComplete();
    assert AllTags[t.Ordinal()].Name() == t.Name();
    var r := FromName(t.Name());
    NamesDistinct(r.value, t);
    if FromName(s).None? {
      forall u: TypeTag
        ensures u.Name() != s
      {
        assert AllTags[u.Ordinal()] == u;
      }
    }
  }

  /** The class-object counterpart of a category tag: `X` maps to `X_CLASS`
      for the ten paired categories, and nothing for the rest. */
  function ClassTag(t: TypeTag): (r: Option<TypeTag>)
  {
    match t
    case BasicObject => Some(BasicObjectClass)
    case Object => Some(ObjectClass)
    case Class => Some(ClassClass)
    case Array => Some(ArrayClass)
    case Integer => Some(IntegerClass)
    case Str => Some(StrClass)
    case Boolean => Some(BooleanClass)
    case Nil => Some(NilClass)
    case Exception => Some(ExceptionClass)
    case Module => Some(ModuleClass)
    case _ => None
  }

  /** Each paired category's class tag reads as its string followed by "_CLASS". */
  lemma ClassTagName(t: TypeTag)
    ensures ClassTag(t).Some? ==> ClassTag(t).value.Name() == t.Name() + "_CLASS"
  {
  }

  /** `u` is the class tag of `t` exactly when `u`'s string is `t`'s string
      followed by "_CLASS"; so the six unpaired categories have no "_CLASS"
      counterpart among the constants. */
  lemma ClassTagIsSuffixed(t: TypeTag, u: TypeTag)
    ensures ClassTag(t) == Some(u) <==> u.Name() == t.Name() + "_CLASS"
  {
    ClassTagName(t);
    var suffixed := t.Name() + "_CLASS";
    if u.Name() == suffixed {
      assert suffixed[|suffixed| - 6..] == "_CLASS";
      ClassObjectTagsEndInClass(u);
      var b := ClassBase(u).value;
      ClassBaseInverse(b, u);
      ClassTagName(b);
      assert t.Name() == suffixed[..|suffixed| - 6] == b.Name();
      NamesDistinct(t, b);
    }
  }

  /** Distinct categories have distinct class tags. */
  lemma ClassTagInjective(a: TypeTag, b: TypeTag)
    requires ClassTag(a).Some? && ClassTag(a) == ClassTag(b)
    ensures a == b
  {
  }

  /** The category whose class-object tag is `u`, if `u` is one. */
  function ClassBase(u: TypeTag): Option<TypeTag> {
    match u
    case BasicObjectClass => Some(BasicObject)
    case ObjectClass => Some(Object)
    case ClassClass => Some(Class)
    case ArrayClass => Some(Array)
    case IntegerClass => Some(Integer)
    case StrClass => Some(Str)
    case BooleanClass => Some(Boolean)
    case NilClass => Some(Nil)
    case ExceptionClass => Some(Exception)
    case ModuleClass => Some(Module)
    case _ => None
  }

  /** ClassBase undoes ClassTag. */
  lemma ClassBaseInverse(t: TypeTag, u: TypeTag)
    ensures ClassTag(t) == Some(u) <==> ClassBase(u) == Some(t)
  {
  }

  /** The class-object tags are exactly those whose string ends in "_CLASS";
      "EIGENCLASS" is not one of them. */
  lemma ClassObjectTagsEndInClass(u: TypeTag)
    ensures ClassBase(u).Some? <==> EndsWith(u.Name(), "_CLASS")
  {
  }

  predicate EndsWith(s: string, suffix: string) {
    |suffix| <= |s| && s[|s| - |suffix|..] == suffix
  }
}

/** Runtime values of the interpreter and their three observers: the type tag,
    the display form, and the class. Builtins, functions and errors have no
    class; a return-value sentinel reports its own tag but forwards the display
    form and the class to the value it wraps. */
module Values {
  import opened Wrappers
  import opened TypeTags
  import FunctionText

  /** The identity of a host callable wrapped by a builtin. How it is invoked
      is not part of this model. */
  datatype HostFn = HostFn(id: nat)

  /** A reference to a class object, by identity only. */
  datatype ClassRef = ClassRef(id: nat)

  datatype Value =
    | Builtin(fn: HostFn)
      /** A sentinel carrying the value of an early `return`. */
    | ReturnValue(payload: Value)
      /** A sentinel carrying the message of a recoverable failure. */
    | Error(message: string)
      /** A closure: its parameter names and its body's source text, both as
          the syntax tree renders them. */
    | Function(params: seq<string>, body: string)
      /** A value of a kind defined elsewhere in the interpreter, with whatever
          tag, display form and class that kind reports. */
    | Other(tag: TypeTag, display: string, cls: Option<ClassRef>)
  {
    /** The value under all enclosing return-value wrappers. */
    function Innermost(): (r: Value)
      ensures !r.ReturnValue?
    {
      if ReturnValue? then payload.Innermost() else this
    }

    /** The number of enclosing return-value wrappers. */
    function Depth(): nat {
      if ReturnValue? then 1 + payload.Depth() else 0
    }

    /** The type tag: each kind reports its own tag, a return value included. */
    function Type(): TypeTag {
      match this
      case Builtin(_) => BuiltinTag
      case ReturnValue(_) => ReturnValueTag
      case Error(_) => ErrorTag
      case Function(_, _) => FunctionTag
      case Other(t, _, _) => t
    }

    /** The display form. */
    function Inspect(): (s: string)
      ensures Innermost().Error? ==> s == "ERROR: " + Innermost().message
      ensures Innermost().Builtin? ==> s == "builtin function"
      ensures Innermost().Function? ==> s == FunctionText.Render(Innermost().params, Innermost().body)
      ensures Innermost().Other? ==> s == Innermost().display
    {
      match this
      case Builtin(_) => "builtin function"
      case ReturnValue(v) => v.Inspect()
      case Error(m) => "ERROR: " + m
      case Function(ps, b) => FunctionText.Render(ps, b)
      case Other(_, d, _) => d
    }

    /** The class: only a value of a kind defined elsewhere has one, and a
        wrapped value has the class of what it wraps. */
    function Class(): (c: Option<ClassRef>)
      ensures c.Some? ==> Innermost().Other?
      ensures Innermost().Other? ==> c == Innermost().cls
    {
      match this
      case Builtin(_) => None
      case ReturnValue(v) => v.Class()
      case Error(_) => None
      case Function(_, _) => None
      case Other(_, _, k) => k
    }
  }

  /** `v` under `n` return-value wrappers. */
  function Wrap(v: Value, n: nat): (r: Value)
    ensures r.Depth() == v.Depth() + n
  {
    if n == 0 then v else ReturnValue(Wrap(v, n - 1))
  }

  /** Every value is its innermost value under as many wrappers as its depth. */
  lemma {:induction false} WrapInnermost(v: Value)
    ensures v == Wrap(v.Innermost(), v.Depth())
  {
    if v.ReturnValue? {
      WrapInnermost(v.payload);
    }
  }

  /** Any stack of return-value wrappers is transparent for the display form
      and the class, and reports the return-value tag. */
  lemma {:induction false} WrappersTransparent(v: Value, n: nat)
    ensures Wrap(v, n).Inspect() == v.Inspect()
    ensures Wrap(v, n).Class() == v.Class()
    ensures n > 0 ==> Wrap(v, n).Type() == ReturnValueTag
  {
    if n > 0 {
      WrappersTransparent(v, n - 1);
    }
  }

  /** A value shows and classifies as its innermost value does. */
  lemma ObserversOfInnermost(v: Value)
    ensures v.Inspect() == v.Innermost().Inspect()
    ensures v.Class() == v.Innermost().Class()
  {
    WrapInnermost(v);
    WrappersTransparent(v.Innermost(), v.Depth());
  }

  /** A return value forwards the display form and the class to its payload
      but not the tag, which is forwarded only when the payload's own tag is
      already the return-value tag. */
  lemma ReturnValueObservers(v: Value)
    ensures ReturnValue(v).Type() == ReturnValueTag
    ensures ReturnValue(v).Type() == v.Type() <==> v.Type() == ReturnValueTag
    ensures ReturnValue(v).Inspect() == v.Inspect()
    ensures ReturnValue(v).Class() == v.Class()
    ensures ReturnValue(v).Class().None? <==> v.Class().None?
  {
  }

  /** An error shows as its message behind the "ERROR: " marker and has no class. */
  lemma ErrorObservers(m: string)
    ensures Error(m).Type() == ErrorTag
    ensures Error(m).Inspect() == "ERROR: " + m
    ensures Error(m).Inspect()[..7] == "ERROR: " && |Error(m).Inspect()| == |m| + 7
    ensures Error(m).Inspect()[7..] == m
    ensures Error(m).Class() == None
  {
  }

  /** A builtin looks the same whatever host callable it wraps. */
  lemma BuiltinObservers(f: HostFn, g: HostFn)
    ensures Builtin(f).Type() == BuiltinTag
    ensures Builtin(f).Inspect() == "builtin function"
    ensures Builtin(f).Class() == None
    ensures Builtin(f).Inspect() == Builtin(g).Inspect()
  {
  }

  /** A function's tag and display form, and its missing class. */
  lemma FunctionObservers(params: seq<string>, body: string)
    ensures Function(params, body).Type() == FunctionTag
    ensures Function(params, body).Inspect() == FunctionText.Render(params, body)
    ensures Function(params, body).Class() == None
  {
  }

  /** Builtins, functions and errors are classless, and so is any stack of
      wrappers around one; a value has a class only if a kind defined
      elsewhere sits innermost and reports one. */
  lemma ClasslessKinds(v: Value)
    ensures v.Innermost().Builtin? || v.Innermost().Function? || v.Innermost().Error? ==> v.Class().None?
    ensures v.Class().Some? <==> v.Innermost().Other? && v.Innermost().cls.Some?
  {
  }

  /** Each kind defined here reports its own tag string, whatever it holds, and
      no other of these kinds reports that string. */
  lemma TypeNames(v: Value)
    requires !v.Other?
    ensures v.Builtin? <==> v.Type().Name() == "BUILTIN"
    ensures v.ReturnValue? <==> v.Type().Name() == "RETURN_VALUE"
    ensures v.Error? <==> v.Type().Name() == "ERROR"
    ensures v.Function? <==> v.Type().Name() == "FUNCTION"
  {
  }

  /** The four kinds defined here report tags with no class-object counterpart
      and that are not class-object tags themselves. */
  lemma KindTagsUnpaired(v: Value)
    requires !v.Other?
    ensures ClassTag(v.Type()).None? && ClassBase(v.Type()).None?
  {
  }
}
